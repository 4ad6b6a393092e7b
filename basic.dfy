/** The batch-job lifecycle of a database group: the module-level probes of
    a configuration folder, the discovery and allocation of configuration
    ids, and the `Group` class whose folders, job scripts and failure list
    change as configurations are created, submitted, recovered and
    converted. */
module Basic {
  import opened Values
  import opened Text
  import opened Probes
  import Vasp

  /** The VASP output a configuration folder is probed for. */
  const Outcar := "OUTCAR"

  /** The inputs the module-level `can_execute` requires. */
  const Inputs: seq<string> := ["INCAR", "POSCAR", "KPOINTS", "POTCAR"]

  // ---- The module-level probes.

  /** `can_execute(folder)` as a predicate: the folder is a directory with
      the four inputs as regular files larger than the threshold. */
  predicate ReadyToRun(folders: Folders, folder: Path): (r: bool)
    ensures r ==> folder in folders
    ensures folder in folders ==>
              (r <==> LargeFile(folders[folder], "INCAR") && LargeFile(folders[folder], "POSCAR") &&
                      LargeFile(folders[folder], "KPOINTS") && LargeFile(folders[folder], "POTCAR"))
  {
    assert Inputs[0] == "INCAR" && Inputs[1] == "POSCAR" && Inputs[2] == "KPOINTS" && Inputs[3] == "POTCAR";
    InputsPresent(folders, folder, Inputs)
  }

  /** The module-level `can_cleanup`: OUTCAR exists and the two-pass probe of
      its last marker line finds TOTEN, or failing that Error. */
  function CanCleanup(folders: Folders, folder: Path): (r: bool)
    ensures r ==> folder in folders && IsFile(folders, folder, Outcar)
  {
    folder in folders && IsFile(folders, folder, Outcar) && TwoPassFinished(FileText(folders, folder, Outcar))
  }

  /** The database-level probe and the calculator's probe agree on every
      folder. */
  lemma CanCleanupAgrees(folders: Folders, folder: Path)
    ensures CanCleanup(folders, folder) == Vasp.CanCleanup(folders, folder)
  {
    if folder in folders && IsFile(folders, folder, Outcar) {
      TwoPassAgrees(FileText(folders, folder, Outcar));
    }
  }

  // ---- Configuration ids and folder names.

  predicate StartsWith(s: string, p: string)
  {
    |p| <= |s| && s[..|p|] == p
  }

  /** The folder name of configuration `cid`: `prefix.cid`. */
  function ConfigName(prefix: string, cid: int): string
  {
    prefix + "." + IntToString(cid)
  }

  /** The id the constructor reads from an entry of the root directory: the
      entry matches the glob `prefix.*` and the second field of its name,
      split at dots, parses as an integer. */
  function FolderId(prefix: string, name: string): (r: Option<int>)
    ensures r.Some? ==> StartsWith(name, prefix + ".")
  {
    if !StartsWith(name, prefix + ".") then None
    else
      match SecondField(name, '.')
      case None => None
      case Some(field) => ParseInt(field)
  }

  /** The configurations the constructor finds among the root entries
      `listing`, in the order the glob yields them; a later entry with the
      same id replaces an earlier one. */
  function Discovered(root: Path, prefix: string, listing: seq<string>): (r: map<int, Path>)
    ensures forall cid | cid in r :: exists k | 0 <= k < |listing| ::
              FolderId(prefix, listing[k]) == Some(cid) && r[cid] == Join(root, listing[k])
    ensures forall k | 0 <= k < |listing| && FolderId(prefix, listing[k]).Some? ::
              FolderId(prefix, listing[k]).value in r
  {
    if listing == [] then map[]
    else
      var init := listing[..|listing| - 1];
      var name := listing[|listing| - 1];
      var m := Discovered(root, prefix, init);
      assert forall k | 0 <= k < |init| :: init[k] == listing[k];
      match FolderId(prefix, name)
      case None => m
      case Some(cid) => m[cid := Join(root, name)]
  }

  /** The entry discovered last for an id decides its folder. */
  lemma {:induction false} DiscoveredLastWins(root: Path, prefix: string, listing: seq<string>, k: int)
    requires 0 <= k < |listing| && FolderId(prefix, listing[k]).Some?
    requires forall j | k < j < |listing| :: FolderId(prefix, listing[j]) != FolderId(prefix, listing[k])
    ensures Discovered(root, prefix, listing)[FolderId(prefix, listing[k]).value] == Join(root, listing[k])
    decreases |listing|
  {
    var init := listing[..|listing| - 1];
    if k < |listing| - 1 {
      assert listing[k] == init[k];
      DiscoveredLastWins(root, prefix, init, k);
    }
  }

  /** A folder named for an id is discovered with that id again, provided
      the prefix itself holds no dot. */
  lemma IdRoundTrip(prefix: string, cid: int)
    requires '.' !in prefix
    ensures FolderId(prefix, ConfigName(prefix, cid)) == Some(cid)
  {
    var digits := IntToString(cid);
    var name := ConfigName(prefix, cid);
    assert StartsWith(name, prefix + ".") by {
      assert name[..|prefix + "."|] == prefix + ".";
    }
    IntToStringHasNo(cid, '.');
    UpToPrefix(prefix, digits, '.');
    assert name[|prefix| + 1..] == digits;
    UpToAll(digits, '.');
    IntToStringRoundTrip(cid);
  }

  lemma {:induction false} UpToPrefix(p: string, q: string, sep: char)
    requires sep !in p
    ensures UpTo(p + [sep] + q, sep) == p
    decreases |p|
  {
    if p == [] {
      assert (p + [sep] + q)[0] == sep;
    } else {
      assert (p + [sep] + q)[1..] == p[1..] + [sep] + q;
      UpToPrefix(p[1..], q, sep);
    }
  }

  lemma {:induction false} UpToAll(s: string, sep: char)
    requires sep !in s
    ensures UpTo(s, sep) == s
    decreases |s|
  {
    if s != [] {
      UpToAll(s[1..], sep);
    }
  }

  // ---- The default id of `create`.

  /** `len(self.configs) + 1`, the id `create` uses when given none. */
  function DefaultIdAsWritten(configs: map<int, Path>): (r: int)
    ensures r >= 1
    ensures (forall c | c in configs :: 1 <= c <= |configs|) ==> r !in configs
  {
    |configs| + 1
  }

  /** With configuration 1 gone and configuration 2 still there, the
      default id is 2: `create` would reuse the folder of an existing
      configuration instead of allocating a new one. */
  lemma DefaultIdCollides()
    ensures var configs := map[2 := "db/S.2"];
            DefaultIdAsWritten(configs) in configs
  {
    var configs := map[2 := "db/S.2"];
    assert |configs| == 1;
  }

  /** The first id from `c` on that is not in `keys`. */
  function FreeFrom(keys: set<int>, c: int): (r: int)
    ensures r >= c && r !in keys
    ensures forall k | c <= k < r :: k in keys
    decreases |keys|
  {
    if c !in keys then c
    else
      var next := FreeFrom(keys - {c}, c + 1);
      assert forall k | c <= k < next :: k in keys by {
        forall k | c <= k < next ensures k in keys {
          if k > c {
            assert k in keys - {c};
          }
        }
      }
      next
  }

  /** The next available id: `len(self.configs) + 1` unless that is taken,
      else the first free id after it. */
  function NextId(configs: map<int, Path>): (r: int)
    ensures r !in configs && r >= |configs| + 1
    ensures DefaultIdAsWritten(configs) !in configs ==> r == DefaultIdAsWritten(configs)
  {
    FreeFrom(configs.Keys, |configs| + 1)
  }

  /** Where the ids are exactly 1..n, the next available id is the one
      the code as written picks. */
  lemma NextIdDense(configs: map<int, Path>, n: nat)
    requires forall k :: k in configs <==> 1 <= k <= n
    ensures NextId(configs) == |configs| + 1 == n + 1
  {
    DenseCard(configs.Keys, n);
  }

  lemma {:induction false} DenseCard(keys: set<int>, n: nat)
    requires forall k :: k in keys <==> 1 <= k <= n
    ensures |keys| == n
  {
    if n > 0 {
      DenseCard(keys - {n}, n - 1);
    } else {
      assert forall k | k in keys :: 1 <= k <= 0;
    }
  }

  // ---- `_get_adjacent`.

  /** The position of the first step named `name`, or -1. */
  function FirstIndex<T>(steps: seq<(string, T)>, name: string): (r: int)
    ensures -1 <= r < |steps|
    ensures r >= 0 ==> steps[r].0 == name
    ensures forall j | 0 <= j < |steps| && (r < 0 || j < r) :: steps[j].0 != name
  {
    if steps == [] then -1
    else if steps[0].0 == name then 0
    else
      var r := FirstIndex(steps[1..], name);
      if r < 0 then -1 else r + 1
  }

  /** The position of the first step from `from` on with a name other than
      `name`, or -1. */
  function NextOther<T>(steps: seq<(string, T)>, name: string, from: nat): (r: int)
    ensures r == -1 || from <= r < |steps|
    ensures r >= 0 ==> steps[r].0 != name
    ensures forall j | from <= j < |steps| && (r < 0 || j < r) :: steps[j].0 == name
    decreases |steps| - from
  {
    if from >= |steps| then -1
    else if steps[from].0 != name then from
    else NextOther(steps, name, from + 1)
  }

  /** The steps adjacent to step `name` as the documentation describes
      them: the one just before its first occurrence (none for the first
      step), and the first later one with another name. */
  function Adjacent<T>(steps: seq<(string, T)>, name: string): (r: (Option<T>, Option<T>))
    ensures FirstIndex(steps, name) < 0 ==> r == (None, None)
    ensures FirstIndex(steps, name) == 0 ==> r.0 == None
    ensures FirstIndex(steps, name) > 0 ==> r.0 == Some(steps[FirstIndex(steps, name) - 1].1)
  {
    var i := FirstIndex(steps, name);
    if i < 0 then (None, None)
    else
      var previous := if i > 0 then Some(steps[i - 1].1) else None;
      var j := NextOther(steps, name, i + 1);
      (previous, if j >= 0 then Some(steps[j].1) else None)
  }

  /** `_get_adjacent` as written: `prev` is bound only by a step before the
      match, so a group that is the first step raises UnboundLocalError;
      otherwise it finds the adjacent steps. */
  method GetAdjacent<T>(steps: seq<(string, T)>, dbName: string) returns (r: Result<(Option<T>, Option<T>)>)
    ensures r.Err? <==> |steps| > 0 && steps[0].0 == dbName
    ensures r.Err? ==> r.error == UnboundLocalError("prev")
    ensures r.Ok? ==> r.value == Adjacent(steps, dbName)
  {
    var previous: Option<T> := None;
    var dependent: Option<T> := None;
    var prev: Option<T> := None;
    var i := 0;
    ghost var first := FirstIndex(steps, dbName);
    while i < |steps|
      invariant 0 <= i <= |steps|
      invariant dependent == None
      invariant first < 0 || i <= first ==> previous == None
      invariant first < 0 || i <= first ==> (prev == None <==> i == 0) && (i > 0 ==> prev == Some(steps[i - 1].1))
      invariant 0 <= first < i ==> first > 0 && previous == Some(steps[first - 1].1) && prev == previous
      invariant 0 <= first < i ==> NextOther(steps, dbName, first + 1) == NextOther(steps, dbName, i)
    {
      var (name, instance) := steps[i];
      if name == dbName {
        if prev == None {
          return Err(UnboundLocalError("prev"));
        }
        previous := prev;
      } else if previous != None {
        dependent := Some(instance);
        break;
      } else {
        prev := Some(instance);
      }
      i := i + 1;
    }
    r := Ok((previous, dependent));
  }

  // ---- What the lifecycle decides from the folders.

  /** Leaf `is_executing`: some configuration folder holds an OUTCAR and
      some configuration is not ready for cleanup. */
  predicate Executing(folders: Folders, configs: map<int, Path>)
  {
    && (exists f | f in configs.Values :: IsFile(folders, f, Outcar))
    && (exists f | f in configs.Values :: !CanCleanup(folders, f))
  }

  /** A group without configurations is never executing, and one whose
      folders all passed cleanup is not either. */
  lemma ExecutingNeedsUnfinished(folders: Folders, configs: map<int, Path>)
    ensures configs == map[] ==> !Executing(folders, configs)
    ensures (forall f | f in configs.Values :: CanCleanup(folders, f)) ==> !Executing(folders, configs)
  {
  }

  /** The folders of the configurations not ready for cleanup, which
      `recover` lists in the failures file. */
  function Unfinished(folders: Folders, configs: map<int, Path>): (r: set<Path>)
    ensures r <= configs.Values
    ensures forall f | f in configs.Values :: f in r <==> !CanCleanup(folders, f)
  {
    set f | f in configs.Values && !CanCleanup(folders, f)
  }

  /** No more folders than configurations: two ids may share a folder. */
  lemma {:induction false} ValuesCard<K, V>(m: map<K, V>)
    ensures |m.Values| <= |m|
    decreases |m|
  {
    if |m| > 0 {
      var k :| k in m;
      var rest := m - {k};
      ValuesCard(rest);
      forall v | v in m.Values ensures v in rest.Values + {m[k]} {
        var j :| j in m && m[j] == v;
        if j != k {
          assert j in rest && rest[j] == v;
        }
      }
      SubsetCard(m.Values, rest.Values + {m[k]});
    }
  }

  lemma SubsetCard<T>(a: set<T>, b: set<T>)
    requires a <= b
    ensures |a| <= |b|
  {
    assert b == a + (b - a);
  }

  /** `settings = parent.execution.copy(); settings.update(execution)`. */
  function Merged(parent: Settings, own: Settings): (r: Settings)
    ensures r.Keys == parent.Keys + own.Keys
    ensures forall k | k in own :: r[k] == own[k]
    ensures forall k | k in parent && k !in own :: r[k] == parent[k]
  {
    map k | k in parent.Keys + own.Keys :: if k in own then own[k] else parent[k]
  }

  /** The settings a job script is rendered with: the group's execution
      settings over the parent's, the execution path and the array size,
      and `array_limit` only while the array is not smaller than it. */
  function JobSettings(parent: Settings, own: Settings, xpath: Path, asize: int): (r: Settings)
    ensures "execution_path" in r && r["execution_path"] == StrV(xpath)
    ensures "array_size" in r && r["array_size"] == IntV(asize)
    ensures forall k | k in own && k !in {"execution_path", "array_size", "array_limit"} :: k in r && r[k] == own[k]
    ensures forall k | k in parent && k !in own && k !in {"execution_path", "array_size", "array_limit"} ::
              k in r && r[k] == parent[k]
    ensures forall k | k in r :: k in parent || k in own || k in {"execution_path", "array_size"}
    ensures "array_limit" in r <==>
              "array_limit" in Merged(parent, own) && !IntLess(asize, Merged(parent, own)["array_limit"])
    ensures "array_limit" in r ==> r["array_limit"] == Merged(parent, own)["array_limit"]
  {
    var s := Merged(parent, own)["execution_path" := StrV(xpath)]["array_size" := IntV(asize)];
    if "array_limit" in s && IntLess(asize, s["array_limit"]) then s - {"array_limit"} else s
  }

  /** The template a job script is rendered from: `settings["template"]`,
      with "array" replaced by "recovery" for the recovery script. */
  function TemplateName(settings: Settings, recovery: bool): (r: Result<string>)
    ensures "template" !in settings ==> r == Err(KeyError("template"))
    ensures r.Ok? <==> "template" in settings && settings["template"].StrV?
    ensures r.Ok? && !recovery ==> r.value == settings["template"].s
  {
    if "template" !in settings then Err(KeyError("template"))
    else if !settings["template"].StrV? then
      if recovery then Err(AttributeError("replace")) else Err(TypeError("template name"))
    else if recovery then Ok(ReplaceAll(settings["template"].s, "array", "recovery"))
    else Ok(settings["template"].s)
  }

  /** The recovery template of an array template `p + "array" + q`, where
      "array" first occurs after `p`, is `p + "recovery"` followed by the
      rest with its own occurrences replaced; a name without "array" is
      kept. */
  lemma RecoveryTemplate(settings: Settings, p: string, q: string)
    requires "template" in settings && settings["template"] == StrV(p + "array" + q)
    requires forall i | 0 <= i < |p| :: !OccursAt(p + "array" + q, "array", i)
    ensures TemplateName(settings, true) == Ok(p + "recovery" + ReplaceAll(q, "array", "recovery"))
  {
    ReplaceAllAt(p, q, "array", "recovery");
  }

  lemma RecoveryTemplateWithoutArray(settings: Settings)
    requires "template" in settings && settings["template"].StrV?
    requires !Contains(settings["template"].s, "array")
    ensures TemplateName(settings, true) == TemplateName(settings, false)
  {
    ReplaceAllAbsent(settings["template"].s, "array", "recovery");
  }

  /** A rendered job script: the template it came from and the settings it
      was rendered with. */
  datatype Script = Script(template: string, settings: Settings)

  /** What `status(False)` returns: readiness and completion by folder, the
      counts of each, the number of configurations and `is_executing`. */
  datatype StatusReport = StatusReport(
    ready: map<Path, bool>, done: map<Path, bool>, readyCount: nat, doneCount: nat, n: nat, busy: bool)

  /** One `"{}/{};".format(count, N)` fragment of the status message. */
  function Fraction(count: nat, n: nat): string
  {
    IntToString(count) + "/" + IntToString(n) + ";"
  }

  const ReadyLabel := "ready to execute "
  const DoneLabel := " finished executing "
  const BusyNote := " busy executing..."

  /** What `status()` prints: the ready and the finished fraction, and a
      note when the group is busy. */
  function StatusMessage(report: StatusReport): (r: string)
    ensures StartsWith(r, ReadyLabel)
  {
    var line := ReadyLabel + Fraction(report.readyCount, report.n) + DoneLabel
                + Fraction(report.doneCount, report.n) + (if report.busy then BusyNote else "");
    assert line[..|ReadyLabel|] == ReadyLabel;
    line
  }

  /** Reads a fraction `a/b;` off the front of `s`, with what follows it. */
  function ReadFraction(s: string): Option<(int, int, string)>
  {
    var num := UpTo(s, '/');
    if |num| == |s| then None
    else
      var after := s[|num| + 1..];
      var den := UpTo(after, ';');
      if |den| == |after| then None
      else
        match (ParseInt(num), ParseInt(den))
        case (Some(a), Some(b)) => Some((a, b, after[|den| + 1..]))
        case _ => None
  }

  /** Reads the counts back off a status message: ready, finished, the
      number of configurations, and whether the busy note follows. */
  function ReadStatus(msg: string): Option<(int, int, int, bool)>
  {
    if !StartsWith(msg, ReadyLabel) then None
    else
      match ReadFraction(msg[|ReadyLabel|..])
      case None => None
      case Some(first) => ReadFinished(first.0, first.1, first.2)
  }

  /** The rest of a status message after its ready fraction. */
  function ReadFinished(ready: int, n: int, rest: string): Option<(int, int, int, bool)>
  {
    if !StartsWith(rest, DoneLabel) then None
    else
      match ReadFraction(rest[|DoneLabel|..])
      case None => None
      case Some(second) =>
        if second.1 != n || (second.2 != "" && second.2 != BusyNote) then None
        else Some((ready, second.0, n, second.2 == BusyNote))
  }

  lemma FractionRoundTrip(a: nat, b: nat, rest: string)
    ensures ReadFraction(Fraction(a, b) + rest) == Some((a, b, rest))
  {
    var sa, sb := IntToString(a), IntToString(b);
    var s := Fraction(a, b) + rest;
    IntToStringHasNo(a, '/');
    IntToStringHasNo(b, ';');
    assert s == sa + ['/'] + (sb + ";" + rest);
    UpToPrefix(sa, sb + ";" + rest, '/');
    var after := s[|sa| + 1..];
    assert after == sb + [';'] + rest;
    UpToPrefix(sb, rest, ';');
    assert after[|sb| + 1..] == rest;
    IntToStringRoundTrip(a);
    IntToStringRoundTrip(b);
  }

  /** The message `status()` prints gives back exactly the counts and the
      busy flag of the report it was made from. */
  lemma StatusMessageRoundTrip(report: StatusReport)
    ensures ReadStatus(StatusMessage(report)) == Some((report.readyCount, report.doneCount, report.n, report.busy))
  {
    var tail := if report.busy then BusyNote else "";
    var fa := Fraction(report.readyCount, report.n);
    var fb := Fraction(report.doneCount, report.n);
    var y := fb + tail;
    var rest := DoneLabel + y;
    var x := fa + rest;
    var msg := ReadyLabel + x;
    MessageParts(report, msg);
    FractionRoundTrip(report.readyCount, report.n, rest);
    FractionRoundTrip(report.doneCount, report.n, tail);
    ReadStatusFront(msg, x, report.readyCount, report.n, rest);
    ReadFinishedParts(rest, y, tail, report.readyCount, report.doneCount, report.n);
  }

  /** A status message, grouped from the right. */
  lemma MessageParts(report: StatusReport, msg: string)
    requires msg == ReadyLabel + (Fraction(report.readyCount, report.n) + (DoneLabel
                    + (Fraction(report.doneCount, report.n) + (if report.busy then BusyNote else ""))))
    ensures StatusMessage(report) == msg
  {
    Regrouped(ReadyLabel, Fraction(report.readyCount, report.n), DoneLabel,
              Fraction(report.doneCount, report.n), if report.busy then BusyNote else "");
  }

  /** Five strings joined, regrouped to the right. */
  lemma Regrouped(a: string, b: string, c: string, d: string, e: string)
    ensures a + b + c + d + e == a + (b + (c + (d + e)))
  {
  }

  /** Past its label, a message is read by its first fraction. */
  lemma ReadStatusFront(msg: string, x: string, a: int, n: int, rest: string)
    requires msg == ReadyLabel + x
    requires ReadFraction(x) == Some((a, n, rest))
    ensures ReadStatus(msg) == ReadFinished(a, n, rest)
  {
    assert msg[..|ReadyLabel|] == ReadyLabel;
    assert msg[|ReadyLabel|..] == x;
  }

  /** The finished fraction and the busy note are read off what follows. */
  lemma ReadFinishedParts(rest: string, y: string, tail: string, a: int, d: int, n: int)
    requires rest == DoneLabel + y
    requires ReadFraction(y) == Some((d, n, tail))
    requires tail == "" || tail == BusyNote
    ensures ReadFinished(a, n, rest) == Some((a, d, n, tail == BusyNote))
  {
    assert rest[..|DoneLabel|] == DoneLabel;
    assert rest[|DoneLabel|..] == y;
  }

  /** What an empty group prints. */
  lemma EmptyStatusMessage(ready: map<Path, bool>, done: map<Path, bool>)
    ensures StatusMessage(StatusReport(ready, done, 0, 0, 0, false)) == "ready to execute 0/0; finished executing 0/0;"
  {
    assert Fraction(0, 0) == "0/0;";
    var m := StatusMessage(StatusReport(ready, done, 0, 0, 0, false));
    assert m == ReadyLabel + "0/0;" + DoneLabel + "0/0;";
    EmptySpelled(m);
  }

  /** What a group of one configuration, ready and not yet finished,
      prints. */
  lemma OneReadyStatusMessage(ready: map<Path, bool>, done: map<Path, bool>)
    ensures StatusMessage(StatusReport(ready, done, 1, 0, 1, false)) == "ready to execute 1/1; finished executing 0/1;"
  {
    assert Fraction(1, 1) == "1/1;" && Fraction(0, 1) == "0/1;";
    var m := StatusMessage(StatusReport(ready, done, 1, 0, 1, false));
    assert m == ReadyLabel + "1/1;" + DoneLabel + "0/1;";
    OneReadySpelled(m);
  }

  /** The labels spelt out around the fractions of an empty group. */
  lemma EmptySpelled(m: string)
    requires m == ReadyLabel + "0/0;" + DoneLabel + "0/0;"
    ensures m == "ready to execute 0/0; finished executing 0/0;"
  {
  }

  /** The labels spelt out around the fractions of one ready configuration. */
  lemma OneReadySpelled(m: string)
    requires m == ReadyLabel + "1/1;" + DoneLabel + "0/1;"
    ensures m == "ready to execute 1/1; finished executing 0/1;"
  {
  }

  /** Readiness of the folders in `keys`, by folder. */
  function ReadyOn(folders: Folders, keys: set<Path>): (r: map<Path, bool>)
    ensures r.Keys == keys
  {
    map f | f in keys :: ReadyToRun(folders, f)
  }

  /** Completion of the folders in `keys`, by folder. */
  function DoneOn(folders: Folders, keys: set<Path>): (r: map<Path, bool>)
    ensures r.Keys == keys
  {
    map f | f in keys :: CanCleanup(folders, f)
  }

  /** Readiness of every configuration folder, by folder. */
  function ReadyMap(folders: Folders, configs: map<int, Path>): (r: map<Path, bool>)
    ensures r.Keys == configs.Values
    ensures forall f | f in r :: r[f] == ReadyToRun(folders, f)
  {
    ReadyOn(folders, configs.Values)
  }

  /** Completion of every configuration folder, by folder. */
  function DoneMap(folders: Folders, configs: map<int, Path>): (r: map<Path, bool>)
    ensures r.Keys == configs.Values
    ensures forall f | f in r :: r[f] == CanCleanup(folders, f)
  {
    DoneOn(folders, configs.Values)
  }

  /** The folders `recover` lists, those whose `done` entry is false, are
      the unfinished ones. */
  lemma UnfinishedOfDone(folders: Folders, configs: map<int, Path>)
    ensures (set f | f in DoneMap(folders, configs) && !DoneMap(folders, configs)[f]) == Unfinished(folders, configs)
  {
  }

  /** Probing one more folder extends both maps by its entry. */
  lemma ProbedOneMore(folders: Folders, keys: set<Path>, f: Path)
    ensures ReadyOn(folders, keys + {f}) == ReadyOn(folders, keys)[f := ReadyToRun(folders, f)]
    ensures DoneOn(folders, keys + {f}) == DoneOn(folders, keys)[f := CanCleanup(folders, f)]
  {
    SameMaps(ReadyOn(folders, keys + {f}), ReadyOn(folders, keys)[f := ReadyToRun(folders, f)]);
    SameMaps(DoneOn(folders, keys + {f}), DoneOn(folders, keys)[f := CanCleanup(folders, f)]);
  }

  lemma SameMaps(a: map<Path, bool>, b: map<Path, bool>)
    requires a.Keys == b.Keys && forall f | f in a :: a[f] == b[f]
    ensures a == b
  {
  }

  /** `count_nonzero` of a dictionary's values. */
  function CountTrue(m: map<Path, bool>): (n: nat)
    ensures n <= |m|
    ensures n == |m| <==> forall f | f in m :: m[f]
  {
    TrueKeysCard(m);
    |set f | f in m && m[f]|
  }

  lemma TrueKeysCard(m: map<Path, bool>)
    ensures |set f | f in m && m[f]| <= |m|
    ensures |set f | f in m && m[f]| == |m| <==> forall f | f in m :: m[f]
  {
    var yes := set f | f in m && m[f];
    SubsetCard(yes, m.Keys);
    if forall f | f in m :: m[f] {
      assert yes == m.Keys;
    } else {
      var f :| f in m && !m[f];
      ProperSubsetCard(yes, m.Keys, f);
    }
  }

  lemma ProperSubsetCard<T>(a: set<T>, b: set<T>, x: T)
    requires a <= b && x in b && x !in a
    ensures |a| < |b|
  {
    SubsetCard(a, b - {x});
  }

  /** The report of a leaf group: the counts never exceed the number of
      configurations, everything is done exactly when every folder passed
      the cleanup probe, and a group that is busy has something left to
      finish. */
  function Report(folders: Folders, configs: map<int, Path>): (r: StatusReport)
    ensures r.ready == ReadyMap(folders, configs) && r.done == DoneMap(folders, configs)
    ensures r.readyCount <= r.n && r.doneCount <= r.n && r.n == |configs|
    ensures r.doneCount == |configs.Values| <==> forall f | f in configs.Values :: CanCleanup(folders, f)
    ensures r.busy <==> Executing(folders, configs)
    ensures r.busy ==> r.doneCount < |configs.Values|
  {
    var ready := ReadyMap(folders, configs);
    var done := DoneMap(folders, configs);
    ValuesCard(configs);
    StatusReport(ready, done, CountTrue(ready), CountTrue(done), |configs|, Executing(folders, configs))
  }

  /** The probing loop of `status`: both probes on every configuration
      folder. */
  method ProbeFolders(folders: Folders, paths: set<Path>) returns (ready: map<Path, bool>, done: map<Path, bool>)
    ensures ready == ReadyOn(folders, paths) && done == DoneOn(folders, paths)
  {
    ready := map[];
    done := map[];
    var todo := paths;
    while todo != {}
      invariant todo <= paths
      invariant ready == ReadyOn(folders, paths - todo)
      invariant done == DoneOn(folders, paths - todo)
      decreases |todo|
    {
      var f :| f in todo;
      ProbedOneMore(folders, paths - todo, f);
      ready, done := ProbeFolder(folders, f, ready, done);
      assert paths - (todo - {f}) == (paths - todo) + {f};
      todo := todo - {f};
    }
    assert paths - todo == paths;
  }

  /** One pass of the probing loop. */
  method ProbeFolder(folders: Folders, f: Path, ready0: map<Path, bool>, done0: map<Path, bool>)
    returns (ready: map<Path, bool>, done: map<Path, bool>)
    ensures ready == ready0[f := ReadyToRun(folders, f)]
    ensures done == done0[f := CanCleanup(folders, f)]
  {
    var ok := Probes.CanExecute(folders, f, Inputs);
    ready := ready0[f := ok];
    done := done0[f := CanCleanup(folders, f)];
  }

  /** What `create` leaves POTCAR as: a link to the shared POTCAR two
      directories up, which dangles when there is none. */
  function PotcarLink(shared: Option<string>): (e: Entry)
    ensures e.File? <==> shared.Some?
  {
    if shared.Some? then File(shared.value) else BrokenLink
  }

  /** A folder created for a configuration is found again, under its id,
      by a later constructor listing the root. */
  lemma CreatedIsDiscovered(root: Path, prefix: string, listing: seq<string>, cid: int)
    requires '.' !in prefix
    ensures var later := listing + [ConfigName(prefix, cid)];
            cid in Discovered(root, prefix, later) &&
            Discovered(root, prefix, later)[cid] == Join(root, ConfigName(prefix, cid))
  {
    IdRoundTrip(prefix, cid);
    var later := listing + [ConfigName(prefix, cid)];
    assert later[..|later| - 1] == listing;
  }

  /** The ids whose folders were converted to XYZ. */
  function ConvertedIds(configs: map<int, Path>, converted: set<Path>): (r: set<int>)
    ensures r <= configs.Keys && |r| <= |configs|
    ensures |r| == |configs| <==> forall cid | cid in configs :: configs[cid] in converted
  {
    ConvertedCard(configs, converted);
    set cid | cid in configs && configs[cid] in converted
  }

  lemma ConvertedCard(configs: map<int, Path>, converted: set<Path>)
    ensures |set cid | cid in configs && configs[cid] in converted| <= |configs|
    ensures |set cid | cid in configs && configs[cid] in converted| == |configs| <==>
              forall cid | cid in configs :: configs[cid] in converted
  {
    var ids := set cid | cid in configs && configs[cid] in converted;
    SubsetCard(ids, configs.Keys);
    if !(forall cid | cid in configs :: configs[cid] in converted) {
      var cid :| cid in configs && configs[cid] !in converted;
      ProperSubsetCard(ids, configs.Keys, cid);
    } else {
      assert ids == configs.Keys;
    }
  }

  /** `[k for k, v in d.items() if not v]`, in the dictionary's
      (unspecified) order. */
  method FalseKeys(d: map<Path, bool>) returns (keys: seq<Path>)
    ensures (set f | f in keys) == (set f | f in d && !d[f])
    ensures forall i, j | 0 <= i < j < |keys| :: keys[i] != keys[j]
  {
    keys := [];
    var todo := d.Keys;
    while todo != {}
      invariant todo <= d.Keys
      invariant (set f | f in keys) == (set f | f in d.Keys - todo && !d[f])
      invariant forall i, j | 0 <= i < j < |keys| :: keys[i] != keys[j]
      invariant forall i | 0 <= i < |keys| :: keys[i] !in todo
      decreases |todo|
    {
      var f :| f in todo;
      ghost var listed := set g | g in d.Keys - todo && !d[g];
      if !d[f] {
        assert (set g | g in keys + [f]) == (set g | g in keys) + {f};
        assert (set g | g in d.Keys - (todo - {f}) && !d[g]) == listed + {f};
        keys := keys + [f];
      } else {
        assert (set g | g in d.Keys - (todo - {f}) && !d[g]) == listed;
      }
      todo := todo - {f};
    }
  }

  /** Some element of a non-empty set: the next key a dictionary
      iteration yields. */
  method Choose<T>(s: set<T>) returns (x: T)
    requires s != {}
    ensures x in s
  {
    x :| x in s;
  }

  /** The loop of `xyz`: the XYZ file of every configuration folder the
      converter accepts (`converted` stands for those), in the
      dictionary's (unspecified) order. */
  method ConvertFolders(configs: map<int, Path>, converted: set<Path>, filename: string) returns (created: seq<Path>)
    ensures |created| == |ConvertedIds(configs, converted)|
  {
    created := [];
    var todo := configs.Keys;
    ghost var ids := ConvertedIds(configs, converted);
    while todo != {}
      invariant todo <= configs.Keys
      invariant |created| == |ids - todo|
      decreases |todo|
    {
      var id := Choose(todo);
      if configs[id] in converted {
        created := created + [Join(configs[id], filename)];
        assert ids - (todo - {id}) == (ids - todo) + {id};
      } else {
        assert ids - (todo - {id}) == ids - todo;
      }
      todo := todo - {id};
    }
    assert ids - todo == ids;
  }

  /** The deepest nesting among a sequence of groups. */
  ghost function MaxDepth(groups: seq<Group>): nat
    ensures forall i | 0 <= i < |groups| :: groups[i].depth <= MaxDepth(groups)
  {
    if groups == [] then 0
    else
      var rest := MaxDepth(groups[1..]);
      assert forall i | 1 <= i < |groups| :: groups[i] == groups[1..][i - 1];
      if groups[0].depth > rest then groups[0].depth else rest
  }

  /** Every group reachable from a sequence of groups. */
  ghost function Reachable(groups: seq<Group>): (r: set<Group>)
    ensures forall i | 0 <= i < |groups| :: groups[i] in r && groups[i].Repr <= r
  {
    if groups == [] then {}
    else
      var rest := Reachable(groups[1..]);
      assert forall i | 1 <= i < |groups| :: groups[i] == groups[1..][i - 1];
      {groups[0]} + groups[0].Repr + rest
  }

  /** A group of configuration folders `root/prefix.cid`. A group with a
      non-empty `sequence` is a composite whose children are groups of
      their own; a leaf group runs its own configurations. The fields
      after `sequence` are the state on disk the lifecycle reads and
      writes: the configuration folders, the job scripts and the failures
      file in the root directory, and the other files written there. */
  class Group {
    const root: Path
    const prefix: string
    const nconfigs: Option<int>
    /** The group's own execution settings and those of its parent. */
    const execution: Settings
    const parentExecution: Settings
    const sequence: seq<Group>
    /** How deeply the children nest, and every group below this one. */
    ghost const depth: nat
    ghost const Repr: set<Group>

    var configs: map<int, Path>
    var folders: Folders
    var scripts: map<string, Script>
    var failures: Option<string>
    var outputs: set<string>
    var nsuccess: nat

    /** The children nest strictly less deeply, and each child's groups are
        among this group's. */
    ghost predicate Nested()
      decreases depth
    {
      forall i | 0 <= i < |sequence| ::
        && sequence[i] in Repr && sequence[i].Repr <= Repr
        && sequence[i].depth < depth && sequence[i].Nested()
    }

    /** `__init__`: the children come built; `listing` holds the names the
        glob `prefix.*` yields in the root directory, in its order. */
    constructor (root: Path, prefix: string, nconfigs: Option<int>, execution: Settings,
                 parentExecution: Settings, sequence: seq<Group>, listing: seq<string>,
                 folders: Folders, scripts: map<string, Script>, failures: Option<string>,
                 outputs: set<string>)
      requires forall i | 0 <= i < |sequence| :: sequence[i].Nested()
      ensures Nested()
      ensures this.root == root && this.prefix == prefix && this.nconfigs == nconfigs
      ensures this.execution == execution && this.parentExecution == parentExecution
      ensures this.sequence == sequence
      ensures this.folders == folders && this.scripts == scripts && this.failures == failures
      ensures this.outputs == outputs && nsuccess == 0
      ensures configs == Discovered(root, prefix, listing)
    {
      this.root := root;
      this.prefix := prefix;
      this.nconfigs := nconfigs;
      this.execution := execution;
      this.parentExecution := parentExecution;
      this.sequence := sequence;
      depth := MaxDepth(sequence) + 1;
      Repr := Reachable(sequence);
      this.folders := folders;
      this.scripts := scripts;
      this.failures := failures;
      this.outputs := outputs;
      nsuccess := 0;
      var found: map<int, Path> := map[];
      var k := 0;
      while k < |listing|
        invariant 0 <= k <= |listing|
        invariant found == Discovered(root, prefix, listing[..k])
      {
        assert listing[..k + 1][..k] == listing[..k];
        match FolderId(prefix, listing[k]) {
          case Some(cid) => found := found[cid := Join(root, listing[k])];
          case None =>
        }
        k := k + 1;
      }
      assert listing[..k] == listing;
      configs := found;
    }

    // ---- Probes of the whole group.

    /** `is_executing`. A leaf group is executing when some configuration
        has an OUTCAR and some configuration is not ready for cleanup; the
        composite branch appends to the misspelt `executin`. */
    method IsExecuting() returns (r: Result<bool>)
      ensures sequence != [] ==> r == Err(NameError("executin"))
      ensures sequence == [] ==> r == Ok(Executing(folders, configs))
    {
      if sequence != [] {
        return Err(NameError("executin"));
      }
      var outcars := false;
      var todo := configs.Values;
      while todo != {}
        invariant todo <= configs.Values
        invariant outcars <==> exists f | f in configs.Values - todo :: IsFile(folders, f, Outcar)
        decreases |todo|
      {
        var f :| f in todo;
        if IsFile(folders, f, Outcar) {
          outcars := true;
        }
        todo := todo - {f};
      }
      var busy := false;
      todo := configs.Values;
      while todo != {}
        invariant todo <= configs.Values
        invariant !busy
        invariant forall f | f in configs.Values - todo :: CanCleanup(folders, f)
        decreases |todo|
      {
        var f :| f in todo;
        if !CanCleanup(folders, f) {
          assert f in configs.Values && !CanCleanup(folders, f);
          busy := true;
          break;
        }
        todo := todo - {f};
      }
      assert !busy ==> todo == {};
      r := Ok(outcars && busy);
    }

    /** The configurations are in place: as many as asked for, or some when
        no number was asked for. */
    predicate ConfigsComplete()
      reads this
    {
      (nconfigs.Some? && |configs| == nconfigs.value) || (|configs| > 0 && nconfigs.None?)
    }

    /** What `setup` of the base class answers: a leaf whose configurations
        are in place or which is executing is set up; a composite is set up
        when all its children are. */
    ghost predicate SetupDone()
      requires Nested()
      reads Repr, this
      decreases depth
    {
      if sequence == [] then ConfigsComplete() || Executing(folders, configs)
      else forall i | 0 <= i < |sequence| :: sequence[i].SetupDone()
    }

    /** A leaf with no fixed number of configurations that is not yet set
        up has no configurations at all, so the `create` calls of its
        `setup` start from an empty map. */
    lemma NotSetUpIsEmpty()
      requires Nested() && sequence == [] && nconfigs.None? && !SetupDone()
      ensures configs == map[]
    {
      assert |configs| == 0;
    }

    /** `setup` of the base class: whether the group is already set up. */
    method Setup() returns (r: bool)
      requires Nested()
      ensures r == SetupDone()
      ensures sequence == [] ==> (r <==> ConfigsComplete() || Executing(folders, configs))
      decreases depth
    {
      if sequence == [] {
        var confok := ConfigsComplete();
        var executing := IsExecuting();
        r := confok || executing.value;
      } else {
        var all := true;
        var i := 0;
        while i < |sequence|
          invariant 0 <= i <= |sequence|
          invariant all <==> forall j | 0 <= j < i :: sequence[j].SetupDone()
        {
          var child := sequence[i].Setup();
          all := all && child;
          i := i + 1;
        }
        r := all;
      }
    }

    /** `status(False)`: readiness and completion of every configuration
        folder, their counts, and `is_executing`, which raises for a
        composite. */
    method Status() returns (r: Result<StatusReport>)
      ensures sequence != [] ==> r == Err(NameError("executin"))
      ensures sequence == [] ==> r == Ok(Report(folders, configs))
    {
      var ready, done := ProbeFolders(folders, configs.Values);
      var busy := IsExecuting();
      if busy.Err? {
        return Err(busy.error);
      }
      r := Ok(StatusReport(ready, done, CountTrue(ready), CountTrue(done), |configs|, busy.value));
    }

    /** The name of the script `execute` submits. */
    function JobName(recovery: bool): string
    {
      if recovery then "recovery.sh" else "jobfile.sh"
    }

    /** Leaf `execute` has what it needs: the script exists, and outside
        recovery every configuration can execute and none has run yet. */
    predicate CanSubmit(recovery: bool)
      reads this
    {
      && JobName(recovery) in scripts
      && (recovery ||
            ((forall f | f in configs.Values :: ReadyToRun(folders, f)) &&
             (forall f | f in configs.Values :: !IsFile(folders, f, Outcar))))
    }

    /** `execute`. `output` stands for the lines `sbatch` prints; `submitted`
        says whether `sbatch` was run. A dry run succeeds without
        submitting; a submission succeeds when the first line of output
        reports it. The composite branch names the undefined `recover`. */
    method Execute(dryrun: bool, recovery: bool, output: seq<string>) returns (r: Result<bool>, submitted: bool)
      ensures sequence != [] ==> r == Err(NameError("recover")) && !submitted
      ensures sequence == [] ==> r.Ok?
      ensures submitted <==> sequence == [] && CanSubmit(recovery) && !dryrun
      ensures r.Ok? ==>
                (r.value <==> CanSubmit(recovery) && (dryrun || (|output| > 0 && Contains(output[0], "Submitted"))))
    {
      submitted := false;
      if sequence != [] {
        return Err(NameError("recover")), false;
      }
      var jobfile := JobName(recovery);
      if jobfile !in scripts {
        return Ok(false), false;
      }
      if !recovery {
        var todo := configs.Values;
        while todo != {}
          invariant todo <= configs.Values
          invariant forall f | f in configs.Values - todo :: ReadyToRun(folders, f)
          decreases |todo|
        {
          var f :| f in todo;
          var ok := Probes.CanExecute(folders, f, Inputs);
          if !ok {
            return Ok(false), false;
          }
          todo := todo - {f};
        }
        todo := configs.Values;
        while todo != {}
          invariant todo <= configs.Values
          invariant forall f | f in configs.Values - todo :: !IsFile(folders, f, Outcar)
          decreases |todo|
        {
          var f :| f in todo;
          if IsFile(folders, f, Outcar) {
            return Ok(false), false;
          }
          todo := todo - {f};
        }
      }
      if dryrun {
        return Ok(true), false;
      }
      submitted := true;
      r := Ok(|output| > 0 && Contains(output[0], "Submitted"));
    }

    /** `create` of a leaf group: makes the folder of configuration `cid`
        (by default the next available id), links its POTCAR to the shared
        one, and records it. The composite branch names the undefined
        `instance`. */
    method Create(cid: Option<int>, sharedPotcar: Option<string>) returns (o: Outcome)
      modifies this
      ensures sequence != [] ==> o == Raise(NameError("instance")) && configs == old(configs) && folders == old(folders)
      ensures sequence == [] ==>
                var id := if cid.Some? then cid.value else NextId(old(configs));
                var target := Join(root, ConfigName(prefix, id));
                var dir := if target in old(folders) then old(folders)[target] else map[];
                && o == Pass
                && configs == old(configs)[id := target]
                && folders == old(folders)[target := dir["POTCAR" := PotcarLink(sharedPotcar)]]
      ensures scripts == old(scripts) && failures == old(failures)
      ensures outputs == old(outputs) && nsuccess == old(nsuccess)
    {
      if sequence != [] {
        return Raise(NameError("instance"));
      }
      var id := if cid.Some? then cid.value else NextId(configs);
      var target := Join(root, ConfigName(prefix, id));
      if target !in folders {
        folders := folders[target := map[]];
      }
      folders := folders[target := folders[target]["POTCAR" := PotcarLink(sharedPotcar)]];
      configs := configs[id := target];
      o := Pass;
    }

    /** The array size of a job script: the lines of the failures file for
        recovery (none when it is absent), else the number of
        configurations. */
    function ArraySize(recovery: bool): int
      reads this
    {
      if !recovery then |configs|
      else if failures.Some? then LineCount(failures.value)
      else 0
    }

    /** The execution path of a job script. */
    function ExecutionPath(recovery: bool): Path
    {
      if recovery then Join(root, "failures") else Join(root, prefix + ".")
    }

    /** The script `jobfile` renders from the current state, or what it
        raises. */
    function RenderedJob(recovery: bool): (r: Result<Script>)
      reads this
      ensures r.Ok? ==> r.value.settings == JobSettings(parentExecution, execution, ExecutionPath(recovery), ArraySize(recovery))
      ensures r.Ok? ==> Ok(r.value.template) == TemplateName(r.value.settings, recovery)
      ensures r.Ok? ==> r.value.settings["array_size"] == IntV(ArraySize(recovery))
      ensures r.Err? ==> TemplateName(JobSettings(parentExecution, execution, ExecutionPath(recovery), ArraySize(recovery)), recovery) == Err(r.error)
    {
      var settings := JobSettings(parentExecution, execution, ExecutionPath(recovery), ArraySize(recovery));
      match TemplateName(settings, recovery)
      case Err(e) => Err(e)
      case Ok(name) => Ok(Script(name, settings))
    }

    /** What `jobfile` leaves of scripts `before`, and what it raises. */
    function AfterJobfile(before: map<string, Script>, rerun: bool, recovery: bool): (r: (Outcome, map<string, Script>))
      reads this
      ensures r.0 == Pass ==> JobName(recovery) in r.1
      ensures r.1.Keys <= before.Keys + {JobName(recovery)}
    {
      if JobName(recovery) in before && !rerun then (Pass, before)
      else
        match RenderedJob(recovery)
        case Ok(script) => (Pass, before[JobName(recovery) := script])
        case Err(e) => (Raise(e), before)
    }

    /** `jobfile` of a leaf group: keeps an existing script unless asked to
        rerun, else renders `jobfile.sh` (or `recovery.sh`). */
    method Jobfile(rerun: bool, recovery: bool) returns (o: Outcome)
      requires sequence == []
      modifies this
      ensures JobName(recovery) in old(scripts) && !rerun ==> o == Pass && scripts == old(scripts)
      ensures !(JobName(recovery) in old(scripts) && !rerun) ==>
                match old(RenderedJob(recovery))
                case Ok(script) => o == Pass && scripts == old(scripts)[JobName(recovery) := script]
                case Err(e) => o == Raise(e) && scripts == old(scripts)
      ensures (o, scripts) == AfterJobfile(old(scripts), rerun, recovery)
      ensures configs == old(configs) && folders == old(folders) && failures == old(failures)
      ensures outputs == old(outputs) && nsuccess == old(nsuccess)
    {
      var asize := ArraySize(recovery);
      var target := JobName(recovery);
      if target in scripts && !rerun {
        return Pass;
      }
      var settings := JobSettings(parentExecution, execution, ExecutionPath(recovery), asize);
      var name := TemplateName(settings, recovery);
      if name.Err? {
        return Raise(name.error);
      }
      scripts := scripts[target := Script(name.value, settings)];
      o := Pass;
    }

    /** `recover` of a leaf group: lists the folders not ready for cleanup;
        with some, writes them to `failures` and renders `recovery.sh`;
        with none, removes both files. */
    method Recover(rerun: bool) returns (o: Outcome, failed: seq<Path>)
      requires sequence == []
      modifies this
      ensures (set f | f in failed) == Unfinished(folders, configs)
      ensures forall i, j | 0 <= i < j < |failed| :: failed[i] != failed[j]
      ensures configs == old(configs) && folders == old(folders)
      ensures outputs == old(outputs) && nsuccess == old(nsuccess)
      ensures failed == [] ==> o == Pass && failures == None && scripts == old(scripts) - {JobName(true)}
      ensures failed != [] ==> failures == Some(JoinLines(failed))
      ensures failed != [] && JobName(true) in old(scripts) && !rerun ==> o == Pass && scripts == old(scripts)
      ensures failed != [] && !(JobName(true) in old(scripts) && !rerun) ==>
                match RenderedJob(true)
                case Ok(script) => o == Pass && scripts == old(scripts)[JobName(true) := script]
                case Err(e) => o == Raise(e) && scripts == old(scripts)
      ensures o == Pass ==> (JobName(true) in scripts <==> failures.Some?)
    {
      var status := Status();
      failed := FalseKeys(status.value.done);
      UnfinishedOfDone(folders, configs);
      if |failed| > 0 {
        failures := Some(JoinLines(failed));
        o := Jobfile(rerun, true);
      } else {
        scripts := scripts - {JobName(true)};
        failures := None;
        o := Pass;
      }
    }

    /** After `recover` wrote the failures of folders named without
        newlines, the recovery script's array has one job per failure. */
    lemma RecoveryArraySize(failed: seq<Path>)
      requires failed != [] && failures == Some(JoinLines(failed))
      requires forall i | 0 <= i < |failed| :: |failed[i]| > 0 && '\n' !in failed[i]
      ensures ArraySize(true) == |failed|
      ensures RenderedJob(true).Ok? ==> RenderedJob(true).value.settings["array_size"] == IntV(|failed|)
    {
      JoinLinesCount(failed);
    }

    /** `cleanup` of the base class: the configurations are all there (when a
        number was asked for) and every folder passed the cleanup probe. */
    predicate Cleanup(): (r: bool)
      reads this
      ensures r ==> !Executing(folders, configs)
      ensures r && nconfigs.Some? ==> |configs| == nconfigs.value
    {
      (nconfigs.None? || |configs| == nconfigs.value) && forall f | f in configs.Values :: CanCleanup(folders, f)
    }

    /** A group that cleans up is not executing, and it cleans up exactly
        when its configurations are all there and its report counts every
        folder done. */
    lemma CleanupReport()
      ensures Cleanup() ==> !Executing(folders, configs)
      ensures Cleanup() <==>
                (nconfigs.None? || |configs| == nconfigs.value) && Report(folders, configs).doneCount == |configs.Values|
    {
    }

    /** `xyz`: converts every configuration folder whose output the
        converter accepts (`converted` stands for those), records how many
        were converted, and with `combine` writes the combined file in the
        root; true when every configuration was converted. */
    method Xyz(converted: set<Path>, combine: bool, filename: string) returns (r: bool)
      modifies this
      ensures nsuccess == |ConvertedIds(configs, converted)|
      ensures r <==> forall cid | cid in configs :: configs[cid] in converted
      ensures r <==> nsuccess == |configs|
      ensures outputs == if combine then old(outputs) + {filename} else old(outputs)
      ensures configs == old(configs) && folders == old(folders)
      ensures scripts == old(scripts) && failures == old(failures)
    {
      var created := ConvertFolders(configs, converted, filename);
      nsuccess := |created|;
      if combine {
        outputs := outputs + {filename};
      }
      r := |created| == |configs|;
    }
  }
}
