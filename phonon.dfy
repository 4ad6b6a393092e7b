/** The three-stage phonon pipeline built on the group lifecycle: the
    displacement stage (`PhononDFT`) whose DFT runs yield the force sets and
    the density of states, the calibration stage (`PhononCalibration`) that
    tries modulation amplitudes, and the modulation stage (`PhononDatabase`)
    that builds the displaced configurations. Each stage is a leaf group;
    each gates its `setup` on the readiness of the stage before it, and
    readiness is the presence of a stage artifact. */
module Phonon {
  import opened Values
  import opened Text
  import opened Probes
  import opened Basic

  // ---- Special-point labels of the band path.

  /** A name in the special path the k-path service returns: one point, or
      a tuple of points that meet at a discontinuity. */
  datatype PathName = Point(tag: string) | Joint(tags: seq<string>)

  /** The service spells the centre of the zone GAMMA; the plots want
      `\Gamma`. */
  function FixGamma(s: string): string
  {
    if s == "GAMMA" then "\\Gamma" else s
  }

  /** The key of `points` looked up for a name: the name itself, or the
      first label of a tuple. */
  function KeyOf(name: PathName): (r: Result<string>)
    ensures r.Err? <==> name.Joint? && |name.tags| == 0
  {
    match name
    case Point(s) => Ok(s)
    case Joint(ls) => if |ls| == 0 then Err(IndexError) else Ok(ls[0])
  }

  /** The plot label of a name: the fixed label, or the first two fixed
      labels of a tuple joined by `|` (`"{}|{}".format`, which ignores any
      further labels and raises IndexError on fewer than two). */
  function LabelOf(name: PathName): (r: Result<string>)
    ensures r.Err? <==> name.Joint? && |name.tags| < 2
  {
    match name
    case Point(s) => Ok(FixGamma(s))
    case Joint(ls) => if |ls| < 2 then Err(IndexError) else Ok(FixGamma(ls[0]) + "|" + FixGamma(ls[1]))
  }

  /** The name yields a label and a band point. */
  predicate NameParses<P>(name: PathName, points: map<string, P>)
  {
    KeyOf(name).Ok? && LabelOf(name).Ok? && KeyOf(name).value in points
  }

  /** What the loop raises on a name that does not parse: the tuple index,
      the format, then the lookup, in that order. */
  function NameFailure<P>(name: PathName, points: map<string, P>): Error
  {
    if KeyOf(name).Err? then KeyOf(name).error
    else if LabelOf(name).Err? then LabelOf(name).error
    else KeyError(KeyOf(name).value)
  }

  /** `_parsed_kpath` on the `(names, points)` answer of the service: one
      label and one band point per name, in order, or the error of the
      first name that does not parse. */
  method ParsedKpath<P>(names: seq<PathName>, points: map<string, P>) returns (r: Result<(seq<string>, seq<P>)>)
    ensures r.Ok? <==> forall i | 0 <= i < |names| :: NameParses(names[i], points)
    ensures r.Ok? ==>
              && |r.value.0| == |names| && |r.value.1| == |names|
              && forall i | 0 <= i < |names| ::
                   && Ok(r.value.0[i]) == LabelOf(names[i])
                   && r.value.1[i] == points[KeyOf(names[i]).value]
    ensures r.Err? ==>
              exists i | 0 <= i < |names| ::
                && (forall j | 0 <= j < i :: NameParses(names[j], points))
                && !NameParses(names[i], points)
                && r.error == NameFailure(names[i], points)
  {
    var labels: seq<string> := [];
    var band: seq<P> := [];
    var i := 0;
    while i < |names|
      invariant 0 <= i <= |names|
      invariant |labels| == i && |band| == i
      invariant forall j | 0 <= j < i :: NameParses(names[j], points)
      invariant forall j | 0 <= j < i :: Ok(labels[j]) == LabelOf(names[j]) && band[j] == points[KeyOf(names[j]).value]
    {
      var name := names[i];
      var key;
      match name {
        case Joint(ls) =>
          if |ls| == 0 {
            return Err(IndexError);
          }
          key := ls[0];
          if |ls| < 2 {
            return Err(IndexError);
          }
          labels := labels + [FixGamma(ls[0]) + "|" + FixGamma(ls[1])];
        case Point(s) =>
          key := s;
          labels := labels + [FixGamma(s)];
      }
      if key !in points {
        return Err(KeyError(key));
      }
      band := band + [points[key]];
      i := i + 1;
    }
    r := Ok((labels, band));
  }

  /** The spelling GAMMA never reaches a label. */
  lemma NoRawGamma(name: PathName)
    requires LabelOf(name).Ok?
    ensures LabelOf(name).value != "GAMMA"
    ensures name == Point("GAMMA") ==> LabelOf(name).value == "\\Gamma"
  {
    if name.Joint? {
      var joined := LabelOf(name).value;
      assert joined[|FixGamma(name.tags[0])|] == '|';
      assert '|' !in "GAMMA";
    }
  }

  /** A tuple label splits at its `|` back into the two fixed labels. */
  lemma JointLabelSplits(a: string, b: string, rest: seq<string>)
    requires '|' !in a && '|' !in b
    ensures LabelOf(Joint([a, b] + rest)) == Ok(FixGamma(a) + "|" + FixGamma(b))
    ensures UpTo(LabelOf(Joint([a, b] + rest)).value, '|') == FixGamma(a)
    ensures SecondField(LabelOf(Joint([a, b] + rest)).value, '|') == Some(FixGamma(b))
  {
    var fa, fb := FixGamma(a), FixGamma(b);
    assert '|' !in fa && '|' !in fb;
    UpToPrefix(fa, "|" + fb, '|');
    var joined := fa + "|" + fb;
    assert joined[|fa| + 1..] == fb;
    UpToAll(fb, '|');
  }

  // ---- Default settings.

  /** The INCAR settings a frozen-phonon run needs. */
  const IncarUsuals: Settings := map[
    "encut" := IntV(500), "ibrion" := IntV(-1), "ediff" := StrV("1.0e-08"),
    "ialgo" := IntV(38), "ismear" := IntV(0), "lreal" := BoolV(false)]

  /** The phonopy settings every phonon stage starts from. */
  const PhononUsuals: Settings := map[
    "mesh" := ListV([IntV(13), IntV(13), IntV(13)]),
    "dim" := ListV([IntV(2), IntV(2), IntV(2)])]

  /** The user's settings with the defaults added where the user gave no
      value. */
  function WithDefaults(d: Settings, usuals: Settings): (r: Settings)
    ensures r.Keys == d.Keys + usuals.Keys
    ensures forall k | k in d :: r[k] == d[k]
    ensures forall k | k in usuals && k !in d :: r[k] == usuals[k]
  {
    map k | k in d.Keys + usuals.Keys :: if k in d then d[k] else usuals[k]
  }

  /** Adding the defaults a second time changes nothing; the calibration
      and modulation stages both update the same phonopy settings. */
  lemma WithDefaultsIdempotent(d: Settings, usuals: Settings)
    ensures WithDefaults(WithDefaults(d, usuals), usuals) == WithDefaults(d, usuals)
  {
    var once := WithDefaults(d, usuals);
    var twice := WithDefaults(once, usuals);
    assert twice.Keys == once.Keys;
    assert forall k | k in twice :: twice[k] == once[k];
  }

  /** The loop of `_update_incar` and `update_phonons`: each default, in
      the dictionary's order, is stored only when its key is absent. */
  method AddDefaults(d: Settings, usuals: Settings) returns (r: Settings)
    ensures r == WithDefaults(d, usuals)
  {
    r := d;
    var todo := usuals.Keys;
    while todo != {}
      invariant todo <= usuals.Keys
      invariant forall k | k in r :: k in d || (k in usuals && k !in todo)
      invariant forall k | k in usuals && k !in todo :: k in r
      invariant forall k | k in d :: k in r && r[k] == d[k]
      invariant forall k | k in usuals && k !in todo && k !in d :: r[k] == usuals[k]
      decreases |todo|
    {
      var k :| k in todo;
      if k !in r {
        r := r[k := usuals[k]];
      }
      todo := todo - {k};
    }
    SameSettings(r, WithDefaults(d, usuals));
  }

  lemma SameSettings(a: Settings, b: Settings)
    requires forall k | k in a :: k in b && a[k] == b[k]
    requires forall k | k in b :: k in a
    ensures a == b
  {
  }

  /** `update_phonons`: the phonopy settings with mesh 13x13x13 and
      supercell 2x2x2 unless given. */
  method UpdatePhonons(basic: Settings) returns (r: Settings)
    ensures r == WithDefaults(basic, PhononUsuals)
    ensures "mesh" in r && "dim" in r
    ensures "mesh" !in basic ==> r["mesh"] == ListV([IntV(13), IntV(13), IntV(13)])
    ensures "dim" !in basic ==> r["dim"] == ListV([IntV(2), IntV(2), IntV(2)])
  {
    r := AddDefaults(basic, PhononUsuals);
  }

  // ---- Turning phonopy's displaced structures into configurations.

  /** Which stage's loop runs over phonopy's structure files: the
      displacements `POSCAR-*` of the first stage, or the modulations
      `MPOSCAR-*` of the calibration and modulation stages. */
  datatype Mode = Displace | Calibrate | Modulate

  /** The unmodulated structure that phonopy writes beside the modulations. */
  const Orig := "MPOSCAR-orig"

  /** `int(name.split('-')[1])`: IndexError without a dash, ValueError when
      the field is not an integer. */
  function CidOf(name: string): (r: Result<int>)
    ensures r.Ok? ==> '-' in name
  {
    match SecondField(name, '-')
    case None => Err(IndexError)
    case Some(field) =>
      match ParseInt(field)
      case Some(n) => Ok(n)
      case None => Err(ValueError(field))
  }

  /** A structure file phonopy numbers with zero padding, such as
      `MPOSCAR-001`, parses to its number. */
  lemma CidOfNumbered(p: string, z: string, n: nat)
    requires '-' !in p
    requires forall i | 0 <= i < |z| :: z[i] == '0'
    ensures CidOf(p + "-" + z + IntToString(n)) == Ok(n)
  {
    var field := z + IntToString(n);
    var name := p + "-" + field;
    assert p + "-" + z + IntToString(n) == name;
    NumberedField(p, z, n);
    PaddedRoundTrip(z, n);
    assert SecondField(name, '-') == Some(field) && ParseInt(field) == Some(n);
  }

  /** The modulated structure `MPOSCAR-` plus a zero-padded number is not
      skipped and names the configuration of that number. */
  lemma NumberedItem(mode: Mode, z: string, n: nat)
    requires forall i | 0 <= i < |z| :: z[i] == '0'
    ensures ItemOf(mode, "MPOSCAR-" + z + IntToString(n)) == Item(false, Ok(n))
  {
    var field := z + IntToString(n);
    var name := "MPOSCAR-" + field;
    assert "MPOSCAR-" + z + IntToString(n) == name;
    assert name == "MPOSCAR" + "-" + z + IntToString(n);
    CidOfNumbered("MPOSCAR", z, n);
    NotOrig(field, z, n);
  }

  /** A numbered structure is not the unmodulated one. */
  lemma NotOrig(field: string, z: string, n: nat)
    requires forall i | 0 <= i < |z| :: z[i] == '0'
    requires field == z + IntToString(n)
    ensures "MPOSCAR-" + field != Orig
  {
    LeadingZeros(z, NatToString(n));
    assert IsDigit(field[0]);
    assert ("MPOSCAR-" + field)[8] == field[0];
    assert Orig[8] == 'o';
  }

  lemma NumberedField(p: string, z: string, n: nat)
    requires '-' !in p
    requires forall i | 0 <= i < |z| :: z[i] == '0'
    ensures SecondField(p + "-" + z + IntToString(n), '-') == Some(z + IntToString(n))
  {
    var field := z + IntToString(n);
    var name := p + "-" + field;
    assert p + "-" + z + IntToString(n) == name;
    assert '-' !in field by {
      DigitsHaveNoDash(z, n);
    }
    assert name == p + ['-'] + field;
    UpToPrefix(p, field, '-');
    var head := UpTo(name, '-');
    assert head == p;
    assert name[|head| + 1..] == field;
    UpToAll(field, '-');
    assert SecondField(name, '-') == Some(field);
  }

  lemma DigitsHaveNoDash(z: string, n: nat)
    requires forall i | 0 <= i < |z| :: z[i] == '0'
    ensures '-' !in z + IntToString(n)
  {
    var field := z + IntToString(n);
    LeadingZeros(z, NatToString(n));
    assert forall i | 0 <= i < |field| :: IsDigit(field[i]);
  }

  /** What one of those loops works on: the group's folder layout, the
      shared POTCAR its folders link to, and the calibration amplitudes
      (`_amplitudes`) by position. */
  datatype Plan = Plan(mode: Mode, root: Path, prefix: string, shared: Option<string>, levels: seq<real>)

  /** The state a loop builds: configurations, folders, calibration
      amplitudes by id, and the exception that ended it, if any. */
  datatype Made = Made(configs: map<int, Path>, folders: Folders, amplitudes: map<int, real>, error: Option<Error>)

  /** The effect of `create(atoms, cid)` on a leaf group. */
  function Created(plan: Plan, s: Made, cid: int): (r: Made)
    ensures r.configs == s.configs[cid := Join(plan.root, ConfigName(plan.prefix, cid))]
    ensures r.amplitudes == s.amplitudes && r.error == s.error
  {
    var target := Join(plan.root, ConfigName(plan.prefix, cid));
    var dir := if target in s.folders then s.folders[target] else map[];
    s.(configs := s.configs[cid := target], folders := s.folders[target := dir["POTCAR" := PotcarLink(plan.shared)]])
  }

  /** A structure file as the loop sees it: whether it is skipped (the
      unmodulated structure, in the modulation loops) and the id its name
      parses to. */
  datatype Item = Item(skip: bool, parsed: Result<int>)

  function ItemOf(mode: Mode, name: string): Item
  {
    Item(mode != Displace && name == Orig, CidOf(name))
  }

  function Items(mode: Mode, listing: seq<string>): (r: seq<Item>)
    ensures |r| == |listing| && forall i | 0 <= i < |listing| :: r[i] == ItemOf(mode, listing[i])
  {
    seq(|listing|, i requires 0 <= i < |listing| => ItemOf(mode, listing[i]))
  }

  /** The file at position `mi` is handled without an exception. */
  predicate Accepts(plan: Plan, item: Item, mi: nat)
  {
    item.skip || (item.parsed.Ok? && (plan.mode == Calibrate ==> mi < |plan.levels|))
  }

  /** One pass of the loop body on the file at position `mi`. The
      displacement loop parses the id, then creates the next default id;
      the other two skip the unmodulated structure and create the parsed
      id; calibration then stores the amplitude at position `mi`. */
  function Step(plan: Plan, s: Made, item: Item, mi: nat): (r: Made)
    ensures s.error.Some? ==> r == s
    ensures s.error.None? ==> (r.error.None? <==> Accepts(plan, item, mi))
  {
    if s.error.Some? || item.skip then s
    else
      match item.parsed
      case Err(e) => s.(error := Some(e))
      case Ok(cid) =>
        var id := if plan.mode == Displace then NextId(s.configs) else cid;
        var t := Created(plan, s, id);
        if plan.mode != Calibrate then t
        else if mi < |plan.levels| then t.(amplitudes := t.amplitudes[id := plan.levels[mi]])
        else t.(error := Some(IndexError))
  }

  /** The state after the loop has handled the first `k` files. */
  function MadeUpTo(plan: Plan, init: Made, items: seq<Item>, k: nat): Made
    requires k <= |items|
  {
    if k == 0 then init else Step(plan, MadeUpTo(plan, init, items, k - 1), items[k - 1], k - 1)
  }

  /** The ids the files not skipped name, among the first `k`. */
  function NamedIds(items: seq<Item>, k: nat): (r: set<int>)
    requires k <= |items|
  {
    set i | 0 <= i < k && !items[i].skip && items[i].parsed.Ok? :: items[i].parsed.value
  }

  /** The loop ends without an exception exactly when every file is
      handled without one. */
  lemma {:induction false} MadeErrorFree(plan: Plan, init: Made, items: seq<Item>, k: nat)
    requires init.error.None? && k <= |items|
    ensures MadeUpTo(plan, init, items, k).error.None? <==> forall i | 0 <= i < k :: Accepts(plan, items[i], i)
  {
    if k > 0 {
      MadeErrorFree(plan, init, items, k - 1);
    }
  }

  /** Every displaced structure gets a configuration of its own: the
      default ids never collide. */
  lemma {:induction false} DisplacedCount(plan: Plan, init: Made, items: seq<Item>, k: nat)
    requires plan.mode == Displace && init.error.None? && k <= |items|
    requires forall i | 0 <= i < k :: !items[i].skip
    requires MadeUpTo(plan, init, items, k).error.None?
    ensures |MadeUpTo(plan, init, items, k).configs| == |init.configs| + k
    ensures init.configs.Keys <= MadeUpTo(plan, init, items, k).configs.Keys
  {
    if k > 0 {
      var s := MadeUpTo(plan, init, items, k - 1);
      assert s.error.None?;
      DisplacedCount(plan, init, items, k - 1);
      var m := MadeUpTo(plan, init, items, k);
      assert m == Step(plan, s, items[k - 1], k - 1);
      DisplacedStep(plan, s, items[k - 1], k - 1);
      assert NextId(s.configs) !in s.configs;
    }
  }

  /** From no configurations, the displacement loop numbers its
      structures 1, 2, ... in order, so each default id is also
      `len(self.configs) + 1`, the id the code as written picks. */
  lemma {:induction false} DisplacedDense(plan: Plan, init: Made, items: seq<Item>, k: nat)
    requires plan.mode == Displace && init.error.None? && init.configs == map[] && k <= |items|
    requires forall i | 0 <= i < k :: !items[i].skip
    requires MadeUpTo(plan, init, items, k).error.None?
    ensures forall c :: c in MadeUpTo(plan, init, items, k).configs <==> 1 <= c <= k
    ensures NextId(MadeUpTo(plan, init, items, k).configs) == DefaultIdAsWritten(MadeUpTo(plan, init, items, k).configs) == k + 1
  {
    var m := MadeUpTo(plan, init, items, k);
    if k > 0 {
      var s := MadeUpTo(plan, init, items, k - 1);
      assert s.error.None?;
      DisplacedDense(plan, init, items, k - 1);
      assert m == Step(plan, s, items[k - 1], k - 1);
      DisplacedStep(plan, s, items[k - 1], k - 1);
      NextIdDense(s.configs, k - 1);
      forall c ensures c in m.configs <==> 1 <= c <= k {
        assert c in m.configs <==> c in s.configs || c == k;
      }
    }
    NextIdDense(m.configs, k);
  }

  /** One displacement step adds the next free id and nothing else. */
  lemma DisplacedStep(plan: Plan, s: Made, item: Item, mi: nat)
    requires plan.mode == Displace && s.error.None? && !item.skip
    requires Step(plan, s, item, mi).error.None?
    ensures Step(plan, s, item, mi).configs.Keys == s.configs.Keys + {NextId(s.configs)}
  {
    assert item.parsed.Ok?;
    assert Step(plan, s, item, mi) == Created(plan, s, NextId(s.configs));
  }

  /** The modulation loops create exactly the ids the files name, skipping
      the unmodulated structure. */
  lemma {:induction false} ModulatedIds(plan: Plan, init: Made, items: seq<Item>, k: nat)
    requires plan.mode != Displace && init.error.None? && k <= |items|
    requires MadeUpTo(plan, init, items, k).error.None?
    ensures MadeUpTo(plan, init, items, k).configs.Keys == init.configs.Keys + NamedIds(items, k)
  {
    if k > 0 {
      var s := MadeUpTo(plan, init, items, k - 1);
      assert s.error.None?;
      ModulatedIds(plan, init, items, k - 1);
      var m := MadeUpTo(plan, init, items, k);
      assert m == Step(plan, s, items[k - 1], k - 1);
      StepIds(plan, s, items[k - 1], k - 1);
      NamedIdsStep(items, k);
      assert m.configs.Keys == init.configs.Keys + NamedIds(items, k - 1) + StepNamed(items[k - 1]);
    }
  }

  /** Calibration gives an amplitude to exactly the ids the files name;
      modulation touches no amplitude. */
  lemma {:induction false} AmplitudeIds(plan: Plan, init: Made, items: seq<Item>, k: nat)
    requires plan.mode != Displace && init.error.None? && k <= |items|
    requires MadeUpTo(plan, init, items, k).error.None?
    ensures plan.mode == Calibrate ==>
              MadeUpTo(plan, init, items, k).amplitudes.Keys == init.amplitudes.Keys + NamedIds(items, k)
    ensures plan.mode == Modulate ==> MadeUpTo(plan, init, items, k).amplitudes == init.amplitudes
  {
    if k > 0 {
      var s := MadeUpTo(plan, init, items, k - 1);
      assert s.error.None?;
      AmplitudeIds(plan, init, items, k - 1);
      var m := MadeUpTo(plan, init, items, k);
      assert m == Step(plan, s, items[k - 1], k - 1);
      StepIds(plan, s, items[k - 1], k - 1);
      NamedIdsStep(items, k);
      if plan.mode == Calibrate {
        assert m.amplitudes.Keys == init.amplitudes.Keys + NamedIds(items, k - 1) + StepNamed(items[k - 1]);
      }
    }
  }

  /** The ids one error-free pass of a modulation loop adds. */
  function StepNamed(item: Item): set<int>
  {
    if item.skip || item.parsed.Err? then {} else {item.parsed.value}
  }

  lemma StepIds(plan: Plan, s: Made, item: Item, mi: nat)
    requires plan.mode != Displace && s.error.None? && Step(plan, s, item, mi).error.None?
    ensures Step(plan, s, item, mi).configs.Keys == s.configs.Keys + StepNamed(item)
    ensures plan.mode == Calibrate ==> Step(plan, s, item, mi).amplitudes.Keys == s.amplitudes.Keys + StepNamed(item)
    ensures plan.mode == Modulate ==> Step(plan, s, item, mi).amplitudes == s.amplitudes
  {
  }

  lemma NamedIdsStep(items: seq<Item>, k: nat)
    requires 0 < k <= |items|
    ensures NamedIds(items, k) == NamedIds(items, k - 1) + StepNamed(items[k - 1])
  {
    var named := NamedIds(items, k);
    var before := NamedIds(items, k - 1) + StepNamed(items[k - 1]);
    forall x | x in before ensures x in named {
      if x in NamedIds(items, k - 1) {
        var i :| 0 <= i < k - 1 && !items[i].skip && items[i].parsed.Ok? && items[i].parsed.value == x;
      }
    }
  }

  /** The amplitude a calibration configuration gets is the one at the
      position, in the sorted listing, of the last file that names it;
      the position counts the skipped unmodulated structure too. */
  lemma {:induction false} CalibratedAmplitude(plan: Plan, init: Made, items: seq<Item>, k: nat, i: nat)
    requires plan.mode == Calibrate && init.error.None? && i < k <= |items|
    requires MadeUpTo(plan, init, items, k).error.None?
    requires !items[i].skip && items[i].parsed.Ok?
    requires forall j | i < j < k :: items[j].skip || items[j].parsed != items[i].parsed
    ensures var m := MadeUpTo(plan, init, items, k);
            var cid := items[i].parsed.value;
            && i < |plan.levels| && cid in m.amplitudes && m.amplitudes[cid] == plan.levels[i]
            && cid in m.configs && m.configs[cid] == Join(plan.root, ConfigName(plan.prefix, cid))
  {
    var s := MadeUpTo(plan, init, items, k - 1);
    assert s.error.None?;
    if i < k - 1 {
      CalibratedAmplitude(plan, init, items, k - 1, i);
    }
  }

  /** Once the loop has raised, nothing further changes. */
  lemma {:induction false} MadeSettles(plan: Plan, init: Made, items: seq<Item>, k: nat, n: nat)
    requires k <= n <= |items|
    requires MadeUpTo(plan, init, items, k).error.Some?
    ensures MadeUpTo(plan, init, items, n) == MadeUpTo(plan, init, items, k)
    decreases n - k
  {
    if k < n {
      MadeSettles(plan, init, items, k + 1, n);
    }
  }

  // ---- Calibration amplitudes by id.

  /** NumPy's `a[k]` on a one-dimensional array: negative positions count
      from the end, others raise IndexError. */
  function NumpyAt(xs: seq<real>, k: int): (r: Result<real>)
    ensures r.Ok? <==> -|xs| <= k < |xs|
    ensures 0 <= k < |xs| ==> r == Ok(xs[k])
    ensures -|xs| <= k < 0 ==> r == Ok(xs[|xs| + k])
  {
    if 0 <= k < |xs| then Ok(xs[k])
    else if -|xs| <= k < 0 then Ok(xs[|xs| + k])
    else Err(IndexError)
  }

  /** The amplitudes the calibration constructor assigns: none unless all
      configurations are there; then configuration `cid` gets the amplitude
      at position `cid - 1`. */
  method InitialAmplitudes(configs: map<int, Path>, nconfigs: int, levels: seq<real>) returns (r: Result<map<int, real>>)
    ensures |configs| != nconfigs ==> r == Ok(map[])
    ensures |configs| == nconfigs ==> (r.Ok? <==> forall cid | cid in configs :: NumpyAt(levels, cid - 1).Ok?)
    ensures |configs| == nconfigs && r.Ok? ==>
              && r.value.Keys == configs.Keys
              && forall cid | cid in configs :: Ok(r.value[cid]) == NumpyAt(levels, cid - 1)
    ensures r.Err? ==> r.error == IndexError
  {
    if |configs| != nconfigs {
      return Ok(map[]);
    }
    var amplitudes: map<int, real> := map[];
    var todo := configs.Keys;
    while todo != {}
      invariant todo <= configs.Keys
      invariant forall cid | cid in amplitudes :: cid in configs && cid !in todo
      invariant forall cid | cid in configs && cid !in todo :: cid in amplitudes
      invariant forall cid | cid in amplitudes :: Ok(amplitudes[cid]) == NumpyAt(levels, cid - 1)
      decreases |todo|
    {
      var cid := Choose(todo);
      var a := NumpyAt(levels, cid - 1);
      if a.Err? {
        return Err(a.error);
      }
      amplitudes := amplitudes[cid := a.value];
      todo := todo - {cid};
    }
    assert todo == {};
    assert forall cid | cid in configs :: cid in amplitudes;
    assert amplitudes.Keys == configs.Keys;
    r := Ok(amplitudes);
  }

  /** When calibration has created the configurations of the files
      `MPOSCAR-001`, `MPOSCAR-002`, ... in order, the amplitudes the
      constructor assigns on reloading the stage are those `setup`
      assigned. */
  lemma ReloadAgreesWithSetup(plan: Plan, folders: Folders, items: seq<Item>, n: nat)
    requires plan.mode == Calibrate && n <= |items|
    requires forall i | 0 <= i < n :: items[i] == Item(false, Ok(i + 1))
    requires MadeUpTo(plan, Made(map[], folders, map[], None), items, n).error.None?
    ensures var m := MadeUpTo(plan, Made(map[], folders, map[], None), items, n);
            forall cid | cid in m.configs :: cid in m.amplitudes && NumpyAt(plan.levels, cid - 1) == Ok(m.amplitudes[cid])
  {
    var init := Made(map[], folders, map[], None);
    var m := MadeUpTo(plan, init, items, n);
    ModulatedIds(plan, init, items, n);
    forall cid | cid in m.configs
      ensures cid in m.amplitudes && NumpyAt(plan.levels, cid - 1) == Ok(m.amplitudes[cid])
    {
      assert cid in NamedIds(items, n);
      var i :| 0 <= i < n && !items[i].skip && items[i].parsed.Ok? && items[i].parsed.value == cid;
      assert i == cid - 1;
      CalibratedAmplitude(plan, init, items, n, i);
    }
  }

  // ---- Reading back the calibration runs.

  /** The loop over the configurations that reads each run's forces:
      `forces` holds the ids whose forces could be read, `failed` counts
      the others. */
  method ReadForces(configs: map<int, Path>, readable: set<Path>) returns (forces: set<int>, failed: nat)
    ensures forces == ConvertedIds(configs, readable)
    ensures failed + |forces| == |configs|
  {
    forces := {};
    failed := 0;
    var todo := configs.Keys;
    while todo != {}
      invariant todo <= configs.Keys
      invariant forces == set cid | cid in configs.Keys - todo && configs[cid] in readable
      invariant failed + |forces| == |configs.Keys - todo|
      decreases |todo|
    {
      var cid := Choose(todo);
      assert configs.Keys - (todo - {cid}) == (configs.Keys - todo) + {cid};
      if configs[cid] in readable {
        forces := forces + {cid};
      } else {
        failed := failed + 1;
      }
      todo := todo - {cid};
    }
    assert configs.Keys - todo == configs.Keys;
  }

  /** Writing `calibration.dat`: one line per configuration with forces,
      which looks up its amplitude and raises KeyError for the first one
      without. */
  method WriteCalibration(forces: set<int>, amplitudes: map<int, real>) returns (o: Outcome)
    ensures o == Pass <==> forces <= amplitudes.Keys
    ensures o.Raise? ==> exists cid | cid in forces && cid !in amplitudes :: o.error == KeyError(IntToString(cid))
  {
    var todo := forces;
    while todo != {}
      invariant todo <= forces
      invariant forall cid | cid in forces - todo :: cid in amplitudes
      decreases |todo|
    {
      var cid := Choose(todo);
      if cid !in amplitudes {
        assert cid in forces && cid !in amplitudes.Keys;
        return Raise(KeyError(IntToString(cid)));
      }
      todo := todo - {cid};
    }
    assert todo == {};
    assert forall cid | cid in forces :: cid in amplitudes;
    o := Pass;
  }

  /** The loop of a stage's `setup` over phonopy's structure files
      `listing`, run on leaf group `g`: creates a configuration for each
      file in turn; calibration also stores the amplitudes, starting from
      `amplitudes0`. `error` is what the loop raised. */
  method CreateAll(g: Group, mode: Mode, shared: Option<string>, levels: seq<real>,
                   amplitudes0: map<int, real>, listing: seq<string>)
    returns (amplitudes: map<int, real>, error: Option<Error>)
    requires g.sequence == []
    modifies g
    ensures var m := MadeUpTo(Plan(mode, g.root, g.prefix, shared, levels),
                              Made(old(g.configs), old(g.folders), amplitudes0, None),
                              Items(mode, listing), |listing|);
            g.configs == m.configs && g.folders == m.folders && amplitudes == m.amplitudes && error == m.error
    ensures g.scripts == old(g.scripts) && g.failures == old(g.failures)
    ensures g.outputs == old(g.outputs) && g.nsuccess == old(g.nsuccess)
  {
    var plan := Plan(mode, g.root, g.prefix, shared, levels);
    ghost var init := Made(g.configs, g.folders, amplitudes0, None);
    ghost var items := Items(mode, listing);
    amplitudes := amplitudes0;
    var mi := 0;
    while mi < |listing|
      invariant 0 <= mi <= |listing|
      invariant MadeUpTo(plan, init, items, mi) == Made(g.configs, g.folders, amplitudes, None)
      invariant g.scripts == old(g.scripts) && g.failures == old(g.failures)
      invariant g.outputs == old(g.outputs) && g.nsuccess == old(g.nsuccess)
    {
      assert items[mi] == ItemOf(mode, listing[mi]);
      amplitudes, error := CreateOne(g, plan, amplitudes, listing[mi], mi);
      if error.Some? {
        MadeSettles(plan, init, items, mi + 1, |listing|);
        return;
      }
      mi := mi + 1;
    }
    error := None;
  }

  /** One pass of that loop. */
  method CreateOne(g: Group, plan: Plan, amplitudes0: map<int, real>, name: string, mi: nat)
    returns (amplitudes: map<int, real>, error: Option<Error>)
    requires g.sequence == [] && plan.root == g.root && plan.prefix == g.prefix
    modifies g
    ensures Made(g.configs, g.folders, amplitudes, error)
              == Step(plan, Made(old(g.configs), old(g.folders), amplitudes0, None), ItemOf(plan.mode, name), mi)
    ensures g.scripts == old(g.scripts) && g.failures == old(g.failures)
    ensures g.outputs == old(g.outputs) && g.nsuccess == old(g.nsuccess)
  {
    amplitudes, error := amplitudes0, None;
    if plan.mode != Displace && name == Orig {
      return;
    }
    var cid := CidOf(name);
    if cid.Err? {
      return amplitudes, Some(cid.error);
    }
    var created := g.Create(if plan.mode == Displace then None else Some(cid.value), plan.shared);
    if plan.mode == Calibrate {
      if mi >= |plan.levels| {
        return amplitudes, Some(IndexError);
      }
      amplitudes := amplitudes[cid.value := plan.levels[mi]];
    }
  }

  // ---- The stages.

  /** What a stage's group finds on disk when it is built: the names the
      glob of its prefix yields in its root, its folders, scripts,
      failures file and the other files in its root. */
  datatype Disk = Disk(listing: seq<string>, folders: Folders, scripts: map<string, Script>,
                       failures: Option<string>, outputs: set<string>)

  /** `mkdir(d)` unless `d` is a directory already. */
  function WithDir(folders: Folders, d: Path): (r: Folders)
    ensures r.Keys == folders.Keys + {d}
    ensures forall f | f in folders :: r[f] == folders[f]
  {
    if d in folders then folders else folders[d := map[]]
  }

  /** The folders after a file `name` with contents `data` is written in
      directory `d`. */
  function WithFile(folders: Folders, d: Path, name: string, data: string): (r: Folders)
    ensures IsFile(r, d, name)
  {
    var dir := if d in folders then folders[d] else map[];
    folders[d := dir[name := File(data)]]
  }

  /** The displacement stage `phondft`: a leaf group with prefix `W` and no
      fixed number of configurations, whose phonopy runs happen in
      `phonopy` below its root. */
  class PhononDFT {
    const db: Group
    const phonodir: Path
    const phonocache: Path
    var incar: Settings

    predicate Valid()
    {
      db.sequence == [] && db.nconfigs.None? && phonodir == Join(db.root, "phonopy")
    }

    /** `__init__`: builds the group in `root/phondft`, makes the phonopy
        and cache directories, and adds the frozen-phonon INCAR defaults. */
    constructor (root: Path, execution: Settings, parentExecution: Settings, disk: Disk, incar: Settings)
      ensures Valid() && fresh(db)
      ensures db.root == Join(root, "phondft") && db.prefix == "W" && db.nconfigs == None
      ensures db.configs == Discovered(Join(root, "phondft"), "W", disk.listing)
      ensures db.folders == WithDir(WithDir(disk.folders, phonodir), phonocache)
      ensures phonocache == Join(db.root, "phoncache")
      ensures db.scripts == disk.scripts && db.failures == disk.failures
      ensures db.outputs == disk.outputs && db.nsuccess == 0
      ensures this.incar == WithDefaults(incar, IncarUsuals)
    {
      var dbRoot := Join(root, "phondft");
      var phono := Join(dbRoot, "phonopy");
      var cache := Join(dbRoot, "phoncache");
      db := new Group(dbRoot, "W", None, execution, parentExecution, [], disk.listing,
                      WithDir(WithDir(disk.folders, phono), cache), disk.scripts, disk.failures, disk.outputs);
      phonodir := phono;
      phonocache := cache;
      this.incar := incar;
      new;
      UpdateIncar();
    }

    /** `_update_incar`: the INCAR defaults, only where the user gave none. */
    method UpdateIncar()
      modifies this
      ensures incar == WithDefaults(old(incar), IncarUsuals)
      ensures incar["encut"] == (if "encut" in old(incar) then old(incar)["encut"] else IntV(500))
      ensures incar["ibrion"] == (if "ibrion" in old(incar) then old(incar)["ibrion"] else IntV(-1))
    {
      incar := AddDefaults(incar, IncarUsuals);
    }

    /** `ready`: the density of states `phonopy/mesh.yaml` exists. */
    predicate Ready(): (r: bool)
      reads db
      ensures r ==> phonodir in db.folders && "mesh.yaml" in db.folders[phonodir]
    {
      IsFile(db.folders, phonodir, "mesh.yaml")
    }

    /** `setup`. Nothing happens when the group is set up and no rerun is
        asked for, or when the stage is ready. Otherwise, when the
        configurations are not yet there, every displaced structure
        `displaced` (what the glob `POSCAR-*` yields after `phonopy -d`)
        has its id parsed and gets a configuration under the next free id;
        last, the job script is written. */
    method Setup(rerun: bool, shared: Option<string>, displaced: seq<string>) returns (o: Outcome)
      requires Valid()
      modifies db
      ensures (old(db.SetupDone()) && !rerun) || old(Ready()) ==>
                o == Pass && db.configs == old(db.configs) && db.folders == old(db.folders) && db.scripts == old(db.scripts)
      ensures !((old(db.SetupDone()) && !rerun) || old(Ready())) ==>
                var m := MadeUpTo(Plan(Displace, db.root, db.prefix, shared, []),
                                  Made(old(db.configs), old(db.folders), map[], None),
                                  Items(Displace, displaced), if old(db.SetupDone()) then 0 else |displaced|);
                && db.configs == m.configs && db.folders == m.folders
                && (m.error.Some? ==> o == Raise(m.error.value) && db.scripts == old(db.scripts))
                && (m.error.None? ==> (o, db.scripts) == db.AfterJobfile(old(db.scripts), rerun, false))
      ensures db.failures == old(db.failures) && db.outputs == old(db.outputs) && db.nsuccess == old(db.nsuccess)
    {
      var foldersOk := db.Setup();
      if foldersOk && !rerun {
        return Pass;
      }
      if Ready() {
        return Pass;
      }
      if !foldersOk {
        var amplitudes, error := CreateAll(db, Displace, shared, [], map[], displaced);
        if error.Some? {
          return Raise(error.value);
        }
      }
      o := db.Jobfile(rerun, false);
    }

    /** When `setup` creates the displaced structures the group has none
        yet, so they get the ids 1, 2, ... in order: the next free id and
        the `len(self.configs) + 1` of the code as written agree here. */
    lemma SetupNumbersFromOne(shared: Option<string>, displaced: seq<string>)
      requires Valid() && !db.SetupDone()
      ensures var m := MadeUpTo(Plan(Displace, db.root, db.prefix, shared, []),
                                Made(db.configs, db.folders, map[], None),
                                Items(Displace, displaced), |displaced|);
              m.error.None? ==> forall c :: c in m.configs <==> 1 <= c <= |displaced|
    {
      db.NotSetUpIsEmpty();
      var plan := Plan(Displace, db.root, db.prefix, shared, []);
      var init := Made(db.configs, db.folders, map[], None);
      var items := Items(Displace, displaced);
      if MadeUpTo(plan, init, items, |displaced|).error.None? {
        DisplacedDense(plan, init, items, |displaced|);
      }
    }

    /** `cleanup`. Without a clean base group nothing happens. Otherwise,
        unless the density of states is there and no recalculation is
        asked for, phonopy computes it (`dos` stands for the `mesh.yaml`
        it writes, None when it fails); the answer is whether the stage is
        now ready. */
    method Cleanup(recalc: bool, dos: Option<string>) returns (r: Option<bool>)
      requires Valid()
      modifies db
      ensures r.Some? <==> old(db.Cleanup())
      ensures r == Some(true) <==> old(db.Cleanup()) && (old(Ready()) || dos.Some?)
      ensures r.Some? ==> r.value == Ready()
      ensures db.folders == if old(db.Cleanup()) && !(old(Ready()) && !recalc) && dos.Some?
                            then WithFile(old(db.folders), phonodir, "mesh.yaml", dos.value)
                            else old(db.folders)
      ensures db.configs == old(db.configs) && db.scripts == old(db.scripts) && db.failures == old(db.failures)
      ensures db.outputs == old(db.outputs) && db.nsuccess == old(db.nsuccess)
    {
      var clean := db.Cleanup();
      if !clean {
        return None;
      }
      var ready := Ready();
      if !(ready && !recalc) && dos.Some? {
        var written := WithFile(db.folders, phonodir, "mesh.yaml", dos.value);
        db.folders := written;
        ready := true;
      }
      r := Some(ready);
    }
  }

  /** The calibration stage `phoncalib`: a leaf group with prefix `C`, one
      configuration per amplitude tried, on top of the displacement stage
      `base`. `levels` stands for the logarithmically spaced amplitudes
      `_amplitudes`; `amplitudes` maps configuration ids to the amplitude
      each was modulated with. */
  class PhononCalibration {
    const db: Group
    const base: PhononDFT
    const phonons: Settings
    const levels: seq<real>
    var amplitudes: map<int, real>

    predicate Valid()
    {
      db.sequence == [] && base.Valid()
    }

    constructor (db: Group, base: PhononDFT, phonons: Settings, levels: seq<real>, amplitudes: map<int, real>)
      requires db.sequence == [] && base.Valid()
      ensures Valid()
      ensures this.db == db && this.base == base && this.phonons == phonons
      ensures this.levels == levels && this.amplitudes == amplitudes
    {
      this.db := db;
      this.base := base;
      this.phonons := phonons;
      this.levels := levels;
      this.amplitudes := amplitudes;
    }

    /** `ready`: `calibration.dat` exists in the root. */
    predicate Ready(): (r: bool)
      reads db
      ensures r <==> "calibration.dat" in db.outputs
    {
      "calibration.dat" in db.outputs
    }

    /** `infer_amplitude`: no amplitude until the calibration is ready, and
        after that it raises, since automatic calibration is not
        implemented: no call ever yields an amplitude. */
    function InferAmplitude(): (r: Result<Option<real>>)
      reads db
      ensures r == Ok(None) <==> !Ready()
      ensures r.Err? <==> Ready()
      ensures r.Err? ==> r.error == NotImplementedError
      ensures r.Ok? ==> r.value.None?
    {
      if !Ready() then Ok(None) else Err(NotImplementedError)
    }

    /** `setup`. Nothing happens when the group is set up, the
        displacement stage is not ready, or this stage is ready.
        Otherwise every modulated structure of `modulated` (the sorted
        `MPOSCAR-*` names) but the unmodulated one gets the configuration
        its name gives and the amplitude at its position; last, the job
        script is written. */
    method Setup(shared: Option<string>, modulated: seq<string>) returns (o: Outcome)
      requires Valid()
      modifies this, db
      ensures old(db.SetupDone()) || !old(base.Ready()) || old(Ready()) ==>
                && o == Pass && db.configs == old(db.configs) && db.folders == old(db.folders)
                && db.scripts == old(db.scripts) && amplitudes == old(amplitudes)
      ensures !(old(db.SetupDone()) || !old(base.Ready()) || old(Ready())) ==>
                var m := MadeUpTo(Plan(Calibrate, db.root, db.prefix, shared, levels),
                                  Made(old(db.configs), old(db.folders), old(amplitudes), None),
                                  Items(Calibrate, modulated), |modulated|);
                && db.configs == m.configs && db.folders == m.folders && amplitudes == m.amplitudes
                && (m.error.Some? ==> o == Raise(m.error.value) && db.scripts == old(db.scripts))
                && (m.error.None? ==> (o, db.scripts) == db.AfterJobfile(old(db.scripts), false, false))
      ensures db.failures == old(db.failures) && db.outputs == old(db.outputs) && db.nsuccess == old(db.nsuccess)
    {
      var done := db.Setup();
      if done || !base.Ready() || Ready() {
        return Pass;
      }
      var error;
      amplitudes, error := CreateAll(db, Calibrate, shared, levels, amplitudes, modulated);
      if error.Some? {
        return Raise(error.value);
      }
      o := db.Jobfile(false, false);
    }

    /** `cleanup`. False unless the base group is clean and every run
        converts (`converted` stands for the folders the converter
        accepts). Then the forces of the runs in `readable` are read; with
        some, `calibration.dat` is written, one amplitude per run, raising
        KeyError for a run without one; the answer is whether more than
        three runs gave forces. */
    method Cleanup(converted: set<Path>, readable: set<Path>) returns (r: Result<bool>)
      requires Valid()
      modifies db
      ensures !old(db.Cleanup()) ==> r == Ok(false) && db.nsuccess == old(db.nsuccess) && db.outputs == old(db.outputs)
      ensures old(db.Cleanup()) ==> db.nsuccess == |ConvertedIds(db.configs, converted)|
      ensures old(db.Cleanup()) && !(forall cid | cid in db.configs :: db.configs[cid] in converted) ==>
                r == Ok(false) && db.outputs == old(db.outputs)
      ensures old(db.Cleanup()) && (forall cid | cid in db.configs :: db.configs[cid] in converted) ==>
                var forces := ConvertedIds(db.configs, readable);
                && db.outputs == (if |forces| > 0 then old(db.outputs) + {"calibration.dat"} else old(db.outputs))
                && (forces <= amplitudes.Keys ==> r == Ok(|forces| > 3))
                && (!(forces <= amplitudes.Keys) ==>
                      exists cid | cid in forces && cid !in amplitudes :: r == Err(KeyError(IntToString(cid))))
      ensures r == Ok(true) ==> Ready()
      ensures db.configs == old(db.configs) && db.folders == old(db.folders)
      ensures db.scripts == old(db.scripts) && db.failures == old(db.failures)
    {
      if !db.Cleanup() {
        return Ok(false);
      }
      var success := db.Xyz(converted, false, "output.xyz");
      if !success {
        return Ok(false);
      }
      var forces, failed := ReadForces(db.configs, readable);
      if |forces| > 0 {
        db.outputs := db.outputs + {"calibration.dat"};
        var written := WriteCalibration(forces, amplitudes);
        if written.Raise? {
          return Err(written.error);
        }
      }
      r := Ok(|forces| > 3);
    }
  }

  /** `PhononCalibration.__init__`: builds the group in `root/phoncalib`
      with `nconfigs` configurations, adds the phonopy defaults, and, when
      all configurations are there already, gives configuration `cid` the
      amplitude at position `cid - 1`. NumPy refuses a negative number of
      amplitudes. */
  method NewCalibration(root: Path, execution: Settings, parentExecution: Settings, disk: Disk,
                        base: PhononDFT, phonons: Settings, nconfigs: int, levels: seq<real>)
    returns (r: Result<PhononCalibration>)
    requires base.Valid()
    requires nconfigs >= 0 ==> |levels| == nconfigs
    ensures nconfigs < 0 ==> r.Err? && r.error.ValueError?
    ensures var configs := Discovered(Join(root, "phoncalib"), "C", disk.listing);
            && (nconfigs >= 0 && |configs| != nconfigs ==> r.Ok? && r.value.amplitudes == map[])
            && (nconfigs >= 0 && |configs| == nconfigs ==>
                  (r.Ok? <==> forall cid | cid in configs :: NumpyAt(levels, cid - 1).Ok?))
            && (r.Ok? && |configs| == nconfigs ==>
                  && r.value.amplitudes.Keys == configs.Keys
                  && forall cid | cid in configs :: Ok(r.value.amplitudes[cid]) == NumpyAt(levels, cid - 1))
            && (r.Ok? ==> r.value.db.configs == configs)
    ensures r.Err? ==> r.error.ValueError? || r.error == IndexError
    ensures nconfigs >= 0 && r.Err? ==> r.error == IndexError
    ensures r.Ok? ==>
              && fresh(r.value) && fresh(r.value.db) && r.value.Valid() && r.value.base == base
              && r.value.db.root == Join(root, "phoncalib") && r.value.db.prefix == "C"
              && r.value.db.nconfigs == Some(nconfigs) && r.value.levels == levels
              && r.value.phonons == WithDefaults(phonons, PhononUsuals)
              && r.value.db.folders == disk.folders && r.value.db.outputs == disk.outputs
              && r.value.db.scripts == disk.scripts && r.value.db.failures == disk.failures
  {
    var dbRoot := Join(root, "phoncalib");
    var g := new Group(dbRoot, "C", Some(nconfigs), execution, parentExecution, [], disk.listing,
                       disk.folders, disk.scripts, disk.failures, disk.outputs);
    var settings := UpdatePhonons(phonons);
    if nconfigs < 0 {
      return Err(ValueError("Number of samples must be non-negative"));
    }
    var amplitudes := InitialAmplitudes(g.configs, nconfigs, levels);
    if amplitudes.Err? {
      return Err(amplitudes.error);
    }
    var c := new PhononCalibration(g, base, settings, levels, amplitudes.value);
    r := Ok(c);
  }

  /** The modulation stage `phonons`: a leaf group with prefix `M`, on top
      of the displacement stage `base`, modulating with `amplitude`, which
      comes from `calibrator` when calibration was asked for. */
  class PhononDatabase {
    const db: Group
    const base: PhononDFT
    const calibrator: Option<PhononCalibration>
    const amplitude: Option<real>
    const calibrate: bool
    const sampling: string
    const phonons: Settings

    predicate Valid()
    {
      db.sequence == [] && base.Valid()
    }

    constructor (db: Group, base: PhononDFT, calibrator: Option<PhononCalibration>, amplitude: Option<real>,
                 calibrate: bool, sampling: string, phonons: Settings)
      requires db.sequence == [] && base.Valid()
      ensures Valid()
      ensures this.db == db && this.base == base && this.calibrator == calibrator
      ensures this.amplitude == amplitude && this.calibrate == calibrate
      ensures this.sampling == sampling && this.phonons == phonons
    {
      this.db := db;
      this.base := base;
      this.calibrator := calibrator;
      this.amplitude := amplitude;
      this.calibrate := calibrate;
      this.sampling := sampling;
      this.phonons := phonons;
    }

    /** `ready`: the combined `output.xyz` exists in the root and every
        configuration was converted by the last `xyz`. */
    predicate Ready(): (r: bool)
      reads db
      ensures r ==> "output.xyz" in db.outputs
      ensures r ==> db.nsuccess == |db.configs|
    {
      "output.xyz" in db.outputs && |db.configs| == db.nsuccess
    }

    /** `cleanup`: nothing without a clean base group; otherwise `xyz`,
        whose answer is returned. `xyz` is called without `combine`, so the
        combined file is not written here, and the stage is ready after
        cleanup exactly when that file was there before and every run
        converted. */
    method Cleanup(converted: set<Path>) returns (r: Option<bool>)
      requires Valid()
      modifies db
      ensures r.Some? <==> old(db.Cleanup())
      ensures r.Some? ==> (r.value <==> forall cid | cid in db.configs :: db.configs[cid] in converted)
      ensures r.Some? ==> db.nsuccess == |ConvertedIds(db.configs, converted)|
      ensures r.None? ==> db.nsuccess == old(db.nsuccess)
      ensures r.Some? ==> (Ready() <==> "output.xyz" in old(db.outputs) && r.value)
      ensures db.outputs == old(db.outputs)
      ensures db.configs == old(db.configs) && db.folders == old(db.folders)
      ensures db.scripts == old(db.scripts) && db.failures == old(db.failures)
    {
      if !db.Cleanup() {
        return None;
      }
      var converts := db.Xyz(converted, false, "output.xyz");
      r := Some(converts);
    }

    /** `setup`. Nothing happens when the group is set up, the
        displacement stage is not ready, or there is no amplitude (which,
        under calibration, is always the case). Otherwise every modulated
        structure of `modulated` (the sorted `MPOSCAR-*` names) but the
        unmodulated one gets the configuration its name gives; last, the
        job script is written. */
    method Setup(shared: Option<string>, modulated: seq<string>) returns (o: Outcome)
      requires Valid()
      modifies db
      ensures old(db.SetupDone()) || !old(base.Ready()) || amplitude.None? ==>
                && o == Pass && db.configs == old(db.configs) && db.folders == old(db.folders)
                && db.scripts == old(db.scripts)
      ensures !(old(db.SetupDone()) || !old(base.Ready()) || amplitude.None?) ==>
                var m := MadeUpTo(Plan(Modulate, db.root, db.prefix, shared, []),
                                  Made(old(db.configs), old(db.folders), map[], None),
                                  Items(Modulate, modulated), |modulated|);
                && db.configs == m.configs && db.folders == m.folders
                && (m.error.Some? ==> o == Raise(m.error.value) && db.scripts == old(db.scripts))
                && (m.error.None? ==> (o, db.scripts) == db.AfterJobfile(old(db.scripts), false, false))
      ensures db.failures == old(db.failures) && db.outputs == old(db.outputs) && db.nsuccess == old(db.nsuccess)
    {
      var done := db.Setup();
      if done || !base.Ready() || amplitude.None? {
        return Pass;
      }
      var amplitudes, error := CreateAll(db, Modulate, shared, [], map[], modulated);
      if error.Some? {
        return Raise(error.value);
      }
      o := db.Jobfile(false, false);
    }
  }

  /** The calibration stage the modulation stage builds for itself, with
      `calibrate` (True, which Python counts as 1) as its number of
      configurations, so that `_amplitudes` is the single amplitude 1.0,
      followed by `infer_amplitude`, which raises once calibration is
      ready. */
  method NewCalibrator(root: Path, execution: Settings, parentExecution: Settings, calibDisk: Disk,
                       base: PhononDFT, phonons: Settings)
    returns (r: Result<PhononCalibration>)
    requires base.Valid()
    ensures "calibration.dat" in calibDisk.outputs ==> r.Err?
    ensures r.Err? ==> r.error == NotImplementedError || r.error == IndexError
    ensures r.Ok? ==>
              && fresh(r.value) && r.value.Valid() && r.value.base == base
              && r.value.db.nconfigs == Some(1) && r.value.levels == [1.0]
              && !r.value.Ready() && r.value.InferAmplitude() == Ok(None)
  {
    var c := NewCalibration(root, execution, parentExecution, calibDisk, base, phonons, 1, [1.0]);
    if c.Err? {
      return Err(c.error);
    }
    var inferred := c.value.InferAmplitude();
    if inferred.Err? {
      return Err(inferred.error);
    }
    r := Ok(c.value);
  }

  /** `PhononDatabase.__init__`: builds the group in `root/phonons`. With
      calibration asked for and no amplitude given, it builds the
      calibration stage (from `calibDisk`) and takes the amplitude
      `infer_amplitude` gives, which is never a value. Otherwise it uses
      the amplitude given. Last it adds the phonopy defaults. */
  method NewDatabase(root: Path, execution: Settings, parentExecution: Settings, disk: Disk, calibDisk: Disk,
                     base: PhononDFT, phonons: Settings, nconfigs: int, calibrate: bool,
                     amplitude: Option<real>, sampling: string)
    returns (r: Result<PhononDatabase>)
    requires base.Valid()
    ensures calibrate && amplitude.None? && r.Ok? ==>
              && r.value.amplitude.None? && r.value.calibrator.Some?
              && r.value.calibrator.value.db.nconfigs == Some(1)
              && r.value.calibrator.value.levels == [1.0]
              && !r.value.calibrator.value.Ready()
    ensures calibrate && amplitude.None? && "calibration.dat" in calibDisk.outputs ==> r.Err?
    ensures r.Err? ==> r.error == NotImplementedError || r.error == IndexError
    ensures !(calibrate && amplitude.None?) ==>
              r.Ok? && r.value.amplitude == amplitude && r.value.calibrator.None?
    ensures r.Ok? ==>
              && fresh(r.value) && fresh(r.value.db) && r.value.Valid() && r.value.base == base
              && r.value.db.root == Join(root, "phonons") && r.value.db.prefix == "M"
              && r.value.db.nconfigs == Some(nconfigs) && r.value.calibrate == calibrate
              && r.value.db.configs == Discovered(Join(root, "phonons"), "M", disk.listing)
              && r.value.phonons == WithDefaults(phonons, PhononUsuals)
  {
    var dbRoot := Join(root, "phonons");
    var g := new Group(dbRoot, "M", Some(nconfigs), execution, parentExecution, [], disk.listing,
                       disk.folders, disk.scripts, disk.failures, disk.outputs);
    var calibrator: Option<PhononCalibration> := None;
    var chosen := amplitude;
    if calibrate && amplitude.None? {
      var c := NewCalibrator(root, execution, parentExecution, calibDisk, base, phonons);
      if c.Err? {
        return Err(c.error);
      }
      calibrator := Some(c.value);
      chosen := None;
    }
    var settings := UpdatePhonons(phonons);
    var d := new PhononDatabase(g, base, calibrator, chosen, calibrate, sampling, settings);
    r := Ok(d);
  }
}
