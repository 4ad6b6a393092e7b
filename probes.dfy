/** The file probes through which the lifecycle infers what an external DFT
    run is doing: "are the inputs present and non-trivial", "does the output
    report a terminal state". A probe reads only the directory state given
    to it. */
module Probes {
  import opened Values
  import opened Text

  type Path = string

  /** An entry of a directory: a regular file with its contents, a
      sub-directory, or a symbolic link whose target is missing. */
  datatype Entry = File(data: string) | SubDir | BrokenLink

  type Dir = map<string, Entry>

  /** The directories on disk, by full path. */
  type Folders = map<Path, Dir>

  /** Inputs of at most this many bytes count as truncated. */
  const MinInputSize := 25

  /** The token whose last occurrence marks the final energy report. */
  const Marker := "free  energy"

  /** `os.path.join(root, name)` for a relative `name`: no separator is
      added after a root that already ends in one.  Join's rule that an
      absolute `name` replaces `root` is not modelled; every name joined
      here is a relative file or folder name. */
  function Join(root: Path, name: string): Path
  {
    if root == "" then name
    else if root[|root| - 1] == '/' then root + name
    else root + "/" + name
  }

  /** `os.path.isfile(join(folder, name))`. */
  predicate IsFile(folders: Folders, folder: Path, name: string)
  {
    folder in folders && name in folders[folder] && folders[folder][name].File?
  }

  function FileText(folders: Folders, folder: Path, name: string): string
    requires IsFile(folders, folder, name)
  {
    folders[folder][name].data
  }

  /** A regular file larger than the truncation threshold. */
  predicate LargeFile(d: Dir, name: string)
  {
    name in d && d[name].File? && |d[name].data| > MinInputSize
  }

  /** The folder exists and every required input is a regular file larger
      than the threshold. */
  predicate InputsPresent(folders: Folders, folder: Path, required: seq<string>)
  {
    folder in folders && forall i | 0 <= i < |required| :: LargeFile(folders[folder], required[i])
  }

  /** `can_execute`: records in `present` whether each required input is a
      large enough regular file, then answers whether all of them are. */
  method CanExecute(folders: Folders, folder: Path, required: seq<string>) returns (ok: bool)
    ensures ok == InputsPresent(folders, folder, required)
  {
    if folder !in folders {
      return false;
    }
    var d := folders[folder];
    var present: map<string, bool> := map[];
    var i := 0;
    while i < |required|
      invariant 0 <= i <= |required|
      invariant forall j | 0 <= j < i :: required[j] in present
      invariant forall r | r in present :: present[r] == LargeFile(d, r)
      invariant forall r | r in present :: exists j | 0 <= j < i :: required[j] == r
    {
      var target := required[i];
      present := present[target := LargeFile(d, target)];
      i := i + 1;
    }
    ok := forall r | r in present :: present[r];
    assert ok ==> forall j | 0 <= j < |required| :: present[required[j]];
  }

  /** The line of the last marker occurrence, as `rfind` followed by a seek
      and `readline` gives it; None when there is no occurrence after
      offset 0. */
  function MarkerLine(text: string): (r: Option<string>)
    ensures r.Some? ==> RFind(text, Marker) > 0
  {
    var i := RFind(text, Marker);
    if i > 0 then Some(LineFrom(text, i)) else None
  }

  /** The marker line reports a final energy or a terminating error. */
  predicate ReportsEnd(line: string)
  {
    Contains(line, "TOTEN") || Contains(line, "Error")
  }

  /** The output text shows that the run has reached a terminal state. */
  predicate Finished(text: string)
  {
    var line := MarkerLine(text);
    line.Some? && ReportsEnd(line.value)
  }

  /** The output file `out` exists and reports a terminal state. */
  predicate OutputFinished(folders: Folders, folder: Path, out: string)
  {
    IsFile(folders, folder, out) && Finished(FileText(folders, folder, out))
  }

  /** The output file `out` exists but does not yet report a terminal state. */
  predicate OutputRunning(folders: Folders, folder: Path, out: string)
  {
    IsFile(folders, folder, out) && !OutputFinished(folders, folder, out)
  }

  /** A run is never both running and finished, and without its output file
      it is neither. */
  lemma RunningExcludesFinished(folders: Folders, folder: Path, out: string)
    ensures !(OutputRunning(folders, folder, out) && OutputFinished(folders, folder, out))
    ensures !IsFile(folders, folder, out) ==>
              !OutputRunning(folders, folder, out) && !OutputFinished(folders, folder, out)
    ensures IsFile(folders, folder, out) ==>
              (OutputRunning(folders, folder, out) <==> !OutputFinished(folders, folder, out))
  {
  }

  /** Only the last marker occurrence counts: whatever precedes it, even an
      earlier line that reported TOTEN, the verdict is that of the last
      marker line. */
  lemma OnlyLastMarkerCounts(earlier: string, last: string)
    requires |earlier| > 0
    requires OccursAt(last, Marker, 0)
    requires forall j | 0 < j <= |last| - |Marker| :: !OccursAt(last, Marker, j)
    ensures Finished(earlier + last) == ReportsEnd(LineFrom(last, 0))
  {
    LastOccurrenceLine(earlier, last, Marker);
    FinishedAt(earlier + last, |earlier|, LineFrom(last, 0));
  }

  /** Where the last marker sits past offset 0, the verdict is that of its
      line. */
  lemma FinishedAt(text: string, i: int, line: string)
    requires RFind(text, Marker) == i && 0 < i <= |text|
    requires LineFrom(text, i) == line
    ensures Finished(text) == ReportsEnd(line)
  {
  }

  /** The line `readline` gives at the last occurrence, when `last` begins
      with the pattern and holds no later occurrence, is the first line of
      `last`. */
  lemma LastOccurrenceLine(earlier: string, last: string, pat: string)
    requires OccursAt(last, pat, 0)
    requires forall j | 0 < j <= |last| - |pat| :: !OccursAt(last, pat, j)
    ensures RFind(earlier + last, pat) == |earlier|
    ensures LineFrom(earlier + last, |earlier|) == LineFrom(last, 0)
  {
    RFindAfter(earlier, last, pat);
    LineFromShift(earlier, last, 0);
  }

  /** The last occurrence in `earlier + last`, when `last` begins with the
      pattern and holds no later occurrence, is where `last` begins. */
  lemma RFindAfter(earlier: string, last: string, pat: string)
    requires OccursAt(last, pat, 0)
    requires forall j | 0 < j <= |last| - |pat| :: !OccursAt(last, pat, j)
    ensures RFind(earlier + last, pat) == |earlier|
  {
    OccursShift(earlier, last, pat);
    NoneAfterShift(earlier, last, pat);
    RFindLast(earlier + last, pat, |earlier|);
  }

  lemma OccursShift(earlier: string, last: string, pat: string)
    requires OccursAt(last, pat, 0)
    ensures OccursAt(earlier + last, pat, |earlier|)
  {
    var s := earlier + last;
    var n := |earlier|;
    assert s[n..n + |pat|] == last[0..|pat|];
  }

  lemma NoneAfterShift(earlier: string, last: string, pat: string)
    requires forall j | 0 < j <= |last| - |pat| :: !OccursAt(last, pat, j)
    ensures forall j | |earlier| < j <= |earlier + last| - |pat| :: !OccursAt(earlier + last, pat, j)
  {
    var s := earlier + last;
    var n := |earlier|;
    forall j | n < j <= |s| - |pat| ensures !OccursAt(s, pat, j) {
      assert s[j..j + |pat|] == last[j - n..j - n + |pat|];
      assert !OccursAt(last, pat, j - n);
    }
  }

  /** An occurrence with none after it is what `rfind` finds. */
  lemma RFindLast(s: string, pat: string, n: int)
    requires OccursAt(s, pat, n)
    requires forall j | n < j <= |s| - |pat| :: !OccursAt(s, pat, j)
    ensures RFind(s, pat) == n
  {
  }

  /** A marker at the very start of the file is ignored (`i > 0`). */
  lemma MarkerAtStartIgnored(text: string)
    requires OccursAt(text, Marker, 0)
    requires forall j | 0 < j <= |text| - |Marker| :: !OccursAt(text, Marker, j)
    ensures !Finished(text)
  {
    assert RFind(text, Marker) == 0;
  }

  /** Without any marker there is no verdict: the run is unfinished. */
  lemma NoMarkerUnfinished(text: string)
    requires !Contains(text, Marker)
    ensures !Finished(text)
  {
  }

  /** The module-level `can_cleanup` of the database code: a first pass
      accepts a marker line holding TOTEN; failing that, a second pass
      re-reads the same line and accepts one holding Error. */
  predicate TwoPassFinished(text: string)
  {
    var first := MarkerLine(text);
    if first.Some? && Contains(first.value, "TOTEN") then true
    else
      var second := MarkerLine(text);
      second.Some? && Contains(second.value, "Error")
  }

  /** Both passes read the same line, so the two-pass probe agrees with the
      one-pass probe of the calculators. */
  lemma TwoPassAgrees(text: string)
    ensures TwoPassFinished(text) == Finished(text)
  {
  }

  // ---- The probes as written: `stat` before `isfile`, `mmap` of the output.

  /** `stat(target).st_size > 25` runs before `isfile(target)` for every
      required input in turn, so the first input that is missing (or a link
      to nothing) raises OSError instead of counting as absent. */
  function StatFirstInputsPresent(folders: Folders, folder: Path, required: seq<string>): (r: Result<bool>)
    ensures r.Err? <==> folder in folders && exists i | 0 <= i < |required| :: !Statable(folders[folder], required[i])
    ensures r.Err? ==> exists i | 0 <= i < |required| :: r.error == OSError(required[i])
    ensures r == Ok(true) ==> InputsPresent(folders, folder, required)
  {
    if folder !in folders then Ok(false) else StatEach(folders[folder], required)
  }

  function StatEach(d: Dir, required: seq<string>): (r: Result<bool>)
    ensures r.Err? <==> exists i | 0 <= i < |required| :: !Statable(d, required[i])
    ensures r.Err? ==> exists i | 0 <= i < |required| :: r.error == OSError(required[i])
    ensures r == Ok(true) ==> forall i | 0 <= i < |required| :: LargeFile(d, required[i])
    decreases |required|
  {
    if required == [] then Ok(true)
    else
      var target := required[0];
      if target !in d || d[target].BrokenLink? then Err(OSError(target))
      else
        match StatEach(d, required[1..])
        case Ok(rest) => Ok(LargeFile(d, target) && rest)
        case Err(e) => Err(e)
  }

  predicate Statable(d: Dir, name: string)
  {
    name in d && !d[name].BrokenLink?
  }

  /** Where every input can be stat-ed, the as-written probe answers as the
      corrected one. */
  lemma {:induction false} StatEachAgrees(d: Dir, required: seq<string>)
    requires forall i | 0 <= i < |required| :: Statable(d, required[i])
    ensures StatEach(d, required) == Ok(forall i | 0 <= i < |required| :: LargeFile(d, required[i]))
    decreases |required|
  {
    if required != [] {
      StatEachAgrees(d, required[1..]);
      var all := forall i | 0 <= i < |required| :: LargeFile(d, required[i]);
      var rest := forall i | 0 <= i < |required[1..]| :: LargeFile(d, required[1..][i]);
      assert all == (LargeFile(d, required[0]) && rest) by {
        if LargeFile(d, required[0]) && rest {
          forall i | 0 <= i < |required| ensures LargeFile(d, required[i]) {
            if i > 0 { assert required[i] == required[1..][i - 1]; }
          }
        }
      }
    }
  }

  lemma StatFirstAgrees(folders: Folders, folder: Path, required: seq<string>)
    requires folder in folders ==> forall i | 0 <= i < |required| :: Statable(folders[folder], required[i])
    ensures StatFirstInputsPresent(folders, folder, required) == Ok(InputsPresent(folders, folder, required))
  {
    if folder in folders {
      StatEachAgrees(folders[folder], required);
    }
  }

  /** A folder that holds every input but the first is reported by the
      corrected probe as not ready, while the as-written probe raises. */
  lemma {:induction false} StatFirstRaisesOnMissingInput(folders: Folders, folder: Path, required: seq<string>)
    requires folder in folders && |required| > 0 && required[0] !in folders[folder]
    ensures StatFirstInputsPresent(folders, folder, required) == Err(OSError(required[0]))
    ensures !InputsPresent(folders, folder, required)
  {
  }

  /** `mmap` of a zero-length output file raises ValueError; otherwise the
      mapped text is probed. */
  function MappedFinished(text: string): (r: Result<bool>)
    ensures r.Err? <==> text == ""
    ensures r.Ok? ==> r.value == Finished(text)
  {
    if text == "" then Err(ValueError("cannot mmap an empty file")) else Ok(Finished(text))
  }

  /** An output file that exists but is still empty is, by the corrected
      probe, an unfinished run; the as-written probe raises on it. */
  lemma MappedEmptyRaises()
    ensures MappedFinished("").Err?
    ensures !Finished("")
  {
    NoMarkerUnfinished("");
  }

  lemma MappedAgrees(text: string)
    requires text != ""
    ensures MappedFinished(text) == Ok(Finished(text))
  {
  }
}
