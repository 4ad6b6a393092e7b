/** The probes of the asynchronous VASP calculator: whether a folder holds
    the four VASP inputs, whether its OUTCAR reports a terminal state, and
    whether the run is still going. */
module Vasp {
  import opened Values
  import opened Text
  import opened Probes

  /** The inputs VASP needs in its folder. */
  const Inputs: seq<string> := ["INCAR", "POSCAR", "KPOINTS", "POTCAR"]

  /** The output file whose energy reports mark the end of a run. */
  const Outcar := "OUTCAR"

  /** `can_execute`: the folder is a directory holding each of the four
      inputs as a regular file larger than the truncation threshold. */
  method CanExecute(folders: Folders, folder: Path) returns (ok: bool)
    ensures folder !in folders ==> !ok
    ensures folder in folders ==>
              (ok <==> LargeFile(folders[folder], "INCAR") && LargeFile(folders[folder], "POSCAR") &&
                       LargeFile(folders[folder], "KPOINTS") && LargeFile(folders[folder], "POTCAR"))
  {
    ok := Probes.CanExecute(folders, folder, Inputs);
    if folder in folders {
      assert Inputs[0] == "INCAR" && Inputs[1] == "POSCAR" && Inputs[2] == "KPOINTS" && Inputs[3] == "POTCAR";
    }
  }

  /** `can_cleanup`: the folder's OUTCAR exists and its last marker line
      (past offset 0) holds TOTEN or Error. */
  function CanCleanup(folders: Folders, folder: Path): (r: bool)
    ensures folder !in folders ==> !r
    ensures !IsFile(folders, folder, Outcar) ==> !r
    ensures r <==> IsFile(folders, folder, Outcar) &&
                   var line := MarkerLine(FileText(folders, folder, Outcar));
                   line.Some? && ReportsEnd(line.value)
  {
    folder in folders && OutputFinished(folders, folder, Outcar)
  }

  /** `is_executing`: OUTCAR exists but does not yet report a terminal
      state. */
  function IsExecuting(folders: Folders, folder: Path): (r: bool)
    ensures r ==> IsFile(folders, folder, Outcar)
  {
    IsFile(folders, folder, Outcar) && !CanCleanup(folders, folder)
  }

  /** A run is never both executing and ready for cleanup; without OUTCAR it
      is neither; with OUTCAR it is exactly one of the two. */
  lemma ExecutingExcludesCleanup(folders: Folders, folder: Path)
    ensures !(IsExecuting(folders, folder) && CanCleanup(folders, folder))
    ensures !IsFile(folders, folder, Outcar) ==> !IsExecuting(folders, folder) && !CanCleanup(folders, folder)
    ensures IsFile(folders, folder, Outcar) ==> (IsExecuting(folders, folder) <==> !CanCleanup(folders, folder))
  {
  }

  /** An OUTCAR whose last marker line is `last`'s first line is judged by
      that line alone, whatever earlier energy reports precede it. */
  lemma LastReportDecides(folders: Folders, folder: Path, earlier: string, last: string)
    requires folder in folders && Outcar in folders[folder]
    requires folders[folder][Outcar] == File(earlier + last)
    requires |earlier| > 0
    requires OccursAt(last, Marker, 0)
    requires forall j | 0 < j <= |last| - |Marker| :: !OccursAt(last, Marker, j)
    ensures CanCleanup(folders, folder) == ReportsEnd(LineFrom(last, 0))
  {
    OnlyLastMarkerCounts(earlier, last);
    ProbeOfText(folders, folder, earlier + last);
  }

  /** The probe of a folder is the probe of the text of its OUTCAR. */
  lemma ProbeOfText(folders: Folders, folder: Path, text: string)
    requires folder in folders && Outcar in folders[folder] && folders[folder][Outcar] == File(text)
    ensures CanCleanup(folders, folder) == Finished(text)
  {
  }

  /** An OUTCAR without any marker leaves the run executing. */
  lemma NoMarkerStillExecuting(folders: Folders, folder: Path)
    requires IsFile(folders, folder, Outcar) && !Contains(FileText(folders, folder, Outcar), Marker)
    ensures IsExecuting(folders, folder) && !CanCleanup(folders, folder)
  {
    NoMarkerUnfinished(FileText(folders, folder, Outcar));
  }
}
