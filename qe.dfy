/** The asynchronous Quantum Espresso calculator: the probes of its folder,
    the `input_dict` its constructor builds from the keyword arguments, and
    the check of the pseudopotential files the constructor ends with. */
module Qe {
  import opened Values
  import opened Text
  import opened Probes

  /** The single input QE needs in its folder. */
  const Inputs: seq<string> := ["espresso.pwi"]

  /** The output file probed for the end of a run. */
  const Xml := "pwscf.xml"

  // ---- Probes.

  /** `can_execute`: the folder is a directory holding `espresso.pwi` as a
      regular file larger than the truncation threshold. */
  method CanExecute(folders: Folders, folder: Path) returns (ok: bool)
    ensures ok <==> folder in folders && LargeFile(folders[folder], "espresso.pwi")
  {
    ok := Probes.CanExecute(folders, folder, Inputs);
    assert Inputs[0] == "espresso.pwi";
  }

  /** `can_extract`: `pwscf.xml` exists and its last marker line (past
      offset 0) holds TOTEN or Error. */
  function CanExtract(folders: Folders, folder: Path): (r: bool)
    ensures folder !in folders ==> !r
    ensures !IsFile(folders, folder, Xml) ==> !r
    ensures r <==> IsFile(folders, folder, Xml) &&
                   var line := MarkerLine(FileText(folders, folder, Xml));
                   line.Some? && ReportsEnd(line.value)
  {
    folder in folders && OutputFinished(folders, folder, Xml)
  }

  /** `is_executing`: `pwscf.xml` exists but does not yet report a
      terminal state. */
  function IsExecuting(folders: Folders, folder: Path): (r: bool)
    ensures r ==> IsFile(folders, folder, Xml)
  {
    IsFile(folders, folder, Xml) && !CanExtract(folders, folder)
  }

  /** A run is never both executing and ready for extraction; with
      `pwscf.xml` it is exactly one of the two. */
  lemma ExecutingExcludesExtract(folders: Folders, folder: Path)
    ensures !(IsExecuting(folders, folder) && CanExtract(folders, folder))
    ensures !IsFile(folders, folder, Xml) ==> !IsExecuting(folders, folder) && !CanExtract(folders, folder)
    ensures IsFile(folders, folder, Xml) ==> (IsExecuting(folders, folder) <==> !CanExtract(folders, folder))
  {
  }

  /** Only the last marker line of `pwscf.xml` decides. */
  lemma LastReportDecides(folders: Folders, folder: Path, earlier: string, last: string)
    requires folder in folders && Xml in folders[folder]
    requires folders[folder][Xml] == File(earlier + last)
    requires |earlier| > 0
    requires OccursAt(last, Marker, 0)
    requires forall j | 0 < j <= |last| - |Marker| :: !OccursAt(last, Marker, j)
    ensures CanExtract(folders, folder) == ReportsEnd(LineFrom(last, 0))
  {
    OnlyLastMarkerCounts(earlier, last);
    ProbeOfText(folders, folder, earlier + last);
  }

  /** The probe of a folder is the probe of the text of its `pwscf.xml`. */
  lemma ProbeOfText(folders: Folders, folder: Path, text: string)
    requires folder in folders && Xml in folders[folder] && folders[folder][Xml] == File(text)
    ensures CanExtract(folders, folder) == Finished(text)
  {
  }

  // ---- The constructor's `input_dict`.

  /** What the constructor leaves behind: the dictionary handed to the ASE
      calculator, the k-point settings after their keys were consumed, the
      potential settings, and the remaining keyword arguments. */
  datatype Construction = Construction(input: Settings, kpoints: Value, potcars: Value, kwargs: Settings)

  /** `self.kpoints` once the `kpoints` argument has been taken. */
  function KpointsOf(kwargs: Settings): Value
  {
    if "kpoints" in kwargs then kwargs["kpoints"] else NoneV
  }

  /** The keyword arguments the constructor gets through without raising. */
  predicate Accepted(kwargs: Settings)
  {
    var kp := KpointsOf(kwargs);
    && kp.DictV? && "method" in kp.entries
    && (kp.entries["method"] == StrV("MP") ==> "divisions" in kp.entries)
    && kp.entries["method"] != StrV("kspacing")
    && "potcars" in kwargs && kwargs["potcars"].DictV?
    && "potentials" in kwargs["potcars"].entries
  }

  /** The keys the constructor may put into `input_dict`. */
  const InputKeys: set<string> := {"tprnfor", "tstress", "kpts", "koffset", "pseudo_dir", "pseudopotentials"}

  /** The `input_dict` construction of `__init__`. Forces and stresses are
      requested unless the caller says otherwise; a Monkhorst-Pack method
      moves `divisions` out of the k-point settings into `kpts`; an
      `offset` becomes `koffset`; the potential settings give `pseudo_dir`
      (only when they name a directory) and `pseudopotentials`. Without k-point
      settings, `self.kpoints["method"]` subscripts None; the `kspacing`
      branch pops with a list as key, which is unhashable. */
  method InputDict(kwargs: Settings) returns (r: Result<Construction>)
    ensures r.Ok? <==> Accepted(kwargs)
    ensures KpointsOf(kwargs).NoneV? ==> r == Err(TypeError("'NoneType' object is not subscriptable"))
    ensures (KpointsOf(kwargs).DictV? && "method" in KpointsOf(kwargs).entries &&
             KpointsOf(kwargs).entries["method"] == StrV("kspacing")) ==> r == Err(TypeError("unhashable type: 'list'"))
    ensures r.Ok? ==>
              var c := r.value;
              var kp := kwargs["kpoints"].entries;
              var pc := kwargs["potcars"].entries;
              && {"tprnfor", "tstress", "pseudopotentials"} <= c.input.Keys <= InputKeys
              && c.input["tprnfor"] == (if "tprnfor" in kwargs then kwargs["tprnfor"] else BoolV(true))
              && c.input["tstress"] == (if "tstress" in kwargs then kwargs["tstress"] else BoolV(true))
              && ("kpts" in c.input <==> kp["method"] == StrV("MP"))
              && (kp["method"] == StrV("MP") ==> c.input["kpts"] == kp["divisions"] && c.kpoints == DictV(kp - {"divisions"}))
              && (kp["method"] != StrV("MP") ==> c.kpoints == kwargs["kpoints"])
              && ("koffset" in c.input <==> "offset" in kp)
              && ("offset" in kp ==> c.input["koffset"] == kp["offset"])
              && ("pseudo_dir" in c.input <==> "directory" in pc)
              && ("directory" in pc ==> c.input["pseudo_dir"] == pc["directory"])
              && c.input["pseudopotentials"] == pc["potentials"]
              && c.potcars == kwargs["potcars"]
              && c.kwargs == kwargs - {"kpoints", "potcars"}
  {
    var kw := kwargs;
    var input: Settings := map[];
    input := input["tprnfor" := if "tprnfor" in kw then kw["tprnfor"] else BoolV(true)];
    input := input["tstress" := if "tstress" in kw then kw["tstress"] else BoolV(true)];
    var kpoints := NoneV;
    if "kpoints" in kw {
      kpoints := kw["kpoints"];
      kw := kw - {"kpoints"};
    }
    if kpoints.NoneV? {
      return Err(TypeError("'NoneType' object is not subscriptable"));
    }
    var kind := Lookup(kpoints, "method");
    if kind.Err? {
      return Err(kind.error);
    }
    if kind.value == StrV("mueller") {
      // Only an error message is logged; construction goes on.
    } else if kind.value == StrV("MP") {
      var divisions := Lookup(kpoints, "divisions");
      if divisions.Err? {
        return Err(divisions.error);
      }
      input := input["kpts" := divisions.value];
      kpoints := DictV(kpoints.entries - {"divisions"});
    } else if kind.value == StrV("kspacing") {
      return Err(TypeError("unhashable type: 'list'"));
    }
    if "offset" in kpoints.entries {
      input := input["koffset" := kpoints.entries["offset"]];
    }
    if "potcars" !in kw {
      return Err(KeyError("potcars"));
    }
    var potcars := kw["potcars"];
    kw := kw - {"potcars"};
    if !potcars.DictV? {
      return Err(TypeError("potcars is not a dict"));
    }
    if "directory" in potcars.entries {
      input := input["pseudo_dir" := potcars.entries["directory"]];
    }
    var potentials := Lookup(potcars, "potentials");
    if potentials.Err? {
      return Err(potentials.error);
    }
    input := input["pseudopotentials" := potentials.value];
    r := Ok(Construction(input, kpoints, potcars, kw));
  }

  // ---- `_check_potcars`.

  /** The message of the TypeError Python raises for `v in line` when `v`
      is not a string. */
  const InOperand := "'in <string>' requires string as left operand"

  /** What scanning a potential file for its two version strings can raise.
      The first line is tested for `v1` and the later lines for `v2`, but
      a mismatch only constructs a VersionError and drops it; what can
      escape is the TypeError of a version that is not a string, on the first
      line it is tested against. */
  function ScanOutcome(text: string, v1: Value, v2: Value): (r: Outcome)
    ensures v1.StrV? && v2.StrV? ==> r == Pass
    ensures r.Raise? ==> r.error == TypeError(InOperand)
  {
    var n := |Lines(text)|;
    if n >= 1 && !v1.StrV? then Raise(TypeError(InOperand))
    else if n >= 2 && !v2.StrV? then Raise(TypeError(InOperand))
    else Pass
  }

  /** The scan over the lines of a potential file with its line counter and
      its `v2_found` flag. The flag says whether a line after the first holds
      `v2`; the outcome does not depend on it. */
  method ScanVersions(text: string, v1: Value, v2: Value) returns (o: Outcome, v2Found: bool)
    ensures o == ScanOutcome(text, v1, v2)
    ensures o == Pass && v2.StrV? ==>
              (v2Found <==> exists k | 1 <= k < |Lines(text)| :: Contains(Strip(Lines(text)[k]), v2.s))
  {
    var lines := Lines(text);
    v2Found := false;
    var count := 0;
    while count < |lines|
      invariant 0 <= count <= |lines|
      invariant !v2Found
      invariant count >= 1 ==> v1.StrV?
      invariant count >= 2 ==> v2.StrV?
      invariant v2.StrV? ==> forall k | 1 <= k < count :: !Contains(Strip(lines[k]), v2.s)
    {
      var line := Strip(lines[count]);
      if count == 0 {
        if !v1.StrV? {
          o := Raise(TypeError(InOperand));
          return;
        }
        // `v1 in line` failing only constructs a VersionError.
      } else {
        if !v2.StrV? {
          o := Raise(TypeError(InOperand));
          return;
        }
        if Contains(line, v2.s) {
          assert Contains(Strip(Lines(text)[count]), v2.s);
          v2Found := true;
          break;
        }
      }
      count := count + 1;
    }
    assert v2Found ==> v2.StrV? && exists k | 1 <= k < |Lines(text)| :: Contains(Strip(Lines(text)[k]), v2.s);
    assert !v2Found && v2.StrV? ==> count == |lines|;
    o := Pass;
  }

  /** The directory searched when the potential settings name none. */
  function DefaultPseudoDir(home: Path): Path
  {
    Join(Join(home, "espresso"), "pseudo")
  }

  /** The directory `_check_potcars` searches: the settings' `directory`,
      else the `ESPRESSO_PSEUDO` environment variable, else the default
      under the home directory. */
  function PseudoDir(potcars: map<string, Value>, envPseudo: Option<string>, home: Path): (r: Value)
    ensures "directory" in potcars ==> r == potcars["directory"]
    ensures "directory" !in potcars && envPseudo.Some? ==> r == StrV(envPseudo.value)
    ensures "directory" !in potcars && envPseudo.None? ==> r == StrV(DefaultPseudoDir(home))
  {
    if "directory" in potcars then potcars["directory"]
    else if envPseudo.Some? then StrV(envPseudo.value)
    else StrV(DefaultPseudoDir(home))
  }

  /** `versions[spec]` exists and holds two strings. */
  predicate VersionsListed(versions: Value, spec: string)
  {
    && versions.DictV? && spec in versions.entries
    && var entry := versions.entries[spec];
    && entry.ListV? && |entry.items| >= 2
    && entry.items[0].StrV? && entry.items[1].StrV?
  }

  /** The check of one potential: the file must exist in the directory
      (IOError otherwise); only then are its two versions looked up and
      scanned for. A non-string directory or file name makes
      `os.path.join` fail. */
  function PotentialOutcome(dir: Value, versions: Value, spec: string, potcar: Value, folders: Folders): (r: Outcome)
    ensures dir.StrV? && potcar.StrV? && !IsFile(folders, dir.s, potcar.s) ==>
              r == Raise(IOError(Join(dir.s, potcar.s)))
    ensures dir.StrV? && potcar.StrV? && IsFile(folders, dir.s, potcar.s) && VersionsListed(versions, spec) ==>
              r == Pass
    ensures r == Pass ==> dir.StrV? && potcar.StrV? && IsFile(folders, dir.s, potcar.s)
  {
    if !dir.StrV? || !potcar.StrV? then Raise(AttributeError("join of a non-string"))
    else if !IsFile(folders, dir.s, potcar.s) then Raise(IOError(Join(dir.s, potcar.s)))
    else
      match Lookup(versions, spec)
      case Err(e) => Raise(e)
      case Ok(entry) =>
        match Subscript(entry, 0)
        case Err(e) => Raise(e)
        case Ok(v1) =>
          match Subscript(entry, 1)
          case Err(e) => Raise(e)
          case Ok(v2) => ScanOutcome(FileText(folders, dir.s, potcar.s), v1, v2)
  }

  /** `_check_potcars`: looks up `versions`, then checks every listed
      potential in the dictionary's (unspecified) order and stops at the
      first that raises. */
  method CheckPotcars(potcars: map<string, Value>, envPseudo: Option<string>, home: Path, folders: Folders)
    returns (o: Outcome)
    ensures "versions" !in potcars ==> o == Raise(KeyError("versions"))
    ensures "versions" in potcars && "potentials" !in potcars ==> o == Raise(KeyError("potentials"))
    ensures o == Pass <==>
              && "versions" in potcars && "potentials" in potcars && potcars["potentials"].DictV?
              && forall spec | spec in potcars["potentials"].entries ::
                   PotentialOutcome(PseudoDir(potcars, envPseudo, home), potcars["versions"], spec,
                                    potcars["potentials"].entries[spec], folders) == Pass
    ensures o.Raise? && "versions" in potcars && "potentials" in potcars && potcars["potentials"].DictV? ==>
              exists spec | spec in potcars["potentials"].entries ::
                PotentialOutcome(PseudoDir(potcars, envPseudo, home), potcars["versions"], spec,
                                 potcars["potentials"].entries[spec], folders) == o
  {
    var dir := PseudoDir(potcars, envPseudo, home);
    if "versions" !in potcars {
      return Raise(KeyError("versions"));
    }
    var versions := potcars["versions"];
    if "potentials" !in potcars {
      return Raise(KeyError("potentials"));
    }
    if !potcars["potentials"].DictV? {
      return Raise(AttributeError("items"));
    }
    var potentials := potcars["potentials"].entries;
    var todo := potentials.Keys;
    while todo != {}
      invariant todo <= potentials.Keys
      invariant forall spec | spec in potentials && spec !in todo ::
                  PotentialOutcome(dir, versions, spec, potentials[spec], folders) == Pass
      decreases |todo|
    {
      var spec :| spec in todo;
      var one := CheckPotential(dir, versions, spec, potentials[spec], folders);
      if one.Raise? {
        return one;
      }
      todo := todo - {spec};
    }
    o := Pass;
  }

  /** The loop body of `_check_potcars` for one species. */
  method CheckPotential(dir: Value, versions: Value, spec: string, potcar: Value, folders: Folders)
    returns (o: Outcome)
    ensures o == PotentialOutcome(dir, versions, spec, potcar, folders)
  {
    if !dir.StrV? || !potcar.StrV? {
      return Raise(AttributeError("join of a non-string"));
    }
    if !IsFile(folders, dir.s, potcar.s) {
      return Raise(IOError(Join(dir.s, potcar.s)));
    }
    var entry := Lookup(versions, spec);
    if entry.Err? {
      return Raise(entry.error);
    }
    var v1 := Subscript(entry.value, 0);
    if v1.Err? {
      return Raise(v1.error);
    }
    var v2 := Subscript(entry.value, 1);
    if v2.Err? {
      return Raise(v2.error);
    }
    var found;
    o, found := ScanVersions(FileText(folders, dir.s, potcar.s), v1.value, v2.value);
  }

  /** Every listed potential present with two string versions: the check
      passes whatever the files say about their versions. */
  lemma VersionsNeverRaise(potcars: map<string, Value>, envPseudo: Option<string>, home: Path, folders: Folders)
    requires "versions" in potcars && "potentials" in potcars && potcars["potentials"].DictV?
    requires PseudoDir(potcars, envPseudo, home).StrV?
    requires forall spec | spec in potcars["potentials"].entries ::
               && potcars["potentials"].entries[spec].StrV?
               && IsFile(folders, PseudoDir(potcars, envPseudo, home).s, potcars["potentials"].entries[spec].s)
               && VersionsListed(potcars["versions"], spec)
    ensures forall spec | spec in potcars["potentials"].entries ::
              PotentialOutcome(PseudoDir(potcars, envPseudo, home), potcars["versions"], spec,
                               potcars["potentials"].entries[spec], folders) == Pass
  {
  }
}
