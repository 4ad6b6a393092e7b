# matdb: the database-group lifecycle and the phonon pipeline, in Dafny

matdb builds training databases for machine-learned interatomic potentials.
Each database group owns a set of configuration folders `root/prefix.cid`.
A group goes through a batch lifecycle:

- `setup` creates the folders;
- `jobfile` renders a job-array script;
- `execute` submits it with `sbatch`;
- `status` and `recover` inspect the folders;
- `cleanup` and `xyz` turn the finished runs into XYZ files.

What each folder is doing is read off the files in it:

- whether its inputs are present and larger than 25 bytes;
- whether the OUTCAR (or `pwscf.xml` for Quantum Espresso) has, on the line of its last `free  energy` marker, a `TOTEN` or an `Error`.

The phonon pipeline stacks three such groups:

- the displacement stage `phondft` (prefix `W`), whose phonopy outputs end in `phonopy/mesh.yaml`;
- the calibration stage `phoncalib` (prefix `C`), ready when `calibration.dat` exists;
- the modulation stage `phonons` (prefix `M`), ready when `output.xyz` exists and every configuration converted.

Each stage gates its `setup` on the readiness of the stage before it.

The model has seven modules, each in its own file:

- `Values` (values.dfy): options, results, Python exceptions and settings values.
- `Text` (text.dfy): the string operations the probes use, such as `rfind`, `readline` after a seek, `split`, `int()`, `str()`, `replace` and `'\n'.join`.
- `Probes` (probes.dfy): the shared, file-state-only probes.
- `Vasp` (vasp.dfy) and `Qe` (qe.dfy): the calculator probes, and QE's `input_dict` and `_check_potcars`.
- `Basic` (basic.dfy): the module-level probes, id discovery and allocation, and the `Group` class, whose configurations, folders, job scripts, failures file, root outputs and success count change in place.
- `Phonon` (phonon.dfy): `_parsed_kpath`, the default settings, the structure-file loops of the three `setup`s, and one class per stage.

The filesystem is explicit state: a map from a directory path to its entries (a file with its contents, a sub-directory, or a dangling link).

The model takes the following parameters in place of what it cannot see:

- the glob listing of a root, and the structure files phonopy writes, are sequences of names;
- the lines `sbatch` prints are a sequence of strings;
- the folders the XYZ converter accepts, and those whose forces can be read back, are sets;
- the `mesh.yaml` phonopy writes is an optional string;
- the calibration amplitudes `np.logspace(0, 1.7, n)` are a sequence of reals;
- the `ESPRESSO_PSEUDO` variable and the home directory are values.

A Python dictionary iterated in its own order is a set iterated by an unspecified choice. Every contract holds for every order.

Where a specification of the system and the code disagree, the model follows the code:

- In `qe.py`, `self.kpoints.pop(["spacing"])` (line 72) raises TypeError, because a list is unhashable. `Qe.InputDict` raises there.
- Without a `kpoints` argument, `self.kpoints["method"]` subscripts None. `Qe.InputDict` raises there too.
- The composite branches of `is_executing`, `execute` and `create` name undefined variables (`executin`, `recover`, `instance`). They raise NameError in the model.
- `phonon.py` imports a `Database` that `basic.py` does not define. Each stage is modelled as a leaf `Group` with the root, prefix and number of configurations the stage passes up.
- `PhononDatabase` passes `calibrate` (True) positionally as the calibrator's `nconfigs`, which Python counts as 1. The calibrator's amplitudes are therefore the single amplitude 1.0.
- `PhononDatabase.cleanup` calls `xyz` without `combine`, so `output.xyz` is never written by that call.

Where the model departs from the code:

- Two probe defects, listed under Findings, are modelled both as written and corrected. The rest of the model uses the corrected probes. On a folder with a missing input, or with an empty OUTCAR, the code raises where the model answers; "## Left out" names each member this affects.
- The default id of `create` is the next free id in the model, not `len(configs) + 1`; see Findings and the `Basic.Group.Create` line under "## Left out".
- `PhononCalibration.cleanup` (phonon.py:615) and `PhononDatabase.cleanup` (phonon.py:810) call `xyz` with `config_type="phcalib"` and `config_type="ph"`. `Group.xyz` (basic.py:546-549) has no such parameter, so against that `Group.xyz` these calls raise TypeError. The `Database` class `phonon.py` imports, which `basic.py` does not define, evidently accepts the keyword. It only tags the contents of the XYZ files, which the model leaves out, so the model assumes that class and drops the keyword; "## Left out" names both members.

## Model

| member | source | states |
|---|---|---|
| Probes.CanExecute | matdb/calculators/vasp.py:67-85 | true exactly when the folder exists and every required input is a regular file of more than 25 bytes; the `present` dictionary it fills decides this for every input |
| Probes.RunningExcludesFinished | matdb/calculators/vasp.py:115-124 | a run is never both executing and finished; without its output file it is neither; with it, exactly one |
| Probes.OnlyLastMarkerCounts | matdb/calculators/vasp.py:100-113 | only the last `free  energy` line decides: whatever precedes it, even an earlier TOTEN, the verdict is whether that line holds TOTEN or Error |
| Probes.MarkerAtStartIgnored | matdb/calculators/vasp.py:104-105 | a marker only at offset 0 is ignored (`i > 0`), so such a file is unfinished |
| Probes.NoMarkerUnfinished | matdb/calculators/vasp.py:110-113 | an output with no marker is never finished |
| Probes.TwoPassAgrees | matdb/database/basic.py:46-75 | the module-level two-pass probe (TOTEN, then a re-read for Error) equals the one-pass probe of the calculators |
| Probes.StatFirstAgrees | matdb/database/basic.py:17-30 | where every input can be stat-ed, the probe as written answers what the corrected probe answers |
| Probes.StatFirstRaisesOnMissingInput | matdb/database/basic.py:20-23 | a missing first input makes the probe as written raise OSError, where the corrected probe says not ready |
| Probes.MappedEmptyRaises | matdb/database/basic.py:47-49 | mapping an empty OUTCAR raises ValueError, while it is, by the corrected probe, an unfinished run |
| Probes.MappedAgrees | matdb/calculators/vasp.py:101-108 | for a non-empty output, the mapped probe is the corrected probe |
| Probes.StatFirstInputsPresent | matdb/database/basic.py:17-30 | as written, `stat` before `isfile`: raises OSError exactly when the folder exists and some input cannot be stat-ed, naming one of the inputs; true only when every input is a file of more than 25 bytes |
| Probes.MappedFinished | matdb/database/basic.py:46-75 | as written, raises ValueError exactly on an empty output; on any other output, the marker-line probe |
| Text.LineFrom | matdb/calculators/vasp.py:107-108 | `readline` after a seek: the text from the offset up to and including the first newline, or to the end of the text; non-empty before the end |
| Text.PaddedRoundTrip | matdb/database/phonon.py:688 | `int()` of a zero-padded decimal numeral such as `001` is its number |
| Text.IntToStringRoundTrip | matdb/database/basic.py:195-198 | `int(str(n)) == n`, which lets a created folder name be parsed back |
| Text.JoinLinesCount | matdb/database/basic.py:339-340 | a failures file written with `'\n'.join` of single-line names has one line per name |
| Text.LineFromShift | matdb/calculators/vasp.py:107-108 | the line `readline` gives after a seek does not depend on the text before the seek position |
| Vasp.CanExecute | matdb/calculators/vasp.py:67-85 | corrected (isfile before stat, Findings row 1): true exactly when the folder holds INCAR, POSCAR, KPOINTS and POTCAR, each a regular file of more than 25 bytes |
| Vasp.CanCleanup | matdb/calculators/vasp.py:87-113 | corrected (an empty OUTCAR is read as unfinished, Findings row 2): true exactly when OUTCAR is a file and its last marker line past offset 0 holds TOTEN or Error; false without the folder or OUTCAR |
| Vasp.IsExecuting | matdb/calculators/vasp.py:115-124 | a run is executing only when its OUTCAR exists |
| Vasp.ExecutingExcludesCleanup | matdb/calculators/vasp.py:115-124 | executing and ready for cleanup exclude each other; with OUTCAR exactly one holds; without it neither |
| Vasp.LastReportDecides | matdb/calculators/vasp.py:100-111 | an OUTCAR is judged by its last marker line alone |
| Vasp.NoMarkerStillExecuting | matdb/calculators/vasp.py:104-124 | an OUTCAR without a marker leaves the run executing |
| Qe.CanExecute | matdb/calculators/qe.py:145-164 | true exactly when `espresso.pwi` is a regular file of more than 25 bytes |
| Qe.CanExtract | matdb/calculators/qe.py:166-195 | corrected (an empty `pwscf.xml` is read as unfinished, Findings row 2): true exactly when `pwscf.xml` is a file whose last marker line past offset 0 holds TOTEN or Error |
| Qe.IsExecuting | matdb/calculators/qe.py:197-206 | a run is executing only when its `pwscf.xml` exists |
| Qe.ExecutingExcludesExtract | matdb/calculators/qe.py:197-206 | executing and extractable exclude each other; with `pwscf.xml` exactly one holds |
| Qe.LastReportDecides | matdb/calculators/qe.py:179-195 | `pwscf.xml` is judged by its last marker line alone |
| Qe.InputDict | matdb/calculators/qe.py:55-83 | succeeds exactly on accepted arguments. Forces and stresses default to True. `kpts` is set iff the method is MP, and `divisions` leaves the k-point settings. `koffset` iff an offset; `pseudo_dir` iff a directory; `pseudopotentials` always. `kpoints` and `potcars` are consumed. Missing k-points and `kspacing` raise TypeError |
| Qe.ScanOutcome | matdb/calculators/qe.py:113-132 | a scan with two string versions never raises; only a non-string version raises, with TypeError |
| Qe.ScanVersions | matdb/calculators/qe.py:113-132 | the line loop raises what ScanOutcome says; `v2_found` holds iff some line after the first, stripped, contains `v2` |
| Qe.PseudoDir | matdb/calculators/qe.py:99-104 | the settings' directory, else `ESPRESSO_PSEUDO`, else `~/espresso/pseudo` |
| Qe.PotentialOutcome | matdb/calculators/qe.py:107-135 | a missing potential file raises IOError with its path; a present file with two listed string versions passes; passing implies the file exists |
| Qe.CheckPotcars | matdb/calculators/qe.py:96-135 | KeyError without `versions` or `potentials`; passes iff every listed potential passes; a raise is the outcome of some listed potential |
| Qe.CheckPotential | matdb/calculators/qe.py:108-135 | one species is checked as PotentialOutcome says |
| Qe.VersionsNeverRaise | matdb/calculators/qe.py:113-132 | version mismatches never escape: with the files present and the versions listed, every potential passes |
| Basic.ReadyToRun | matdb/database/basic.py:10-30 | corrected (isfile before stat, Findings row 1): true exactly when the folder holds INCAR, POSCAR, KPOINTS and POTCAR, each a regular file of more than 25 bytes |
| Basic.CanCleanup | matdb/database/basic.py:32-75 | corrected (an empty OUTCAR is read as unfinished, Findings row 2): true only when the folder has an OUTCAR file |
| Basic.CanCleanupAgrees | matdb/database/basic.py:32-75 | the database-level `can_cleanup` and the VASP calculator's agree on every folder |
| Basic.FolderId | matdb/database/basic.py:195-201 | an id is read only from a name that starts with `prefix.` |
| Basic.Discovered | matdb/database/basic.py:192-201 | every discovered id comes from a listed name whose second field parses to it, stored under `root/name`; every parsable name is discovered |
| Basic.DiscoveredLastWins | matdb/database/basic.py:195-198 | for an id named more than once, the last listed name decides its folder |
| Basic.IdRoundTrip | matdb/database/basic.py:195-198 | the folder name `prefix.cid` of a dot-free prefix is read back as `cid` |
| Basic.CreatedIsDiscovered | matdb/database/basic.py:430-445 | a folder `create` made is found again under its id by a later constructor |
| Basic.DefaultIdAsWritten | matdb/database/basic.py:426-427 | as written, `len(configs) + 1`: at least 1, and free whenever every id lies in 1..len(configs) |
| Basic.DefaultIdCollides | matdb/database/basic.py:426-427 | with configuration 1 gone and 2 present, `len(configs) + 1` is an id already in use |
| Basic.NextId | matdb/database/basic.py:426-427 | the default id is never in use and is `len(configs) + 1` whenever that is free |
| Basic.NextIdDense | matdb/database/basic.py:426-427 | with ids exactly 1..n, the next id is n + 1, as the code picks |
| Basic.Adjacent | matdb/database/basic.py:224-236 | the previous step is the one before the first occurrence of the name; none for the first step; none of either for an absent name |
| Basic.GetAdjacent | matdb/database/basic.py:224-236 | raises UnboundLocalError exactly when the group is the first step; otherwise returns the adjacent steps |
| Basic.ExecutingNeedsUnfinished | matdb/database/basic.py:242-254 | a group with no configurations, or whose folders all passed cleanup, is not executing |
| Basic.Unfinished | matdb/database/basic.py:332-333 | exactly the configuration folders not ready for cleanup |
| Basic.Merged | matdb/database/basic.py:391-392 | the group's settings override the parent's, on the union of their keys |
| Basic.JobSettings | matdb/database/basic.py:391-398 | the merged settings with the execution path and array size; `array_limit` kept iff the array is not smaller than it |
| Basic.TemplateName | matdb/database/basic.py:402-405 | KeyError without a template; the recovery script uses the template with "array" replaced |
| Basic.RecoveryTemplate | matdb/database/basic.py:403 | the first "array" of the template becomes "recovery", and so does every later one |
| Basic.RecoveryTemplateWithoutArray | matdb/database/basic.py:403 | a template without "array" serves both scripts |
| Basic.StatusMessage | matdb/database/basic.py:514-519 | the printed status starts with "ready to execute " |
| Basic.StatusMessageRoundTrip | matdb/database/basic.py:514-519 | the printed status gives back the ready count, the finished count, the number of configurations and whether " busy executing..." was added |
| Basic.FractionRoundTrip | matdb/database/basic.py:515-517 | each `"{}/{};"` fragment is read back as its two numbers, leaving what follows |
| Basic.EmptyStatusMessage | tests/database/test_db_controler.py:243 | an empty, idle group prints exactly "ready to execute 0/0; finished executing 0/0;" |
| Basic.OneReadyStatusMessage | tests/database/test_db_controler.py:256 | one ready, unfinished, idle configuration prints exactly "ready to execute 1/1; finished executing 0/1;" |
| Basic.ReadyMap | matdb/database/basic.py:506-507 | one entry per configuration folder, its `can_execute` |
| Basic.DoneMap | matdb/database/basic.py:506-508 | one entry per configuration folder, its `can_cleanup` |
| Basic.ProbedOneMore | matdb/database/basic.py:506-508 | probing one more folder adds exactly its entry to both maps |
| Basic.CountTrue | matdb/database/basic.py:510 | the count of true values is at most the size, and equals it iff all are true |
| Basic.Report | matdb/database/basic.py:504-530 | the counts never exceed the number of configurations; all done iff every folder passed cleanup; a busy group has something unfinished |
| Basic.ProbeFolders | matdb/database/basic.py:504-508 | the loop fills the ready and done maps of every folder |
| Basic.PotcarLink | matdb/database/basic.py:441-442 | POTCAR is a file iff a shared POTCAR exists, else a dangling link |
| Basic.ConvertedIds | matdb/database/basic.py:571-577 | at most one per configuration, and all of them iff every folder converted |
| Basic.FalseKeys | matdb/database/basic.py:333 | the folders listed are exactly those whose value is false, each once |
| Basic.ConvertFolders | matdb/database/basic.py:570-577 | one XYZ file is created per converted configuration |
| Basic.Group.constructor | matdb/database/basic.py:115-201 | the configurations are those discovered in the root listing; the success count starts at 0 |
| Basic.Group.IsExecuting | matdb/database/basic.py:238-262 | a leaf is executing iff some folder has an OUTCAR and some is not ready for cleanup; a composite raises NameError |
| Basic.Group.Setup | matdb/database/basic.py:464-493 | a leaf is set up iff its configurations are in place or it is executing; a composite iff all children are |
| Basic.Group.Status | matdb/database/basic.py:495-530 | a leaf yields its report; a composite raises NameError |
| Basic.Group.Execute | matdb/database/basic.py:264-320 | submits iff the script exists and, outside recovery, every folder is ready and none has an OUTCAR, and it is not a dry run; success iff a dry run or `sbatch` reports "Submitted" |
| Basic.Group.Create | matdb/database/basic.py:413-451 | records the folder of the given id, or of the next free one, with its POTCAR link; nothing else changes |
| Basic.Group.NotSetUpIsEmpty | matdb/database/basic.py:474-476 | a leaf with no fixed count that is not set up has no configurations |
| Basic.Group.RenderedJob | matdb/database/basic.py:373-405 | the script is rendered with the job settings and their template; what it raises is the template's error |
| Basic.Group.AfterJobfile | matdb/database/basic.py:385-408 | a successful `jobfile` leaves the script present and touches no other script |
| Basic.Group.Jobfile | matdb/database/basic.py:362-411 | an existing script is kept unless rerun; else the rendered one is stored, or its error raised with the scripts unchanged |
| Basic.Group.Recover | matdb/database/basic.py:322-360 | the failures are exactly the unfinished folders, once each; with some, the failures file holds them and the recovery script is rendered; with none, both files are removed |
| Basic.Group.RecoveryArraySize | matdb/database/basic.py:337-379 | after `recover`, the recovery array has one job per failure |
| Basic.Group.Cleanup | matdb/database/basic.py:532-544 | a leaf that cleans up has all its configurations, when a count was fixed, and is not executing |
| Basic.Group.CleanupReport | matdb/database/basic.py:532-544 | a group that cleans up is not executing; it cleans up iff its configurations are all there and its report counts every folder done |
| Basic.Group.Xyz | matdb/database/basic.py:546-585 | records how many configurations converted; true iff all did; with `combine` the combined file is written |
| Phonon.KeyOf | matdb/database/phonon.py:34-38 | the lookup key fails only for an empty tuple |
| Phonon.LabelOf | matdb/database/phonon.py:34-39 | the label fails only for a tuple of fewer than two labels |
| Phonon.ParsedKpath | matdb/database/phonon.py:9-43 | succeeds iff every name parses, giving one label and band point per name in order; otherwise the error of the first failing name |
| Phonon.NoRawGamma | matdb/database/phonon.py:28-39 | no label is the raw "GAMMA"; a lone GAMMA becomes `\Gamma` |
| Phonon.JointLabelSplits | matdb/database/phonon.py:36 | a tuple label splits at `|` back into its two fixed labels |
| Phonon.WithDefaults | matdb/database/phonon.py:130-132 | user values are kept and defaults fill only the missing keys |
| Phonon.WithDefaultsIdempotent | matdb/database/phonon.py:585-790 | adding the defaults twice changes nothing |
| Phonon.AddDefaults | matdb/database/phonon.py:485-487 | the loop yields the user settings with the defaults added |
| Phonon.UpdatePhonons | matdb/database/phonon.py:473-487 | mesh 13x13x13 and supercell 2x2x2 unless given |
| Phonon.PhononDFT.UpdateIncar | matdb/database/phonon.py:117-132 | the INCAR gets encut 500, ibrion -1 and the other defaults only where absent |
| Phonon.CidOf | matdb/database/phonon.py:688 | a parsed id comes only from a name with a dash |
| Phonon.CidOfNumbered | matdb/database/phonon.py:688 | a name `p-00n` with a dash-free `p` and a zero-padded number parses to `n` |
| Phonon.NumberedItem | matdb/database/phonon.py:841-847 | `MPOSCAR-` with a zero-padded number is not skipped and names the configuration of that number |
| Phonon.Step | matdb/database/phonon.py:683-693 | once raised nothing changes; a file goes through without a raise iff it is accepted |
| Phonon.MadeErrorFree | matdb/database/phonon.py:683-693 | the loop ends without a raise iff every file was accepted |
| Phonon.DisplacedDense | matdb/database/phonon.py:378-381 | from no configurations, the displaced structures get the ids 1..k in order, and each default id equals `len(configs) + 1` |
| Phonon.DisplacedCount | matdb/database/phonon.py:378-381 | each displaced structure gets its own configuration: the count grows by one per file |
| Phonon.ModulatedIds | matdb/database/phonon.py:841-849 | the modulation loops create exactly the ids the files name, skipping `MPOSCAR-orig` |
| Phonon.AmplitudeIds | matdb/database/phonon.py:683-691 | calibration gives exactly the named ids an amplitude; modulation touches none |
| Phonon.CalibratedAmplitude | matdb/database/phonon.py:683-691 | a configuration's amplitude is the one at the listing position of the last file naming it, counting `MPOSCAR-orig` |
| Phonon.MadeSettles | matdb/database/phonon.py:376-383 | after a raise the loop changes nothing more |
| Phonon.NumpyAt | matdb/database/phonon.py:595 | NumPy indexing: negative positions from the end, IndexError outside |
| Phonon.InitialAmplitudes | matdb/database/phonon.py:592-595 | amplitudes only when all configurations are there; then position `cid - 1` for each, or IndexError |
| Phonon.ReloadAgreesWithSetup | matdb/database/phonon.py:589-595 | after `setup` over `MPOSCAR-001..n`, reloading assigns the same amplitudes |
| Phonon.ReadForces | matdb/database/phonon.py:626-638 | the forces are those of the readable runs; failures plus forces count every configuration |
| Phonon.WriteCalibration | matdb/database/phonon.py:643-648 | passes iff every run with forces has an amplitude; else KeyError for one without |
| Phonon.WithDir | matdb/database/phonon.py:109-113 | creates the directory unless it exists, keeping every other folder |
| Phonon.CreateAll | matdb/database/phonon.py:683-695 | the group's configurations and folders, and the amplitudes, are those of the fold over the listing; the raise is the fold's |
| Phonon.CreateOne | matdb/database/phonon.py:684-693 | one loop pass is one fold step |
| Phonon.PhononDFT.constructor | matdb/database/phonon.py:80-115 | the group `root/phondft` with prefix W and no fixed count; phonopy and cache directories made; INCAR defaults added |
| Phonon.PhononDFT.Ready | matdb/database/phonon.py:134-141 | ready only when `phonopy/mesh.yaml` is there |
| Phonon.PhononDFT.SetupNumbersFromOne | matdb/database/phonon.py:347-381 | when `setup` creates the displaced structures, the group has none yet, so they are numbered 1..n, as `len(configs) + 1` would number them |
| Phonon.PhononDFT.Setup | matdb/database/phonon.py:347-386 | nothing when set up and no rerun, or ready; else the displaced structures get the next free ids, then the job script |
| Phonon.PhononDFT.Cleanup | matdb/database/phonon.py:388-405 | no answer without a clean base; otherwise the DOS is computed unless present and not recalculating; the answer is readiness |
| Phonon.PhononCalibration.Ready | matdb/database/phonon.py:597-601 | ready exactly when `calibration.dat` is in the root |
| Phonon.PhononCalibration.InferAmplitude | matdb/database/phonon.py:700-711 | None until ready, then NotImplementedError: never an amplitude |
| Phonon.PhononCalibration.Setup | matdb/database/phonon.py:654-698 | gated on set up, base not ready, or ready; else the named ids get configurations and amplitudes by position, then the job script |
| Phonon.PhononCalibration.Cleanup | matdb/database/phonon.py:603-652 | false unless clean and all converted; `calibration.dat` written iff some forces; KeyError for a run without an amplitude; true only when ready and more than three runs gave forces |
| Phonon.NewCalibration | matdb/database/phonon.py:577-595 | the group `root/phoncalib` with prefix C; ValueError for a negative count; amplitudes assigned iff all configurations are there |
| Phonon.PhononDatabase.Ready | matdb/database/phonon.py:792-797 | ready only when `output.xyz` is in the root and every configuration converted |
| Phonon.PhononDatabase.Cleanup | matdb/database/phonon.py:799-810 | no answer without a clean base; otherwise whether every run converted; `output.xyz` is not written |
| Phonon.PhononDatabase.Setup | matdb/database/phonon.py:812-854 | gated on set up, base not ready, or no amplitude; else the named ids get configurations, then the job script |
| Phonon.NewCalibrator | matdb/database/phonon.py:774-778 | a ready calibration raises; otherwise one configuration at amplitude 1.0, not ready, inferring no amplitude |
| Phonon.NewDatabase | matdb/database/phonon.py:764-790 | the group `root/phonons` with prefix M; under calibration without an amplitude, the amplitude stays None; otherwise the amplitude given |

## Left out

- The composite `jobfile` and `recover` (basic.py:409-411 and 358-359) only call the same method on each child, which is a leaf the model covers; `Basic.Group.Jobfile` and `Basic.Group.Recover` model the leaf branch. A composite group also gets no further through the lifecycle, because its `execute` raises NameError at basic.py:318. The composite `setup` is modelled in `Group.Setup`.
- `Group.__init__`'s seed and parameter-grid construction of children, `_write_params` and `read_params` are left out: children come built, and `params.json` carries no lifecycle state. `_get_adjacent` is modelled on its own as `Basic.GetAdjacent`.
- Jinja rendering, including TemplateNotFound, is left out. A script is the template name and the settings it would be rendered with.
- Basic.TemplateName: for a template setting that is not a string, outside recovery, the error is whatever Jinja's `get_template` raises (basic.py:405). The model names it TypeError; Jinja's loader would raise AttributeError for a number or None, and TypeError only for an unhashable value.
- `linecount` of a missing failures file is taken as 0.
- `sbatch`, phonopy and the k-path web service are external programs. Their outputs are parameters.
- Phonon.PhononDFT.Setup: the `POSCAR` written into `phonopy/` (phonon.py:366) and the `POSCAR-*` files `phonopy -d` adds there are not part of the modelled folder state. The contract lets `db.folders` change only by the created configurations; the displaced structures come in as the `displaced` parameter.
- `calc_forcesets`, `FORCE_SETS`, `calc_bands`, `bands`, `dmatrix`, `kpath`, `sample_dos` and `modulate_atoms` are left out, because they are phonopy and NumPy computations. `mesh.yaml` is an optional parameter.
- The removal of `MPOSCAR-*` files after use is left out, because those files live in the base stage's directory, outside the stage's own state.
- The `np.logspace` values are left out, because they are floating point. The amplitudes are a parameter.
- The registration in `parent.databases`, and its KeyError, is left out: the controller is not part of this model and the base stage is passed in.
- The `phonons` dictionary shared by reference between the calibration and modulation stages is left out. Each stage holds its own copy; `Phonon.WithDefaultsIdempotent` shows the shared update would agree.
- Each stage's group has its own copy of the folder state, so what one stage writes is not seen by another in the model.
- The `xyz` converter `vasp_to_xyz`, the arguments `properties`, `parameters` and `recalc`, and the contents of the combined file are left out. The converter's verdict is the `converted` set.
- `tarball`, `rset`, `ready` of the base class (which only raises NotImplementedError), `write_input`, `create`, `extract`, `cleanup` and `to_dict` of the calculators are left out, because they are file writers and serializers outside the lifecycle.
- Log messages, `print`, `mkdir` of the QE folder and `chdir` are left out.
- Basic.Group.Status: uses the corrected probes. On a folder `create` has just made, which holds only the POTCAR link, the code's `can_execute` raises OSError at `stat` (basic.py:22); on an existing empty OUTCAR its `can_cleanup` raises ValueError from `mmap` (basic.py:47-49). The model reports such folders not ready, or unfinished.
- Basic.Group.Recover: uses the corrected probes, so it does not raise the OSError or ValueError the code raises on a folder with a missing input or an empty OUTCAR. It also assumes a subclass that defines `name`, as the phonon stages do: `Group.__init__` never sets `name`, so the code raises AttributeError at basic.py:334 for a bare `Group`.
- Basic.Group.Execute: uses the corrected probes, so it does not raise the OSError or ValueError the code raises on a folder with a missing input or an empty OUTCAR.
- Basic.Group.IsExecuting: uses the corrected cleanup probe, so it does not raise the ValueError the code raises on an empty OUTCAR.
- Basic.Group.Setup: uses the corrected cleanup probe, through `is_executing`, so it does not raise the ValueError the code raises on an empty OUTCAR. It also assumes a subclass that defines `name`, which the code formats at basic.py:477.
- Basic.Group.Cleanup: uses the corrected cleanup probe, so it does not raise the ValueError the code raises on an empty OUTCAR.
- Basic.Report: uses the corrected probes, so it does not raise the OSError or ValueError the code raises on a folder with a missing input or an empty OUTCAR.
- Basic.ReadyMap: uses the corrected input probe, so it does not raise the OSError the code raises on a folder with a missing input.
- Basic.DoneMap: uses the corrected cleanup probe, so it does not raise the ValueError the code raises on an empty OUTCAR.
- Basic.ProbeFolders: uses the corrected probes, so it does not raise the OSError or ValueError the code raises on a folder with a missing input or an empty OUTCAR.
- Basic.Unfinished: uses the corrected cleanup probe, so it does not raise the ValueError the code raises on an empty OUTCAR.
- Vasp.CanExecute: the code raises OSError at `stat` (vasp.py:78) for a missing input; the model answers false.
- Vasp.CanCleanup: the code raises ValueError from `mmap` (vasp.py:101-103) on an empty OUTCAR; the model answers false.
- Vasp.IsExecuting: through `can_cleanup`, the code raises ValueError on an empty OUTCAR; the model answers that the run is executing.
- Qe.CanExtract: the code raises ValueError from `mmap` (qe.py:180-182) on an empty `pwscf.xml`; the model answers false.
- Qe.IsExecuting: through `can_extract`, the code raises ValueError on an empty `pwscf.xml`; the model answers that the run is executing.
- Phonon.PhononCalibration.Cleanup: calls `xyz` as if `config_type="phcalib"` were accepted (phonon.py:615); with `Group.xyz` of basic.py:546-549 the code raises TypeError there.
- Phonon.PhononDatabase.Cleanup: calls `xyz` as if `config_type="ph"` were accepted (phonon.py:810); with `Group.xyz` of basic.py:546-549 the code raises TypeError there.
- Basic.Group.Create: the default id is the next free id, not `len(configs) + 1` (basic.py:427). The two agree whenever the ids are 1..n (Basic.NextIdDense). That always holds in the displacement stage, which creates its configurations from none (Phonon.PhononDFT.SetupNumbersFromOne).
- Basic.ConvertFolders: states only the number of files created, not their paths, since only the count is used afterwards.
- Qe.InputDict: the ASE `Espresso` constructor it hands the dictionary to is not modelled.

## Findings

| source | as written | input that shows it | evidently intended | confidence | as-written member | corrected member |
|---|---|---|---|---|---|---|
| matdb/database/basic.py:22-23 | `stat(target)` runs before `isfile(target)` (also matdb/calculators/vasp.py:78-79) | a folder whose INCAR is missing: `stat` raises OSError | a missing input makes the folder not ready | not executed | Probes.StatFirstRaisesOnMissingInput | Probes.CanExecute |
| matdb/database/basic.py:47-49 | `mmap` of the OUTCAR with length 0 (also matdb/calculators/vasp.py:101-103 and matdb/calculators/qe.py:180-182) | an OUTCAR that exists but is still empty: `mmap` raises ValueError | an empty output is an unfinished run | not executed | Probes.MappedEmptyRaises | Probes.NoMarkerUnfinished |
| matdb/database/basic.py:426-427 | the default id is `len(self.configs) + 1` | configurations `{2: "db/S.2"}` after folder 1 was removed: the default id 2 reuses an existing folder | the next available id, as the docstring says | not executed | Basic.DefaultIdCollides | Basic.NextId |
| matdb/database/basic.py:229-236 | `prev` is bound only in the branch for a step before the match | a group that is the first step of its parent: `self.previous = prev` raises UnboundLocalError | no previous step for the first step | not executed | Basic.GetAdjacent | Basic.Adjacent |
