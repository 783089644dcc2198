# The manifest engine of uncompose-project, modelled and proved

`uncompose-project` keeps one JSON manifest beside a musician's audio files: which files
belong to the project, by hash and size, which runs derived which files from which, and
which comparison verdicts were recorded. Several processes may read and rewrite that
manifest at once. This project models the engine behind it and proves what its documents
promise. There are three layers, and they are connected.

**The protocol** (`Protocol.dfy`). Any number of processes each run one command: `init`,
`add`, `import` of a job record or of a comparison record, `verify`, `show`. A step is one
system call: the existence check, one look at one file, the non-blocking try for the lock,
the notice, the blocking wait, the load under the lock, the decision, and the create, write,
flush and rename of the temporary file, then the release. A call may fail; a process may
crash anywhere, whereupon the kernel frees its lock and its temporary file stays; the
contents of every other file may change at any moment. `Linearizability.dfy` proves that the
machine refines a sequential machine of atomic commands (`Histories.dfy`).

**The commands** (`Commands.dfy`). Each command is a sequence of pure steps before the lock
(`Advance`) and one pure decision under it (`Judge`). These are the atomic commands of the
sequential machine. `Preparing.dfy`,
`Loading.dfy`, `Records.dfy` and `Refusals.dfy` say what these functions do in other terms: of
the arguments, of where paths lead, of what files show, of the fields of the trees read; and
`Verdicts.dfy` puts that together for each whole command. `Engine.dfy` runs the same commands the way the program does, in a class
whose methods change the project directory and wait for its lock, with loops over growing
vectors and sets, and proves every method against the pure steps. `Solo.dfy` closes the circle: the step machine
can run each command to the end that the class's methods reach.

**The codec** (`Json.dfy`, `Codec.dfy`, `CodecLaws.dfy`). Manifests to and from ordered JSON
trees, as the serde attributes decide: closed objects, skipped `None`s, the required but
nullable `preference`, opaque order-preserving `ext` and `params`, the schema URL first, and
the walk over every `ext`.

What the engine calls out to is a parameter, the record `World` in `Worlds.dfy`: the hash,
the JSON text layer, path resolution, the comparison-record validator, the calendar. A
theorem that needs something of one of these says so in its `requires`: `TextLayer` (printed
trees parse back, within the parser's nesting limit), `RealPaths` (a resolved path resolves
to itself). `Consistency.dfy` exhibits a world that meets both, and `Solo.SerialRuns` a run of
the machine for any list of commands, so these assumptions can be met. No theorem needs the
hash to be collision-free.

## The files, bottom up

| file | what it holds |
|---|---|
| `Wrappers`, `Manifests` | option and result; the manifest field for field |
| `Slugs` | slugs, minting |
| `Json`, `Codec`, `CodecLaws` | trees, the strict codec, its laws |
| `Paths`, `Worlds` | stored paths; what the engine calls out to |
| `Commands`, `Decisions`, `Refusals` | the commands as pure steps; what every decision keeps; when it goes through, what it then records, and when and why it refuses |
| `Rereading`, `Loading` | what a write leaves for the next reader; when a manifest file is refused and why |
| `Records`, `Backing`, `Causes` | what a record file says; where a request's facts come from; why a command stops before the lock |
| `Histories`, `Versions`, `Imports` | the sequential machine; its versions; evidence recorded once |
| `Protocol`, `Linearizability`, `Runs` | the step machine; its invariant; what holds of runs |
| `Authenticity`, `Snapshots`, `Guarantees` | reads are true; verify's snapshot; the promises, over runs |
| `TempFiles` | no stray temporary files |
| `Schedules`, `Liveness` | order of concurrent adds; no deadlock, no endless run |
| `Solo`, `Preparing`, `Verdicts` | a command by itself; what it asks the lock for; how it comes out, said without the functions that compute it |
| `Reruns`, `Corners`, `Engine` | repeated imports; what the documents do not speak of; the program's own loops |
| `Consistency` | one world that meets the assumptions |

## Where the code and its documents differ, and what is false

The model follows the code.

- **A repeated import is not a no-op whatever changed on disk**
  (`docs/adr/0010-import-idempotency-and-per-path-dedupe.md:18-20`). The program resolves and
  hashes every stem before it looks for the job's hash in the manifest. `Reruns.RerunIsNoOp`
  gives the exact condition: every stem is still a readable file inside the project; else the
  refusal names the first that is not.
- **Not every manifest the tool writes can be read again.** The printer has no nesting limit,
  the parser has one (127 containers, the default of `serde_json`), and import puts a job's preset three levels deeper than it was found.
  A preset of 124 to 126 nested arrays imports successfully and leaves a manifest that no
  command can parse (`Rereading.DeepPresetIsNotReadable`). `Rereading.WriteReadsBack` and
  `Guarantees.ReadableUnlessTooDeep` give the exact condition, and the theorems about
  repeated imports state what happens on either side of it.
- **One stored path is not always one file.** Names are stored lossily: bytes that are not
  UTF-8 become U+FFFD. A stored path belongs to one file alone if and only if no name in it
  holds such bytes or a U+FFFD (`Paths.StoredInjective`); otherwise another file shares it,
  even where one of the two has perfectly UTF-8 names (`Paths.StoredPathsCollide`), and once
  one of them is registered the other cannot be (`Corners.TwinIsRefused`). `verify` reopens
  the resolved file if and only if its names below the root are UTF-8
  (`Worlds.VerifyReopensTheFile`).
- **An imported derivation can break the published schema.** A job without stems is accepted
  and gives an empty `outputs`, which `schemas/project/v0/uncompose.project.schema.json:79`
  refuses; `Corners.EmptyOutputsIff` says that happens for such jobs and no others.
- **Import can report more assets registered than it registers.** A stem named twice is
  reported twice and adds one asset (`Corners.RepeatedStemImports`); the counts agree if and
  only if no two reports name one stored path (`Corners.ReportedTwiceIff`).
- Derivations and evaluations are typed and strict, not opaque as
  `docs/adr/0005-strict-manifest-reads-and-ext-passthrough.md:27-29` has it.
- A `schema` that is present but not a string takes the job arm of `import`; the user guide
  speaks of an absent one only.
- The derived readers take a JSON array of the fields in order as well as an object, at every
  level; the model does too.
- With duplicate asset ids in a hand-written manifest the last verified one speaks for the id
  (`Rereading.VouchMapIsLastVerified`). The reader checks neither that ids are unique nor that
  they are slugs, so the manifest invariant over runs is proved from a good start (nothing, a
  file that does not load, or a manifest that satisfies it). What a single import or stamp
  does is proved of every manifest that loads.

## Model

| member | source | states |
|---|---|---|
| Runs.Linearizable | crates/core/src/manifest.rs:388-459 | In every reachable state, whatever the interleaving, the failures and the crashes, the manifest file is what the atomic commands make of it in lock order; each recorded outcome is the one the atomic command has at that point; ended processes report exactly these, once each |
| Runs.RealTimeOrder | crates/core/src/lock.rs:42-61 | A command that ended before another began comes before it in that order |
| Runs.OneHolder | crates/core/src/lock.rs:42-61 | At most one process is between its grant and its release, and it is the holder |
| Linearizability.InitialInv | crates/core/src/lock.rs:1-15 | The refinement invariant holds before anyone has moved |
| Linearizability.StepKeeps | crates/core/src/lock.rs:42-61 | Every step, failed calls, crashes and changes to files included, keeps the refinement invariant, touches no other process, and changes the manifest or a temporary file only as the lock holder |
| Linearizability.PrepareKeeps | crates/core/src/manifest.rs:391-408 | Work before the lock neither commits nor touches the manifest, and what it learns stays traceable to its reads |
| Linearizability.GrantKeeps | crates/core/src/lock.rs:42-61 | Taking the lock, by the try or by the wait, keeps exclusion and the grant order |
| Linearizability.ChooseKeeps | crates/core/src/manifest.rs:410-459 | A decision taken under the lock is taken on the manifest as it then stands; a no-op or refusal commits there |
| Linearizability.RenameKeeps | crates/core/src/manifest.rs:1783-1790 | The rename commits the decided command: its atomic effect on the manifest it had loaded is the new file |
| Linearizability.FailKeeps | crates/core/src/manifest.rs:1778-1790 | A failed call at any point ends the command without an atomic command of its own |
| Linearizability.CrashKeeps | crates/core/src/lock.rs:5-9 | A crash at any point keeps the invariant |
| Linearizability.AdvanceNeedsProject | crates/core/src/manifest.rs:397-399 | No command but init gets past its first step unless a manifest exists |
| Runs.OnlyRenameWrites | crates/core/src/manifest.rs:1773-1791 | No step but the rename changes the manifest bytes, and the rename replaces them, whole, by what the atomic command decides on the bytes there were |
| Runs.ManifestIsWhole | crates/core/src/manifest.rs:1771-1791 | In every reachable state the file is what there was at the outset or the complete canonical text of a committed manifest |
| Runs.ErrorsLeaveTheFile | crates/core/src/manifest.rs:318-320 | A command that ended in a refusal, before the lock, or in a failed call changed nothing |
| Runs.RefusalKeeps | crates/core/src/manifest.rs:624-626 | A refusal under the lock, or finding the evidence imported, writes nothing |
| Runs.ReadersSeeHistory | crates/core/src/manifest.rs:1614-1633 | An unlocked load reads exactly one version of the history, and a later load never an earlier one |
| Runs.ShowIsASnapshot | crates/core/src/manifest.rs:1495-1501 | The one step of a show: the exact bytes of that moment and what they load as, or why they do not load |
| Guarantees.UnlockedReportsAreTrue | crates/core/src/manifest.rs:1495-1501 | Over runs: a show that ended gave the bytes of a version the project really had; a verify that ended without the lock checked such a version, each status is what its own reads found, and none verified; a refusal has its cause in the arguments, in where paths lead or in what the process saw; nothing else is reported without the lock |
| Runs.ProjectStays | crates/core/src/manifest.rs:397-399 | A command that passed its existence check is never told under the lock that there is no project |
| Runs.EndedStaysQuiet | crates/core/src/manifest.rs:454-458 | A command that has ended takes no further part in any continuation |
| Versions.VersionNext | crates/core/src/manifest.rs:454-457 | Every atomic command takes the version it finds to one that contains it and is good if it was; only init makes the first |
| Versions.NoLostUpdate | crates/core/src/manifest.rs:410-413 | Between any two versions of a history the later contains the earlier |
| Versions.VersionsAreGood | crates/core/src/manifest.rs:417-442 | Every version of a history from a good start is good |
| Versions.StaysReadable | crates/core/src/manifest.rs:1614-1633 | The file loads as the latest version if and only if no writing command carried a value nested too deep |
| Guarantees.ReachableManifestIsGood | crates/core/src/manifest.rs:930-1091 | Over whole runs: asset ids, asset paths, derivation ids, evaluation ids, job hashes and record hashes are duplicate-free, every link names a registered asset, every preference is a candidate, every id and role is a slug, and the file holds that manifest |
| Guarantees.NothingIsLost | crates/core/src/manifest.rs:1093-1097 | What one reader loaded every later version still holds: derivations and evaluations as an exact prefix, assets as a prefix up to last_verified, the project identity unchanged |
| Guarantees.ReadableUnlessTooDeep | crates/core/src/manifest.rs:1072-1084 | A run's manifest stays readable if and only if no import in it wrote a value nested too deep |
| Guarantees.JobEvidenceOnce | crates/core/src/manifest.rs:926-938 | Once an import of a job record reported its derivation, every later import of the same bytes writes nothing and reports that same derivation as already imported, exactly while the manifest still parses |
| Guarantees.CompareEvidenceOnce | crates/core/src/manifest.rs:1177-1188 | The same for comparison records and evaluations |
| Imports.JobImportedOnce | crates/core/src/manifest.rs:926-938 | In any history, an import of a job record already settled is a no-op naming the same derivation, or the parse refusal, and which of the two |
| Imports.RecordImportedOnce | crates/core/src/manifest.rs:1177-1188 | The same for comparison records |
| Rereading.FindJobStable | crates/core/src/manifest.rs:930-935 | The derivation found for a job hash stays the one found, however many are appended |
| Rereading.FindRecordStable | crates/core/src/manifest.rs:1180-1184 | The evaluation found for a record hash stays the one found |
| Reruns.RerunIsNoOp | crates/core/src/manifest.rs:893-938 | Importing a held job record again is a no-op naming its derivation if and only if every stem is still a readable file inside the project, looked for in the folder the record lies in; otherwise the refusal names the first that is not; the manifest is untouched either way |
| Reruns.DeletedStemRefusesRerun | crates/core/src/manifest.rs:905-911 | The documented promise fails when the first stem was deleted: the re-run is refused |
| Consistency.HeldJobIsRefused | crates/core/src/manifest.rs:905-911 | A held job, its record still there byte for byte, its one stem deleted: the second import is refused |
| Corners.EmptyOutputsIff | schemas/project/v0/uncompose.project.schema.json:79 | Over runs, an imported derivation has no outputs, which the schema forbids, if and only if its job names no stem |
| Corners.StemlessJobImports | crates/core/src/manifest.rs:1080 | A record without stems is accepted and imported with empty outputs |
| Corners.ReportedTwiceIff | crates/core/src/manifest.rs:1026-1044 | At least as many assets are reported registered as are appended, and as many if and only if no two reports name one stored path, the new input's among them |
| Corners.RepeatedStemImports | crates/core/src/manifest.rs:1026-1044 | A job that names one stem twice reports two registered assets and appends one |
| Guarantees.EveryImportIsLinked | crates/core/src/manifest.rs:893-1094 | Every job import of a run, into whatever manifest, links as Decisions.JobIsLinked says, and its k-th output is the asset at the path of the record's k-th stem in the job's folder, with the hash of the bytes its process read there; that folder is the resolved record path without its last name |
| Decisions.JobIsLinked | crates/core/src/manifest.rs:954-1084 | Whatever the manifest: on success the linked input has the job's input hash in both branches, outputs match the stems position by position in path and hash, ids reported registered are exactly the ids appended, those are slugs under new and different ids and paths, and what is reported existing was in the old manifest |
| Decisions.NewAssetsKeep | crates/core/src/manifest.rs:941-1063 | Appending such assets keeps ids and paths unique and slugs where they were |
| Decisions.LinkStemsSound | crates/core/src/manifest.rs:1024-1063 | The stem loop, from any point of it and whatever the manifest: every stem linked to an asset at its path with its hash, registered ones new, existing ones untouched |
| Decisions.LinkInputSound | crates/core/src/manifest.rs:954-1017 | Whatever the manifest, the input links an asset with the recorded hash: an existing one whatever its path, or one new asset that clashes with none |
| Decisions.DecideEvolves | crates/core/src/manifest.rs:1093-1097 | No decision loses or rewrites what the loaded manifest recorded |
| Decisions.DecideKeepsGood | crates/core/src/manifest.rs:417-442 | Every decision of every command keeps the manifest invariant |
| Decisions.AddKeepsGood | crates/core/src/manifest.rs:417-454 | Add keeps ids and paths unique and slugs, with a chosen id or a minted one |
| Decisions.JobKeepsGood | crates/core/src/manifest.rs:1065-1094 | A job import keeps the invariant, links and job hashes included |
| Decisions.CompareKeepsGood | crates/core/src/manifest.rs:1190-1230 | An evaluation import keeps the invariant, candidates and preference included |
| Decisions.StampKeepsGood | crates/core/src/manifest.rs:1422-1429 | Stamping keeps the invariant |
| Decisions.EvolvesTransitive | crates/core/src/manifest.rs:1407-1417 | Containment of versions composes, so it holds over any number of commands |
| Refusals.AddDecides | crates/core/src/manifest.rs:417-459 | Add registers if and only if the path is new and the id, if given, is a free slug; it then appends exactly the file it hashed; otherwise a duplicate path comes first, naming the first asset there |
| Refusals.CompareDecides | crates/core/src/manifest.rs:1177-1236 | An evaluation is imported if and only if its record is new and all candidates are registered, and then says field by field what the record says; a known record comes first, naming the first evaluation of it, then the first unregistered candidate |
| Refusals.JobDecides | crates/core/src/manifest.rs:926-1097 | Whatever the manifest, a job is imported if and only if its record is new, its input can be linked, and its stems contradict neither the manifest nor the input nor each other; what is then recorded is given field by field: input, assets in stem order, derivation; a known record is never refused under the lock, and a refusal names the first thing wrong |
| Refusals.StemsClash | crates/core/src/manifest.rs:1026-1042 | The stem refused is the first that contradicts what is on record for its path, an asset's hash or an earlier stem's, and the refusal states both hashes |
| Refusals.StemsRegister | crates/core/src/manifest.rs:1046-1063 | The assets the loop appends are, in the stems' order, stems as hashed, in the role `stem`, added now, each under the id minted from its name against every id taken by then |
| Refusals.JobDerivationIs | crates/core/src/manifest.rs:1065-1091 | The derivation field by field; its id is minted from the text of the job folder's own name, or from nothing where that is no text |
| Refusals.InputLookIs | crates/core/src/manifest.rs:969-979 | The file looked at for the input is the one its recorded path resolves to |
| Refusals.StemsLinkIff | crates/core/src/manifest.rs:1024-1042 | The stem loop succeeds if and only if no stem contradicts the first asset at its path, nor another stem of the same path |
| Refusals.InputLinksIff | crates/core/src/manifest.rs:954-1017 | The input links if and only if its hash is registered, or the recorded path is relative, inside, readable, unregistered, and has that hash now; it then links the first asset with the hash, or one new asset in the role `mix` under an id minted from the stem of its stored path; otherwise each refusal has its exact cause and states path and hashes |
| Rereading.WriteReadsBack | crates/core/src/manifest.rs:199-203 | What a command writes loads back as exactly the manifest written if and only if the imported value is shallow; otherwise it does not parse |
| Rereading.DecideStores | crates/core/src/manifest.rs:1205-1206 | Every decision leaves a manifest the reader accepts as a tree: schema URL, slug ext keys, no null confidence |
| Rereading.NewManifestLoads | crates/core/src/manifest.rs:178-195 | The manifest init writes has the id, name and time given, each in its field, no ext and empty lists; it is good, storable and within the nesting limit |
| Rereading.InitLeaves | crates/core/src/manifest.rs:244-257 | Init refuses where a manifest file is, whatever it holds; elsewhere the file it leaves loads as a new project whose id, name and creation time are those given |
| Guarantees.InitMakesTheProject | crates/core/src/manifest.rs:244-257 | The same over runs: every init reported found no file, and the file right after it loads as the project its command names |
| Guarantees.EveryCommandComesOut | crates/core/src/manifest.rs:410-459 | Over runs, whatever the interleaving: every command settled under the lock came out as Verdicts.JudgeComesOut says on the file the ones before it left, and left the next one what it then wrote |
| Verdicts.JudgeComesOut | crates/core/src/manifest.rs:410-459 | The decision of every command under the lock, in terms of the file and the request alone: the refusal of a file that does not load; else what is recorded, field by field, or the first thing wrong |
| Verdicts.StampDecides | crates/core/src/manifest.rs:1418-1438 | The stamp marks exactly the assets whose id and hash the pass vouches for, writes only if there is one, and reports what the pass found either way |
| Verdicts.AsksThis | crates/core/src/manifest.rs:388-408 | What each command asks the lock for, or how it stops before it, in terms of its arguments, of where paths lead and of what files show |
| Verdicts.AloneRuns | crates/core/src/manifest.rs:388-459 | A whole command by itself is these two put together |
| Loading.LoadMeans | crates/core/src/manifest.rs:1614-1633 | Both ways: a file loads as this manifest if and only if it holds it, and is refused with this error if and only if that is the reason: no file, no JSON, another schema before the shape is looked at (naming the string found, if one was), a wrong shape, or a bad ext key |
| Loading.WalkReportsFirst | crates/core/src/manifest.rs:1638-1671 | The ext key reported is the first bad one of the first bad object in manifest order, and its owner is named as the messages name it |
| Records.JobReads | crates/core/src/manifest.rs:499-517 | A tree reads as this job record if and only if its slots of these names say its fields; other keys are tolerated |
| Records.JobEvidenceIs | crates/core/src/manifest.rs:876-886 | Both ways: a job's tree yields this evidence, or this refusal: no record, then a run that did not succeed with its outcome, then a time the calendar does not know |
| Records.CompareReads | crates/core/src/manifest.rs:525-559 | A tree reads as this comparison record if and only if its slots say its candidates in order, its time and its verdict |
| Records.CompareEvidenceIs | crates/core/src/manifest.rs:1129-1170 | Both ways: the evidence is candidate by candidate the assets named, the preference none if the record states none and else the asset of the first candidate with that label, confidence and time the record's; and each refusal, in order |
| Records.EvidenceIs | crates/core/src/manifest.rs:855-886 | Both ways for any bytes: which arm is taken by the schema declared, what evidence comes of it, and why there may be none |
| Records.LabelIsCandidate | crates/core/src/manifest.rs:1156-1170 | The asset a label stands for is that of the first candidate with that label |
| Causes.StopCaused | crates/core/src/manifest.rs:831-918 | Every refusal before the lock has its cause in the arguments, in where paths lead or in what the process saw; a verify gives up only on a file of its snapshot it saw to be unreadable |
| Guarantees.UnreadableWasShown | crates/core/src/manifest.rs:1459-1479 | Over runs: a verify that stopped on an unreadable file was shown, at steps of its own, a look that tells nothing of it; a file gone or of another length never stops a pass |
| Preparing.AddAsksThis | crates/core/src/manifest.rs:388-408 | Add before the lock: each refusal exactly when its cause is the first; else the request with the stored path, hash and length of the file, and the stem of its name |
| Preparing.ImportAsksThis | crates/core/src/manifest.rs:831-918 | Import before the lock: each refusal exactly when its cause is the first; else the request with what the record yields, its folder, and every stem in order as it lies there |
| Preparing.VerifyAsksThis | crates/core/src/manifest.rs:1367-1405 | Verify before the lock: refused exactly for the first file nothing can be told of, assets before records, naming it; a file gone or changed is a status |
| Preparing.OneIntegrity | crates/core/src/manifest.rs:1459-1479 | A look that tells something of a file gives it exactly one status, one that tells nothing none |
| Commands.ParentIsFolder | crates/core/src/manifest.rs:891-894 | The folder stems are looked for in is the record's resolved path without its last name, and no other |
| TempFiles.NoStrayFiles | crates/core/src/manifest.rs:1773-1791 | In every reachable state the temporary files of the outset are untouched, and any other belongs to a process that is writing it, crashed, or had a call fail |
| TempFiles.FailuresLeave | crates/core/src/manifest.rs:1783-1790 | A crash or a failed call leaves the manifest and every temporary file as they are; after a failed rename the next call removes the command's own temporary file and nothing else, and the command goes on to release the lock |
| CodecLaws.DecodesShaped | crates/core/src/manifest.rs:46-176 | A tree decodes to a manifest if and only if its slots of these names say its fields, at every level |
| CodecLaws.FieldOrder | crates/core/src/manifest.rs:197-203 | Every object is written with its fields, by name, in one order |
| Json.ClosedSlotsMean | crates/core/src/manifest.rs:44-60 | A closed struct refuses exactly stray keys, surplus items and what is neither object nor array; each slot is the value under its name or at its place |
| Json.OpenSlotsMean | crates/core/src/manifest.rs:495-499 | The same of a struct that tolerates other keys |
| Paths.FileStemIs | crates/core/src/manifest.rs:440 | The stem of the last component that counts: the name up to its last dot unless that comes first; empty where a path names no file |
| Paths.JoinUndoesSplit | crates/core/src/manifest.rs:1460 | The parts of a stored path hold no separator and join to it again |
| Paths.JoinMeans | crates/core/src/manifest.rs:1201 | Joining puts the whole separator between any two stretches |
| Slugs.SlugLetters | crates/core/src/manifest.rs:1719-1732 | A slug, letter by letter |
| Slugs.SlugCharMeans | crates/core/src/manifest.rs:1737-1741 | What becomes of each character: kept, lower-cased, or a hyphen |
| Slugs.NumberedReads | crates/core/src/manifest.rs:1763 | A numbered candidate is the base, one hyphen and the number in plain decimals |
| Rereading.DeepJobIsAccepted | crates/core/src/manifest.rs:855-882 | A job record whose preset nests up to 126 arrays is read and accepted |
| Rereading.DeepPresetIsNotReadable | crates/core/src/manifest.rs:1072-1097 | From 124 on, importing it succeeds and leaves a manifest that no longer parses |
| Authenticity.RegisteredAssetsAreAuthentic | crates/core/src/manifest.rs:406-408 | Under changing file contents, every asset a command registers carries the hash and length of the bytes found under its stored path at a step of that very command |
| Authenticity.ImportedDerivationIsAuthentic | crates/core/src/manifest.rs:851-861 | Every imported derivation says what the job record says, and its hashed reference names the very bytes read and parsed |
| Authenticity.ImportedEvaluationIsAuthentic | crates/core/src/manifest.rs:1208-1230 | Every imported evaluation says what the comparison record says, its preference the asset of the first candidate with the recorded label, null confidence dropped, and its hashed reference names the very bytes read |
| Authenticity.SightsAreTrue | crates/core/src/manifest.rs:1694-1699 | Every read recorded in a run shows what the path held at that step of that process |
| Authenticity.AppendedWereSeen | crates/core/src/manifest.rs:902-924 | Every asset a decision appends was seen by its own process as it is registered |
| Authenticity.AppendedComeFromStems | crates/core/src/manifest.rs:1047-1058 | Every asset the stem loop registers has the path, hash and length of a stem hashed before the lock |
| Backing.AdvanceBacked | crates/core/src/manifest.rs:836-918 | One step before the lock keeps every fact traceable to the process's own reads |
| Backing.BackedIsOk | crates/core/src/manifest.rs:1150-1170 | A request so obtained has a slug role, a preference among its candidates, and values no deeper than a parsed file holds |
| Backing.EvidenceSane | crates/core/src/manifest.rs:855-882 | The same of evidence parsed from any bytes at all |
| Guarantees.VerifyStampsExactly | crates/core/src/manifest.rs:1367-1438 | From any start: verify checked a version the project really had, each status of an asset or a record is what its own reads found, and the stamp marked exactly the assets whose hash it last verified under their id (with unique ids: exactly those whose id and hash it verified), changed nothing else, wrote nothing if there were none, and reported those statuses |
| Rereading.StampIsExact | crates/core/src/manifest.rs:1418-1438 | Against any snapshot and any later manifest: exactly the assets whose hash the pass last verified under their id are stamped, and there is a write if and only if there is one; with unique ids, that is every asset whose id and hash it verified |
| Rereading.VouchMapIsLastVerified | crates/core/src/manifest.rs:1373-1378 | With duplicate ids the map of verified assets holds the last verified one |
| Snapshots.SnapshotStep | crates/core/src/manifest.rs:1367-1373 | Every step keeps each verify's snapshot, and what was reported without the lock, a version the history really held |
| Snapshots.PassKeepsSnapshot | crates/core/src/manifest.rs:1373-1402 | The hash pass works on its one snapshot to the end and asks for the lock with what it verified there |
| Schedules.ScheduleIndependence | crates/core/src/manifest.rs:410-459 | Any number of concurrent adds of different new files with minted ids all succeed under every schedule without crashes and failed calls, and the registered paths, hashes, sizes and roles are the old ones and the new ones, each once, whatever the order |
| Schedules.EachIsAdded | crates/core/src/manifest.rs:417-442 | The k-th add in lock order finds all earlier files registered and registers its own |
| Schedules.RunHealthy | crates/core/src/manifest.rs:397-408 | In such a schedule no add is refused before the lock or gives up |
| Liveness.NoDeadlock | crates/core/src/lock.rs:47-59 | In every reachable state with an unfinished process some process can take its next call: that one, or the holder it waits for |
| Liveness.CrashFreesTheLock | crates/core/src/lock.rs:5-9 | A crashed holder leaves the lock free at once, for anyone in the queue, and the manifest as it was |
| Liveness.StepLowersRank | crates/core/src/lock.rs:47-59 | Every call of any process, failed ones and crashes included, lowers one global rank, and a change to files leaves it |
| Liveness.CallsEnd | crates/core/src/manifest.rs:414-457 | In every endless run the processes make only finitely many calls |
| Liveness.FairRunsEnd | crates/core/src/lock.rs:37-41 | Every fair run reaches a state in which every process has ended or crashed |
| Liveness.PrepareLowers | crates/core/src/manifest.rs:902-918 | Each step before the lock shortens what is left of the command's loop or ends it |
| Solo.MachineRuns | crates/core/src/manifest.rs:388-459 | The step machine can run every command, alone and undisturbed, to exactly the outcome and file its straight-line meaning gives |
| Solo.SerialRuns | crates/core/src/lock.rs:37-41 | Any commands one after another are a run of the machine, each with the outcome it has on the file the last one left |
| Solo.QueueRuns | crates/core/src/lock.rs:52-57 | While another holds the lock a process says so once and waits |
| Solo.WaiterRuns | crates/core/src/lock.rs:52-57 | Once the lock is free a waiting process can end as its request is concluded on what stands then, whatever the others did meanwhile |
| Solo.DrainRuns | crates/core/src/manifest.rs:836-918 | The steps before the lock lead the machine to the request, or the refusal, they come to |
| Solo.ChooseRuns | crates/core/src/manifest.rs:454-458 | The decision, and the atomic write where there is one, lead it to the file and outcome of the atomic command |
| Codec.WalkCoversEveryExt | crates/core/src/manifest.rs:1638-1657 | The walk finds nothing if and only if every ext key at every level is a slug |
| Codec.ValidateExtKeys | crates/core/src/manifest.rs:1638-1657 | The program's walk reports the first offending key in manifest order, with its owner |
| Codec.ValidateAssets | crates/core/src/manifest.rs:1641-1643 | The same for its loop over assets |
| Codec.ValidateDerivations | crates/core/src/manifest.rs:1644-1649 | The same for its loop over derivations and their jobs |
| Codec.ValidateEvaluations | crates/core/src/manifest.rs:1650-1656 | The same for its loop over evaluations and their records |
| Codec.CheckExtReportsFirst | crates/core/src/manifest.rs:1661-1671 | One ext object passes if and only if all its keys are slugs; otherwise its owner and the first key that is none are reported |
| CodecLaws.TreeRoundTrip | crates/core/src/manifest.rs:46-176 | Reading what was written gives back exactly what was written, for the storable manifests and for no others |
| CodecLaws.NormalForm | crates/core/src/manifest.rs:199-203 | Rewriting any accepted tree gives one that loads as the same manifest, so decode-then-encode settles at once |
| CodecLaws.AcceptedTree | crates/core/src/manifest.rs:46-176 | A tree loads as a manifest if and only if it is an object, closed at every level, each of whose fields is the manifest's field of that name, ext and params subtrees entry for entry in order, preference present on every evaluation, the exact schema URL, and only slugs for ext keys |
| CodecLaws.EvaluationIsFrom | crates/core/src/manifest.rs:130-176 | The same of one evaluation: a missing preference, a stray key or a wrong type is refused, and nothing else is |
| CodecLaws.DerivationIsFrom | crates/core/src/manifest.rs:97-127 | The same of one derivation and its job reference |
| CodecLaws.AssetIsFrom | crates/core/src/manifest.rs:75-91 | The same of one asset |
| CodecLaws.LoadedIsStorable | crates/core/src/manifest.rs:1621-1632 | Whatever the strict reader accepts can be stored again |
| CodecLaws.ManifestSane | crates/core/src/manifest.rs:199-203 | The written tree nests within a depth if and only if its opaque parts do, each at its place |
| CodecLaws.EvaluationReadsBack | crates/core/src/manifest.rs:130-152 | Every evaluation without a null confidence reads back as written, null preference included |
| CodecLaws.DerivationReadsBack | crates/core/src/manifest.rs:97-116 | Every derivation reads back as written |
| CodecLaws.AssetReadsBack | crates/core/src/manifest.rs:75-91 | Every asset reads back as written |
| Json.SlotsReadBack | crates/core/src/manifest.rs:46-60 | Writing present fields in order and skipping absent ones loses none: a closed reader finds the same fields |
| Json.Lookup | crates/core/src/manifest.rs:1621 | A key is found if and only if it is there, with the value that stands under it |
| Paths.ReopenUndoesStored | crates/core/src/manifest.rs:1269-1273 | Splitting a stored path gives the resolved components back if and only if they are UTF-8 |
| Paths.StoredInjective | crates/core/src/manifest.rs:1031 | A stored path is one file's alone, and per-path dedupe per-file dedupe, if and only if no name in it holds ill-formed bytes or a U+FFFD |
| Paths.StoredAlike | crates/core/src/manifest.rs:1269-1273 | Two files share a stored path if and only if their names read alike, one by one |
| Paths.StoredPathsCollide | crates/core/src/manifest.rs:1269-1273 | Two files with ill-formed names and one with a UTF-8 name share a stored path |
| Corners.TwinIsRefused | crates/core/src/manifest.rs:417-421 | Once one of two files that share a stored path is registered, adding the other is refused as a duplicate |
| Worlds.CanonicalInside | crates/core/src/manifest.rs:1254-1275 | A path is accepted if and only if it resolves, below the root, and is stored by its components there; otherwise the refusal tells which of the two failed |
| Worlds.LookIs | crates/core/src/manifest.rs:1463-1468 | What a path shows: its file's look if it leads to one, nothing where nothing is, and no look at all where it cannot be resolved |
| Worlds.VerifyReopensTheFile | crates/core/src/manifest.rs:1459-1462 | Verify reopens the file that was resolved, in every state of the file system, if and only if its names are UTF-8 |
| Slugs.SlugOfIsSlug | crates/core/src/manifest.rs:1734-1751 | Whatever goes in, a slug not ending in a hyphen comes out |
| Slugs.SlugOfIsTheMiddle | crates/core/src/manifest.rs:1737-1751 | Exactly what is kept of the input, character by character, and what is dropped at either end |
| Slugs.SlugOfFixes | crates/core/src/manifest.rs:1729-1751 | A string is left as it is if and only if it is a slug not ending in a hyphen |
| Slugs.SlugOfIdempotent | crates/core/src/manifest.rs:1737-1751 | Normalising twice is normalising once |
| Slugs.Slugify | crates/core/src/manifest.rs:1737-1751 | The push loop and the trims compute that normal form |
| Slugs.MintId | crates/core/src/manifest.rs:1757-1769 | The counter loop ends with the minted id within one more than the ids in use, inside 32 bits below 2147483647 of them |
| Slugs.MintIsLeastFree | crates/core/src/manifest.rs:1753-1769 | The minted id is free, and is the base or the base with the least free number from 2 on, and no other string is |
| Slugs.MintIsSlug | crates/core/src/manifest.rs:1757-1769 | A suffix keeps a slug a slug |
| Slugs.NumberedInjective | crates/core/src/manifest.rs:1763 | Different numbers give different candidates |
| Slugs.CrowdedBound | crates/core/src/manifest.rs:1761-1768 | Pigeonhole: a crowded base bounds how far the counter has gone |
| Refusals.FindPathIsFirst | crates/core/src/manifest.rs:417 | A search by path yields the first asset there, if and only if there is one |
| Refusals.FindHashIsFirst | crates/core/src/manifest.rs:954-958 | A search by hash yields the first asset with it, if and only if there is one |
| Refusals.FindJobIsFirst | crates/core/src/manifest.rs:930-934 | A search by job hash yields the first derivation of it, if and only if there is one |
| Refusals.FindRecordIsFirst | crates/core/src/manifest.rs:1180-1184 | A search by record hash yields the first evaluation of it, if and only if there is one |
| Refusals.FirstUnknownIsFirst | crates/core/src/manifest.rs:1190-1197 | The unregistered candidate reported is the first one |
| Engine.HashStems | crates/core/src/manifest.rs:891-918 | The stem loop yields, in order, path, hash and length of every stem as found in the folder the record lies in, or the refusal of the first that is not to be had; it is what the steps before the lock come to |
| Engine.CheckIntegrity | crates/core/src/manifest.rs:1459-1479 | Refused if and only if the look tells no length, or the recorded one and no bytes; otherwise the status it shows: bytes with the hash, other bytes or another length, nothing there |
| Engine.HashPass | crates/core/src/manifest.rs:1373-1387 | The pass gives one such status per asset in order, and the map of those verified; or the refusal of the first asset nothing can be told of, naming it |
| Engine.CheckRecords | crates/core/src/manifest.rs:1389-1402 | The same for record files; no lock is asked for when nothing verified |
| Engine.CollectCandidates | crates/core/src/manifest.rs:1147-1155 | All ids in order if and only if every candidate names an asset |
| Engine.CheckKnown | crates/core/src/manifest.rs:1190-1197 | The first candidate that is not registered |
| Engine.RegisterStems | crates/core/src/manifest.rs:1024-1063 | The loop over growing taken ids, new assets and stem links computes the pure linking |
| Engine.ResolveInput | crates/core/src/manifest.rs:943-1017 | Hash first, then the file the recorded path leads to: what is linked, or the exact cause of the refusal |
| Engine.StampInPlace | crates/core/src/manifest.rs:1422-1429 | Stamps in place exactly the vouched assets and tells whether there was one |
| Engine.LoadManifest | crates/core/src/manifest.rs:1614-1633 | The strict read, and what an accepted manifest always has: the schema URL and slug ext keys |
| Engine.AddUnderLock | crates/core/src/manifest.rs:417-454 | Add's decision, branch by branch |
| Engine.JobUnderLock | crates/core/src/manifest.rs:926-1094 | Import's decision: idempotency, input, stems, derivation |
| Engine.CompareUnderLock | crates/core/src/manifest.rs:1177-1233 | The evaluation import's decision |
| Engine.StampUnderLock | crates/core/src/manifest.rs:1422-1438 | The stamp's decision, writing only if one was stamped |
| Engine.ProjectDir.constructor | crates/core/src/manifest.rs:388-389 | A project directory as found, its lock free or with another process |
| Engine.ProjectDir.Acquire | crates/core/src/lock.rs:42-61 | Try once, else one notice and a wait: on success the lock is this process's and the directory is what its holder left; a failed try or wait changes nothing |
| Engine.JudgeNow | crates/core/src/manifest.rs:414-457 | The fresh load and the decision of any command |
| Engine.ProjectDir.WriteAtomic | crates/core/src/manifest.rs:1773-1791 | With a failure at any of its calls: all of the new bytes or all of the old, and beside them exactly what that failure leaves: nothing, or this write's own temporary file with what was written of it |
| Engine.ProjectDir.Mutate | crates/core/src/manifest.rs:410-459 | Wait for the lock, load afresh, decide, write if there is something to write: outcome and file are the atomic command's on what stood at the grant, and as Verdicts.JudgeComesOut says, or a failed call left the manifest as it stood; the lock is free again |
| Engine.QueuedAlone | crates/core/src/lock.rs:50-52 | A command nobody is ahead of comes out as it does by itself |
| Engine.QueuedRuns | crates/core/src/manifest.rs:388-459 | Waiting or not, a command comes out as what it asks for on what it found and what that comes to on what stands at the grant |
| Engine.ProjectDir.Init | crates/core/src/manifest.rs:244-257 | Waiting or not, init's outcome and file are those of the pure command on what stood at the grant: AlreadyExists, or a file holding a new project with the id, name and time given; or a failed call left the manifest as it stood; the lock is free and at most its own temporary file remains |
| Engine.ProjectDir.Add | crates/core/src/manifest.rs:388-459 | The same of add, whose body checks and hashes before the lock and decides after it in the program's own order; the minted id comes from the stem of the path's last component |
| Engine.ProjectDir.Import | crates/core/src/manifest.rs:821-1104 | The same of import, in both arms |
| Engine.ProjectDir.ImportJob | crates/core/src/manifest.rs:876-938 | The job arm: record, outcome, time and stems before the lock, then the atomic command |
| Engine.ProjectDir.ImportEvaluation | crates/core/src/manifest.rs:1120-1236 | The evaluation arm: the record yields evidence and goes to the lock with its own preference, or yields none and is refused for the reason |
| Engine.ProjectDir.Verify | crates/core/src/manifest.rs:1367-1405 | The same of verify, through both its loops: refused exactly for the first unreadable file; no lock is taken when nothing verified |
| Engine.ProjectDir.Show | crates/core/src/manifest.rs:1495-1501 | Show reports the file's bytes and the manifest they load as, or the exact reason they do not load |

## Left out

- SHA-256: an abstract function of the bytes; its lower-case hex form is formatting.
- Project ids, temporary names and timestamps: parameters. A temporary name is one not in use; the source draws a ULID, whose uniqueness is taken for granted.
- The clock: the time a command shows is a parameter of the command, and rendering Unix seconds is a partial function.
- JSON text (lexing, escaping, number printing, indentation): `TextLayer` stands for it. A number is a `u64`, a negative `i64` or a finite `f64`.
- Rereading.WriteReadsBack: takes it that a float prints and parses back exactly, which `serde_json` promises only with its `float_roundtrip` feature; crates/core/Cargo.toml:17 enables `preserve_order` alone, so a float inside `ext`, `params` or `confidence` may come back off in its last place. The same goes for every theorem that asks for `TextLayer`.
- The comparison-record schema: validation is an abstract predicate of the tree. `compare.schema.json` and the `jsonschema` crate are not part of this model.
- Symbolic links and `canonicalize`: a partial function of the path, fixed over a run. Directory structure does not change; file contents do.
- Non-UTF-8 command-line arguments: arguments are text. Names on disk may be ill-formed.
- A file read is one look. A file that changes while it is being streamed through the hash is not modelled; neither is the length on disk disagreeing with the bytes in one look.
- Power loss and directory flushing: a rename is atomic and lasting.
- Writers that do not take the lock, and anything else that replaces or removes the manifest.
- A manifest file that exists but cannot be read is a failing call, not a `LoadError` of its own; a failed `canonicalize` of the root is one too. Error payloads (serde messages, `io::Error`) are dropped.
- The lock file itself: creating it is part of the try, and its contents are never used.
- The CLI, `Display` texts, `show`'s overview and the other renderers, packaging and release scripts: formatting and plumbing.
- Engine.ProjectDir.Mutate: what the processes ahead of it do is one handover, given; their steps and how they interleave are the step machine's, where the same decisions are the steps.
- Engine.ProjectDir.Verify: files stay as they are until the lock is waited for, so the two looks at an asset agree; in the step machine they may differ.
- Engine.HashStems: likewise one state of the files for all stems; in the step machine each look is its own.
- Engine.HashPass: in the class's methods files stay as they are, so the two looks at an asset agree; in the step machine they may differ.
- Schedules.ScheduleIndependence: for adds with minted ids only; with chosen ids the order can decide who is refused.
