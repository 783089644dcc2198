/** The commands, as pure steps: what each does before the lock, one read at a time, and
    what it decides under the lock from a freshly loaded manifest. */
module Commands {
  import opened Wrappers
  import opened Slugs
  import opened Json
  import opened Manifests
  import opened Codec
  import opened Paths
  import opened Worlds

  const COMPARE_SCHEMA_URL := "https://uncompose.org/schemas/compare/v0/uncompose.compare.schema.json"
  const IMPORT_TOOL := "uncompose"
  const INPUT_ROLE := "mix"
  const STEM_ROLE := "stem"

  /** A command as invoked. `now` is the time its clock will show under the lock. */
  datatype Command =
    | Init(id: string, name: string, now: string)
    | Add(rel: string, chosen: Option<string>, role: string, now: string)
    | Import(arg: string, now: string)
    | Verify(now: string)
    | Show

  datatype Error =
    | AlreadyExists
    | LoadFailed(error: LoadError)
    // add
    | AbsolutePath(rel: string)
    | OutsideRoot(rel: string)
    | MissingFile(rel: string)
    | UnreadableFile(rel: string)
    | DuplicatePath(path: string, existing: string)
    | InvalidSlug(what: string, value: string)
    | IdInUse(id: string)
    // import
    | JobMissing(arg: string)
    | JobUnreadable(arg: string)
    | JobOutsideRoot(arg: string)
    | MalformedJob(arg: string)
    | NotSuccess(outcome: string)
    | InvalidTimestamp(seconds: nat)
    | InputAbsolutePath(input: string)
    | InputMissing(input: string)
    | InputUnreadable(input: string)
    | InputOutsideRoot(input: string)
    | InputHashMismatch(path: string, expected: string, actual: string)
    | InputPathConflict(path: string, registered: string, actual: string)
    | StemMissing(leaf: string)
    | StemUnreadable(leaf: string)
    | StemOutsideRoot(leaf: string)
    | StemPathConflict(path: string, registered: string, actual: string)
    | UnrecognizedImportSchema(found: string)
    | RecordNotConforming(arg: string)
    | MalformedRecord(arg: string)
    | CandidateMissingAsset
    | UnknownAsset(id: string)
    | UnknownPreference(name: string)
    // verify
    | UnreadableAsset(path: string)

  datatype Origin = Registered | Existing

  datatype ImportedAsset = ImportedAsset(asset: Asset, origin: Origin)

  datatype Integrity = Verified | Modified | Missing

  datatype AssetStatus = AssetStatus(id: string, path: string, integrity: Integrity)

  datatype Outcome =
    | Initialized
    | Added(asset: Asset)
    | Imported(input: ImportedAsset, stems: seq<ImportedAsset>, derivation: string)
    | AlreadyImported(derivation: string)
    | EvaluationImported(evaluation: Evaluation)
    | EvaluationAlreadyImported(evaluationId: string)
    | Checked(statuses: seq<AssetStatus>, records: seq<AssetStatus>)
    | Shown(raw: Bytes, manifest: Manifest)
    | Refused(error: Error)

  // ---------------------------------------------------------------- imported evidence

  /** The fields of a job record that import consumes; others are tolerated. */
  datatype JobRecord = JobRecord(
    inputPath: string,
    inputSha256: string,
    preset: Json,
    stems: seq<string>,
    engineVersion: string,
    outcome: string,
    finishedAt: U64)

  const JOB_FIELDS := ["input_path", "input_sha256", "preset", "stems", "engine_version", "outcome", "finished_at_unix"]

  function JobOfSlots(s: Slots): Option<JobRecord>
    requires |s| == 7
  {
    var input, sha, preset, stems := AsString(s[0]), AsString(s[1]), s[2], AsStrings(s[3]);
    var version, outcome, finished := AsString(s[4]), AsString(s[5]), AsU64(s[6]);
    if input.Some? && sha.Some? && preset.Some? && stems.Some? && version.Some? && outcome.Some? && finished.Some? then
      Some(JobRecord(input.value, sha.value, preset.value, stems.value, version.value, outcome.value, finished.value))
    else
      None
  }

  function DecodeJob(j: Json): Option<JobRecord> {
    var slots := OpenSlots(j, JOB_FIELDS);
    if slots.None? then None else JobOfSlots(slots.value)
  }

  datatype CompareCandidate = CompareCandidate(name: string, asset: Option<string>)

  datatype CompareRecord = CompareRecord(
    candidates: seq<CompareCandidate>,
    completedAt: string,
    preference: Option<string>,
    confidence: Option<Json>)

  function DecodeCandidate(j: Json): Option<CompareCandidate> {
    var slots := OpenSlots(j, ["label", "asset"]);
    if slots.None? then None
    else
      var name, asset := AsString(slots.value[0]), AsOptString(slots.value[1]);
      if name.Some? && asset.Some? then Some(CompareCandidate(name.value, asset.value)) else None
  }

  datatype CompareResult = CompareResult(preference: Option<string>, confidence: Option<Json>)

  /** `preference` may be left out of an object; a positional array must fill it. */
  function DecodeResult(j: Json): Option<CompareResult> {
    var slots := OpenSlots(j, ["preference", "confidence"]);
    if slots.None? || j == Arr([]) then None
    else
      var preference := AsOptString(slots.value[0]);
      if preference.None? then None else Some(CompareResult(preference.value, AsOptValue(slots.value[1])))
  }

  function CompareOfSlots(s: Slots): Option<CompareRecord>
    requires |s| == 3
  {
    var candidates, completed := AsList(s[0], DecodeCandidate), AsString(s[1]);
    var result := if s[2].Some? then DecodeResult(s[2].value) else None;
    if candidates.None? || completed.None? || result.None? then None
    else Some(CompareRecord(candidates.value, completed.value, result.value.preference, result.value.confidence))
  }

  function DecodeCompare(j: Json): Option<CompareRecord> {
    var slots := OpenSlots(j, ["candidates", "completed_at", "result"]);
    if slots.None? then None else CompareOfSlots(slots.value)
  }

  /** The asset ids of the candidates in order, when every candidate names one. */
  function CandidateAssets(candidates: seq<CompareCandidate>): Option<seq<string>> {
    if forall i :: 0 <= i < |candidates| ==> candidates[i].asset.Some? then
      Some(seq(|candidates|, i requires 0 <= i < |candidates| => candidates[i].asset.value))
    else
      None
  }

  /** The asset of the first candidate with this label. */
  function AssetOfLabel(candidates: seq<CompareCandidate>, name: string): Option<string> {
    if candidates == [] then None
    else if candidates[0].name == name then candidates[0].asset
    else AssetOfLabel(candidates[1..], name)
  }

  /** What an import's evidence file says, once read. */
  datatype Evidence =
    | JobEvidence(job: JobRecord, createdAt: string)
    | CompareEvidence(candidates: seq<string>, preference: Option<string>, confidence: Option<Json>, completedAt: string)

  function JobFrom(w: World, arg: string, value: Json): (r: Result<Evidence, Error>)
    ensures r.Ok? ==> r.value.JobEvidence?
  {
    match DecodeJob(value)
    case None => Err(MalformedJob(arg))
    case Some(job) =>
      if job.outcome != "success" then Err(NotSuccess(job.outcome))
      else
        match w.rfc3339(job.finishedAt)
        case None => Err(InvalidTimestamp(job.finishedAt))
        case Some(at) => Ok(JobEvidence(job, at))
  }

  function CompareFrom(w: World, arg: string, value: Json): (r: Result<Evidence, Error>)
    ensures r.Ok? ==> r.value.CompareEvidence?
  {
    if !w.conforms(value) then Err(RecordNotConforming(arg))
    else
      match DecodeCompare(value)
      case None => Err(MalformedRecord(arg))
      case Some(r) =>
        match CandidateAssets(r.candidates)
        case None => Err(CandidateMissingAsset)
        case Some(ids) =>
          if r.preference.None? then Ok(CompareEvidence(ids, None, r.confidence, r.completedAt))
          else
            match AssetOfLabel(r.candidates, r.preference.value)
            case None => Err(UnknownPreference(r.preference.value))
            case Some(id) => Ok(CompareEvidence(ids, Some(id), r.confidence, r.completedAt))
  }

  /** Dispatch on the file's top-level `schema`; one that is not a string counts as none. */
  function EvidenceFrom(w: World, arg: string, bytes: Bytes): Result<Evidence, Error> {
    match w.parse(bytes)
    case None => Err(MalformedJob(arg))
    case Some(value) =>
      match SchemaOf(value)
      case None => JobFrom(w, arg, value)
      case Some(found) =>
        if found == COMPARE_SCHEMA_URL then CompareFrom(w, arg, value) else Err(UnrecognizedImportSchema(found))
  }

  // ---------------------------------------------------------------- requests

  /** A stem resolved and hashed before the lock. */
  datatype PreStem = PreStem(name: string, rel: string, hash: string, size: U64)

  /** What a command carries to the lock. */
  datatype Request =
    | InitRequest(id: string, name: string, now: string)
    | AddRequest(path: string, sha256: string, size: U64, chosen: Option<string>, stem: string, role: string, now: string)
    | JobRequest(rel: string, sha256: string, folder: CPath, job: JobRecord, createdAt: string, stems: seq<PreStem>, now: string)
    | CompareRequest(rel: string, sha256: string, candidates: seq<string>, preference: Option<string>,
                     confidence: Option<Json>, completedAt: string)
    | StampRequest(verified: map<string, string>, statuses: seq<AssetStatus>, records: seq<AssetStatus>, now: string)

  // ---------------------------------------------------------------- before the lock

  /** A command's local state before it asks for the lock. */
  datatype Prep =
    | Fresh
    | AddHash(stored: string)
    | EvidenceRead(at: Inside)
    | Stems(at: Inside, sha256: string, evidence: Evidence, done: seq<PreStem>)
    | Assets(m: Manifest, statuses: seq<AssetStatus>, verified: map<string, string>, sized: bool)
    | Records(m: Manifest, statuses: seq<AssetStatus>, verified: map<string, string>, records: seq<AssetStatus>)

  datatype Next = Continue(prep: Prep) | Lock(request: Request) | Stop(outcome: Outcome)

  function Parent(w: World, p: CPath): CPath {
    if p == [] then w.root else p[..|p| - 1]
  }

  /** The folder a file lies in: its path without the last name. */
  ghost predicate IsFolder(w: World, path: CPath, folder: CPath) {
    if path == [] then folder == w.root else exists name :: path == folder + [name]
  }

  lemma ParentIsFolder(w: World, path: CPath)
    ensures forall folder :: IsFolder(w, path, folder) <==> folder == Parent(w, path)
  {
    if path != [] {
      var n := |path| - 1;
      assert path == path[..n] + [path[n]];
      forall folder | IsFolder(w, path, folder) ensures folder == Parent(w, path) {
        var name :| path == folder + [name];
        assert folder == path[..n];
      }
    }
  }

  /** Where the next stem of a job lives. */
  function StemCandidate(w: World, p: Prep): Candidate
    requires p.Stems? && p.evidence.JobEvidence? && |p.done| < |p.evidence.job.stems|
  {
    Leaf(Parent(w, p.at.path), p.evidence.job.stems[|p.done|] + ".wav")
  }

  /** The file the next step opens, if it opens one. */
  function Target(w: World, cmd: Command, p: Prep): Option<Candidate> {
    match p
    case Fresh => None
    case AddHash(_) => if cmd.Add? then Some(Arg(cmd.rel)) else None
    case EvidenceRead(at) => Some(At(at.path))
    case Stems(_, _, evidence, done) =>
      if evidence.JobEvidence? && |done| < |evidence.job.stems| then
        var r := CanonicalInside(w, StemCandidate(w, p));
        if r.Ok? then Some(At(r.value.path)) else None
      else None
    case Assets(m, statuses, _, _) =>
      if |statuses| < |m.assets| then Some(StoredCandidate(w, m.assets[|statuses|].path)) else None
    case Records(m, _, _, records) =>
      if |records| < |m.evaluations| then Some(StoredCandidate(w, m.evaluations[|records|].record.path)) else None
  }

  /** The first step: existence, then what needs no file contents. */
  function Begin(w: World, cmd: Command, manifest: Option<Bytes>): Next {
    match cmd
    case Init(id, name, now) => Lock(InitRequest(id, name, now))
    case Add(rel, _, role, _) =>
      if manifest.None? then Stop(Refused(LoadFailed(NotAProject)))
      else if !ValidSlug(role) then Stop(Refused(InvalidSlug("role", role)))
      else if IsAbsolute(rel) then Stop(Refused(AbsolutePath(rel)))
      else
        (match CanonicalInside(w, Arg(rel))
         case Err(Missing) => Stop(Refused(MissingFile(rel)))
         case Err(Denied) => Stop(Refused(UnreadableFile(rel)))
         case Err(Outside) => Stop(Refused(OutsideRoot(rel)))
         case Ok(at) => Continue(AddHash(at.stored)))
    case Import(arg, _) =>
      if manifest.None? then Stop(Refused(LoadFailed(NotAProject)))
      else
        (match CanonicalInside(w, Arg(arg))
         case Err(Missing) => Stop(Refused(JobMissing(arg)))
         case Err(Denied) => Stop(Refused(JobUnreadable(arg)))
         case Err(Outside) => Stop(Refused(JobOutsideRoot(arg)))
         case Ok(at) => Continue(EvidenceRead(at)))
    case Verify(_) =>
      (match Load(w, manifest)
       case Err(e) => Stop(Refused(LoadFailed(e)))
       case Ok(m) => Continue(Assets(m, [], map[], false)))
    case Show =>
      (match Load(w, manifest)
       case Err(e) => Stop(Refused(LoadFailed(e)))
       case Ok(m) => Stop(Shown(manifest.value, m)))
  }

  /** Where the evidence leads: a job's stems are still to be hashed. */
  function WithEvidence(at: Inside, sha256: string, evidence: Evidence): Next {
    match evidence
    case JobEvidence(_, _) => Continue(Stems(at, sha256, evidence, []))
    case CompareEvidence(ids, preference, confidence, completed) =>
      Lock(CompareRequest(at.stored, sha256, ids, preference, confidence, completed))
  }

  /** The evidence file has been opened: hash it, read it, and go by its kind. */
  function AfterEvidence(w: World, cmd: Command, at: Inside, look: Look): Next
    requires cmd.Import?
  {
    if !look.Plain? then Stop(Refused(JobUnreadable(cmd.arg)))
    else
      match EvidenceFrom(w, cmd.arg, look.bytes)
      case Err(e) => Stop(Refused(e))
      case Ok(evidence) => WithEvidence(at, w.hash(look.bytes), evidence)
  }

  /** One stem: resolve it, confine it, hash it; after the last one, go to the lock. */
  function AfterStem(w: World, cmd: Command, p: Prep, look: Look): Next
    requires cmd.Import? && p.Stems? && p.evidence.JobEvidence?
  {
    var job := p.evidence.job;
    if |p.done| >= |job.stems| then
      Lock(JobRequest(p.at.stored, p.sha256, Parent(w, p.at.path), job, p.evidence.createdAt, p.done, cmd.now))
    else
      var leaf := job.stems[|p.done|] + ".wav";
      match CanonicalInside(w, StemCandidate(w, p))
      case Err(Missing) => Stop(Refused(StemMissing(leaf)))
      case Err(Denied) => Stop(Refused(StemUnreadable(leaf)))
      case Err(Outside) => Stop(Refused(StemOutsideRoot(leaf)))
      case Ok(at) =>
        if !look.Plain? then Stop(Refused(StemUnreadable(leaf)))
        else
          var stem := PreStem(job.stems[|p.done|], at.stored, w.hash(look.bytes), |look.bytes|);
          Continue(p.(done := p.done + [stem]))
  }

  /** An asset's length check: settled without hashing when the file is gone or differs in size. */
  function SizeCheck(a: Asset, look: Look): Result<Option<Integrity>, Error> {
    match look
    case Absent => Ok(Some(Integrity.Missing))
    case Sealed => Err(UnreadableAsset(a.path))
    case Locked(len) => Ok(if len != a.size then Some(Modified) else None)
    case Plain(bytes) => Ok(if |bytes| != a.size then Some(Modified) else None)
  }

  function HashCheck(w: World, a: Asset, look: Look): Result<Integrity, Error> {
    if look.Plain? then Ok(if w.hash(look.bytes) == a.sha256 then Verified else Modified)
    else Err(UnreadableAsset(a.path))
  }

  /** A record carries no size: absent is missing, other bytes are modified. */
  function RecordCheck(w: World, r: RecordRef, look: Look): Result<Integrity, Error> {
    match look
    case Absent => Ok(Integrity.Missing)
    case Plain(bytes) => Ok(if w.hash(bytes) == r.sha256 then Verified else Modified)
    case _ => Err(UnreadableAsset(r.path))
  }

  function Settle(p: Prep, a: Asset, integrity: Integrity): Prep
    requires p.Assets?
  {
    p.(statuses := p.statuses + [AssetStatus(a.id, a.path, integrity)],
       verified := if integrity == Verified then p.verified[a.id := a.sha256] else p.verified,
       sized := false)
  }

  /** One look at one asset: its length first, then its bytes. */
  function AfterAsset(w: World, p: Prep, look: Look): Next
    requires p.Assets?
  {
    if |p.statuses| >= |p.m.assets| then
      Continue(Records(p.m, p.statuses, p.verified, []))
    else
      var a := p.m.assets[|p.statuses|];
      if !p.sized then
        match SizeCheck(a, look)
        case Err(e) => Stop(Refused(e))
        case Ok(Some(integrity)) => Continue(Settle(p, a, integrity))
        case Ok(None) => Continue(p.(sized := true))
      else
        match HashCheck(w, a, look)
        case Err(e) => Stop(Refused(e))
        case Ok(integrity) => Continue(Settle(p, a, integrity))
  }

  function AfterRecord(w: World, cmd: Command, p: Prep, look: Look): Next
    requires cmd.Verify? && p.Records?
  {
    if |p.records| >= |p.m.evaluations| then
      if p.verified == map[] then Stop(Checked(p.statuses, p.records))
      else Lock(StampRequest(p.verified, p.statuses, p.records, cmd.now))
    else
      var e := p.m.evaluations[|p.records|];
      match RecordCheck(w, e.record, look)
      case Err(err) => Stop(Refused(err))
      case Ok(integrity) => Continue(p.(records := p.records + [AssetStatus(e.id, e.record.path, integrity)]))
  }

  /** Which local states belong to which command. */
  predicate Fits(cmd: Command, p: Prep) {
    match p
    case Fresh => true
    case AddHash(_) => cmd.Add?
    case EvidenceRead(_) => cmd.Import?
    case Stems(_, _, evidence, done) => cmd.Import? && evidence.JobEvidence? && |done| <= |evidence.job.stems|
    case Assets(m, statuses, _, sized) => cmd.Verify? && |statuses| <= |m.assets| && (sized ==> |statuses| < |m.assets|)
    case Records(m, _, _, records) => cmd.Verify? && |records| <= |m.evaluations|
  }

  /** One step before the lock, given the manifest file now and what the target shows now. */
  function Advance(w: World, cmd: Command, p: Prep, manifest: Option<Bytes>, look: Look): (next: Next)
    requires Fits(cmd, p)
    ensures next.Continue? ==> Fits(cmd, next.prep)
  {
    match p
    case Fresh => Begin(w, cmd, manifest)
    case AddHash(stored) =>
      if !look.Plain? then Stop(Refused(UnreadableFile(cmd.rel)))
      else Lock(AddRequest(stored, w.hash(look.bytes), |look.bytes|, cmd.chosen, FileStem(cmd.rel), cmd.role, cmd.now))
    case EvidenceRead(at) => AfterEvidence(w, cmd, at, look)
    case Stems(_, _, _, _) => AfterStem(w, cmd, p, look)
    case Assets(_, _, _, _) => AfterAsset(w, p, look)
    case Records(_, _, _, _) => AfterRecord(w, cmd, p, look)
  }

  // ---------------------------------------------------------------- under the lock

  /** What a command decides under the lock: a manifest to write, or nothing to write. */
  datatype Verdict = Put(manifest: Manifest, outcome: Outcome) | Keep(outcome: Outcome)

  function FindPath(assets: seq<Asset>, path: string): (r: Option<Asset>)
    ensures r.Some? ==> r.value in assets && r.value.path == path
    ensures r.None? ==> forall a :: a in assets ==> a.path != path
  {
    if assets == [] then None else if assets[0].path == path then Some(assets[0]) else FindPath(assets[1..], path)
  }

  function FindHash(assets: seq<Asset>, sha256: string): (r: Option<Asset>)
    ensures r.Some? ==> r.value in assets && r.value.sha256 == sha256
    ensures r.None? ==> forall a :: a in assets ==> a.sha256 != sha256
  {
    if assets == [] then None else if assets[0].sha256 == sha256 then Some(assets[0]) else FindHash(assets[1..], sha256)
  }

  function FindJob(ds: seq<Derivation>, sha256: string): (r: Option<Derivation>)
    ensures r.Some? ==> r.value in ds && r.value.job.Some? && r.value.job.value.sha256 == sha256
    ensures r.None? ==> forall d :: d in ds && d.job.Some? ==> d.job.value.sha256 != sha256
  {
    if ds == [] then None
    else if ds[0].job.Some? && ds[0].job.value.sha256 == sha256 then Some(ds[0])
    else FindJob(ds[1..], sha256)
  }

  function FindRecord(es: seq<Evaluation>, sha256: string): (r: Option<Evaluation>)
    ensures r.Some? ==> r.value in es && r.value.record.sha256 == sha256
    ensures r.None? ==> forall e :: e in es ==> e.record.sha256 != sha256
  {
    if es == [] then None else if es[0].record.sha256 == sha256 then Some(es[0]) else FindRecord(es[1..], sha256)
  }

  /** `add`: refuse a registered path, then settle the id, then append. */
  function DecideAdd(m: Manifest, r: Request): Verdict
    requires r.AddRequest?
  {
    var existing := FindPath(m.assets, r.path);
    if existing.Some? then Keep(Refused(DuplicatePath(r.path, existing.value.id)))
    else
      var ids := AssetIds(m.assets);
      match r.chosen
      case Some(raw) =>
        if !ValidSlug(raw) then Keep(Refused(InvalidSlug("id", raw)))
        else if raw in ids then Keep(Refused(IdInUse(raw)))
        else PutAsset(m, r, raw)
      case None => PutAsset(m, r, Mint(SlugOf(r.stem), ids))
  }

  function PutAsset(m: Manifest, r: Request, id: string): Verdict
    requires r.AddRequest?
  {
    var asset := Asset(id, r.path, r.sha256, r.size, r.role, r.now, None, None);
    Put(m.(assets := m.assets + [asset]), Added(asset))
  }

  /** Where a job's input file is looked for, when no asset carries its hash. */
  function InputTarget(w: World, m: Manifest, r: Request): Option<Candidate> {
    if !r.JobRequest? || FindJob(m.derivations, r.sha256).Some? || FindHash(m.assets, r.job.inputSha256).Some?
       || IsAbsolute(r.job.inputPath) then None
    else
      var at := CanonicalInside(w, Arg(r.job.inputPath));
      if at.Ok? then Some(At(at.value.path)) else None
  }

  /** The input a job links, and the assets registered so far: none, or the input itself. */
  datatype Linked = Linked(input: ImportedAsset, added: seq<Asset>)

  /** Hash first: an asset with the input's hash wins whatever its path. Otherwise the file
      at the recorded path must still have that hash, at a path no asset holds. */
  function LinkInput(w: World, m: Manifest, r: Request, look: Look): Result<Linked, Error>
    requires r.JobRequest?
  {
    var existing := FindHash(m.assets, r.job.inputSha256);
    var input := r.job.inputPath;
    if existing.Some? then Ok(Linked(ImportedAsset(existing.value, Existing), []))
    else if IsAbsolute(input) then Err(InputAbsolutePath(input))
    else
      match CanonicalInside(w, Arg(input))
      case Err(Missing) => Err(InputMissing(input))
      case Err(Denied) => Err(InputUnreadable(input))
      case Err(Outside) => Err(InputOutsideRoot(input))
      case Ok(at) =>
        if !look.Plain? then Err(InputUnreadable(input))
        else if w.hash(look.bytes) != r.job.inputSha256 then
          Err(InputHashMismatch(at.stored, r.job.inputSha256, w.hash(look.bytes)))
        else
          var clash := FindPath(m.assets, at.stored);
          if clash.Some? then Err(InputPathConflict(at.stored, clash.value.sha256, w.hash(look.bytes)))
          else
            var id := Mint(SlugOf(FileStem(at.stored)), AssetIds(m.assets));
            var asset := Asset(id, at.stored, w.hash(look.bytes), |look.bytes|, INPUT_ROLE, r.now, None, None);
            Ok(Linked(ImportedAsset(asset, Registered), [asset]))
  }

  datatype StemLinks = StemLinks(added: seq<Asset>, stems: seq<ImportedAsset>)

  /** What one stem links to: an asset of the manifest at its path, else one this import
      just registered there, else nothing yet. */
  function FindStem(known: seq<Asset>, added: seq<Asset>, path: string): Option<ImportedAsset> {
    var a := FindPath(known, path);
    if a.Some? then Some(ImportedAsset(a.value, Existing))
    else
      var b := FindPath(added, path);
      if b.Some? then Some(ImportedAsset(b.value, Registered)) else None
  }

  function StemAsset(known: seq<Asset>, added: seq<Asset>, pre: PreStem, now: string): Asset {
    var id := Mint(SlugOf(pre.name), AssetIds(known) + AssetIds(added));
    Asset(id, pre.rel, pre.hash, pre.size, STEM_ROLE, now, None, None)
  }

  /** Link the stems from the first on: reuse on the same path and hash, refuse on the same
      path with another hash, register otherwise. */
  function LinkStems(known: seq<Asset>, added: seq<Asset>, done: seq<ImportedAsset>, todo: seq<PreStem>, now: string)
    : Result<StemLinks, Error>
    decreases |todo|
  {
    if todo == [] then Ok(StemLinks(added, done))
    else
      var pre := todo[0];
      match FindStem(known, added, pre.rel)
      case Some(found) =>
        if found.asset.sha256 != pre.hash then Err(StemPathConflict(pre.rel, found.asset.sha256, pre.hash))
        else LinkStems(known, added, done + [found], todo[1..], now)
      case None =>
        var asset := StemAsset(known, added, pre, now);
        LinkStems(known, added + [asset], done + [ImportedAsset(asset, Registered)], todo[1..], now)
  }

  function StemIds(stems: seq<ImportedAsset>): seq<string> {
    seq(|stems|, i requires 0 <= i < |stems| => stems[i].asset.id)
  }

  /** The text of a folder's own name, when it is UTF-8. */
  function FolderName(folder: CPath): string {
    if folder != [] && Utf8(folder[|folder| - 1]) then Lossy(folder[|folder| - 1]) else ""
  }

  function JobDerivation(m: Manifest, r: Request, input: ImportedAsset, stems: seq<ImportedAsset>): Derivation
    requires r.JobRequest?
  {
    var id := Mint(SlugOf(FolderName(r.folder)), DerivationIds(m.derivations));
    Derivation(id, [input.asset.id], StemIds(stems), IMPORT_TOOL, Some(r.job.engineVersion),
               Some([Entry("preset", r.job.preset)]), r.createdAt, Some(JobRef(r.rel, r.sha256, None)), None)
  }

  function DecideJob(w: World, m: Manifest, r: Request, look: Look): Verdict
    requires r.JobRequest?
  {
    var existing := FindJob(m.derivations, r.sha256);
    if existing.Some? then Keep(AlreadyImported(existing.value.id))
    else
      match LinkInput(w, m, r, look)
      case Err(e) => Keep(Refused(e))
      case Ok(linked) =>
        match LinkStems(m.assets, linked.added, [], r.stems, r.now)
        case Err(e) => Keep(Refused(e))
        case Ok(links) =>
          var d := JobDerivation(m, r, linked.input, links.stems);
          Put(m.(assets := m.assets + links.added, derivations := m.derivations + [d]),
              Imported(linked.input, links.stems, d.id))
  }

  /** The first id that is not registered. */
  function FirstUnknown(ids: seq<string>, known: set<string>): (r: Option<string>)
    ensures r.None? <==> forall id :: id in ids ==> id in known
  {
    if ids == [] then None else if ids[0] !in known then Some(ids[0]) else FirstUnknown(ids[1..], known)
  }

  function DecideCompare(m: Manifest, r: Request): Verdict
    requires r.CompareRequest?
  {
    var existing := FindRecord(m.evaluations, r.sha256);
    if existing.Some? then Keep(EvaluationAlreadyImported(existing.value.id))
    else
      match FirstUnknown(r.candidates, AssetIds(m.assets))
      case Some(id) => Keep(Refused(UnknownAsset(id)))
      case None =>
        var id := Mint(SlugOf(JoinWith(r.candidates, "-vs-")), EvaluationIds(m.evaluations));
        var confidence := if r.confidence == Some(Null) then None else r.confidence;
        var e := Evaluation(id, r.candidates, r.preference, confidence, r.completedAt, RecordRef(r.rel, r.sha256, None), None);
        Put(m.(evaluations := m.evaluations + [e]), EvaluationImported(e))
  }

  /** Does the pass vouch for this asset: its id, with the hash it still has? */
  predicate Vouched(verified: map<string, string>, a: Asset) {
    a.id in verified && verified[a.id] == a.sha256
  }

  function Stamp(assets: seq<Asset>, verified: map<string, string>, now: string): seq<Asset> {
    seq(|assets|, i requires 0 <= i < |assets| =>
      if Vouched(verified, assets[i]) then assets[i].(lastVerified := Some(now)) else assets[i])
  }

  function DecideStamp(m: Manifest, r: Request): Verdict
    requires r.StampRequest?
  {
    var outcome := Checked(r.statuses, r.records);
    if exists i :: 0 <= i < |m.assets| && Vouched(r.verified, m.assets[i]) then
      Put(m.(assets := Stamp(m.assets, r.verified, r.now)), outcome)
    else
      Keep(outcome)
  }

  function Decide(w: World, m: Manifest, r: Request, look: Look): Verdict
    requires !r.InitRequest?
  {
    match r
    case AddRequest(_, _, _, _, _, _, _) => DecideAdd(m, r)
    case JobRequest(_, _, _, _, _, _, _) => DecideJob(w, m, r, look)
    case CompareRequest(_, _, _, _, _, _) => DecideCompare(m, r)
    case StampRequest(_, _, _, _) => DecideStamp(m, r)
  }

  /** The atomic command: from the manifest file as it stands, to what is decided. `look` is
      what the job's input file shows at that moment. */
  function Judge(w: World, file: Option<Bytes>, r: Request, look: Look): Verdict {
    if r.InitRequest? then
      if file.Some? then Keep(Refused(AlreadyExists)) else Put(NewManifest(r.id, r.name, r.now), Initialized)
    else
      match Load(w, file)
      case Err(e) => Keep(Refused(LoadFailed(e)))
      case Ok(m) => Decide(w, m, r, look)
  }

  /** The manifest file after the atomic command. */
  function Apply(w: World, file: Option<Bytes>, r: Request, look: Look): Option<Bytes> {
    match Judge(w, file, r, look)
    case Put(m, _) => Some(Print(w, m))
    case Keep(_) => file
  }

  /** What the lock holder looks at before deciding: the job's input, if it needs one. */
  function InputLook(w: World, file: Option<Bytes>, r: Request, files: Files): Look {
    match Load(w, file)
    case Err(_) => Absent
    case Ok(m) =>
      match InputTarget(w, m, r)
      case None => Absent
      case Some(c) => LookAt(w, files, c)
  }
}
