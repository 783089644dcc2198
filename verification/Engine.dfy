/** The commands as the program runs them: straight code and loops over growing vectors and
    sets, in one project directory. Each method is proved against the pure steps. */
module Engine {
  import opened Wrappers
  import opened Slugs
  import opened Json
  import opened Manifests
  import opened Codec
  import opened CodecLaws
  import opened Paths
  import opened Worlds
  import opened Commands
  import opened Rereading
  import opened Records
  import opened Refusals
  import opened Solo
  import opened Preparing
  import opened Verdicts

  // ---------------------------------------------------------------- loops before the lock

  /** Resolve and hash each stem up front, in the record's order; the folder is the one the
      record lies in. */
  method HashStems(w: World, files: Files, cmd: Command, at: Inside, folder: CPath, sha256: string, evidence: Evidence,
                   manifest: Option<Bytes>)
    returns (r: Result<seq<PreStem>, Error>)
    requires cmd.Import? && evidence.JobEvidence? && IsFolder(w, at.path, folder)
    ensures r.Ok? ==> |r.value| == |evidence.job.stems| && StemsFound(w, files, folder, evidence.job.stems, r.value)
    ensures r.Err? ==>
              exists k :: FirstBadStem(w, files, folder, evidence.job.stems, k)
                          && StemTrouble(w, folder, evidence.job.stems[k], r.error)
    ensures Drain(w, cmd, Stems(at, sha256, evidence, []), manifest, files) ==
              if r.Err? then Stop(Refused(r.error))
              else Lock(JobRequest(at.stored, sha256, folder, evidence.job, evidence.createdAt, r.value, cmd.now))
  {
    hide CanonicalInside, LookAt, StemFound, StemReadable, StemTrouble, IsFolder;
    ParentIsFolder(w, at.path);
    var names := evidence.job.stems;
    var pre: seq<PreStem> := [];
    for i := 0 to |names|
      invariant |pre| == i
      invariant StemsFound(w, files, folder, names, pre)
      invariant Drain(w, cmd, Stems(at, sha256, evidence, []), manifest, files)
             == Drain(w, cmd, Stems(at, sha256, evidence, pre), manifest, files)
    {
      var leaf := names[i] + ".wav";
      var found := CanonicalInside(w, Leaf(folder, leaf));
      StemIsFound(w, files, folder, names[i]);
      AllReadable(w, files, folder, names, pre);
      StemFails(w, files, folder, names[i]);
      if found.Err? {
        assert FirstBadStem(w, files, folder, names, i);
        return Err(match found.error
                   case Missing => StemMissing(leaf)
                   case Denied => StemUnreadable(leaf)
                   case Outside => StemOutsideRoot(leaf));
      }
      var look := LookAt(w, files, At(found.value.path));
      if !look.Plain? {
        assert FirstBadStem(w, files, folder, names, i);
        return Err(StemUnreadable(leaf));
      }
      pre := pre + [PreStem(names[i], found.value.stored, w.hash(look.bytes), |look.bytes|)];
    }
    return Ok(pre);
  }

  /** Which trouble each failing call means. */
  lemma StemFails(w: World, files: Files, folder: CPath, name: string)
    ensures var at, leaf := CanonicalInside(w, Leaf(folder, name + ".wav")), name + ".wav";
            && (at == Err(ResolveKind.Missing) ==> StemTrouble(w, folder, name, StemMissing(leaf)))
            && (at == Err(ResolveKind.Denied) ==> StemTrouble(w, folder, name, StemUnreadable(leaf)))
            && (at == Err(ResolveKind.Outside) ==> StemTrouble(w, folder, name, StemOutsideRoot(leaf)))
            && (at.Ok? ==> StemTrouble(w, folder, name, StemUnreadable(leaf)))
  {
    FourWays(w, Leaf(folder, name + ".wav"));
  }

  /** Length first, then the bytes. */
  method CheckIntegrity(w: World, files: Files, a: Asset) returns (r: Result<Integrity, Error>)
    ensures var look := LookAt(w, files, StoredCandidate(w, a.path));
            && (r.Ok? <==> !Unreadable(Some(a.size), look))
            && (r.Ok? ==> Shows(w, Some(a.size), a.sha256, look, r.value))
            && (r.Err? ==> r.error == UnreadableAsset(a.path))
    ensures r == IntegrityOf(w, a, LookAt(w, files, StoredCandidate(w, a.path)))
  {
    hide LookAt;
    var look := LookAt(w, files, StoredCandidate(w, a.path));
    match look
    case Absent => return Ok(Integrity.Missing);
    case Sealed => return Err(UnreadableAsset(a.path));
    case Locked(len) => return if len != a.size then Ok(Modified) else Err(UnreadableAsset(a.path));
    case Plain(bytes) =>
      if |bytes| != a.size {
        return Ok(Modified);
      }
      return Ok(if w.hash(bytes) == a.sha256 then Verified else Modified);
  }

  /** `verify`'s hash pass over its snapshot: a status for each asset, or the refusal of the
      first that nothing can be told of. */
  method HashPass(w: World, files: Files, cmd: Command, m: Manifest, manifest: Option<Bytes>)
    returns (r: Result<seq<AssetStatus>, Error>, verified: map<string, string>)
    requires cmd.Verify?
    ensures r.Ok? ==> AssetsDone(w, files, m, r.value, verified)
    ensures r.Err? ==> exists k :: FirstBadAsset(w, files, m.assets, k) && r.error == UnreadableAsset(m.assets[k].path)
    ensures Drain(w, cmd, Assets(m, [], map[], false), manifest, files) ==
              if r.Err? then Stop(Refused(r.error))
              else Drain(w, cmd, Records(m, r.value, verified, []), manifest, files)
  {
    hide LookAt, Shows, Unreadable, IntegrityOf, StoredCandidate, Drain, Advance, AssetBad;
    var statuses: seq<AssetStatus> := [];
    verified := map[];
    for i := 0 to |m.assets|
      invariant |statuses| == i && AssetsAre(w, files, m.assets, statuses)
      invariant verified == VouchMap(m.assets, statuses)
      invariant Drain(w, cmd, Assets(m, [], map[], false), manifest, files)
             == Drain(w, cmd, Assets(m, statuses, verified, false), manifest, files)
    {
      var a := m.assets[i];
      var integrity := CheckIntegrity(w, files, a);
      AssetDrains(w, cmd, m, statuses, verified, manifest, files);
      AssetsNotBad(w, files, m.assets, statuses);
      BadAsset(w, files, a);
      if integrity.Err? {
        assert FirstBadAsset(w, files, m.assets, i);
        return Err(integrity.error), verified;
      }
      if integrity.value == Verified {
        verified := verified[a.id := a.sha256];
      }
      ghost var before := statuses;
      statuses := statuses + [AssetStatus(a.id, a.path, integrity.value)];
      assert statuses[..i] == before;
    }
    LastAssetDrains(w, cmd, m, statuses, verified, manifest, files);
    AssetsNotBad(w, files, m.assets, statuses);
    return Ok(statuses), verified;
  }

  /** The record files, each against its hashed reference. */
  method CheckRecords(w: World, files: Files, cmd: Command, m: Manifest, statuses: seq<AssetStatus>,
                      verified: map<string, string>,
                      manifest: Option<Bytes>)
    returns (r: Result<seq<AssetStatus>, Error>)
    requires cmd.Verify?
    ensures r.Ok? ==>
              && |r.value| == |m.evaluations| && RecordsAre(w, files, m.evaluations, r.value)
              && forall k :: 0 <= k < |m.evaluations| ==> !RecordBad(w, files, m.evaluations[k])
    ensures r.Err? ==>
              exists k :: FirstBadRecord(w, files, m.evaluations, k) && r.error == UnreadableAsset(m.evaluations[k].record.path)
    ensures Drain(w, cmd, Records(m, statuses, verified, []), manifest, files) ==
              if r.Err? then Stop(Refused(r.error))
              else if verified == map[] then Stop(Checked(statuses, r.value))
              else Lock(StampRequest(verified, statuses, r.value, cmd.now))
  {
    hide LookAt, StoredCandidate, Drain, Advance;
    var records: seq<AssetStatus> := [];
    for i := 0 to |m.evaluations|
      invariant |records| == i && RecordsAre(w, files, m.evaluations, records)
      invariant Drain(w, cmd, Records(m, statuses, verified, []), manifest, files)
             == Drain(w, cmd, Records(m, statuses, verified, records), manifest, files)
    {
      var e := m.evaluations[i];
      var look := LookAt(w, files, StoredCandidate(w, e.record.path));
      RecordDrains(w, cmd, m, statuses, verified, records, manifest, files);
      RecordsNotBad(w, files, m.evaluations, records);
      if look.Absent? {
        records := records + [AssetStatus(e.id, e.record.path, Integrity.Missing)];
      } else if look.Plain? {
        var integrity := if w.hash(look.bytes) == e.record.sha256 then Verified else Modified;
        records := records + [AssetStatus(e.id, e.record.path, integrity)];
      } else {
        assert FirstBadRecord(w, files, m.evaluations, i);
        return Err(UnreadableAsset(e.record.path));
      }
    }
    LastRecordDrains(w, cmd, m, statuses, verified, records, manifest, files);
    RecordsNotBad(w, files, m.evaluations, records);
    return Ok(records);
  }

  /** Every candidate must name an asset; collect the ids in order. */
  method CollectCandidates(candidates: seq<CompareCandidate>) returns (ids: Option<seq<string>>)
    ensures ids == CandidateAssets(candidates)
    ensures ids.Some? <==> forall c :: c in candidates ==> c.asset.Some?
  {
    var found: seq<string> := [];
    for i := 0 to |candidates|
      invariant |found| == i
      invariant forall k :: 0 <= k < i ==> candidates[k].asset == Some(found[k])
    {
      if candidates[i].asset.None? {
        assert candidates[i] in candidates;
        return None;
      }
      found := found + [candidates[i].asset.value];
    }
    assert CandidateAssets(candidates).Some?;
    assert CandidateAssets(candidates).value == found;
    return Some(found);
  }

  // ---------------------------------------------------------------- loops under the lock

  /** The first id that names no registered asset. */
  method CheckKnown(ids: seq<string>, known: set<string>) returns (unknown: Option<string>)
    ensures unknown == FirstUnknown(ids, known)
    ensures unknown.Some? ==> unknown.value in ids && unknown.value !in known
  {
    for i := 0 to |ids|
      invariant FirstUnknown(ids, known) == FirstUnknown(ids[i..], known)
    {
      if ids[i] !in known {
        return Some(ids[i]);
      }
      assert ids[i..][1..] == ids[i + 1..];
    }
    return None;
  }

  /** Register or reuse each stem, minting against everything taken so far. */
  method RegisterStems(known: seq<Asset>, input: seq<Asset>, pre: seq<PreStem>,
                       now: string) returns (r: Result<StemLinks, Error>)
    ensures r == LinkStems(known, input, [], pre, now)
  {
    hide Mint, SlugOf, AssetIds;
    var taken := AssetIds(known) + AssetIds(input);
    var added, stems: seq<ImportedAsset> := input, [];
    assert pre[0..] == pre;
    for i := 0 to |pre|
      invariant taken == AssetIds(known) + AssetIds(added)
      invariant LinkStems(known, input, [], pre, now) == LinkStems(known, added, stems, pre[i..], now)
    {
      assert pre[i..][0] == pre[i] && pre[i..][1..] == pre[i + 1..];
      var already := FindStem(known, added, pre[i].rel);
      if already.Some? {
        if already.value.asset.sha256 != pre[i].hash {
          return Err(StemPathConflict(pre[i].rel, already.value.asset.sha256, pre[i].hash));
        }
        stems := stems + [already.value];
      } else {
        var base := Slugify(pre[i].name);
        var id, _ := MintId(base, taken);
        var asset := Asset(id, pre[i].rel, pre[i].hash, pre[i].size, STEM_ROLE, now, None, None);
        IdsGrow(added, asset);
        taken := taken + {id};
        added := added + [asset];
        stems := stems + [ImportedAsset(asset, Registered)];
      }
    }
    return Ok(StemLinks(added, stems));
  }

  lemma IdsGrow(assets: seq<Asset>, a: Asset)
    ensures AssetIds(assets + [a]) == AssetIds(assets) + {a.id}
  {
  }

  /** Stamp in place every asset the pass vouches for. */
  method StampInPlace(assets: array<Asset>, verified: map<string, string>, now: string) returns (stamped: bool)
    modifies assets
    ensures assets[..] == Stamp(old(assets[..]), verified, now)
    ensures stamped <==> exists i :: 0 <= i < assets.Length && Vouched(verified, old(assets[i]))
  {
    stamped := false;
    for i := 0 to assets.Length
      invariant forall k :: 0 <= k < i ==>
                  assets[k] == if Vouched(verified, old(assets[k])) then old(assets[k]).(lastVerified := Some(now)) else old(assets[k])
      invariant forall k :: i <= k < assets.Length ==> assets[k] == old(assets[k])
      invariant stamped <==> exists k :: 0 <= k < i && Vouched(verified, old(assets[k]))
    {
      if assets[i].id in verified && verified[assets[i].id] == assets[i].sha256 {
        assets[i] := assets[i].(lastVerified := Some(now));
        stamped := true;
      }
    }
  }

  // ---------------------------------------------------------------- the strict read

  /** Parse, check the schema URL, decode, then walk every `ext`. */
  method LoadManifest(w: World, file: Option<Bytes>) returns (r: Result<Manifest, LoadError>)
    ensures r == Load(w, file)
    ensures r.Ok? ==> file.Some? && w.parse(file.value).Some? && r.value.schema == SCHEMA_URL && ExtsOk(r.value)
  {
    hide Decode, FirstBad, ExtSites, SchemaOf;
    if file.None? {
      return Err(NotAProject);
    }
    var value := w.parse(file.value);
    if value.None? {
      return Err(Parse);
    }
    var found := SchemaOf(value.value);
    if found != Some(SCHEMA_URL) {
      return Err(UnrecognizedSchema(found));
    }
    var m := Decode(value.value);
    if m.None? {
      return Err(Invalid);
    }
    var bad := ValidateExtKeys(m.value);
    if bad.Some? {
      return Err(InvalidExtKey(bad.value));
    }
    WalkCoversEveryExt(m.value);
    DecodedSchema(value.value);
    return Ok(m.value);
  }

  // ---------------------------------------------------------------- deciding

  method AddUnderLock(m: Manifest, r: Request) returns (v: Verdict)
    requires r.AddRequest?
    ensures v == DecideAdd(m, r)
  {
    hide Mint, SlugOf;
    var existing := FindPath(m.assets, r.path);
    if existing.Some? {
      return Keep(Refused(DuplicatePath(r.path, existing.value.id)));
    }
    var ids := AssetIds(m.assets);
    var id;
    if r.chosen.Some? {
      id := r.chosen.value;
      if !ValidSlug(id) {
        return Keep(Refused(InvalidSlug("id", id)));
      }
      if id in ids {
        return Keep(Refused(IdInUse(id)));
      }
    } else {
      var base := Slugify(r.stem);
      var minted, _ := MintId(base, ids);
      id := minted;
    }
    var asset := Asset(id, r.path, r.sha256, r.size, r.role, r.now, None, None);
    return Put(m.(assets := m.assets + [asset]), Added(asset));
  }

  /** What the job's input shows now, if the decision looks at it. */
  function InputNow(w: World, m: Manifest, r: Request, files: Files): Look {
    match InputTarget(w, m, r)
    case None => Absent
    case Some(c) => LookAt(w, files, c)
  }

  /** The look is at the file the recorded path leads to, unless the hash settles it. */
  ghost predicate InputShown(w: World, m: Manifest, r: Request, files: Files, look: Look)
    requires r.JobRequest?
  {
    !HashTaken(m, r.job.inputSha256) && !Rooted(r.job.inputPath) && w.canonicalize(Arg(r.job.inputPath)).Ok?
    && w.root <= w.canonicalize(Arg(r.job.inputPath)).value ==>
      look == LookAt(w, files, At(w.canonicalize(Arg(r.job.inputPath)).value))
  }

  lemma NowIsShown(w: World, m: Manifest, r: Request, files: Files)
    requires r.JobRequest? && FindJob(m.derivations, r.sha256).None?
    ensures InputShown(w, m, r, files, InputNow(w, m, r, files))
  {
    hide LookAt;
    FindHashIsFirst(m.assets, r.job.inputSha256);
  }

  lemma ExplainLink(w: World, m: Manifest, r: Request, look: Look)
    requires r.JobRequest?
    ensures var l := LinkInput(w, m, r, look);
            && (l.Ok? ==> InputLinked(w, m, r, look, l.value.input, l.value.added))
            && (l.Err? ==> InputTrouble(w, m, r.job, look, l.error))
  {
    hide LinkInput, InputLinked, InputTrouble, InputLinkable;
    var l := LinkInput(w, m, r, look);
    if l.Ok? {
      InputLinksIff(w, m, r, look, l.value.input, l.value.added, InputMissing(""));
    } else {
      InputLinksIff(w, m, r, look, ImportedAsset(Asset("", "", "", 0, "", "", None, None), Existing), [], l.error);
    }
  }

  /** The input by its hash, or registered from its recorded path. */
  method ResolveInput(w: World, m: Manifest, r: Request, files: Files) returns (l: Result<Linked, Error>)
    requires r.JobRequest? && FindJob(m.derivations, r.sha256).None?
    ensures l == LinkInput(w, m, r, InputNow(w, m, r, files))
    ensures InputShown(w, m, r, files, InputNow(w, m, r, files))
    ensures l.Ok? ==> InputLinked(w, m, r, InputNow(w, m, r, files), l.value.input, l.value.added)
    ensures l.Err? ==> InputTrouble(w, m, r.job, InputNow(w, m, r, files), l.error)
  {
    hide Mint, SlugOf, FileStem, LookAt, InputLinked, InputTrouble, InputShown;
    NowIsShown(w, m, r, files);
    ExplainLink(w, m, r, InputNow(w, m, r, files));
    var existing := FindHash(m.assets, r.job.inputSha256);
    if existing.Some? {
      return Ok(Linked(ImportedAsset(existing.value, Existing), []));
    }
    var input := r.job.inputPath;
    if IsAbsolute(input) {
      return Err(InputAbsolutePath(input));
    }
    var found := CanonicalInside(w, Arg(input));
    if found.Err? {
      return Err(match found.error
                 case Missing => InputMissing(input)
                 case Denied => InputUnreadable(input)
                 case Outside => InputOutsideRoot(input));
    }
    var at := found.value;
    var look := LookAt(w, files, At(at.path));
    if !look.Plain? {
      return Err(InputUnreadable(input));
    }
    var hash := w.hash(look.bytes);
    if hash != r.job.inputSha256 {
      return Err(InputHashMismatch(at.stored, r.job.inputSha256, hash));
    }
    var clash := FindPath(m.assets, at.stored);
    if clash.Some? {
      return Err(InputPathConflict(at.stored, clash.value.sha256, hash));
    }
    var base := Slugify(FileStem(at.stored));
    var id, _ := MintId(base, AssetIds(m.assets));
    var asset := Asset(id, at.stored, hash, |look.bytes|, INPUT_ROLE, r.now, None, None);
    return Ok(Linked(ImportedAsset(asset, Registered), [asset]));
  }

  method JobUnderLock(w: World, m: Manifest, r: Request, files: Files) returns (v: Verdict)
    requires r.JobRequest?
    ensures v == DecideJob(w, m, r, InputNow(w, m, r, files))
  {
    hide Mint, SlugOf, LookAt, FolderName, InputNow, LinkInput, LinkStems, StemIds;
    var existing := FindJob(m.derivations, r.sha256);
    if existing.Some? {
      return Keep(AlreadyImported(existing.value.id));
    }
    var input := ResolveInput(w, m, r, files);
    if input.Err? {
      return Keep(Refused(input.error));
    }
    var links := RegisterStems(m.assets, input.value.added, r.stems, r.now);
    if links.Err? {
      return Keep(Refused(links.error));
    }
    var base := Slugify(FolderName(r.folder));
    var id, _ := MintId(base, DerivationIds(m.derivations));
    var d := Derivation(id, [input.value.input.asset.id], StemIds(links.value.stems), IMPORT_TOOL, Some(r.job.engineVersion),
                        Some([Entry("preset", r.job.preset)]), r.createdAt, Some(JobRef(r.rel, r.sha256, None)), None);
    return Put(m.(assets := m.assets + links.value.added, derivations := m.derivations + [d]),
               Imported(input.value.input, links.value.stems, id));
  }

  method CompareUnderLock(m: Manifest, r: Request) returns (v: Verdict)
    requires r.CompareRequest?
    ensures v == DecideCompare(m, r)
  {
    hide Mint, SlugOf, JoinWith, FirstUnknown;
    var existing := FindRecord(m.evaluations, r.sha256);
    if existing.Some? {
      return Keep(EvaluationAlreadyImported(existing.value.id));
    }
    var unknown := CheckKnown(r.candidates, AssetIds(m.assets));
    if unknown.Some? {
      return Keep(Refused(UnknownAsset(unknown.value)));
    }
    var base := Slugify(JoinWith(r.candidates, "-vs-"));
    var id, _ := MintId(base, EvaluationIds(m.evaluations));
    var confidence := if r.confidence == Some(Null) then None else r.confidence;
    var e := Evaluation(id, r.candidates, r.preference, confidence, r.completedAt, RecordRef(r.rel, r.sha256, None), None);
    return Put(m.(evaluations := m.evaluations + [e]), EvaluationImported(e));
  }

  method StampUnderLock(m: Manifest, r: Request) returns (v: Verdict)
    requires r.StampRequest?
    ensures v == DecideStamp(m, r)
  {
    hide Stamp;
    var assets := new Asset[|m.assets|](i requires 0 <= i < |m.assets| => m.assets[i]);
    assert assets[..] == m.assets;
    var stamped := StampInPlace(assets, r.verified, r.now);
    if stamped {
      return Put(m.(assets := assets[..]), Checked(r.statuses, r.records));
    }
    return Keep(Checked(r.statuses, r.records));
  }

  /** Load the manifest afresh and decide. */
  method JudgeNow(w: World, manifest: Option<Bytes>, r: Request, files: Files) returns (v: Verdict)
    ensures v == Judge(w, manifest, r, InputLook(w, manifest, r, files))
  {
    hide Load, DecideAdd, DecideJob, DecideCompare, DecideStamp, LookAt;
    if r.InitRequest? {
      return if manifest.Some? then Keep(Refused(AlreadyExists)) else Put(NewManifest(r.id, r.name, r.now), Initialized);
    }
    var loaded := LoadManifest(w, manifest);
    if loaded.Err? {
      return Keep(Refused(LoadFailed(loaded.error)));
    }
    match r
    case AddRequest(_, _, _, _, _, _, _) => v := AddUnderLock(loaded.value, r);
    case JobRequest(_, _, _, _, _, _, _) => v := JobUnderLock(w, loaded.value, r, files);
    case CompareRequest(_, _, _, _, _, _) => v := CompareUnderLock(loaded.value, r);
    case StampRequest(_, _, _, _) => v := StampUnderLock(loaded.value, r);
  }

  // ---------------------------------------------------------------- the project directory

  /** The first call of a command that fails, if one does. */
  datatype Fault =
    | NoFault
    | LockFails
    | WaitFails
    | CreateFails
    | WriteFails(written: nat)
    | SyncFails
    | RenameFails(removed: bool)

  /** What stands when the lock falls to this process: those who held it before may have
      written the manifest, and files may have changed. */
  datatype Handover = Handover(manifest: Option<Bytes>, files: Files)

  function AtGrant(holder: Option<Handover>, manifest: Option<Bytes>, files: Files): Handover {
    if holder.Some? then holder.value else Handover(manifest, files)
  }

  /** Does the lock come to be held? A failing wait matters only if there is one. */
  predicate Gets(holder: Option<Handover>, fault: Fault) {
    !fault.LockFails? && (fault.WaitFails? ==> holder.None?)
  }

  /** The whole command: its steps before the lock on what it found, its decision on what
      stands at the grant. */
  function Queued(w: World, cmd: Command, manifest: Option<Bytes>, files: Files, at: Handover): Finish {
    var next := Drain(w, cmd, Fresh, manifest, files);
    if next.Lock? then Concluded(w, next.request, at.manifest, at.files) else Finish(next.outcome, manifest)
  }

  /** With nobody ahead that is the command by itself. */
  lemma QueuedAlone(w: World, cmd: Command, manifest: Option<Bytes>, files: Files)
    ensures Queued(w, cmd, manifest, files, Handover(manifest, files)) == Alone(w, cmd, manifest, files)
  {
  }

  /** Waiting or not, the command comes out as its parts say. */
  lemma QueuedRuns(w: World, cmd: Command, manifest: Option<Bytes>, files: Files, at: Handover)
    ensures RunsTo(w, cmd, manifest, files, at.manifest, at.files, Queued(w, cmd, manifest, files, at))
  {
    hide Asks, Finishes, Concluded;
    AsksThis(w, cmd, manifest, files);
    var next := Drain(w, cmd, Fresh, manifest, files);
    if next.Lock? { ConcludedFinishes(w, next.request, at.manifest, at.files); }
    assert Ends(w, next, manifest, at.manifest, at.files, Queued(w, cmd, manifest, files, at));
  }

  datatype Report = Finished(outcome: Outcome) | IoFailed

  /** A command that finishes comes out as expected; one whose calls fail leaves the manifest
      as it found it, or as it stood when it got the lock. */
  ghost predicate Meets(expected: Finish, holder: Option<Handover>, before: Option<Bytes>, granted: Option<Bytes>,
                        after: Option<Bytes>, report: Report, fault: Fault) {
    match report
    case Finished(outcome) => expected == Finish(outcome, after)
    case IoFailed => fault != NoFault && after == if Gets(holder, fault) then granted else before
  }

  /** What a command's method promises: the command, whatever it found and whatever stood when
      it got the lock, came out as the steps before the lock and the decision under it make it
      come out, and as its parts say; or its calls failed. */
  ghost predicate Serves(w: World, cmd: Command, holder: Option<Handover>, before: Option<Bytes>, files: Files,
                         after: Option<Bytes>, report: Report, fault: Fault) {
    var at := AtGrant(holder, before, files);
    && Meets(Queued(w, cmd, before, files, at), holder, before, at.manifest, after, report, fault)
    && (report.Finished? ==> RunsTo(w, cmd, before, files, at.manifest, at.files, Finish(report.outcome, after)))
  }

  /** The lock was never asked for, or it was had and given back. */
  ghost predicate Waited(holder: Option<Handover>, files: Files, holderAfter: Option<Handover>, filesAfter: Files) {
    || (holderAfter == holder && filesAfter == files)
    || (holderAfter == None && filesAfter == if holder.Some? then holder.value.files else files)
  }

  /** What may be left beside the manifest: at most this command's own temporary file, and
      that only if a call failed. */
  ghost predicate Tidy(before: map<nat, Bytes>, after: map<nat, Bytes>, temp: nat, report: Report) {
    && (report.Finished? ==> after == before)
    && after - {temp} == before
  }

  /** The temporary files after a write that meets this fault: as before, unless the file was
      created and then not renamed, and not removed either; then it holds what was written. */
  function Beside(temps: map<nat, Bytes>, temp: nat, bytes: Bytes, fault: Fault): map<nat, Bytes> {
    match fault
    case WriteFails(written) => temps[temp := bytes[..if written < |bytes| then written else |bytes|]]
    case SyncFails => temps[temp := bytes]
    case RenameFails(false) => temps[temp := bytes]
    case _ => temps
  }

  /** The first step of a verify: the manifest, loaded. */
  lemma VerifyDrains(w: World, cmd: Command, manifest: Option<Bytes>, files: Files)
    requires cmd.Verify?
    ensures var next, loaded := Drain(w, cmd, Fresh, manifest, files), Load(w, manifest);
            && (loaded.Err? ==> next == Stop(Refused(LoadFailed(loaded.error))))
            && (loaded.Ok? ==> next == Drain(w, cmd, Assets(loaded.value, [], map[], false), manifest, files))
  {
    hide Load, LookAt;
  }

  /** The first step of an import: a project, then the argument's path. */
  lemma ImportDrains(w: World, cmd: Command, manifest: Option<Bytes>, files: Files)
    requires cmd.Import?
    ensures var next, at := Drain(w, cmd, Fresh, manifest, files), CanonicalInside(w, Arg(cmd.arg));
            && (manifest.None? ==> next == Stop(Refused(LoadFailed(NotAProject))))
            && (manifest.Some? && at.Ok? ==> next == Drain(w, cmd, EvidenceRead(at.value), manifest, files))
            && (manifest.Some? && at == Err(ResolveKind.Missing) ==> next == Stop(Refused(JobMissing(cmd.arg))))
            && (manifest.Some? && at == Err(ResolveKind.Denied) ==> next == Stop(Refused(JobUnreadable(cmd.arg))))
            && (manifest.Some? && at == Err(ResolveKind.Outside) ==> next == Stop(Refused(JobOutsideRoot(cmd.arg))))
  {
    hide CanonicalInside, LookAt, EvidenceFrom;
  }

  function AfterFile(w: World, cmd: Command, at: Inside, sha256: string, e: Evidence, manifest: Option<Bytes>, files: Files): Next
    requires cmd.Import?
  {
    if e.JobEvidence? then Drain(w, cmd, Stems(at, sha256, e, []), manifest, files)
    else Lock(CompareRequest(at.stored, sha256, e.candidates, e.preference, e.confidence, e.completedAt))
  }

  /** The second: the file's bytes, and what they say. */
  lemma EvidenceDrains(w: World, cmd: Command, at: Inside, manifest: Option<Bytes>, files: Files)
    requires cmd.Import?
    ensures var next, look := Drain(w, cmd, EvidenceRead(at), manifest, files), LookAt(w, files, At(at.path));
            && (!look.Plain? ==> next == Stop(Refused(JobUnreadable(cmd.arg))))
            && (look.Plain? && EvidenceFrom(w, cmd.arg, look.bytes).Err? ==>
                  next == Stop(Refused(EvidenceFrom(w, cmd.arg, look.bytes).error)))
            && (look.Plain? && EvidenceFrom(w, cmd.arg, look.bytes).Ok? ==>
                  next == AfterFile(w, cmd, at, w.hash(look.bytes), EvidenceFrom(w, cmd.arg, look.bytes).value, manifest, files))
  {
    hide CanonicalInside, LookAt, EvidenceFrom;
  }

  /** How a file's tree is read: by the schema it declares. */
  lemma EvidenceReads(w: World, arg: string, bytes: Bytes)
    ensures var r, j := EvidenceFrom(w, arg, bytes), w.parse(bytes);
            && (j.None? ==> r == Err(MalformedJob(arg)))
            && (j.Some? && SchemaOf(j.value) == Some(COMPARE_SCHEMA_URL) ==> r == CompareFrom(w, arg, j.value))
            && (j.Some? && SchemaOf(j.value).Some? && SchemaOf(j.value) != Some(COMPARE_SCHEMA_URL) ==>
                  r == Err(UnrecognizedImportSchema(SchemaOf(j.value).value)))
            && (j.Some? && SchemaOf(j.value).None? ==> r == JobFrom(w, arg, j.value))
  {
    hide CompareFrom, JobFrom, SchemaOf;
  }

  class ProjectDir {
    const w: World
    var files: Files
    var manifest: Option<Bytes>
    var temps: map<nat, Bytes>
    var locked: bool
    var holder: Option<Handover>
    var notices: nat

    /** A directory as found, the lock with another process or free. */
    constructor (w: World, files: Files, manifest: Option<Bytes>, holder: Option<Handover>)
      ensures this.w == w && this.files == files && this.manifest == manifest && this.holder == holder
      ensures temps == map[] && !locked && notices == 0
    {
      this.w, this.files, this.manifest, this.holder := w, files, manifest, holder;
      this.temps, this.locked, this.notices := map[], false, 0;
    }

    /** Try once; if another process has the lock, say so once and wait until it is free. */
    method Acquire(fault: Fault) returns (ok: bool)
      requires !locked
      modifies this`manifest, this`files, this`locked, this`holder, this`notices
      ensures ok <==> Gets(old(holder), fault)
      ensures locked == ok
      ensures notices == old(notices) + if old(holder).Some? && !fault.LockFails? then 1 else 0
      ensures ok ==> holder == None && Handover(manifest, files) == AtGrant(old(holder), old(manifest), old(files))
      ensures !ok ==> holder == old(holder) && manifest == old(manifest) && files == old(files)
    {
      if fault.LockFails? {
        return false;
      }
      if holder.Some? {
        notices := notices + 1;
        if fault.WaitFails? {
          return false;
        }
        manifest, files := holder.value.manifest, holder.value.files;
        holder := None;
      }
      locked := true;
      return true;
    }

    /** Create, write, flush, rename. A failed rename tries to remove the temporary file;
        a failure before it leaves the file behind. */
    method WriteAtomic(bytes: Bytes, temp: nat, fault: Fault) returns (ok: bool)
      requires temp !in temps
      modifies this`manifest, this`temps
      ensures ok <==> fault.NoFault? || fault.LockFails? || fault.WaitFails?
      ensures manifest == if ok then Some(bytes) else old(manifest)
      ensures ok ==> temps == old(temps)
      ensures temps == Beside(old(temps), temp, bytes, fault)
    {
      if fault.CreateFails? {
        return false;
      }
      temps := temps[temp := []];
      if fault.WriteFails? {
        temps := temps[temp := bytes[..if fault.written < |bytes| then fault.written else |bytes|]];
        return false;
      }
      temps := temps[temp := bytes];
      if fault.SyncFails? {
        return false;
      }
      if fault.RenameFails? {
        if fault.removed {
          temps := temps - {temp};
        }
        return false;
      }
      manifest, temps := Some(temps[temp]), temps - {temp};
      return true;
    }

    /** Under the lock: load afresh, decide, write if there is something to write. */
    method Mutate(r: Request, temp: nat, fault: Fault) returns (report: Report)
      requires !locked && temp !in temps
      modifies this
      ensures !locked && Tidy(old(temps), temps, temp, report)
      ensures var at := AtGrant(old(holder), old(manifest), old(files));
              Meets(Concluded(w, r, at.manifest, at.files), old(holder), old(manifest), at.manifest, manifest, report, fault)
      ensures var at := AtGrant(old(holder), old(manifest), old(files));
              report.Finished? ==> Finishes(w, r, at.manifest, at.files, Finish(report.outcome, manifest))
      ensures holder == if Gets(old(holder), fault) then None else old(holder)
      ensures files == if Gets(old(holder), fault) then AtGrant(old(holder), old(manifest), old(files)).files else old(files)
      ensures notices == old(notices) + if old(holder).Some? && !fault.LockFails? then 1 else 0
    {
      hide Judge, InputLook, Print, Finishes;
      ghost var at := AtGrant(holder, manifest, files);
      ConcludedFinishes(w, r, at.manifest, at.files);
      var got := Acquire(fault);
      if !got {
        return IoFailed;
      }
      var v := JudgeNow(w, manifest, r, files);
      if v.Put? {
        var ok := WriteAtomic(Print(w, v.manifest), temp, fault);
        if !ok {
          locked := false;
          return IoFailed;
        }
      }
      locked := false;
      return Finished(v.outcome);
    }

    method Init(id: string, name: string, now: string, temp: nat, fault: Fault) returns (report: Report)
      requires !locked && temp !in temps
      modifies this
      ensures !locked && Tidy(old(temps), temps, temp, report) && Waited(old(holder), old(files), holder, files)
      ensures Serves(w, Command.Init(id, name, now), old(holder), old(manifest), old(files), manifest, report, fault)
    {
      hide Concluded, Finishes, RunsTo;
      QueuedRuns(w, Command.Init(id, name, now), manifest, files, AtGrant(holder, manifest, files));
      report := Mutate(InitRequest(id, name, now), temp, fault);
    }

    method Add(rel: string, chosen: Option<string>, role: string, now: string, temp: nat,
               fault: Fault) returns (report: Report)
      requires !locked && temp !in temps
      modifies this
      ensures !locked && Tidy(old(temps), temps, temp, report) && Waited(old(holder), old(files), holder, files)
      ensures Serves(w, Command.Add(rel, chosen, role, now), old(holder), old(manifest), old(files), manifest, report, fault)
    {
      hide Concluded, Finishes, LookAt, CanonicalInside, FileStem, RunsTo;
      ghost var cmd := Command.Add(rel, chosen, role, now);
      QueuedRuns(w, cmd, manifest, files, AtGrant(holder, manifest, files));
      if manifest.None? {
        return Finished(Refused(LoadFailed(NotAProject)));
      }
      if !ValidSlug(role) {
        return Finished(Refused(InvalidSlug("role", role)));
      }
      if IsAbsolute(rel) {
        return Finished(Refused(AbsolutePath(rel)));
      }
      var found := CanonicalInside(w, Arg(rel));
      if found.Err? {
        return Finished(Refused(match found.error
                                case Missing => MissingFile(rel)
                                case Denied => UnreadableFile(rel)
                                case Outside => OutsideRoot(rel)));
      }
      assert Drain(w, cmd, Fresh, manifest, files) == Drain(w, cmd, AddHash(found.value.stored), manifest, files);
      var look := LookAt(w, files, Arg(rel));
      if !look.Plain? {
        return Finished(Refused(UnreadableFile(rel)));
      }
      report := Mutate(AddRequest(found.value.stored, w.hash(look.bytes), |look.bytes|, chosen, FileStem(rel), role, now), temp, fault);
    }

    method Import(arg: string, now: string, temp: nat, fault: Fault) returns (report: Report)
      requires !locked && temp !in temps
      modifies this
      ensures !locked && Tidy(old(temps), temps, temp, report) && Waited(old(holder), old(files), holder, files)
      ensures Serves(w, Command.Import(arg, now), old(holder), old(manifest), old(files), manifest, report, fault)
    {
      hide Concluded, Finishes, LookAt, CanonicalInside, DecodeJob, DecodeCompare, CandidateAssets, AssetOfLabel, SchemaOf,
           RunsTo, IsFolder, Drain, Advance, EvidenceFrom, Asks;
      var cmd := Command.Import(arg, now);
      QueuedRuns(w, cmd, manifest, files, AtGrant(holder, manifest, files));
      ImportDrains(w, cmd, manifest, files);
      if manifest.None? {
        return Finished(Refused(LoadFailed(NotAProject)));
      }
      var found := CanonicalInside(w, Arg(arg));
      if found.Err? {
        return Finished(Refused(match found.error
                                case Missing => JobMissing(arg)
                                case Denied => JobUnreadable(arg)
                                case Outside => JobOutsideRoot(arg)));
      }
      var at := found.value;
      EvidenceDrains(w, cmd, at, manifest, files);
      var look := LookAt(w, files, At(at.path));
      if !look.Plain? {
        return Finished(Refused(JobUnreadable(arg)));
      }
      EvidenceReads(w, arg, look.bytes);
      var sha256 := w.hash(look.bytes);
      var value := w.parse(look.bytes);
      if value.None? {
        return Finished(Refused(MalformedJob(arg)));
      }
      var schema := SchemaOf(value.value);
      if schema == Some(COMPARE_SCHEMA_URL) {
        report := ImportEvaluation(arg, at, sha256, value.value, temp, fault);
        return;
      }
      if schema.Some? {
        return Finished(Refused(UnrecognizedImportSchema(schema.value)));
      }
      report := ImportJob(cmd, at, sha256, value.value, temp, fault);
    }

    /** How a job import goes on from the parsed record, in files that stay until the lock. */
    static function AfterJobFile(w: World, cmd: Command, at: Inside, sha256: string, value: Json,
                                 manifest: Option<Bytes>, files: Files, given: Handover): Finish
      requires cmd.Import?
    {
      match JobFrom(w, cmd.arg, value)
      case Err(e) => Finish(Refused(e), manifest)
      case Ok(e) =>
        var next := Drain(w, cmd, Stems(at, sha256, e, []), manifest, files);
        if next.Lock? then Concluded(w, next.request, given.manifest, given.files) else Finish(next.outcome, manifest)
    }

    method ImportJob(cmd: Command, at: Inside, sha256: string, value: Json, temp: nat,
                     fault: Fault) returns (report: Report)
      requires !locked && temp !in temps && cmd.Import?
      modifies this
      ensures !locked && Tidy(old(temps), temps, temp, report) && Waited(old(holder), old(files), holder, files)
      ensures var given := AtGrant(old(holder), old(manifest), old(files));
              Meets(AfterJobFile(w, cmd, at, sha256, value, old(manifest), old(files), given),
                    old(holder), old(manifest), given.manifest, manifest, report, fault)
    {
      hide Concluded, Finishes, DecodeJob, Drain, IsFolder, StemsFound, FirstBadStem;
      var job := DecodeJob(value);
      if job.None? {
        return Finished(Refused(MalformedJob(cmd.arg)));
      }
      if job.value.outcome != "success" {
        return Finished(Refused(NotSuccess(job.value.outcome)));
      }
      var createdAt := w.rfc3339(job.value.finishedAt);
      if createdAt.None? {
        return Finished(Refused(InvalidTimestamp(job.value.finishedAt)));
      }
      var evidence := Evidence.JobEvidence(job.value, createdAt.value);
      ParentIsFolder(w, at.path);
      var folder := Parent(w, at.path);
      var pre := HashStems(w, files, cmd, at, folder, sha256, evidence, manifest);
      if pre.Err? {
        return Finished(Refused(pre.error));
      }
      report := Mutate(JobRequest(at.stored, sha256, folder, job.value, createdAt.value, pre.value, cmd.now), temp, fault);
    }

    /** How an evaluation import goes on from the parsed record. */
    static function AfterRecordFile(w: World, arg: string, at: Inside, sha256: string, value: Json,
                                    manifest: Option<Bytes>, given: Handover): Finish
    {
      match CompareFrom(w, arg, value)
      case Err(e) => Finish(Refused(e), manifest)
      case Ok(e) =>
        Concluded(w, CompareRequest(at.stored, sha256, e.candidates, e.preference, e.confidence, e.completedAt),
                  given.manifest, given.files)
    }

    /** The record yields evidence and goes to the lock, or yields none and is refused. */
    static ghost predicate RecordRuns(w: World, arg: string, at: Inside, sha256: string, value: Json,
                                      manifest: Option<Bytes>, given: Handover, f: Finish) {
      || (exists error :: CompareRefused(w, arg, value, error) && f == Finish(Refused(error), manifest))
      || (exists e :: CompareYields(w, value, e)
                      && Finishes(w, CompareRequest(at.stored, sha256, e.candidates, e.preference, e.confidence, e.completedAt),
                                  given.manifest, given.files, f))
    }

    static lemma AfterRecordRuns(w: World, arg: string, at: Inside, sha256: string, value: Json,
                                 manifest: Option<Bytes>, given: Handover)
      ensures RecordRuns(w, arg, at, sha256, value, manifest, given,
                         AfterRecordFile(w, arg, at, sha256, value, manifest, given))
    {
      hide CompareFrom, CompareRefused, CompareYields, Finishes, Concluded;
      var from := CompareFrom(w, arg, value);
      if from.Err? {
        CompareEvidenceIs(w, arg, value, CompareEvidence([], None, None, ""), from.error);
      } else {
        CompareEvidenceIs(w, arg, value, from.value, CandidateMissingAsset);
        var e := from.value;
        ConcludedFinishes(w, CompareRequest(at.stored, sha256, e.candidates, e.preference, e.confidence, e.completedAt),
                          given.manifest, given.files);
      }
    }

    method ImportEvaluation(arg: string, at: Inside, sha256: string, value: Json, temp: nat,
                            fault: Fault) returns (report: Report)
      requires !locked && temp !in temps
      modifies this
      ensures !locked && Tidy(old(temps), temps, temp, report) && Waited(old(holder), old(files), holder, files)
      ensures var given := AtGrant(old(holder), old(manifest), old(files));
              Meets(AfterRecordFile(w, arg, at, sha256, value, old(manifest), given),
                    old(holder), old(manifest), given.manifest, manifest, report, fault)
      ensures var given := AtGrant(old(holder), old(manifest), old(files));
              report.Finished? ==>
                RecordRuns(w, arg, at, sha256, value, old(manifest), given, Finish(report.outcome, manifest))
    {
      hide Concluded, Finishes, DecodeCompare, CandidateAssets, AssetOfLabel, RecordRuns;
      AfterRecordRuns(w, arg, at, sha256, value, manifest, AtGrant(holder, manifest, files));
      if !w.conforms(value) {
        return Finished(Refused(RecordNotConforming(arg)));
      }
      var record := DecodeCompare(value);
      if record.None? {
        return Finished(Refused(MalformedRecord(arg)));
      }
      var ids := CollectCandidates(record.value.candidates);
      if ids.None? {
        return Finished(Refused(CandidateMissingAsset));
      }
      var preference: Option<string> := None;
      if record.value.preference.Some? {
        preference := AssetOfLabel(record.value.candidates, record.value.preference.value);
        if preference.None? {
          return Finished(Refused(UnknownPreference(record.value.preference.value)));
        }
      }
      report := Mutate(CompareRequest(at.stored, sha256, ids.value, preference, record.value.confidence, record.value.completedAt),
                       temp, fault);
    }

    method Verify(now: string, temp: nat, fault: Fault) returns (report: Report)
      requires !locked && temp !in temps
      modifies this
      ensures !locked && Tidy(old(temps), temps, temp, report) && Waited(old(holder), old(files), holder, files)
      ensures Serves(w, Command.Verify(now), old(holder), old(manifest), old(files), manifest, report, fault)
    {
      hide Concluded, Finishes, LookAt, Load, AssetsDone, RecordsAre, VouchMap, RunsTo, Drain, Advance;
      var cmd := Command.Verify(now);
      QueuedRuns(w, cmd, manifest, files, AtGrant(holder, manifest, files));
      VerifyDrains(w, cmd, manifest, files);
      var loaded := LoadManifest(w, manifest);
      if loaded.Err? {
        return Finished(Refused(LoadFailed(loaded.error)));
      }
      var m := loaded.value;
      var statuses, verified := HashPass(w, files, cmd, m, manifest);
      if statuses.Err? {
        return Finished(Refused(statuses.error));
      }
      var records := CheckRecords(w, files, cmd, m, statuses.value, verified, manifest);
      if records.Err? {
        return Finished(Refused(records.error));
      }
      if verified == map[] {
        return Finished(Checked(statuses.value, records.value));
      }
      report := Mutate(StampRequest(verified, statuses.value, records.value, now), temp, fault);
    }

    method Show() returns (outcome: Outcome)
      ensures Alone(w, Command.Show, manifest, files) == Finish(outcome, manifest)
      ensures RunsTo(w, Command.Show, manifest, files, manifest, files, Finish(outcome, manifest))
      ensures outcome.Shown? ==> manifest == Some(outcome.raw) && Load(w, manifest) == Ok(outcome.manifest)
    {
      hide Load, RunsTo;
      AloneRuns(w, Command.Show, manifest, files);
      var loaded := LoadManifest(w, manifest);
      if loaded.Err? {
        return Refused(LoadFailed(loaded.error));
      }
      return Shown(manifest.value, loaded.value);
    }
  }
}
