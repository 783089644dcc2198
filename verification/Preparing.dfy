/** What each command asks the lock for, and when it stops before it, in files that stay as
    they are; said of the arguments, of where paths lead and of what lies there. */
module Preparing {
  import opened Wrappers
  import opened Slugs
  import opened Json
  import opened Manifests
  import opened Codec
  import opened Paths
  import opened Worlds
  import opened Commands
  import opened Rereading
  import opened Records
  import opened Solo

  ghost predicate Refuses(next: Next, error: Error) {
    next == Stop(Refused(error))
  }

  // ---------------------------------------------------------------- add

  /** What `add` carries to the lock: the file's stored path, the hash and length of its
      bytes, and the stem of its name for the id. */
  ghost predicate AddCarries(w: World, cmd: Command, files: Files, r: Request) {
    && cmd.Add? && r.AddRequest? && w.canonicalize(Arg(cmd.rel)).Ok? && w.root <= w.canonicalize(Arg(cmd.rel)).value
    && r.path == Stored(w.canonicalize(Arg(cmd.rel)).value[|w.root|..])
    && var look := LookAt(w, files, Arg(cmd.rel));
    && look.Plain? && r.sha256 == w.hash(look.bytes) && r.size == |look.bytes|
    && r.chosen == cmd.chosen && r.role == cmd.role && r.now == cmd.now && StemIs(cmd.rel, r.stem)
  }

  /** `add` before the lock: a project, a slug for a role, a relative path, a file inside, its
      bytes; the first that is wanting is the refusal. */
  ghost predicate AddAsks(w: World, cmd: Command, manifest: Option<Bytes>, files: Files, next: Next)
    requires cmd.Add?
  {
    var c := Arg(cmd.rel);
    if manifest == None then Refuses(next, LoadFailed(NotAProject))
    else if !ValidSlug(cmd.role) then Refuses(next, InvalidSlug("role", cmd.role))
    else if Rooted(cmd.rel) then Refuses(next, AbsolutePath(cmd.rel))
    else if Nowhere(w, c) then Refuses(next, MissingFile(cmd.rel))
    else if Escapes(w, c) then Refuses(next, OutsideRoot(cmd.rel))
    else if Barred(w, c) || !LookAt(w, files, c).Plain? then Refuses(next, UnreadableFile(cmd.rel))
    else next.Lock? && AddCarries(w, cmd, files, next.request)
  }

  lemma AddAsksThis(w: World, cmd: Command, manifest: Option<Bytes>, files: Files)
    requires cmd.Add?
    ensures AddAsks(w, cmd, manifest, files, Drain(w, cmd, Fresh, manifest, files))
  {
    hide LookAt, FileStem, Stored, ValidSlug, StemIs;
    FourWays(w, Arg(cmd.rel));
    FileStemIs(cmd.rel);
    var at := CanonicalInside(w, Arg(cmd.rel));
    if manifest.Some? && ValidSlug(cmd.role) && !Rooted(cmd.rel) && at.Ok? {
      assert Advance(w, cmd, Fresh, manifest, LookFor(w, cmd, Fresh, files)) == Continue(AddHash(at.value.stored));
      assert Drain(w, cmd, Fresh, manifest, files) == Drain(w, cmd, AddHash(at.value.stored), manifest, files);
    }
  }

  // ---------------------------------------------------------------- import

  /** One stem of a job, as it lies in the job's folder. */
  ghost predicate StemFound(w: World, files: Files, folder: CPath, name: string, pre: PreStem) {
    var c := Leaf(folder, name + ".wav");
    && w.canonicalize(c).Ok? && w.root <= w.canonicalize(c).value
    && var look := LookAt(w, files, At(w.canonicalize(c).value));
    && look.Plain?
    && pre == PreStem(name, Stored(w.canonicalize(c).value[|w.root|..]), w.hash(look.bytes), |look.bytes|)
  }

  ghost predicate StemReadable(w: World, files: Files, folder: CPath, name: string) {
    exists pre :: StemFound(w, files, folder, name, pre)
  }

  /** What is wrong with a stem that cannot be had. */
  ghost predicate StemTrouble(w: World, folder: CPath, name: string, error: Error) {
    var leaf := name + ".wav";
    if Nowhere(w, Leaf(folder, leaf)) then error == StemMissing(leaf)
    else if Escapes(w, Leaf(folder, leaf)) then error == StemOutsideRoot(leaf)
    else error == StemUnreadable(leaf)
  }

  ghost predicate FirstBadStem(w: World, files: Files, folder: CPath, names: seq<string>, k: int) {
    && 0 <= k < |names| && !StemReadable(w, files, folder, names[k])
    && forall j :: 0 <= j < k ==> StemReadable(w, files, folder, names[j])
  }

  ghost predicate StemsFound(w: World, files: Files, folder: CPath, names: seq<string>, stems: seq<PreStem>) {
    |stems| <= |names| && forall k :: 0 <= k < |stems| ==> StemFound(w, files, folder, names[k], stems[k])
  }

  /** What a job import carries to the lock: the record's stored path and hash, its folder,
      what it says, and every stem in order as it lies in that folder. */
  ghost predicate JobCarries(w: World, cmd: Command, files: Files, at: Inside, sha256: string, e: Evidence, r: Request) {
    && cmd.Import? && e.JobEvidence? && r.JobRequest?
    && r.rel == at.stored && r.sha256 == sha256 && IsFolder(w, at.path, r.folder)
    && r.job == e.job && r.createdAt == e.createdAt && r.now == cmd.now
    && |r.stems| == |e.job.stems| && StemsFound(w, files, r.folder, e.job.stems, r.stems)
  }

  /** A job's stems: all of them found, or the refusal of the first that is not. */
  ghost predicate JobAsks(w: World, cmd: Command, files: Files, at: Inside, sha256: string, e: Evidence, next: Next)
    requires e.JobEvidence?
  {
    || (next.Lock? && JobCarries(w, cmd, files, at, sha256, e, next.request))
    || (exists folder, k, error :: IsFolder(w, at.path, folder) && FirstBadStem(w, files, folder, e.job.stems, k)
                                   && StemTrouble(w, folder, e.job.stems[k], error) && Refuses(next, error))
  }

  /** What evidence leads to: a job to its stems, a comparison straight to the lock. */
  ghost predicate EvidenceAsks(w: World, cmd: Command, files: Files, at: Inside, bytes: Bytes, next: Next)
    requires cmd.Import?
  {
    || (exists error :: YieldsNone(w, cmd.arg, bytes, error) && Refuses(next, error))
    || (exists e :: BytesYield(w, bytes, e)
                    && (if e.JobEvidence? then JobAsks(w, cmd, files, at, w.hash(bytes), e, next)
                        else next == Lock(CompareRequest(at.stored, w.hash(bytes), e.candidates, e.preference,
                                                         e.confidence, e.completedAt))))
  }

  /** `import` before the lock. */
  ghost predicate ImportAsks(w: World, cmd: Command, manifest: Option<Bytes>, files: Files, next: Next)
    requires cmd.Import?
  {
    var c := Arg(cmd.arg);
    if manifest == None then Refuses(next, LoadFailed(NotAProject))
    else if Nowhere(w, c) then Refuses(next, JobMissing(cmd.arg))
    else if Escapes(w, c) then Refuses(next, JobOutsideRoot(cmd.arg))
    else if Barred(w, c) || w.canonicalize(c).Err? || !LookAt(w, files, At(w.canonicalize(c).value)).Plain? then
      Refuses(next, JobUnreadable(cmd.arg))
    else
      var path := w.canonicalize(c).value;
      EvidenceAsks(w, cmd, files, Inside(path, Stored(path[|w.root|..])), LookAt(w, files, At(path)).bytes, next)
  }

  lemma StemIsFound(w: World, files: Files, folder: CPath, name: string)
    ensures var at := CanonicalInside(w, Leaf(folder, name + ".wav"));
            && (StemReadable(w, files, folder, name) <==> at.Ok? && LookAt(w, files, At(at.value.path)).Plain?)
            && (StemReadable(w, files, folder, name) ==>
                  var look := LookAt(w, files, At(at.value.path));
                  StemFound(w, files, folder, name, PreStem(name, at.value.stored, w.hash(look.bytes), |look.bytes|)))
  {
    hide LookAt, Stored;
    var at := CanonicalInside(w, Leaf(folder, name + ".wav"));
    if at.Ok? && LookAt(w, files, At(at.value.path)).Plain? {
      var look := LookAt(w, files, At(at.value.path));
      assert StemFound(w, files, folder, name, PreStem(name, at.value.stored, w.hash(look.bytes), |look.bytes|));
    }
  }

  /** One step over a stem. */
  lemma StemAdvances(w: World, cmd: Command, at: Inside, sha256: string, e: Evidence, done: seq<PreStem>,
                     manifest: Option<Bytes>, files: Files, folder: CPath)
    requires cmd.Import? && e.JobEvidence? && |done| < |e.job.stems| && IsFolder(w, at.path, folder)
    ensures var name := e.job.stems[|done|];
            var next := Advance(w, cmd, Stems(at, sha256, e, done), manifest,
                                LookFor(w, cmd, Stems(at, sha256, e, done), files));
            if StemReadable(w, files, folder, name) then
              exists pre :: StemFound(w, files, folder, name, pre) && next == Continue(Stems(at, sha256, e, done + [pre]))
            else exists error :: StemTrouble(w, folder, name, error) && Refuses(next, error)
  {
    hide LookAt, StemFound, StemReadable;
    ParentIsFolder(w, at.path);
    var name := e.job.stems[|done|];
    var c := Leaf(folder, name + ".wav");
    FourWays(w, c);
    StemIsFound(w, files, folder, name);
    var next := Advance(w, cmd, Stems(at, sha256, e, done), manifest, LookFor(w, cmd, Stems(at, sha256, e, done), files));
    if !StemReadable(w, files, folder, name) {
      assert StemTrouble(w, folder, name, next.outcome.error);
    }
  }

  lemma {:induction false} StemsAsk(w: World, cmd: Command, at: Inside, sha256: string, e: Evidence, done: seq<PreStem>,
                                    manifest: Option<Bytes>, files: Files, folder: CPath)
    requires cmd.Import? && e.JobEvidence? && IsFolder(w, at.path, folder)
    requires StemsFound(w, files, folder, e.job.stems, done)
    ensures JobAsks(w, cmd, files, at, sha256, e, Drain(w, cmd, Stems(at, sha256, e, done), manifest, files))
    decreases |e.job.stems| - |done|
  {
    hide LookAt, StemFound, StemReadable, StemTrouble, Stored;
    var next := Drain(w, cmd, Stems(at, sha256, e, done), manifest, files);
    if |done| == |e.job.stems| {
      ParentIsFolder(w, at.path);
      assert next == Lock(JobRequest(at.stored, sha256, folder, e.job, e.createdAt, done, cmd.now)) by {
        hide IsFolder;
      }
    } else {
      StemAdvances(w, cmd, at, sha256, e, done, manifest, files, folder);
      var name := e.job.stems[|done|];
      if StemReadable(w, files, folder, name) {
        var pre :| StemFound(w, files, folder, name, pre)
                   && Advance(w, cmd, Stems(at, sha256, e, done), manifest,
                              LookFor(w, cmd, Stems(at, sha256, e, done), files))
                      == Continue(Stems(at, sha256, e, done + [pre]));
        StemsAsk(w, cmd, at, sha256, e, done + [pre], manifest, files, folder);
      } else {
        AllReadable(w, files, folder, e.job.stems, done);
        assert FirstBadStem(w, files, folder, e.job.stems, |done|);
      }
    }
  }

  lemma AllReadable(w: World, files: Files, folder: CPath, names: seq<string>, done: seq<PreStem>)
    requires StemsFound(w, files, folder, names, done)
    ensures forall k :: 0 <= k < |done| ==> StemReadable(w, files, folder, names[k])
  {
    hide StemFound;
  }

  lemma EvidenceAsksThis(w: World, cmd: Command, at: Inside, manifest: Option<Bytes>, files: Files)
    requires cmd.Import? && LookAt(w, files, At(at.path)).Plain?
    ensures EvidenceAsks(w, cmd, files, at, LookAt(w, files, At(at.path)).bytes,
                         Drain(w, cmd, EvidenceRead(at), manifest, files))
  {
    hide LookAt, EvidenceFrom, YieldsNone, BytesYield, JobAsks, IsFolder, StemsFound;
    var bytes := LookAt(w, files, At(at.path)).bytes;
    var got := EvidenceFrom(w, cmd.arg, bytes);
    var next := Drain(w, cmd, EvidenceRead(at), manifest, files);
    if got.Err? {
      EvidenceIs(w, cmd.arg, bytes, JobEvidence(JobRecord("", "", Null, [], "", "", 0), ""), got.error);
      assert Refuses(next, got.error);
    } else {
      EvidenceIs(w, cmd.arg, bytes, got.value, MalformedJob(cmd.arg));
      if got.value.JobEvidence? {
        assert next == Drain(w, cmd, Stems(at, w.hash(bytes), got.value, []), manifest, files);
        ParentIsFolder(w, at.path);
        NoneFound(w, files, Parent(w, at.path), got.value.job.stems);
        StemsAsk(w, cmd, at, w.hash(bytes), got.value, [], manifest, files, Parent(w, at.path));
      }
    }
  }

  lemma NoneFound(w: World, files: Files, folder: CPath, names: seq<string>)
    ensures StemsFound(w, files, folder, names, [])
  {
  }

  lemma ImportAsksThis(w: World, cmd: Command, manifest: Option<Bytes>, files: Files)
    requires cmd.Import?
    ensures ImportAsks(w, cmd, manifest, files, Drain(w, cmd, Fresh, manifest, files))
  {
    hide LookAt, EvidenceAsks, EvidenceFrom, Stored;
    FourWays(w, Arg(cmd.arg));
    var at := CanonicalInside(w, Arg(cmd.arg));
    if manifest.Some? && at.Ok? {
      assert Advance(w, cmd, Fresh, manifest, LookFor(w, cmd, Fresh, files)) == Continue(EvidenceRead(at.value));
      assert Drain(w, cmd, Fresh, manifest, files) == Drain(w, cmd, EvidenceRead(at.value), manifest, files);
      if LookAt(w, files, At(at.value.path)).Plain? { EvidenceAsksThis(w, cmd, at.value, manifest, files); }
    }
  }

  // ---------------------------------------------------------------- verify

  /** Nothing can be told of the file: not even its length, or that and it is the recorded
      one, but no bytes. A record has no recorded length. */
  predicate Unreadable(size: Option<U64>, look: Look) {
    look.Sealed? || (look.Locked? && (size.None? || look.len == size.value))
  }

  /** What a look makes of a file, when it makes anything of it. */
  predicate Shows(w: World, size: Option<U64>, sha256: string, look: Look, integrity: Integrity) {
    match integrity
    case Verified => look.Plain? && (size.Some? ==> |look.bytes| == size.value) && w.hash(look.bytes) == sha256
    case Modified =>
      || (look.Plain? && ((size.Some? && |look.bytes| != size.value) || w.hash(look.bytes) != sha256))
      || (look.Locked? && size.Some? && look.len != size.value)
    case Missing => look.Absent?
  }

  ghost predicate AssetBad(w: World, files: Files, a: Asset) {
    Unreadable(Some(a.size), LookAt(w, files, StoredCandidate(w, a.path)))
  }

  ghost predicate RecordBad(w: World, files: Files, e: Evaluation) {
    Unreadable(None, LookAt(w, files, StoredCandidate(w, e.record.path)))
  }

  ghost predicate AssetIs(w: World, files: Files, a: Asset, s: AssetStatus) {
    && s.id == a.id && s.path == a.path
    && Shows(w, Some(a.size), a.sha256, LookAt(w, files, StoredCandidate(w, a.path)), s.integrity)
  }

  ghost predicate RecordIs(w: World, files: Files, e: Evaluation, s: AssetStatus) {
    && s.id == e.id && s.path == e.record.path
    && Shows(w, None, e.record.sha256, LookAt(w, files, StoredCandidate(w, e.record.path)), s.integrity)
  }

  ghost predicate AssetsAre(w: World, files: Files, assets: seq<Asset>, statuses: seq<AssetStatus>) {
    |statuses| <= |assets| && forall k :: 0 <= k < |statuses| ==> AssetIs(w, files, assets[k], statuses[k])
  }

  ghost predicate RecordsAre(w: World, files: Files, es: seq<Evaluation>, records: seq<AssetStatus>) {
    |records| <= |es| && forall k :: 0 <= k < |records| ==> RecordIs(w, files, es[k], records[k])
  }

  ghost predicate FirstBadAsset(w: World, files: Files, assets: seq<Asset>, k: int) {
    0 <= k < |assets| && AssetBad(w, files, assets[k]) && forall j :: 0 <= j < k ==> !AssetBad(w, files, assets[j])
  }

  ghost predicate FirstBadRecord(w: World, files: Files, es: seq<Evaluation>, k: int) {
    0 <= k < |es| && RecordBad(w, files, es[k]) && forall j :: 0 <= j < k ==> !RecordBad(w, files, es[j])
  }

  ghost predicate AssetsOk(w: World, files: Files, m: Manifest) {
    forall k :: 0 <= k < |m.assets| ==> !AssetBad(w, files, m.assets[k])
  }

  /** The outcome of a whole pass: a report if nothing verified, else the lock is asked for. */
  ghost predicate PassAsks(w: World, cmd: Command, files: Files, m: Manifest, next: Next)
    requires cmd.Verify?
  {
    exists statuses, records ::
      && |statuses| == |m.assets| && AssetsAre(w, files, m.assets, statuses)
      && |records| == |m.evaluations| && RecordsAre(w, files, m.evaluations, records)
      && next == (if VouchMap(m.assets, statuses) == map[] then Stop(Checked(statuses, records))
                  else Lock(StampRequest(VouchMap(m.assets, statuses), statuses, records, cmd.now)))
  }

  /** A pass over a manifest: refused for the first file it can tell nothing of, assets
      before records, and for no other; a file gone or changed is a status. */
  ghost predicate ChecksAsk(w: World, cmd: Command, files: Files, m: Manifest, next: Next)
    requires cmd.Verify?
  {
    || (exists k :: FirstBadAsset(w, files, m.assets, k) && Refuses(next, UnreadableAsset(m.assets[k].path)))
    || (&& AssetsOk(w, files, m)
        && exists k :: FirstBadRecord(w, files, m.evaluations, k)
                       && Refuses(next, UnreadableAsset(m.evaluations[k].record.path)))
    || (&& AssetsOk(w, files, m) && (forall k :: 0 <= k < |m.evaluations| ==> !RecordBad(w, files, m.evaluations[k]))
        && PassAsks(w, cmd, files, m, next))
  }

  /** `verify` before the lock. */
  ghost predicate VerifyAsks(w: World, cmd: Command, manifest: Option<Bytes>, files: Files, next: Next)
    requires cmd.Verify?
  {
    match Load(w, manifest)
    case Err(e) => Refuses(next, LoadFailed(e))
    case Ok(m) => ChecksAsk(w, cmd, files, m, next)
  }

  /** A file a look tells something of has exactly one integrity; one it tells nothing of none. */
  lemma OneIntegrity(w: World, size: Option<U64>, sha256: string, look: Look)
    ensures Unreadable(size, look) <==> forall i :: !Shows(w, size, sha256, look, i)
    ensures forall i, j :: Shows(w, size, sha256, look, i) && Shows(w, size, sha256, look, j) ==> i == j
  {
    if !Unreadable(size, look) {
      if look.Absent? {
        assert Shows(w, size, sha256, look, Integrity.Missing);
      } else if look.Plain? && (size.Some? ==> |look.bytes| == size.value) && w.hash(look.bytes) == sha256 {
        assert Shows(w, size, sha256, look, Verified);
      } else {
        assert Shows(w, size, sha256, look, Modified);
      }
    }
  }

  /** Both looks at an asset, when both show the same. */
  function IntegrityOf(w: World, a: Asset, look: Look): Result<Integrity, Error> {
    var settled := SizeCheck(a, look);
    if settled.Err? then Err(settled.error)
    else if settled.value.Some? then Ok(settled.value.value)
    else HashCheck(w, a, look)
  }

  /** An asset's check: refused exactly when the look tells nothing, else what it shows. */
  lemma AssetChecks(w: World, a: Asset, look: Look)
    ensures forall i :: IntegrityOf(w, a, look) == Ok(i) <==> Shows(w, Some(a.size), a.sha256, look, i)
    ensures Unreadable(Some(a.size), look) <==> IntegrityOf(w, a, look) == Err(UnreadableAsset(a.path))
    ensures IntegrityOf(w, a, look).Err? ==> IntegrityOf(w, a, look).error == UnreadableAsset(a.path)
  {
  }

  /** A record's check likewise. */
  lemma RecordChecks(w: World, r: RecordRef, look: Look)
    ensures forall i :: RecordCheck(w, r, look) == Ok(i) <==> Shows(w, None, r.sha256, look, i)
    ensures Unreadable(None, look) <==> RecordCheck(w, r, look) == Err(UnreadableAsset(r.path))
    ensures RecordCheck(w, r, look).Err? ==> RecordCheck(w, r, look).error == UnreadableAsset(r.path)
  {
  }

  /** Both looks at one asset, in files that stay. */
  lemma AssetDrains(w: World, cmd: Command, m: Manifest, statuses: seq<AssetStatus>, verified: map<string, string>,
                    manifest: Option<Bytes>, files: Files)
    requires cmd.Verify? && |statuses| < |m.assets|
    ensures var a, prep := m.assets[|statuses|], Assets(m, statuses, verified, false);
            var look := LookAt(w, files, StoredCandidate(w, a.path));
            var r := IntegrityOf(w, a, look);
            Drain(w, cmd, prep, manifest, files) ==
              if r.Err? then Stop(Refused(r.error)) else Drain(w, cmd, Settle(prep, a, r.value), manifest, files)
  {
    hide LookAt, StoredCandidate, SizeCheck, HashCheck;
    var a, prep := m.assets[|statuses|], Assets(m, statuses, verified, false);
    var look := LookAt(w, files, StoredCandidate(w, a.path));
    if SizeCheck(a, look) == Ok(None) {
      assert Drain(w, cmd, prep, manifest, files) == Drain(w, cmd, prep.(sized := true), manifest, files);
      if HashCheck(w, a, look).Ok? {
        assert Settle(prep.(sized := true), a, HashCheck(w, a, look).value) == Settle(prep, a, HashCheck(w, a, look).value);
      }
    }
  }

  lemma LastAssetDrains(w: World, cmd: Command, m: Manifest, statuses: seq<AssetStatus>, verified: map<string, string>,
                        manifest: Option<Bytes>, files: Files)
    requires cmd.Verify? && |statuses| == |m.assets|
    ensures Drain(w, cmd, Assets(m, statuses, verified, false), manifest, files)
         == Drain(w, cmd, Records(m, statuses, verified, []), manifest, files)
  {
    hide LookAt, StoredCandidate;
  }

  lemma RecordDrains(w: World, cmd: Command, m: Manifest, statuses: seq<AssetStatus>, verified: map<string, string>,
                     records: seq<AssetStatus>, manifest: Option<Bytes>, files: Files)
    requires cmd.Verify? && |records| < |m.evaluations|
    ensures var e := m.evaluations[|records|];
            var r := RecordCheck(w, e.record, LookAt(w, files, StoredCandidate(w, e.record.path)));
            Drain(w, cmd, Records(m, statuses, verified, records), manifest, files) ==
              if r.Err? then Stop(Refused(r.error))
              else Drain(w, cmd, Records(m, statuses, verified, records + [AssetStatus(e.id, e.record.path, r.value)]), manifest, files)
  {
    hide LookAt, StoredCandidate, RecordCheck;
  }

  lemma LastRecordDrains(w: World, cmd: Command, m: Manifest, statuses: seq<AssetStatus>, verified: map<string, string>,
                         records: seq<AssetStatus>, manifest: Option<Bytes>, files: Files)
    requires cmd.Verify? && |records| == |m.evaluations|
    ensures Drain(w, cmd, Records(m, statuses, verified, records), manifest, files) ==
              if verified == map[] then Stop(Checked(statuses, records)) else Lock(StampRequest(verified, statuses, records, cmd.now))
  {
    hide LookAt, StoredCandidate, RecordCheck;
  }

  /** The pass has been over all the assets. */
  ghost predicate AssetsDone(w: World, files: Files, m: Manifest, statuses: seq<AssetStatus>, verified: map<string, string>) {
    && AssetsOk(w, files, m)
    && |statuses| == |m.assets| && AssetsAre(w, files, m.assets, statuses) && verified == VouchMap(m.assets, statuses)
  }

  /** The records from some point on. */
  lemma {:induction false} RecordsAsk(w: World, cmd: Command, m: Manifest, statuses: seq<AssetStatus>,
                                      verified: map<string, string>, records: seq<AssetStatus>,
                                      manifest: Option<Bytes>, files: Files)
    requires cmd.Verify? && |records| <= |m.evaluations|
    requires AssetsDone(w, files, m, statuses, verified)
    requires RecordsAre(w, files, m.evaluations, records)
    ensures ChecksAsk(w, cmd, files, m, Drain(w, cmd, Records(m, statuses, verified, records), manifest, files))
    decreases |m.evaluations| - |records|
  {
    hide LookAt, StoredCandidate, RecordCheck, Drain, VouchMap, AssetBad, Shows, Unreadable, AssetsOk, AssetsAre;
    RecordsNotBad(w, files, m.evaluations, records);
    if |records| == |m.evaluations| {
      LastRecordDrains(w, cmd, m, statuses, verified, records, manifest, files);
      assert PassAsks(w, cmd, files, m, Drain(w, cmd, Records(m, statuses, verified, records), manifest, files));
    } else {
      var e := m.evaluations[|records|];
      var look := LookAt(w, files, StoredCandidate(w, e.record.path));
      var r := RecordCheck(w, e.record, look);
      RecordDrains(w, cmd, m, statuses, verified, records, manifest, files);
      RecordChecks(w, e.record, look);
      if r.Err? {
        assert FirstBadRecord(w, files, m.evaluations, |records|);
      } else {
        RecordsAsk(w, cmd, m, statuses, verified, records + [AssetStatus(e.id, e.record.path, r.value)], manifest, files);
      }
    }
  }

  lemma RecordsNotBad(w: World, files: Files, es: seq<Evaluation>, records: seq<AssetStatus>)
    requires RecordsAre(w, files, es, records)
    ensures forall k :: 0 <= k < |records| ==> !RecordBad(w, files, es[k])
  {
    hide LookAt, StoredCandidate;
    forall k | 0 <= k < |records| ensures !RecordBad(w, files, es[k]) {
      assert RecordIs(w, files, es[k], records[k]);
    }
  }

  lemma AssetsNotBad(w: World, files: Files, assets: seq<Asset>, statuses: seq<AssetStatus>)
    requires AssetsAre(w, files, assets, statuses)
    ensures forall k :: 0 <= k < |statuses| ==> !AssetBad(w, files, assets[k])
  {
    hide LookAt, StoredCandidate;
    forall k | 0 <= k < |statuses| ensures !AssetBad(w, files, assets[k]) {
      assert AssetIs(w, files, assets[k], statuses[k]);
    }
  }

  /** The assets from some point on. */
  lemma {:induction false} AssetsAsk(w: World, cmd: Command, m: Manifest, statuses: seq<AssetStatus>,
                                     manifest: Option<Bytes>, files: Files)
    requires cmd.Verify? && AssetsAre(w, files, m.assets, statuses)
    ensures ChecksAsk(w, cmd, files, m,
                      Drain(w, cmd, Assets(m, statuses, VouchMap(m.assets, statuses), false), manifest, files))
    decreases |m.assets| - |statuses|
  {
    hide LookAt, StoredCandidate, IntegrityOf, Drain, AssetBad, Shows, Unreadable, PassAsks, RecordBad;
    var verified := VouchMap(m.assets, statuses);
    AssetsNotBad(w, files, m.assets, statuses);
    if |statuses| == |m.assets| {
      LastAssetDrains(w, cmd, m, statuses, verified, manifest, files);
      RecordsAsk(w, cmd, m, statuses, verified, [], manifest, files);
    } else {
      var a := m.assets[|statuses|];
      var look := LookAt(w, files, StoredCandidate(w, a.path));
      var r := IntegrityOf(w, a, look);
      AssetDrains(w, cmd, m, statuses, verified, manifest, files);
      AssetChecks(w, a, look);
      if r.Err? {
        BadAsset(w, files, a);
        assert FirstBadAsset(w, files, m.assets, |statuses|);
      } else {
        var longer := statuses + [AssetStatus(a.id, a.path, r.value)];
        assert longer[..|statuses|] == statuses;
        AssetsAsk(w, cmd, m, longer, manifest, files);
      }
    }
  }

  lemma BadAsset(w: World, files: Files, a: Asset)
    ensures AssetBad(w, files, a) <==> Unreadable(Some(a.size), LookAt(w, files, StoredCandidate(w, a.path)))
  {
  }

  lemma VerifyAsksThis(w: World, cmd: Command, manifest: Option<Bytes>, files: Files)
    requires cmd.Verify?
    ensures VerifyAsks(w, cmd, manifest, files, Drain(w, cmd, Fresh, manifest, files))
  {
    hide Load, LookAt, ChecksAsk;
    var loaded := Load(w, manifest);
    if loaded.Ok? {
      assert Drain(w, cmd, Fresh, manifest, files)
          == Drain(w, cmd, Assets(loaded.value, [], map[], false), manifest, files);
      AssetsAsk(w, cmd, loaded.value, [], manifest, files);
    }
  }

  // ---------------------------------------------------------------- init and show

  /** `init` asks for the lock at once; `show` never does. */
  lemma InitAndShowAsk(w: World, cmd: Command, manifest: Option<Bytes>, files: Files)
    ensures cmd.Init? ==> Drain(w, cmd, Fresh, manifest, files) == Lock(InitRequest(cmd.id, cmd.name, cmd.now))
    ensures cmd.Show? && Load(w, manifest).Err? ==>
              Refuses(Drain(w, cmd, Fresh, manifest, files), LoadFailed(Load(w, manifest).error))
    ensures cmd.Show? && Load(w, manifest).Ok? ==>
              manifest.Some? && Drain(w, cmd, Fresh, manifest, files) == Stop(Shown(manifest.value, Load(w, manifest).value))
  {
  }
}
