/** Where a request's facts come from. Every read a process makes is a sighting; a local
    state or a request is backed when each hash, size and parsed field in it goes back to
    bytes that very process saw at the path it names. */
module Backing {
  import opened Wrappers
  import opened Slugs
  import opened Json
  import opened Manifests
  import opened Codec
  import opened Paths
  import opened Worlds
  import opened Commands
  import opened Decisions
  import opened Rereading
  import opened Records

  datatype Sighting = Sighting(pid: nat, at: Candidate, look: Look)

  ghost predicate Saw(sights: seq<Sighting>, p: nat, c: Candidate, bytes: Content) {
    Sighting(p, c, Plain(bytes)) in sights
  }

  /** Bytes with this hash and size were seen there. */
  ghost predicate SawDigest(w: World, sights: seq<Sighting>, p: nat, c: Candidate, sha256: string, size: nat) {
    exists bytes: Content :: Saw(sights, p, c, bytes) && w.hash(bytes) == sha256 && |bytes| == size
  }

  /** The very bytes that carry this hash yield this evidence. */
  ghost predicate SawEvidence(w: World, sights: seq<Sighting>, p: nat, arg: string, at: Inside, sha256: string,
                              e: Evidence) {
    && CanonicalInside(w, Arg(arg)) == Ok(at)
    && exists bytes: Content ::
         Saw(sights, p, At(at.path), bytes) && w.hash(bytes) == sha256 && BytesYield(w, bytes, e)
  }

  ghost predicate StemBacked(w: World, sights: seq<Sighting>, p: nat, folder: CPath, name: string, pre: PreStem) {
    && pre.name == name
    && var r := CanonicalInside(w, Leaf(folder, name + ".wav"));
    && r.Ok? && pre.rel == r.value.stored
    && SawDigest(w, sights, p, At(r.value.path), pre.hash, pre.size)
  }

  ghost predicate StemsBacked(w: World, sights: seq<Sighting>, p: nat, folder: CPath, names: seq<string>,
                              stems: seq<PreStem>) {
    |stems| <= |names| && forall k :: 0 <= k < |stems| ==> StemBacked(w, sights, p, folder, names[k], stems[k])
  }

  /** The look that makes a file verified, modified or missing: bytes with the recorded
      hash, other bytes or another length, nothing. A record has no recorded length. */
  predicate Explains(w: World, size: Option<U64>, sha256: string, look: Look, integrity: Integrity) {
    match integrity
    case Verified => look.Plain? && w.hash(look.bytes) == sha256
    case Modified =>
      (match look
       case Plain(bytes) => w.hash(bytes) != sha256 || (size.Some? && |bytes| != size.value)
       case Locked(len) => size.Some? && len != size.value
       case _ => false)
    case Missing => look == Absent
  }

  ghost predicate SawIntegrity(w: World, sights: seq<Sighting>, p: nat, path: string, size: Option<U64>, sha256: string,
                               integrity: Integrity) {
    exists look :: Sighting(p, StoredCandidate(w, path), look) in sights && Explains(w, size, sha256, look, integrity)
  }

  /** A look tells a file's length whether or not its bytes can be read. */
  function Length(look: Look): Option<U64> {
    match look
    case Plain(bytes) => Some(|bytes|)
    case Locked(len) => Some(len)
    case _ => None
  }

  ghost predicate LengthAt(w: World, sights: seq<Sighting>, p: nat, a: Asset, i: int) {
    && 0 <= i < |sights| && sights[i].pid == p && sights[i].at == StoredCandidate(w, a.path)
    && Length(sights[i].look) == Some(a.size)
  }

  /** The recorded length was seen there. */
  ghost predicate SawLength(w: World, sights: seq<Sighting>, p: nat, a: Asset) {
    exists i :: LengthAt(w, sights, p, a, i)
  }

  ghost predicate StatusBacked(w: World, sights: seq<Sighting>, p: nat, a: Asset, s: AssetStatus) {
    s.id == a.id && s.path == a.path && SawIntegrity(w, sights, p, a.path, Some(a.size), a.sha256, s.integrity)
  }

  ghost predicate RecordBacked(w: World, sights: seq<Sighting>, p: nat, e: Evaluation, s: AssetStatus) {
    s.id == e.id && s.path == e.record.path && SawIntegrity(w, sights, p, e.record.path, None, e.record.sha256, s.integrity)
  }

  /** A hash pass over a snapshot, this far. */
  ghost predicate PassBacked(w: World, sights: seq<Sighting>, p: nat, m: Manifest, statuses: seq<AssetStatus>,
                             verified: map<string, string>) {
    && |statuses| <= |m.assets|
    && verified == VouchMap(m.assets, statuses)
    && forall k :: 0 <= k < |statuses| ==> StatusBacked(w, sights, p, m.assets[k], statuses[k])
  }

  ghost predicate RecordsBacked(w: World, sights: seq<Sighting>, p: nat, m: Manifest, records: seq<AssetStatus>) {
    && |records| <= |m.evaluations|
    && forall k :: 0 <= k < |records| ==> RecordBacked(w, sights, p, m.evaluations[k], records[k])
  }

  ghost predicate PrepBacked(w: World, sights: seq<Sighting>, p: nat, cmd: Command, prep: Prep) {
    Fits(cmd, prep) &&
    match prep
    case Fresh => true
    case AddHash(stored) =>
      ValidSlug(cmd.role) && !Rooted(cmd.rel) && CanonicalInside(w, Arg(cmd.rel)).Ok?
      && CanonicalInside(w, Arg(cmd.rel)).value.stored == stored
    case EvidenceRead(at) => CanonicalInside(w, Arg(cmd.arg)) == Ok(at)
    case Stems(at, sha256, evidence, done) =>
      && SawEvidence(w, sights, p, cmd.arg, at, sha256, evidence)
      && StemsBacked(w, sights, p, Parent(w, at.path), evidence.job.stems, done)
    case Assets(m, statuses, verified, sized) =>
      PassBacked(w, sights, p, m, statuses, verified) && (sized ==> SawLength(w, sights, p, m.assets[|statuses|]))
    case Records(m, statuses, verified, records) =>
      && PassBacked(w, sights, p, m, statuses, verified) && |statuses| == |m.assets|
      && RecordsBacked(w, sights, p, m, records)
  }

  /** A hash pass over a snapshot, to the end: every asset and every record. */
  ghost predicate PassDone(w: World, sights: seq<Sighting>, p: nat, m: Manifest, statuses: seq<AssetStatus>,
                           verified: map<string, string>, records: seq<AssetStatus>) {
    && PassBacked(w, sights, p, m, statuses, verified) && |statuses| == |m.assets|
    && RecordsBacked(w, sights, p, m, records) && |records| == |m.evaluations|
  }

  /** The snapshot a stamp goes back to. */
  ghost predicate PassOf(w: World, sights: seq<Sighting>, p: nat, m: Manifest, r: Request)
    requires r.StampRequest?
  {
    PassDone(w, sights, p, m, r.statuses, r.verified, r.records)
  }

  ghost predicate RequestBacked(w: World, sights: seq<Sighting>, p: nat, cmd: Command, r: Request) {
    match r
    case InitRequest(id, name, now) => cmd == Init(id, name, now)
    case AddRequest(path, sha256, size, chosen, stem, role, now) =>
      && cmd.Add? && chosen == cmd.chosen && role == cmd.role && now == cmd.now && stem == FileStem(cmd.rel)
      && ValidSlug(role) && !Rooted(cmd.rel) && CanonicalInside(w, Arg(cmd.rel)).Ok?
      && path == CanonicalInside(w, Arg(cmd.rel)).value.stored
      && SawDigest(w, sights, p, Arg(cmd.rel), sha256, size)
    case JobRequest(rel, sha256, folder, job, createdAt, stems, now) =>
      && cmd.Import? && now == cmd.now && CanonicalInside(w, Arg(cmd.arg)).Ok?
      && var at := CanonicalInside(w, Arg(cmd.arg)).value;
      && rel == at.stored && IsFolder(w, at.path, folder)
      && SawEvidence(w, sights, p, cmd.arg, at, sha256, Evidence.JobEvidence(job, createdAt))
      && |stems| == |job.stems| && StemsBacked(w, sights, p, folder, job.stems, stems)
    case CompareRequest(rel, sha256, candidates, preference, confidence, completedAt) =>
      && cmd.Import? && CanonicalInside(w, Arg(cmd.arg)).Ok?
      && var at := CanonicalInside(w, Arg(cmd.arg)).value;
      && rel == at.stored
      && SawEvidence(w, sights, p, cmd.arg, at, sha256, CompareEvidence(candidates, preference, confidence, completedAt))
    case StampRequest(_, _, _, now) => cmd == Verify(now) && exists m :: PassOf(w, sights, p, m, r)
  }

  // ---------------------------------------------------------------- sightings only accumulate

  lemma DigestKept(w: World, a: seq<Sighting>, b: seq<Sighting>, p: nat, c: Candidate, sha256: string, size: nat)
    requires a <= b && SawDigest(w, a, p, c, sha256, size)
    ensures SawDigest(w, b, p, c, sha256, size)
  {
    var bytes: Content :| Saw(a, p, c, bytes) && w.hash(bytes) == sha256 && |bytes| == size;
    assert Saw(b, p, c, bytes);
  }

  lemma IntegrityKept(w: World, a: seq<Sighting>, b: seq<Sighting>, p: nat, path: string, size: Option<U64>,
                      sha256: string, integrity: Integrity)
    requires a <= b && SawIntegrity(w, a, p, path, size, sha256, integrity)
    ensures SawIntegrity(w, b, p, path, size, sha256, integrity)
  {
    var look :| Sighting(p, StoredCandidate(w, path), look) in a && Explains(w, size, sha256, look, integrity);
    assert Sighting(p, StoredCandidate(w, path), look) in b;
  }

  lemma EvidenceKept(w: World, a: seq<Sighting>, b: seq<Sighting>, p: nat, arg: string, at: Inside, sha256: string,
                     e: Evidence)
    requires a <= b && SawEvidence(w, a, p, arg, at, sha256, e)
    ensures SawEvidence(w, b, p, arg, at, sha256, e)
  {
    var bytes: Content :| Saw(a, p, At(at.path), bytes) && w.hash(bytes) == sha256 && BytesYield(w, bytes, e);
    assert Saw(b, p, At(at.path), bytes);
  }

  lemma StemsKept(w: World, a: seq<Sighting>, b: seq<Sighting>, p: nat, folder: CPath, names: seq<string>,
                  stems: seq<PreStem>)
    requires a <= b && StemsBacked(w, a, p, folder, names, stems)
    ensures StemsBacked(w, b, p, folder, names, stems)
  {
    forall k | 0 <= k < |stems| ensures StemBacked(w, b, p, folder, names[k], stems[k]) {
      assert StemBacked(w, a, p, folder, names[k], stems[k]);
      DigestKept(w, a, b, p, At(CanonicalInside(w, Leaf(folder, names[k] + ".wav")).value.path), stems[k].hash, stems[k].size);
    }
  }

  lemma PassKept(w: World, a: seq<Sighting>, b: seq<Sighting>, p: nat, m: Manifest, statuses: seq<AssetStatus>,
                 verified: map<string, string>)
    requires a <= b && PassBacked(w, a, p, m, statuses, verified)
    ensures PassBacked(w, b, p, m, statuses, verified)
  {
    forall k | 0 <= k < |statuses| ensures StatusBacked(w, b, p, m.assets[k], statuses[k]) {
      assert StatusBacked(w, a, p, m.assets[k], statuses[k]);
      IntegrityKept(w, a, b, p, m.assets[k].path, Some(m.assets[k].size), m.assets[k].sha256, statuses[k].integrity);
    }
  }

  lemma RecordsKept(w: World, a: seq<Sighting>, b: seq<Sighting>, p: nat, m: Manifest, records: seq<AssetStatus>)
    requires a <= b && RecordsBacked(w, a, p, m, records)
    ensures RecordsBacked(w, b, p, m, records)
  {
    forall k | 0 <= k < |records| ensures RecordBacked(w, b, p, m.evaluations[k], records[k]) {
      assert RecordBacked(w, a, p, m.evaluations[k], records[k]);
      IntegrityKept(w, a, b, p, m.evaluations[k].record.path, None, m.evaluations[k].record.sha256, records[k].integrity);
    }
  }

  lemma LengthKept(w: World, a: seq<Sighting>, b: seq<Sighting>, p: nat, x: Asset)
    requires a <= b && SawLength(w, a, p, x)
    ensures SawLength(w, b, p, x)
  {
    var i :| LengthAt(w, a, p, x, i);
    assert LengthAt(w, b, p, x, i);
  }

  lemma PrepKept(w: World, a: seq<Sighting>, b: seq<Sighting>, p: nat, cmd: Command, prep: Prep)
    requires a <= b && PrepBacked(w, a, p, cmd, prep)
    ensures PrepBacked(w, b, p, cmd, prep)
  {
    match prep
    case Stems(at, sha256, evidence, done) =>
      EvidenceKept(w, a, b, p, cmd.arg, at, sha256, evidence);
      StemsKept(w, a, b, p, Parent(w, at.path), evidence.job.stems, done);
    case Assets(m, statuses, verified, sized) =>
      PassKept(w, a, b, p, m, statuses, verified);
      if sized { LengthKept(w, a, b, p, m.assets[|statuses|]); }
    case Records(m, statuses, verified, records) =>
      PassKept(w, a, b, p, m, statuses, verified);
      RecordsKept(w, a, b, p, m, records);
    case _ =>
  }

  lemma RequestKept(w: World, a: seq<Sighting>, b: seq<Sighting>, p: nat, cmd: Command, r: Request)
    requires a <= b && RequestBacked(w, a, p, cmd, r)
    ensures RequestBacked(w, b, p, cmd, r)
  {
    match r
    case AddRequest(_, sha256, size, _, _, _, _) => DigestKept(w, a, b, p, Arg(cmd.rel), sha256, size);
    case JobRequest(_, sha256, folder, job, createdAt, stems, _) =>
      EvidenceKept(w, a, b, p, cmd.arg, CanonicalInside(w, Arg(cmd.arg)).value, sha256, Evidence.JobEvidence(job, createdAt));
      StemsKept(w, a, b, p, folder, job.stems, stems);
    case CompareRequest(_, sha256, candidates, preference, confidence, completedAt) =>
      EvidenceKept(w, a, b, p, cmd.arg, CanonicalInside(w, Arg(cmd.arg)).value, sha256,
                   CompareEvidence(candidates, preference, confidence, completedAt));
    case StampRequest(_, _, _, _) =>
      var m :| PassOf(w, a, p, m, r);
      PassKept(w, a, b, p, m, r.statuses, r.verified);
      RecordsKept(w, a, b, p, m, r.records);
      assert PassOf(w, b, p, m, r);
    case InitRequest(_, _, _) =>
  }

  // ---------------------------------------------------------------- each step is backed

  /** The sightings after one step before the lock. */
  ghost function Noted(sights: seq<Sighting>, p: nat, target: Option<Candidate>, look: Look): seq<Sighting> {
    if target.Some? then sights + [Sighting(p, target.value, look)] else sights
  }

  ghost predicate NextBacked(w: World, sights: seq<Sighting>, p: nat, cmd: Command, next: Next) {
    match next
    case Continue(prep) => PrepBacked(w, sights, p, cmd, prep)
    case Lock(r) => RequestBacked(w, sights, p, cmd, r)
    case Stop(_) => true
  }

  lemma SettleBacked(w: World, sights: seq<Sighting>, p: nat, prep: Prep, integrity: Integrity)
    requires prep.Assets? && PassBacked(w, sights, p, prep.m, prep.statuses, prep.verified)
    requires |prep.statuses| < |prep.m.assets|
    requires var a := prep.m.assets[|prep.statuses|];
             SawIntegrity(w, sights, p, a.path, Some(a.size), a.sha256, integrity)
    ensures var next := Settle(prep, prep.m.assets[|prep.statuses|], integrity);
            PassBacked(w, sights, p, next.m, next.statuses, next.verified)
  {
    var next := Settle(prep, prep.m.assets[|prep.statuses|], integrity);
    assert next.statuses[..|prep.statuses|] == prep.statuses;
  }

  lemma AssetStepBacked(w: World, sights: seq<Sighting>, p: nat, cmd: Command, prep: Prep, look: Look)
    requires prep.Assets? && PrepBacked(w, sights, p, cmd, prep)
    ensures NextBacked(w, Noted(sights, p, Target(w, cmd, prep), look), p, cmd, AfterAsset(w, prep, look))
  {
    var after := Noted(sights, p, Target(w, cmd, prep), look);
    PassKept(w, sights, after, p, prep.m, prep.statuses, prep.verified);
    if |prep.statuses| < |prep.m.assets| {
      var a := prep.m.assets[|prep.statuses|];
      if !prep.sized {
        var r := SizeCheck(a, look);
        if r.Ok? && r.value.Some? {
          assert Sighting(p, StoredCandidate(w, a.path), look) in after;
          SettleBacked(w, after, p, prep, r.value.value);
        } else if r.Ok? {
          assert LengthAt(w, after, p, a, |after| - 1);
        }
      } else if look.Plain? {
        assert Sighting(p, StoredCandidate(w, a.path), look) in after;
        SettleBacked(w, after, p, prep, HashCheck(w, a, look).value);
      }
    }
  }

  lemma RecordStepBacked(w: World, sights: seq<Sighting>, p: nat, cmd: Command, prep: Prep, look: Look)
    requires prep.Records? && PrepBacked(w, sights, p, cmd, prep)
    ensures NextBacked(w, Noted(sights, p, Target(w, cmd, prep), look), p, cmd, AfterRecord(w, cmd, prep, look))
  {
    var after := Noted(sights, p, Target(w, cmd, prep), look);
    PassKept(w, sights, after, p, prep.m, prep.statuses, prep.verified);
    RecordsKept(w, sights, after, p, prep.m, prep.records);
    var k := |prep.records|;
    var next := AfterRecord(w, cmd, prep, look);
    if k < |prep.m.evaluations| {
      if next.Continue? {
        var e := prep.m.evaluations[k];
        assert Sighting(p, StoredCandidate(w, e.record.path), look) in after;
        assert RecordBacked(w, after, p, e, next.prep.records[k]);
      }
    } else if next.Lock? {
      assert PassOf(w, after, p, prep.m, next.request);
    }
  }

  lemma StemsExtend(w: World, sights: seq<Sighting>, p: nat, folder: CPath, names: seq<string>, stems: seq<PreStem>,
                    one: PreStem)
    requires StemsBacked(w, sights, p, folder, names, stems) && |stems| < |names|
    requires StemBacked(w, sights, p, folder, names[|stems|], one)
    ensures StemsBacked(w, sights, p, folder, names, stems + [one])
  {
  }

  lemma StemStepBacked(w: World, sights: seq<Sighting>, p: nat, cmd: Command, prep: Prep, look: Look)
    requires prep.Stems? && PrepBacked(w, sights, p, cmd, prep)
    ensures NextBacked(w, Noted(sights, p, Target(w, cmd, prep), look), p, cmd, AfterStem(w, cmd, prep, look))
  {
    var after := Noted(sights, p, Target(w, cmd, prep), look);
    var names, folder := prep.evidence.job.stems, Parent(w, prep.at.path);
    ParentIsFolder(w, prep.at.path);
    EvidenceKept(w, sights, after, p, cmd.arg, prep.at, prep.sha256, prep.evidence);
    StemsKept(w, sights, after, p, folder, names, prep.done);
    if |prep.done| < |names| && look.Plain? && CanonicalInside(w, StemCandidate(w, prep)).Ok? {
      var at := CanonicalInside(w, StemCandidate(w, prep)).value;
      assert Saw(after, p, At(at.path), look.bytes);
      StemsExtend(w, after, p, folder, names, prep.done,
                  PreStem(names[|prep.done|], at.stored, w.hash(look.bytes), |look.bytes|));
    }
  }

  lemma WithEvidenceBacked(w: World, sights: seq<Sighting>, p: nat, cmd: Command, at: Inside, sha256: string,
                           e: Evidence)
    requires cmd.Import? && SawEvidence(w, sights, p, cmd.arg, at, sha256, e)
    ensures NextBacked(w, sights, p, cmd, WithEvidence(at, sha256, e))
  {
  }

  lemma EvidenceStepBacked(w: World, sights: seq<Sighting>, p: nat, cmd: Command, prep: Prep, look: Look)
    requires prep.EvidenceRead? && PrepBacked(w, sights, p, cmd, prep)
    ensures NextBacked(w, Noted(sights, p, Target(w, cmd, prep), look), p, cmd, AfterEvidence(w, cmd, prep.at, look))
  {
    hide EvidenceFrom, BytesYield, Yields;
    var after := Noted(sights, p, Target(w, cmd, prep), look);
    if look.Plain? {
      assert Saw(after, p, At(prep.at.path), look.bytes);
      var e := EvidenceFrom(w, cmd.arg, look.bytes);
      if e.Ok? {
        EvidenceIs(w, cmd.arg, look.bytes, e.value, MalformedJob(cmd.arg));
        assert SawEvidence(w, after, p, cmd.arg, prep.at, w.hash(look.bytes), e.value);
        WithEvidenceBacked(w, after, p, cmd, prep.at, w.hash(look.bytes), e.value);
      }
    }
  }

  /** One step before the lock keeps the backing, given that it notes what it looked at. */
  lemma AdvanceBacked(w: World, sights: seq<Sighting>, p: nat, cmd: Command, prep: Prep, manifest: Option<Bytes>,
                      look: Look)
    requires PrepBacked(w, sights, p, cmd, prep)
    ensures NextBacked(w, Noted(sights, p, Target(w, cmd, prep), look), p, cmd, Advance(w, cmd, prep, manifest, look))
  {
    match prep
    case Fresh =>
    case AddHash(_) =>
      if look.Plain? {
        assert Saw(Noted(sights, p, Target(w, cmd, prep), look), p, Arg(cmd.rel), look.bytes);
      }
    case EvidenceRead(_) => EvidenceStepBacked(w, sights, p, cmd, prep, look);
    case Stems(_, _, _, _) => StemStepBacked(w, sights, p, cmd, prep, look);
    case Assets(_, _, _, _) => AssetStepBacked(w, sights, p, cmd, prep, look);
    case Records(_, _, _, _) => RecordStepBacked(w, sights, p, cmd, prep, look);
  }

  // ---------------------------------------------------------------- backed requests are in order

  lemma JobPresetSane(s: Slots, depth: nat)
    requires |s| == 7 && SlotsSane(s, depth) && JobOfSlots(s).Some?
    ensures Sane(JobOfSlots(s).value.preset, depth)
  {
  }

  lemma DecodedJobSane(j: Json, depth: nat)
    requires Sane(j, depth) && DecodeJob(j).Some?
    ensures depth > 0 && Sane(DecodeJob(j).value.preset, depth - 1)
  {
    hide Sane, SlotsSane, JobOfSlots;
    ReadSlotsSane(j, JOB_FIELDS, depth);
    JobPresetSane(OpenSlots(j, JOB_FIELDS).value, depth - 1);
  }

  lemma JobFromSane(w: World, arg: string, value: Json, e: Evidence)
    requires Sane(value, MAX_NESTING) && JobFrom(w, arg, value) == Ok(e)
    ensures e.JobEvidence? && Sane(e.job.preset, MAX_NESTING - 1)
  {
    hide Sane, DecodeJob;
    DecodedJobSane(value, MAX_NESTING);
  }

  lemma ResultSane(j: Json, depth: nat)
    requires Sane(j, depth) && DecodeCompare(j).Some? && depth > 1
    ensures var c := DecodeCompare(j).value.confidence; c.Some? ==> Sane(c.value, depth - 2)
  {
    var names := ["candidates", "completed_at", "result"];
    ReadSlotsSane(j, names, depth);
    var result := OpenSlots(j, names).value[2].value;
    ReadSlotsSane(result, ["preference", "confidence"], depth - 1);
  }

  lemma CompareFromSane(w: World, arg: string, value: Json, e: Evidence)
    requires Sane(value, MAX_NESTING) && CompareFrom(w, arg, value) == Ok(e)
    ensures e.CompareEvidence? && (e.preference.Some? ==> e.preference.value in e.candidates)
    ensures e.confidence.Some? ==> Sane(e.confidence.value, MAX_NESTING - 2)
  {
    hide Sane, DecodeCompare, CandidateAssets, AssetOfLabel;
    ResultSane(value, MAX_NESTING);
    PreferredIsCandidate(w, arg, value, e);
  }

  lemma PreferredIsCandidate(w: World, arg: string, value: Json, e: Evidence)
    requires CompareFrom(w, arg, value) == Ok(e)
    ensures e.CompareEvidence? && (e.preference.Some? ==> e.preference.value in e.candidates)
  {
    hide CompareFrom, CompareSays;
    CompareEvidenceIs(w, arg, value, e, MalformedRecord(arg));
    var r :| CompareSays(value, r) && EvidenceOf(r, e);
    if e.preference.Some? {
      var k :| FirstLabelled(r.candidates, k, r.preference.value) && e.preference == r.candidates[k].asset;
      assert e.candidates[k] == e.preference.value;
    }
  }

  /** What evidence can say, whatever the bytes. */
  ghost predicate EvidenceOk(e: Evidence) {
    match e
    case JobEvidence(job, _) => Sane(job.preset, MAX_NESTING - 1)
    case CompareEvidence(candidates, preference, confidence, _) =>
      && (preference.Some? ==> preference.value in candidates)
      && (confidence.Some? ==> Sane(confidence.value, MAX_NESTING - 2))
  }

  lemma EvidenceSane(w: World, arg: string, bytes: Bytes, e: Evidence)
    requires TextLayer(w) && BytesYield(w, bytes, e)
    ensures EvidenceOk(e)
  {
    hide CompareFrom, JobFrom, Yields;
    EvidenceIs(w, arg, bytes, e, MalformedJob(arg));
    var value := w.parse(bytes).value;
    if SchemaOf(value).None? {
      JobFromSane(w, arg, value, e);
    } else {
      CompareFromSane(w, arg, value, e);
    }
  }

  lemma SeenEvidenceOk(w: World, sights: seq<Sighting>, p: nat, arg: string, at: Inside, sha256: string, e: Evidence)
    requires TextLayer(w) && SawEvidence(w, sights, p, arg, at, sha256, e)
    ensures EvidenceOk(e)
  {
    var bytes: Content :| Saw(sights, p, At(at.path), bytes) && w.hash(bytes) == sha256 && BytesYield(w, bytes, e);
    EvidenceSane(w, arg, bytes, e);
  }

  /** A backed request is in order: its role is a slug, its preference a candidate, its
      opaque values no deeper than a parsed file can hold. */
  lemma BackedIsOk(w: World, sights: seq<Sighting>, p: nat, cmd: Command, r: Request)
    requires TextLayer(w) && RequestBacked(w, sights, p, cmd, r)
    ensures RequestOk(r)
  {
    match r
    case JobRequest(_, sha256, _, job, createdAt, _, _) =>
      SeenEvidenceOk(w, sights, p, cmd.arg, CanonicalInside(w, Arg(cmd.arg)).value, sha256, Evidence.JobEvidence(job, createdAt));
    case CompareRequest(_, sha256, candidates, preference, confidence, completedAt) =>
      SeenEvidenceOk(w, sights, p, cmd.arg, CanonicalInside(w, Arg(cmd.arg)).value, sha256,
                     CompareEvidence(candidates, preference, confidence, completedAt));
    case _ =>
  }
}
