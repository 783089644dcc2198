/** Why a command stops before the lock. Every refusal has its cause, in the arguments, in
    where paths lead, or in what the process saw; none is given for anything else. */
module Causes {
  import opened Wrappers
  import opened Slugs
  import opened Json
  import opened Manifests
  import opened Codec
  import opened Paths
  import opened Worlds
  import opened Commands
  import opened Records
  import opened Backing

  /** It was looked at, and its bytes were not to be had. */
  ghost predicate SawNoBytes(sights: seq<Sighting>, p: nat, c: Candidate) {
    exists look: Look :: !look.Plain? && Sighting(p, c, look) in sights
  }

  ghost predicate SawNoBytesIn(w: World, sights: seq<Sighting>, p: nat, c: Candidate) {
    w.canonicalize(c).Ok? && (SawNoBytes(sights, p, c) || SawNoBytes(sights, p, At(w.canonicalize(c).value)))
  }

  /** The evidence file was read, and these bytes yield none for this reason. */
  ghost predicate SawNoEvidence(w: World, sights: seq<Sighting>, p: nat, arg: string, error: Error) {
    w.canonicalize(Arg(arg)).Ok? &&
    exists bytes: Content :: Saw(sights, p, At(w.canonicalize(Arg(arg)).value), bytes) && YieldsNone(w, arg, bytes, error)
  }

  /** This leaf is a stem the job record names, in the record's own folder. */
  ghost predicate StemOfJob(w: World, sights: seq<Sighting>, p: nat, arg: string, folder: CPath, leaf: string) {
    exists at: Inside, sha256, e: Evidence, name ::
      && SawEvidence(w, sights, p, arg, at, sha256, e) && e.JobEvidence? && name in e.job.stems
      && leaf == name + ".wav" && IsFolder(w, at.path, folder)
  }

  ghost predicate StemCause(w: World, sights: seq<Sighting>, p: nat, arg: string, leaf: string, error: Error) {
    exists folder: CPath ::
      && StemOfJob(w, sights, p, arg, folder, leaf)
      && (match error
          case StemMissing(_) => Nowhere(w, Leaf(folder, leaf))
          case StemOutsideRoot(_) => Escapes(w, Leaf(folder, leaf))
          case _ => Barred(w, Leaf(folder, leaf)) || SawNoBytesIn(w, sights, p, Leaf(folder, leaf)))
  }

  /** What must be so for this command to stop with this error before the lock. */
  ghost predicate Cause(w: World, sights: seq<Sighting>, p: nat, cmd: Command, error: Error) {
    match error
    case LoadFailed(_) => !cmd.Init?
    case InvalidSlug(what, value) => cmd.Add? && what == "role" && value == cmd.role && !ValidSlug(value)
    case AbsolutePath(rel) => cmd.Add? && rel == cmd.rel && Rooted(rel)
    case MissingFile(rel) => cmd.Add? && rel == cmd.rel && Nowhere(w, Arg(rel))
    case OutsideRoot(rel) => cmd.Add? && rel == cmd.rel && Escapes(w, Arg(rel))
    case UnreadableFile(rel) =>
      cmd.Add? && rel == cmd.rel && (Barred(w, Arg(rel)) || SawNoBytesIn(w, sights, p, Arg(rel)))
    case JobMissing(arg) => cmd.Import? && arg == cmd.arg && Nowhere(w, Arg(arg))
    case JobOutsideRoot(arg) => cmd.Import? && arg == cmd.arg && Escapes(w, Arg(arg))
    case JobUnreadable(arg) =>
      cmd.Import? && arg == cmd.arg && (Barred(w, Arg(arg)) || SawNoBytesIn(w, sights, p, Arg(arg)))
    case StemMissing(leaf) => cmd.Import? && StemCause(w, sights, p, cmd.arg, leaf, error)
    case StemOutsideRoot(leaf) => cmd.Import? && StemCause(w, sights, p, cmd.arg, leaf, error)
    case StemUnreadable(leaf) => cmd.Import? && StemCause(w, sights, p, cmd.arg, leaf, error)
    case UnreadableAsset(_) => cmd.Verify?
    case _ => cmd.Import? && SawNoEvidence(w, sights, p, cmd.arg, error)
  }

  // ---------------------------------------------------------------- unreadable while verifying

  /** The asset's length could not be told; or it was right, and then the bytes were not to
      be had. An absent file, or one of another length, is no cause. */
  ghost predicate AssetUnread(w: World, sights: seq<Sighting>, p: nat, a: Asset) {
    || Sighting(p, StoredCandidate(w, a.path), Sealed) in sights
    || exists i, j :: i < j < |sights| && LengthAt(w, sights, p, a, i) && NoBytesAt(w, sights, p, a.path, j)
  }

  ghost predicate NoBytesAt(w: World, sights: seq<Sighting>, p: nat, path: string, j: int) {
    0 <= j < |sights| && sights[j].pid == p && sights[j].at == StoredCandidate(w, path) && !sights[j].look.Plain?
  }

  /** A record file was there and could not be read. */
  ghost predicate RecordUnread(w: World, sights: seq<Sighting>, p: nat, e: Evaluation) {
    exists look: Look :: (look.Sealed? || look.Locked?) && Sighting(p, StoredCandidate(w, e.record.path), look) in sights
  }

  ghost predicate Unread(w: World, sights: seq<Sighting>, p: nat, m: Manifest, path: string) {
    || (exists k :: 0 <= k < |m.assets| && m.assets[k].path == path && AssetUnread(w, sights, p, m.assets[k]))
    || (exists k :: 0 <= k < |m.evaluations| && m.evaluations[k].record.path == path
                    && RecordUnread(w, sights, p, m.evaluations[k]))
  }

  // ---------------------------------------------------------------- kept as sightings grow

  lemma NoBytesKept(a: seq<Sighting>, b: seq<Sighting>, p: nat, c: Candidate)
    requires a <= b && SawNoBytes(a, p, c)
    ensures SawNoBytes(b, p, c)
  {
    var look: Look :| !look.Plain? && Sighting(p, c, look) in a;
    assert Sighting(p, c, look) in b;
  }

  lemma NoBytesInKept(w: World, a: seq<Sighting>, b: seq<Sighting>, p: nat, c: Candidate)
    requires a <= b && SawNoBytesIn(w, a, p, c)
    ensures SawNoBytesIn(w, b, p, c)
  {
    if SawNoBytes(a, p, c) { NoBytesKept(a, b, p, c); } else { NoBytesKept(a, b, p, At(w.canonicalize(c).value)); }
  }

  lemma StemOfJobKept(w: World, a: seq<Sighting>, b: seq<Sighting>, p: nat, arg: string, folder: CPath, leaf: string)
    requires a <= b && StemOfJob(w, a, p, arg, folder, leaf)
    ensures StemOfJob(w, b, p, arg, folder, leaf)
  {
    hide SawEvidence;
    var at: Inside, sha256, e: Evidence, name :|
      && SawEvidence(w, a, p, arg, at, sha256, e) && e.JobEvidence? && name in e.job.stems
      && leaf == name + ".wav" && IsFolder(w, at.path, folder);
    EvidenceKept(w, a, b, p, arg, at, sha256, e);
  }

  lemma StemCauseKept(w: World, a: seq<Sighting>, b: seq<Sighting>, p: nat, arg: string, leaf: string, error: Error)
    requires a <= b && StemCause(w, a, p, arg, leaf, error)
    ensures StemCause(w, b, p, arg, leaf, error)
  {
    hide StemOfJob, SawNoBytesIn, Nowhere, Escapes, Barred;
    var folder: CPath :|
      && StemOfJob(w, a, p, arg, folder, leaf)
      && (match error
          case StemMissing(_) => Nowhere(w, Leaf(folder, leaf))
          case StemOutsideRoot(_) => Escapes(w, Leaf(folder, leaf))
          case _ => Barred(w, Leaf(folder, leaf)) || SawNoBytesIn(w, a, p, Leaf(folder, leaf)));
    StemOfJobKept(w, a, b, p, arg, folder, leaf);
    if SawNoBytesIn(w, a, p, Leaf(folder, leaf)) { NoBytesInKept(w, a, b, p, Leaf(folder, leaf)); }
  }

  lemma NoEvidenceKept(w: World, a: seq<Sighting>, b: seq<Sighting>, p: nat, arg: string, error: Error)
    requires a <= b && SawNoEvidence(w, a, p, arg, error)
    ensures SawNoEvidence(w, b, p, arg, error)
  {
    hide YieldsNone;
    var bytes: Content :| Saw(a, p, At(w.canonicalize(Arg(arg)).value), bytes) && YieldsNone(w, arg, bytes, error);
    assert Saw(b, p, At(w.canonicalize(Arg(arg)).value), bytes);
  }

  lemma CauseKept(w: World, a: seq<Sighting>, b: seq<Sighting>, p: nat, cmd: Command, error: Error)
    requires a <= b && Cause(w, a, p, cmd, error)
    ensures Cause(w, b, p, cmd, error)
  {
    hide SawNoBytesIn, StemCause, SawNoEvidence, Nowhere, Escapes, Barred;
    match error
    case LoadFailed(_) =>
    case InvalidSlug(_, _) =>
    case AbsolutePath(_) =>
    case MissingFile(_) =>
    case OutsideRoot(_) =>
    case UnreadableFile(rel) => if SawNoBytesIn(w, a, p, Arg(rel)) { NoBytesInKept(w, a, b, p, Arg(rel)); }
    case JobMissing(_) =>
    case JobOutsideRoot(_) =>
    case JobUnreadable(arg) => if SawNoBytesIn(w, a, p, Arg(arg)) { NoBytesInKept(w, a, b, p, Arg(arg)); }
    case StemMissing(leaf) => StemCauseKept(w, a, b, p, cmd.arg, leaf, error);
    case StemOutsideRoot(leaf) => StemCauseKept(w, a, b, p, cmd.arg, leaf, error);
    case StemUnreadable(leaf) => StemCauseKept(w, a, b, p, cmd.arg, leaf, error);
    case UnreadableAsset(_) =>
    case _ => NoEvidenceKept(w, a, b, p, cmd.arg, error);
  }

  lemma UnreadKept(w: World, a: seq<Sighting>, b: seq<Sighting>, p: nat, m: Manifest, path: string)
    requires a <= b && Unread(w, a, p, m, path)
    ensures Unread(w, b, p, m, path)
  {
    if k :| 0 <= k < |m.assets| && m.assets[k].path == path && AssetUnread(w, a, p, m.assets[k]) {
      AssetUnreadKept(w, a, b, p, m.assets[k]);
    } else {
      var k :| 0 <= k < |m.evaluations| && m.evaluations[k].record.path == path && RecordUnread(w, a, p, m.evaluations[k]);
      RecordUnreadKept(w, a, b, p, m.evaluations[k]);
    }
  }

  lemma AssetUnreadKept(w: World, a: seq<Sighting>, b: seq<Sighting>, p: nat, x: Asset)
    requires a <= b && AssetUnread(w, a, p, x)
    ensures AssetUnread(w, b, p, x)
  {
    if Sighting(p, StoredCandidate(w, x.path), Sealed) !in a {
      var i, j :| i < j < |a| && LengthAt(w, a, p, x, i) && NoBytesAt(w, a, p, x.path, j);
      assert LengthAt(w, b, p, x, i) && NoBytesAt(w, b, p, x.path, j);
    }
  }

  lemma RecordUnreadKept(w: World, a: seq<Sighting>, b: seq<Sighting>, p: nat, e: Evaluation)
    requires a <= b && RecordUnread(w, a, p, e)
    ensures RecordUnread(w, b, p, e)
  {
    var look: Look :| (look.Sealed? || look.Locked?) && Sighting(p, StoredCandidate(w, e.record.path), look) in a;
    assert Sighting(p, StoredCandidate(w, e.record.path), look) in b;
  }

  // ---------------------------------------------------------------- each stop has its cause

  lemma FirstStopCaused(w: World, sights: seq<Sighting>, p: nat, cmd: Command, manifest: Option<Bytes>)
    requires Begin(w, cmd, manifest).Stop? && Begin(w, cmd, manifest).outcome.Refused?
    ensures Cause(w, sights, p, cmd, Begin(w, cmd, manifest).outcome.error)
  {
    hide Load, SawNoEvidence, StemCause;
  }

  lemma EvidenceStopCaused(w: World, sights: seq<Sighting>, p: nat, cmd: Command, prep: Prep, look: Look)
    requires prep.EvidenceRead? && PrepBacked(w, sights, p, cmd, prep) && AfterEvidence(w, cmd, prep.at, look).Stop?
    ensures var o := AfterEvidence(w, cmd, prep.at, look).outcome;
            o.Refused? && Cause(w, Noted(sights, p, Target(w, cmd, prep), look), p, cmd, o.error)
  {
    hide EvidenceFrom, YieldsNone, BytesYield, StemCause;
    var after := Noted(sights, p, Target(w, cmd, prep), look);
    var o := AfterEvidence(w, cmd, prep.at, look).outcome;
    if look.Plain? {
      assert Saw(after, p, At(prep.at.path), look.bytes);
      EvidenceIs(w, cmd.arg, look.bytes, JobEvidence(JobRecord("", "", Null, [], "", "", 0), ""), o.error);
      RefusalKinds(w, cmd.arg, look.bytes);
    } else {
      assert Sighting(p, At(prep.at.path), look) in after;
    }
  }

  /** The refusals an evidence file can cause. */
  lemma RefusalKinds(w: World, arg: string, bytes: Bytes)
    requires EvidenceFrom(w, arg, bytes).Err?
    ensures var e := EvidenceFrom(w, arg, bytes).error;
            e.MalformedJob? || e.NotSuccess? || e.InvalidTimestamp? || e.UnrecognizedImportSchema? || e.RecordNotConforming?
            || e.MalformedRecord? || e.CandidateMissingAsset? || e.UnknownPreference?
  {
    hide DecodeJob, DecodeCompare, SchemaOf, CandidateAssets, AssetOfLabel;
  }

  lemma StemStopCaused(w: World, sights: seq<Sighting>, p: nat, cmd: Command, prep: Prep, look: Look)
    requires prep.Stems? && PrepBacked(w, sights, p, cmd, prep) && AfterStem(w, cmd, prep, look).Stop?
    ensures var o := AfterStem(w, cmd, prep, look).outcome;
            o.Refused? && Cause(w, Noted(sights, p, Target(w, cmd, prep), look), p, cmd, o.error)
  {
    hide SawEvidence, StemsBacked, YieldsNone;
    var after := Noted(sights, p, Target(w, cmd, prep), look);
    var name := prep.evidence.job.stems[|prep.done|];
    var folder, leaf := Parent(w, prep.at.path), name + ".wav";
    ParentIsFolder(w, prep.at.path);
    EvidenceKept(w, sights, after, p, cmd.arg, prep.at, prep.sha256, prep.evidence);
    assert StemOfJob(w, after, p, cmd.arg, folder, leaf);
    var c := Leaf(folder, leaf);
    if CanonicalInside(w, c).Ok? {
      assert Sighting(p, At(w.canonicalize(c).value), look) in after;
      assert SawNoBytesIn(w, after, p, c);
    }
    assert StemCause(w, after, p, cmd.arg, leaf, AfterStem(w, cmd, prep, look).outcome.error);
  }

  lemma AssetStopCaused(w: World, sights: seq<Sighting>, p: nat, cmd: Command, prep: Prep, look: Look)
    requires prep.Assets? && PrepBacked(w, sights, p, cmd, prep) && AfterAsset(w, prep, look).Stop?
    ensures var o := AfterAsset(w, prep, look).outcome;
            o.Refused? && o.error.UnreadableAsset?
            && Unread(w, Noted(sights, p, Target(w, cmd, prep), look), p, prep.m, o.error.path)
  {
    hide PassBacked;
    var after := Noted(sights, p, Target(w, cmd, prep), look);
    var k := |prep.statuses|;
    var a := prep.m.assets[k];
    var n := |after| - 1;
    assert after[n] == Sighting(p, StoredCandidate(w, a.path), look);
    if prep.sized {
      var i :| LengthAt(w, sights, p, a, i);
      assert LengthAt(w, after, p, a, i) && NoBytesAt(w, after, p, a.path, n);
    }
    assert AssetUnread(w, after, p, a);
  }

  lemma RecordStopCaused(w: World, sights: seq<Sighting>, p: nat, cmd: Command, prep: Prep, look: Look)
    requires prep.Records? && PrepBacked(w, sights, p, cmd, prep)
    requires AfterRecord(w, cmd, prep, look).Stop? && AfterRecord(w, cmd, prep, look).outcome.Refused?
    ensures var o := AfterRecord(w, cmd, prep, look).outcome;
            o.error.UnreadableAsset? && Unread(w, Noted(sights, p, Target(w, cmd, prep), look), p, prep.m, o.error.path)
  {
    hide PassBacked, RecordsBacked;
    var after := Noted(sights, p, Target(w, cmd, prep), look);
    var e := prep.m.evaluations[|prep.records|];
    assert Sighting(p, StoredCandidate(w, e.record.path), look) in after;
    assert RecordUnread(w, after, p, e);
  }

  /** A step that ends a command before the lock with a refusal has the refusal's cause; if it
      could not read a file of the manifest it checked, it saw that. */
  lemma StopCaused(w: World, sights: seq<Sighting>, p: nat, cmd: Command, prep: Prep, manifest: Option<Bytes>, look: Look)
    requires PrepBacked(w, sights, p, cmd, prep)
    requires Advance(w, cmd, prep, manifest, look).Stop? && Advance(w, cmd, prep, manifest, look).outcome.Refused?
    ensures var after, error := Noted(sights, p, Target(w, cmd, prep), look), Advance(w, cmd, prep, manifest, look).outcome.error;
            && Cause(w, after, p, cmd, error)
            && (error.UnreadableAsset? ==> (prep.Assets? || prep.Records?) && Unread(w, after, p, prep.m, error.path))
            && (error.LoadFailed? ==> prep == Fresh && Load(w, manifest) == Err(error.error))
  {
    hide Cause, Unread, PassBacked, RecordsBacked, SawEvidence, StemsBacked, AfterEvidence, AfterStem, AfterAsset,
         AfterRecord;
    match prep
    case Fresh =>
      FirstStopCaused(w, Noted(sights, p, Target(w, cmd, prep), look), p, cmd, manifest);
      FirstStopKinds(w, cmd, manifest);
    case AddHash(_) => HashStopCaused(w, sights, p, cmd, prep, look);
    case EvidenceRead(_) =>
      EvidenceStopCaused(w, sights, p, cmd, prep, look);
      EvidenceStopKinds(w, cmd, prep.at, look);
    case Stems(_, _, _, _) =>
      StemStopCaused(w, sights, p, cmd, prep, look);
      StemStopKinds(w, cmd, prep, look);
    case Assets(_, _, _, _) =>
      AssetStopCaused(w, sights, p, cmd, prep, look);
      UnreadableIsVerify(w, Noted(sights, p, Target(w, cmd, prep), look), p, cmd, AfterAsset(w, prep, look).outcome.error);
    case Records(_, _, _, _) =>
      RecordStopCaused(w, sights, p, cmd, prep, look);
      UnreadableIsVerify(w, Noted(sights, p, Target(w, cmd, prep), look), p, cmd, AfterRecord(w, cmd, prep, look).outcome.error);
  }

  lemma FirstStopKinds(w: World, cmd: Command, manifest: Option<Bytes>)
    requires Begin(w, cmd, manifest).Stop? && Begin(w, cmd, manifest).outcome.Refused?
    ensures var e := Begin(w, cmd, manifest).outcome.error;
            !e.UnreadableAsset? && (e.LoadFailed? ==> Load(w, manifest) == Err(e.error))
  {
    hide Load, CanonicalInside, ValidSlug;
    NothingLoads(w);
  }

  lemma NothingLoads(w: World)
    ensures Load(w, None) == Err(NotAProject)
  {
  }

  lemma HashStopCaused(w: World, sights: seq<Sighting>, p: nat, cmd: Command, prep: Prep, look: Look)
    requires prep.AddHash? && PrepBacked(w, sights, p, cmd, prep) && !look.Plain?
    ensures Cause(w, Noted(sights, p, Target(w, cmd, prep), look), p, cmd, UnreadableFile(cmd.rel))
  {
    assert Sighting(p, Arg(cmd.rel), look) in Noted(sights, p, Target(w, cmd, prep), look);
  }

  lemma EvidenceStopKinds(w: World, cmd: Command, at: Inside, look: Look)
    requires cmd.Import? && AfterEvidence(w, cmd, at, look).Stop?
    ensures var o := AfterEvidence(w, cmd, at, look).outcome;
            o.Refused? && !o.error.UnreadableAsset? && !o.error.LoadFailed?
  {
    hide EvidenceFrom;
    if look.Plain? && EvidenceFrom(w, cmd.arg, look.bytes).Err? { RefusalKinds(w, cmd.arg, look.bytes); }
  }

  lemma StemStopKinds(w: World, cmd: Command, prep: Prep, look: Look)
    requires cmd.Import? && prep.Stems? && prep.evidence.JobEvidence? && AfterStem(w, cmd, prep, look).Stop?
    ensures var o := AfterStem(w, cmd, prep, look).outcome;
            o.Refused? && !o.error.UnreadableAsset? && !o.error.LoadFailed?
  {
  }

  lemma UnreadableIsVerify(w: World, sights: seq<Sighting>, p: nat, cmd: Command, error: Error)
    requires cmd.Verify? && error.UnreadableAsset?
    ensures Cause(w, sights, p, cmd, error)
  {
  }
}
