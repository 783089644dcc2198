/** What the project's documents promise, stated over runs of the protocol. */
module Guarantees {
  import opened Wrappers
  import opened Json
  import opened Manifests
  import opened Codec
  import opened Paths
  import opened Worlds
  import opened Commands
  import opened Decisions
  import opened Rereading
  import opened Backing
  import opened Histories
  import opened Protocol
  import opened Linearizability
  import opened Runs
  import opened Versions
  import opened Imports
  import opened Authenticity
  import opened Causes
  import opened Snapshots
  import opened Verdicts

  /** The project starts from nothing, from a file that does not load, or from a good manifest. */
  ghost predicate GoodStart(w: World, start: Option<Bytes>) {
    Load(w, start).Ok? ==> Good(Load(w, start).value)
  }

  lemma RequestsInOrder(w: World, s: State, steps: seq<Step>, t: State)
    requires TextLayer(w) && Initial(s) && Reaches(w, s, steps, t)
    ensures InOrder(t.events) && t.start == s.manifest
    ensures Faithful(w, s.manifest, t.events) && t.manifest == FileAfter(w, s.manifest, t.events)
  {
    hide RequestBacked, Judge, FileAfter, Exec, LookSeen, RequestOk, TextLayer, Faithful;
    Linearizable(w, s, steps, t);
    InitialInv(w, s);
    ExecKeeps(w, s, steps);
    forall k | 0 <= k < |t.events| ensures RequestOk(t.events[k].request) {
      assert EventBacked(w, t, k);
      var e := t.events[k];
      BackedIsOk(w, t.sights, e.pid, t.procs[e.pid].cmd, e.request);
    }
  }

  /** The manifest invariant over whole runs: from a good start, in every reachable state,
      the latest manifest is good, and the file holds it. */
  lemma ReachableManifestIsGood(w: World, s: State, steps: seq<Step>, t: State)
    requires TextLayer(w) && Initial(s) && Reaches(w, s, steps, t) && GoodStart(w, s.manifest)
    ensures match Version(w, s.manifest, t.events)
            case None => t.manifest == s.manifest
            case Some(m) => Good(m) && FileHolds(w, t.manifest, m)
    ensures Load(w, t.manifest).Ok? ==> Good(Load(w, t.manifest).value)
  {
    hide Load, Version, Good, Exec, FileAfter, RequestOk, TextLayer, Print, Faithful;
    RequestsInOrder(w, s, steps, t);
    assert t.events[..|t.events|] == t.events;
    VersionIsHeld(w, s.manifest, t.events);
    VersionsAreGood(w, s.manifest, t.events, |t.events|);
  }

  /** No lost update. What a reader loaded at one moment, every later reader still finds:
      derivations and evaluations as an exact prefix, assets as a prefix up to
      `last_verified`, the project's identity unchanged. */
  lemma NothingIsLost(w: World, s: State, a: seq<Step>, m: State, b: seq<Step>, t: State)
    requires TextLayer(w) && Initial(s) && Reaches(w, s, a, m) && Reaches(w, m, b, t)
    requires Load(w, m.manifest).Ok?
    ensures Version(w, s.manifest, t.events).Some?
    ensures Evolves(Load(w, m.manifest).value, Version(w, s.manifest, t.events).value)
    ensures Load(w, t.manifest) in {Ok(Version(w, s.manifest, t.events).value), Err(Parse)}
  {
    hide Load, Version, Evolves, Exec, FileAfter, RequestOk, TextLayer, Print, Faithful, Good;
    ReachesOn(w, s, a, m, b, t);
    RequestsInOrder(w, s, a + b, t);
    ReadersSeeHistory(w, s, a, m, b, t);
    assert t.events[..|t.events|] == t.events;
    VersionIsHeld(w, s.manifest, t.events[..|m.events|]);
    VersionIsHeld(w, s.manifest, t.events);
    NoLostUpdate(w, s.manifest, t.events, |m.events|, |t.events|);
  }

  /** The manifest stays readable if and only if no import wrote a value nested too deep. */
  lemma ReadableUnlessTooDeep(w: World, s: State, steps: seq<Step>, t: State)
    requires TextLayer(w) && Initial(s) && Reaches(w, s, steps, t) && Version(w, s.manifest, t.events).Some?
    ensures Load(w, t.manifest) ==
              if ShallowUpTo(w, s.manifest, t.events, |t.events|) then Ok(Version(w, s.manifest, t.events).value) else Err(Parse)
  {
    hide Load, Version, Exec, FileAfter, RequestOk, TextLayer, Print, Faithful, ShallowUpTo;
    RequestsInOrder(w, s, steps, t);
    assert t.events[..|t.events|] == t.events;
    StaysReadable(w, s.manifest, t.events, |t.events|);
  }

  // ---------------------------------------------------------------- imports

  /** The command reports this derivation, as imported now or before. */
  predicate ReportsJob(o: Outcome, id: string) {
    (o.Imported? && o.derivation == id) || o == AlreadyImported(id)
  }

  /** Exactly-once evidence, job arm. However imports of one job record and other commands
      interleave, once one reported its derivation every later one writes nothing and
      reports that same derivation as already imported (if the manifest still parses). */
  lemma JobEvidenceOnce(w: World, s: State, steps: seq<Step>, t: State, i: nat, j: nat, id: string)
    requires TextLayer(w) && Initial(s) && Reaches(w, s, steps, t) && i < j < |t.events|
    requires t.events[i].request.JobRequest? && ReportsJob(t.events[i].outcome, id)
    requires t.events[j].request.JobRequest? && t.events[j].request.sha256 == t.events[i].request.sha256
    ensures !Writes(w, s.manifest, t.events, j)
    ensures t.events[j].outcome ==
              if ShallowUpTo(w, s.manifest, t.events, j) then AlreadyImported(id) else Refused(LoadFailed(Parse))
  {
    hide Judge, Exec, FileAfter, RequestOk, TextLayer, ShallowUpTo;
    RequestsInOrder(w, s, steps, t);
    JobImportedOnce(w, s.manifest, t.events, i, j, id);
  }

  predicate ReportsRecord(o: Outcome, id: string) {
    (o.EvaluationImported? && o.evaluation.id == id) || o == EvaluationAlreadyImported(id)
  }

  /** Exactly-once evidence, compare arm. */
  lemma CompareEvidenceOnce(w: World, s: State, steps: seq<Step>, t: State, i: nat, j: nat, id: string)
    requires TextLayer(w) && Initial(s) && Reaches(w, s, steps, t) && i < j < |t.events|
    requires t.events[i].request.CompareRequest? && ReportsRecord(t.events[i].outcome, id)
    requires t.events[j].request.CompareRequest? && t.events[j].request.sha256 == t.events[i].request.sha256
    ensures !Writes(w, s.manifest, t.events, j)
    ensures t.events[j].outcome ==
              if ShallowUpTo(w, s.manifest, t.events, j) then EvaluationAlreadyImported(id) else Refused(LoadFailed(Parse))
  {
    hide Judge, Exec, FileAfter, RequestOk, TextLayer, ShallowUpTo;
    RequestsInOrder(w, s, steps, t);
    RecordImportedOnce(w, s.manifest, t.events, i, j, id);
  }

  /** Every command of a run that was settled under the lock: what it carried goes back to its
      own reads, and it came out as its kind of command does on the file the ones before it
      left, which is then the file it left to the next. */
  lemma EveryCommandComesOut(w: World, s: State, steps: seq<Step>, t: State, k: nat)
    requires Initial(s) && Reaches(w, s, steps, t) && k < |t.events|
    ensures t.events[k].pid < |t.procs|
    ensures RequestBacked(w, t.sights, t.events[k].pid, t.procs[t.events[k].pid].cmd, t.events[k].request)
    ensures CameOut(w, s.manifest, t.events, k)
  {
    hide Exec, FileAfter, CameOut, RequestBacked, LookSeen, Judge, Faithful;
    Linearizable(w, s, steps, t);
    InitialInv(w, s);
    ExecKeeps(w, s, steps);
    assert EventBacked(w, t, k);
    EachComesOut(w, s.manifest, t.events, k);
  }

  /** Every `init` of a run that reports a new project found no manifest file, and left one
      that loads as the project its command names: id, name and time each as given. */
  lemma InitMakesTheProject(w: World, s: State, steps: seq<Step>, t: State, k: nat)
    requires TextLayer(w) && Initial(s) && Reaches(w, s, steps, t)
    requires k < |t.events| && t.events[k].outcome == Initialized
    ensures FileBefore(w, s.manifest, t.events, k) == None
    ensures var p, after := t.events[k].pid, Load(w, FileBefore(w, s.manifest, t.events, k + 1));
            && p < |t.procs| && t.procs[p].cmd.Init? && after.Ok?
            && NewProject(after.value, t.procs[p].cmd.id, t.procs[p].cmd.name, t.procs[p].cmd.now)
  {
    hide Judge, Exec, FileAfter, Load, TextLayer, NewProject, LookSeen, Apply;
    Linearizable(w, s, steps, t);
    InitialInv(w, s);
    ExecKeeps(w, s, steps);
    assert EventBacked(w, t, k);
    var e, file := t.events[k], FileBefore(w, s.manifest, t.events, k);
    OnlyInitInitializes(w, file, e.request, e.look);
    InitLeaves(w, file, e.request, e.look);
    FileBeforeNext(w, s.manifest, t.events, k);
  }

  lemma OnlyInitInitializes(w: World, file: Option<Bytes>, r: Request, look: Look)
    requires Judge(w, file, r, look).outcome == Initialized
    ensures r.InitRequest?
  {
    hide Load, LinkInput, LinkStems;
  }

  /** This stem of a job was read by this process from the job's own folder, and linked. */
  ghost predicate StemLinked(w: World, s: State, steps: seq<Step>, p: nat, folder: CPath, name: string, a: Asset) {
    var at := CanonicalInside(w, Leaf(folder, name + ".wav"));
    && at.Ok? && a.path == at.value.stored
    && exists n, bytes: Content ::
         ShownAt(w, s, steps, n, p, At(at.value.path), Plain(bytes)) && a.sha256 == w.hash(bytes)
  }

  ghost predicate StemsRead(w: World, s: State, steps: seq<Step>, p: nat, r: Request, outcome: Outcome)
    requires r.JobRequest? && outcome.Imported?
  {
    && |outcome.stems| == |r.job.stems|
    && forall k :: 0 <= k < |outcome.stems| ==>
         StemLinked(w, s, steps, p, r.folder, r.job.stems[k], outcome.stems[k].asset)
  }

  /** The folder is the one the process's job record lies in. */
  ghost predicate FolderOfRecord(w: World, procs: seq<Proc>, p: nat, r: Request)
    requires r.JobRequest?
  {
    && p < |procs| && procs[p].cmd.Import? && CanonicalInside(w, Arg(procs[p].cmd.arg)).Ok?
    && IsFolder(w, CanonicalInside(w, Arg(procs[p].cmd.arg)).value.path, r.folder)
  }

  /** Every job import of a run, whatever it was imported into, links what its job record and
      its own reads say: input by hash, each output the asset at the path of the record's
      stem of that name in the record's own folder, with the hash of the bytes read there,
      ids reported as registered exactly the ids appended. */
  lemma EveryImportIsLinked(w: World, s: State, steps: seq<Step>, t: State, k: nat)
    requires Initial(s) && Reaches(w, s, steps, t)
    requires k < |t.events| && t.events[k].outcome.Imported?
    ensures t.events[k].request.JobRequest? && Writes(w, s.manifest, t.events, k)
    ensures Load(w, FileBefore(w, s.manifest, t.events, k)).Ok?
    ensures JobLinked(Load(w, FileBefore(w, s.manifest, t.events, k)).value, t.events[k].request,
                      Written(w, s.manifest, t.events, k), t.events[k].outcome)
    ensures StemsRead(w, s, steps, t.events[k].pid, t.events[k].request, t.events[k].outcome)
    ensures FolderOfRecord(w, t.procs, t.events[k].pid, t.events[k].request)
  {
    hide Judge, Exec, FileAfter, Load, JobLinked, SawEvidence, StemsBacked, LookSeen, CanonicalInside, StemsRead,
         IsFolder;
    Linearizable(w, s, steps, t);
    InitialInv(w, s);
    ExecKeeps(w, s, steps);
    assert EventBacked(w, t, k);
    var e, file := t.events[k], FileBefore(w, s.manifest, t.events, k);
    ImportWrites(w, file, e.request, e.look);
    StemsWereRead(w, s, steps, e.pid, Load(w, file).value, e.request, Written(w, s.manifest, t.events, k), e.outcome);
  }

  lemma ImportWrites(w: World, file: Option<Bytes>, r: Request, look: Look)
    requires Judge(w, file, r, look).outcome.Imported?
    ensures r.JobRequest? && Judge(w, file, r, look).Put? && Load(w, file).Ok?
    ensures JobLinked(Load(w, file).value, r, Judge(w, file, r, look).manifest, Judge(w, file, r, look).outcome)
  {
    hide Load, JobLinked, LinkInput, LinkStems;
    JobIsLinked(w, Load(w, file).value, r, look);
  }

  lemma StemsWereRead(w: World, s: State, steps: seq<Step>, p: nat, m: Manifest, r: Request, n: Manifest, o: Outcome)
    requires s.sights == [] && Exec(w, s, steps).Some?
    requires r.JobRequest? && JobLinked(m, r, n, o) && |r.stems| == |r.job.stems|
    requires StemsBacked(w, Exec(w, s, steps).value.sights, p, r.folder, r.job.stems, r.stems)
    ensures StemsRead(w, s, steps, p, r, o)
  {
    hide Exec, LookAt, CanonicalInside, NewAssets, RegisteredIds;
    var sights := Exec(w, s, steps).value.sights;
    forall k | 0 <= k < |o.stems| ensures StemLinked(w, s, steps, p, r.folder, r.job.stems[k], o.stems[k].asset) {
      var pre, at := r.stems[k], CanonicalInside(w, Leaf(r.folder, r.job.stems[k] + ".wav"));
      assert StemMatches(o.stems[k], pre) && StemBacked(w, sights, p, r.folder, r.job.stems[k], pre);
      var bytes: Content :| Saw(sights, p, At(at.value.path), bytes) && w.hash(bytes) == pre.hash && |bytes| == pre.size;
      SightsAreTrue(w, s, steps, Sighting(p, At(at.value.path), Plain(bytes)));
    }
  }

  // ---------------------------------------------------------------- verify and show

  /** A step of this process found this at the path. */
  ghost predicate IntegrityShown(w: World, s: State, steps: seq<Step>, p: nat, path: string, size: Option<U64>,
                                 sha256: string, integrity: Integrity) {
    exists n, look ::
      ShownAt(w, s, steps, n, p, StoredCandidate(w, path), look) && Explains(w, size, sha256, look, integrity)
  }

  /** Every status, of assets and of records, is what a step of the process found there. */
  ghost predicate PassShown(w: World, s: State, steps: seq<Step>, p: nat, m: Manifest, statuses: seq<AssetStatus>,
                            records: seq<AssetStatus>) {
    && |statuses| == |m.assets| && |records| == |m.evaluations|
    && (forall j :: 0 <= j < |m.assets| ==> StatusShown(w, s, steps, p, m.assets[j], statuses[j]))
    && (forall j :: 0 <= j < |m.evaluations| ==> RecordShown(w, s, steps, p, m.evaluations[j], records[j]))
  }

  ghost predicate StatusShown(w: World, s: State, steps: seq<Step>, p: nat, a: Asset, x: AssetStatus) {
    x.id == a.id && x.path == a.path && IntegrityShown(w, s, steps, p, a.path, Some(a.size), a.sha256, x.integrity)
  }

  ghost predicate RecordShown(w: World, s: State, steps: seq<Step>, p: nat, e: Evaluation, x: AssetStatus) {
    && x.id == e.id && x.path == e.record.path
    && IntegrityShown(w, s, steps, p, e.record.path, None, e.record.sha256, x.integrity)
  }

  lemma IntegrityWasShown(w: World, s: State, steps: seq<Step>, p: nat, path: string, size: Option<U64>, sha256: string,
                          integrity: Integrity)
    requires s.sights == [] && Exec(w, s, steps).Some?
    requires SawIntegrity(w, Exec(w, s, steps).value.sights, p, path, size, sha256, integrity)
    ensures IntegrityShown(w, s, steps, p, path, size, sha256, integrity)
  {
    hide Exec, LookAt, Explains;
    var sights := Exec(w, s, steps).value.sights;
    var look :| Sighting(p, StoredCandidate(w, path), look) in sights && Explains(w, size, sha256, look, integrity);
    SightsAreTrue(w, s, steps, Sighting(p, StoredCandidate(w, path), look));
  }

  lemma PassWasShown(w: World, s: State, steps: seq<Step>, p: nat, m: Manifest, statuses: seq<AssetStatus>,
                     verified: map<string, string>, records: seq<AssetStatus>)
    requires s.sights == [] && Exec(w, s, steps).Some?
    requires PassDone(w, Exec(w, s, steps).value.sights, p, m, statuses, verified, records)
    ensures PassShown(w, s, steps, p, m, statuses, records)
  {
    hide Exec, VouchMap, SawIntegrity, IntegrityShown;
    var sights := Exec(w, s, steps).value.sights;
    forall j | 0 <= j < |m.assets| ensures StatusShown(w, s, steps, p, m.assets[j], statuses[j]) {
      var a := m.assets[j];
      assert StatusBacked(w, sights, p, a, statuses[j]);
      IntegrityWasShown(w, s, steps, p, a.path, Some(a.size), a.sha256, statuses[j].integrity);
    }
    forall j | 0 <= j < |m.evaluations| ensures RecordShown(w, s, steps, p, m.evaluations[j], records[j]) {
      var e := m.evaluations[j];
      assert RecordBacked(w, sights, p, e, records[j]);
      IntegrityWasShown(w, s, steps, p, e.record.path, None, e.record.sha256, records[j].integrity);
    }
  }

  /** Exactly the assets of `m` whose hash the pass over `snapshot` last verified under their
      id are stamped in `n`; nothing else differs; nothing is written when there is none.
      Where the snapshot's ids are unique, these are the assets whose id and hash it verified. */
  ghost predicate StampedExactly(snapshot: Manifest, r: Request, m: Manifest, wrote: bool, n: Manifest)
    requires r.StampRequest?
  {
    && (wrote <==> exists i :: 0 <= i < |m.assets| && LastVerified(snapshot.assets, r.statuses, m.assets[i]))
    && n == m.(assets := n.assets) && |n.assets| == |m.assets|
    && (forall i :: 0 <= i < |m.assets| ==>
          n.assets[i] == if LastVerified(snapshot.assets, r.statuses, m.assets[i])
                         then m.assets[i].(lastVerified := Some(r.now)) else m.assets[i])
    && (UniqueIds(snapshot.assets) ==>
          forall i :: 0 <= i < |m.assets| ==>
            (LastVerified(snapshot.assets, r.statuses, m.assets[i]) <==> PassVerified(snapshot.assets, r.statuses, m.assets[i])))
  }

  /** What the stamp did with the file it found: a manifest that no longer loads is refused. */
  ghost predicate StampOutcome(w: World, file: Option<Bytes>, snapshot: Manifest, r: Request, v: Verdict)
    requires r.StampRequest?
  {
    match Load(w, file)
    case Err(e) => v == Keep(Refused(LoadFailed(e)))
    case Ok(m) =>
      && v.outcome == Checked(r.statuses, r.records)
      && StampedExactly(snapshot, r, m, v.Put?, if v.Put? then v.manifest else m)
  }

  lemma StampIsExactly(w: World, file: Option<Bytes>, r: Request, look: Look, snapshot: Manifest)
    requires r.StampRequest?
    requires |r.statuses| == |snapshot.assets| && r.verified == VouchMap(snapshot.assets, r.statuses)
    ensures StampOutcome(w, file, snapshot, r, Judge(w, file, r, look))
  {
    hide Load, VouchMap, LastVerified, PassVerified, UniqueIds;
    if Load(w, file).Ok? { StampIsExact(snapshot.assets, r.statuses, Load(w, file).value, r); }
  }

  /** The snapshot, the pass over it, and the stamp: what a `verify` did. */
  ghost predicate VerifyDid(w: World, s: State, steps: seq<Step>, events: seq<Event>, k: nat, snapshot: Manifest,
                            i: int)
    requires k < |events| && events[k].request.StampRequest?
  {
    var e, file := events[k], FileBefore(w, s.manifest, events, k);
    && i <= k && LoadedAt(w, s.manifest, events, i, snapshot)
    && PassShown(w, s, steps, e.pid, snapshot, e.request.statuses, e.request.records)
    && StampOutcome(w, file, snapshot, e.request, Judge(w, file, e.request, e.look))
    && e.outcome == Judge(w, file, e.request, e.look).outcome
  }

  /** Verify against a stale snapshot, from any start. It checked some version the project
      really had, each status of an asset or a record is what its own reads found, and under
      the lock it stamped exactly the assets still present under the hash it had verified
      for their id, whatever happened in between, and reported those statuses. */
  lemma VerifyStampsExactly(w: World, s: State, steps: seq<Step>, t: State, k: nat)
    requires Initial(s) && Reaches(w, s, steps, t)
    requires k < |t.events| && t.events[k].request.StampRequest?
    ensures exists snapshot, i :: VerifyDid(w, s, steps, t.events, k, snapshot, i)
  {
    hide Judge, Exec, FileAfter, Load, StampOutcome, PassShown, LoadedAt, VouchMap, StatusBacked, RecordsBacked;
    Linearizable(w, s, steps, t);
    var r := t.events[k].request;
    var snapshot, i := StampSnapshot(w, s, steps, t, k);
    PassWasShown(w, s, steps, t.events[k].pid, snapshot, r.statuses, r.verified, r.records);
    StampIsExactly(w, FileBefore(w, s.manifest, t.events, k), r, t.events[k].look, snapshot);
    assert VerifyDid(w, s, steps, t.events, k, snapshot, i);
  }

  lemma StampSnapshot(w: World, s: State, steps: seq<Step>, t: State, k: nat) returns (snapshot: Manifest, i: int)
    requires Initial(s) && Reaches(w, s, steps, t)
    requires k < |t.events| && t.events[k].request.StampRequest?
    ensures i <= k && LoadedAt(w, s.manifest, t.events, i, snapshot)
    ensures PassOf(w, t.sights, t.events[k].pid, snapshot, t.events[k].request)
  {
    hide Exec, LoadedAt, PassOf, Inv, SnapshotOk;
    InitialInv(w, s);
    NoSnapshotYet(w, s);
    ExecKeeps(w, s, steps);
    SnapshotsKept(w, s, steps);
    snapshot, i :| i <= k && LoadedAt(w, t.start, t.events, i, snapshot)
                   && PassOf(w, t.sights, t.events[k].pid, snapshot, t.events[k].request);
  }

  lemma NoSnapshotYet(w: World, s: State)
    requires Initial(s)
    ensures SnapshotsOk(w, s)
  {
  }

  /** What a report made without the lock tells. */
  ghost predicate ReportIsTrue(w: World, s: State, steps: seq<Step>, t: State, p: nat, o: Outcome) {
    && (o.Shown? ==> ShownFrom(w, t, o.raw, o.manifest))
    && (o.Checked? ==> exists m, i ::
          LoadedAt(w, s.manifest, t.events, i, m) && PassShown(w, s, steps, p, m, o.statuses, o.records))
    && (o.Checked? ==> forall j :: 0 <= j < |o.statuses| ==> o.statuses[j].integrity != Verified)
    && (o.Refused? ==> RefusalFrom(w, t, p, o.error))
    && (o.Shown? || o.Checked? || o.Refused?)
  }

  /** Reports without the lock are true. A `show` that ended gave the bytes of a version the
      project really had and what they load as; a `verify` that ended without the lock
      checked such a version, each status is what its own reads found, and none verified;
      a refusal has its cause in the arguments, in where paths lead, or in what the process
      saw; nothing else is reported without the lock. */
  lemma UnlockedReportsAreTrue(w: World, s: State, steps: seq<Step>, t: State, p: nat)
    requires Initial(s) && Reaches(w, s, steps, t)
    requires p < |t.procs| && t.procs[p].pc.Done? && t.procs[p].pc.ending.Stopped?
    ensures ReportIsTrue(w, s, steps, t, p, t.procs[p].pc.ending.outcome)
  {
    hide Exec, LoadedAt, PassDone, Inv, PassShown, ShownFrom, RefusalFrom;
    InitialInv(w, s);
    NoSnapshotYet(w, s);
    ExecKeeps(w, s, steps);
    SnapshotsKept(w, s, steps);
    assert SnapshotOk(w, t, p);
    var o := t.procs[p].pc.ending.outcome;
    if o.Checked? {
      var m, i :| LoadedAt(w, t.start, t.events, i, m) && PassDone(w, t.sights, p, m, o.statuses, map[], o.records);
      PassWasShown(w, s, steps, p, m, o.statuses, map[], o.records);
      NoneVerified(w, t.sights, p, m, o.statuses, o.records);
    }
  }

  lemma NoneVerified(w: World, sights: seq<Sighting>, p: nat, m: Manifest, statuses: seq<AssetStatus>,
                     records: seq<AssetStatus>)
    requires PassDone(w, sights, p, m, statuses, map[], records)
    ensures forall j :: 0 <= j < |statuses| ==> statuses[j].integrity != Verified
  {
    hide StatusBacked, RecordsBacked, VouchMap;
    forall j | 0 <= j < |statuses| ensures statuses[j].integrity != Verified {
      VouchMapIsLastVerified(m.assets, statuses, m.assets[j].id);
      assert VerifiedAt(m.assets, statuses, j, m.assets[j].id) <==> statuses[j].integrity == Verified;
    }
  }

  /** A look this process took at this asset's file, or record's, shows why it could not be
      checked. */
  ghost predicate UnreadShown(w: World, s: State, steps: seq<Step>, p: nat, m: Manifest, path: string) {
    || (exists k :: 0 <= k < |m.assets| && m.assets[k].path == path && AssetUnreadShown(w, s, steps, p, m.assets[k]))
    || (exists k :: 0 <= k < |m.evaluations| && m.evaluations[k].record.path == path
                    && RecordUnreadShown(w, s, steps, p, m.evaluations[k]))
  }

  /** No length was to be had; or the right one, and then no bytes. */
  ghost predicate AssetUnreadShown(w: World, s: State, steps: seq<Step>, p: nat, a: Asset) {
    || (exists n :: ShownAt(w, s, steps, n, p, StoredCandidate(w, a.path), Sealed))
    || (exists n, i, before: Look, after: Look ::
          && ShownAt(w, s, steps, i, p, StoredCandidate(w, a.path), before) && Length(before) == Some(a.size)
          && ShownAt(w, s, steps, n, p, StoredCandidate(w, a.path), after) && !after.Plain?)
  }

  ghost predicate RecordUnreadShown(w: World, s: State, steps: seq<Step>, p: nat, e: Evaluation) {
    exists n, look: Look ::
      (look.Sealed? || look.Locked?) && ShownAt(w, s, steps, n, p, StoredCandidate(w, e.record.path), look)
  }

  /** A verify that gave up on a file was shown a look that tells nothing of it: a file that
      is gone, or has another length, is a status and never the end of the pass. */
  lemma UnreadableWasShown(w: World, s: State, steps: seq<Step>, t: State, p: nat)
    requires Initial(s) && Reaches(w, s, steps, t)
    requires p < |t.procs| && t.procs[p].pc.Done? && t.procs[p].pc.ending.Stopped?
    requires var o := t.procs[p].pc.ending.outcome; o.Refused? && o.error.UnreadableAsset?
    ensures t.procs[p].cmd.Verify?
    ensures exists m, i :: LoadedAt(w, s.manifest, t.events, i, m)
                           && UnreadShown(w, s, steps, p, m, t.procs[p].pc.ending.outcome.error.path)
  {
    hide Exec, LoadedAt, Inv, PassShown, ShownFrom, Unread, UnreadShown;
    InitialInv(w, s);
    ExecKeeps(w, s, steps);
    UnlockedReportsAreTrue(w, s, steps, t, p);
    var path := t.procs[p].pc.ending.outcome.error.path;
    var m, i :| LoadedAt(w, t.start, t.events, i, m) && Unread(w, t.sights, p, m, path);
    UnreadWasShown(w, s, steps, p, m, path);
  }

  lemma UnreadWasShown(w: World, s: State, steps: seq<Step>, p: nat, m: Manifest, path: string)
    requires s.sights == [] && Exec(w, s, steps).Some?
    requires Unread(w, Exec(w, s, steps).value.sights, p, m, path)
    ensures UnreadShown(w, s, steps, p, m, path)
  {
    hide Exec, AssetUnread, RecordUnread, AssetUnreadShown, RecordUnreadShown;
    var sights := Exec(w, s, steps).value.sights;
    if k :| 0 <= k < |m.assets| && m.assets[k].path == path && AssetUnread(w, sights, p, m.assets[k]) {
      AssetUnreadWasShown(w, s, steps, p, m.assets[k]);
    } else {
      var k :| 0 <= k < |m.evaluations| && m.evaluations[k].record.path == path
               && RecordUnread(w, sights, p, m.evaluations[k]);
      RecordUnreadWasShown(w, s, steps, p, m.evaluations[k]);
    }
  }

  lemma AssetUnreadWasShown(w: World, s: State, steps: seq<Step>, p: nat, a: Asset)
    requires s.sights == [] && Exec(w, s, steps).Some? && AssetUnread(w, Exec(w, s, steps).value.sights, p, a)
    ensures AssetUnreadShown(w, s, steps, p, a)
  {
    hide Exec, LookAt;
    var sights, c := Exec(w, s, steps).value.sights, StoredCandidate(w, a.path);
    if Sighting(p, c, Sealed) in sights {
      SightsAreTrue(w, s, steps, Sighting(p, c, Sealed));
    } else {
      var i, j :| i < j < |sights| && LengthAt(w, sights, p, a, i) && NoBytesAt(w, sights, p, a.path, j);
      SightsAreTrue(w, s, steps, sights[i]);
      SightsAreTrue(w, s, steps, sights[j]);
    }
  }

  lemma RecordUnreadWasShown(w: World, s: State, steps: seq<Step>, p: nat, e: Evaluation)
    requires s.sights == [] && Exec(w, s, steps).Some? && RecordUnread(w, Exec(w, s, steps).value.sights, p, e)
    ensures RecordUnreadShown(w, s, steps, p, e)
  {
    hide Exec, LookAt;
    var sights, c := Exec(w, s, steps).value.sights, StoredCandidate(w, e.record.path);
    var look: Look :| (look.Sealed? || look.Locked?) && Sighting(p, c, look) in sights;
    SightsAreTrue(w, s, steps, Sighting(p, c, look));
  }
}
