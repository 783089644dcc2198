/** Reads without the lock. `verify` is two atomic pieces: a snapshot that some moment of the
    history really held, and a stamp decided later under the lock against whatever the
    manifest is by then. `show`, and a `verify` with nothing to stamp, are one. */
module Snapshots {
  import opened Wrappers
  import opened Manifests
  import opened Codec
  import opened Worlds
  import opened Commands
  import opened Backing
  import opened Causes
  import opened Histories
  import opened Protocol
  import opened Linearizability
  import opened Runs

  /** The request a process carries between asking for the lock and its commit. */
  function RequestOf(pc: Pc): Option<Request> {
    match pc
    case Try(r) => Some(r)
    case Notice(r) => Some(r)
    case Wait(r) => Some(r)
    case Read(r) => Some(r)
    case Choose(r, _) => Some(r)
    case Create(work) => Some(work.request)
    case Fill(work, _) => Some(work.request)
    case Sync(work, _) => Some(work.request)
    case Rename(work, _) => Some(work.request)
    case _ => None
  }

  /** The i-th version of the manifest loaded as this. */
  ghost predicate LoadedAt(w: World, start: Option<Bytes>, events: seq<Event>, i: int, m: Manifest) {
    0 <= i <= |events| && Load(w, FileBefore(w, start, events, i)) == Ok(m)
  }

  ghost predicate FromHistory(w: World, s: State, m: Manifest) {
    exists i :: LoadedAt(w, s.start, s.events, i, m)
  }

  /** The stamp goes back to a hash pass of this process over a version not after `bound`. */
  ghost predicate StampFrom(w: World, s: State, p: nat, r: Request, bound: int)
    requires r.StampRequest?
  {
    exists m, i :: i <= bound && LoadedAt(w, s.start, s.events, i, m) && PassOf(w, s.sights, p, m, r)
  }

  /** The outcome a process ended with before the lock, or is about to. */
  function StoppedWith(pc: Pc): Option<Outcome> {
    match pc
    case Release(ending) => if ending.Stopped? then Some(ending.outcome) else None
    case Done(ending) => if ending.Stopped? then Some(ending.outcome) else None
    case _ => None
  }

  /** Some version of the manifest was these bytes, and they load as this. */
  ghost predicate ShownFrom(w: World, s: State, raw: Bytes, m: Manifest) {
    exists i :: LoadedAt(w, s.start, s.events, i, m) && FileBefore(w, s.start, s.events, i) == Some(raw)
  }

  /** Some version of the manifest was checked to the end, and nothing verified. */
  ghost predicate CheckedFrom(w: World, s: State, p: nat, statuses: seq<AssetStatus>, records: seq<AssetStatus>) {
    exists m, i :: LoadedAt(w, s.start, s.events, i, m) && PassDone(w, s.sights, p, m, statuses, map[], records)
  }

  /** What a report made without the lock goes back to. */
  ghost predicate ReportFrom(w: World, s: State, p: nat, o: Outcome) {
    match o
    case Shown(raw, m) => ShownFrom(w, s, raw, m)
    case Checked(statuses, records) => CheckedFrom(w, s, p, statuses, records)
    case _ => o.Refused? && RefusalFrom(w, s, p, o.error)
  }

  /** What a refusal made without the lock goes back to: its cause; a version that did not
      load; a version in whose check a file could not be read. */
  ghost predicate RefusalFrom(w: World, s: State, p: nat, error: Error) {
    && p < |s.procs| && Cause(w, s.sights, p, s.procs[p].cmd, error)
    && (error.LoadFailed? ==> exists i :: NotLoadedAt(w, s.start, s.events, i, error.error))
    && (error.UnreadableAsset? ==>
          exists m, i :: LoadedAt(w, s.start, s.events, i, m) && Unread(w, s.sights, p, m, error.path))
  }

  ghost predicate NotLoadedAt(w: World, start: Option<Bytes>, events: seq<Event>, i: int, error: LoadError) {
    0 <= i <= |events| && Load(w, FileBefore(w, start, events, i)) == Err(error)
  }

  ghost predicate SnapshotOk(w: World, s: State, p: nat)
    requires p < |s.procs|
  {
    var pc := s.procs[p].pc;
    && (pc.Prepare? && (pc.prep.Assets? || pc.prep.Records?) ==> FromHistory(w, s, pc.prep.m))
    && (RequestOf(pc).Some? && RequestOf(pc).value.StampRequest? ==> StampFrom(w, s, p, RequestOf(pc).value, |s.events|))
    && (StoppedWith(pc).Some? ==> ReportFrom(w, s, p, StoppedWith(pc).value))
  }

  ghost predicate SnapshotsOk(w: World, s: State) {
    && (forall p :: 0 <= p < |s.procs| ==> SnapshotOk(w, s, p))
    && (forall k :: 0 <= k < |s.events| && s.events[k].request.StampRequest? ==>
          StampFrom(w, s, s.events[k].pid, s.events[k].request, k))
  }

  // ---------------------------------------------------------------- kept by every step

  lemma LoadedAtKept(w: World, s: State, t: State, i: int, m: Manifest)
    requires Extends(s, t) && LoadedAt(w, s.start, s.events, i, m)
    ensures LoadedAt(w, t.start, t.events, i, m)
  {
    hide Load, FileAfter;
    assert t.events[..i] == s.events[..i];
  }

  lemma FromHistoryKept(w: World, s: State, t: State, m: Manifest)
    requires Extends(s, t) && FromHistory(w, s, m)
    ensures FromHistory(w, t, m)
  {
    hide LoadedAt;
    var i :| LoadedAt(w, s.start, s.events, i, m);
    LoadedAtKept(w, s, t, i, m);
  }

  lemma StampFromKept(w: World, s: State, t: State, p: nat, r: Request, bound: int, later: int)
    requires Extends(s, t) && r.StampRequest? && StampFrom(w, s, p, r, bound) && bound <= later
    ensures StampFrom(w, t, p, r, later)
  {
    hide LoadedAt, PassBacked, RecordsBacked;
    var m, i :| i <= bound && LoadedAt(w, s.start, s.events, i, m) && PassOf(w, s.sights, p, m, r);
    LoadedAtKept(w, s, t, i, m);
    PassKept(w, s.sights, t.sights, p, m, r.statuses, r.verified);
    RecordsKept(w, s.sights, t.sights, p, m, r.records);
    assert PassOf(w, t.sights, p, m, r);
  }

  lemma ReportFromKept(w: World, s: State, t: State, p: nat, o: Outcome)
    requires Extends(s, t) && ReportFrom(w, s, p, o)
    ensures ReportFrom(w, t, p, o)
  {
    hide Load, PassBacked, RecordsBacked, FileAfter;
    if o.Shown? {
      var i :| LoadedAt(w, s.start, s.events, i, o.manifest) && FileBefore(w, s.start, s.events, i) == Some(o.raw);
      LoadedAtKept(w, s, t, i, o.manifest);
      assert t.events[..i] == s.events[..i];
    } else if o.Checked? {
      var m, i :| LoadedAt(w, s.start, s.events, i, m) && PassDone(w, s.sights, p, m, o.statuses, map[], o.records);
      LoadedAtKept(w, s, t, i, m);
      PassKept(w, s.sights, t.sights, p, m, o.statuses, map[]);
      RecordsKept(w, s.sights, t.sights, p, m, o.records);
      assert PassDone(w, t.sights, p, m, o.statuses, map[], o.records);
    } else {
      RefusalFromKept(w, s, t, p, o.error);
    }
  }

  lemma RefusalFromKept(w: World, s: State, t: State, p: nat, error: Error)
    requires Extends(s, t) && RefusalFrom(w, s, p, error)
    ensures RefusalFrom(w, t, p, error)
  {
    hide Load, FileAfter, Cause, Unread;
    CauseKept(w, s.sights, t.sights, p, s.procs[p].cmd, error);
    if error.LoadFailed? {
      var i :| NotLoadedAt(w, s.start, s.events, i, error.error);
      assert t.events[..i] == s.events[..i];
      assert NotLoadedAt(w, t.start, t.events, i, error.error);
    }
    if error.UnreadableAsset? {
      var m, i :| LoadedAt(w, s.start, s.events, i, m) && Unread(w, s.sights, p, m, error.path);
      LoadedAtKept(w, s, t, i, m);
      UnreadKept(w, s.sights, t.sights, p, m, error.path);
    }
  }

  /** A step past the lock request carries the request along, drops it, or commits it. */
  ghost predicate RequestCarried(s: State, t: State, p: nat) {
    && p < |s.procs| && p < |t.procs|
    && (t.procs[p].pc.Prepare? ==> t.procs[p].pc == s.procs[p].pc)
    && RequestOf(t.procs[p].pc) in {None, RequestOf(s.procs[p].pc)}
    && StoppedWith(t.procs[p].pc) in {None, StoppedWith(s.procs[p].pc)}
    && (t.events == s.events || CommitsRequest(s, t, p))
  }

  ghost predicate CommitsRequest(s: State, t: State, p: nat) {
    && p < |s.procs| && |t.events| == |s.events| + 1 && t.events[..|s.events|] == s.events
    && t.events[|s.events|].pid == p && RequestOf(s.procs[p].pc) == Some(t.events[|s.events|].request)
  }

  lemma ChosenCarries(w: World, s: State, p: nat, r: Request, file: Option<Bytes>)
    requires p < |s.procs| && s.procs[p].pc == Choose(r, file)
    ensures RequestCarried(s, Chosen(w, s, p, r, file), p)
  {
    hide Judge, InputLook, ChoiceTarget;
  }

  lemma RenamedCarries(s: State, p: nat, work: Work, temp: nat)
    requires p < |s.procs| && temp in s.temps && s.procs[p].pc == Rename(work, temp)
    ensures RequestCarried(s, Renamed(s, p, work, temp), p)
  {
  }

  lemma GoneCarries(w: World, s: State, p: nat)
    requires p < |s.procs| && GoEnabled(w, s, p) && !s.procs[p].pc.Prepare?
    ensures RequestCarried(s, Gone(w, s, p), p)
  {
    hide Judge, Print, Chosen, Prepared, Renamed, CommitsRequest;
    match s.procs[p].pc
    case Choose(r, file) => ChosenCarries(w, s, p, r, file);
    case Rename(work, temp) => RenamedCarries(s, p, work, temp);
    case _ =>
  }

  lemma RequestMoves(w: World, s: State, step: Step)
    requires Enabled(w, s, step) && !step.Environment? && !(step.Go? && s.procs[step.p].pc.Prepare?)
    ensures RequestCarried(s, Perform(w, s, step), step.p)
  {
    hide Print, Gone, GoEnabled, CommitsRequest;
    if step.Go? { GoneCarries(w, s, step.p); }
  }

  lemma FirstSnapshot(w: World, s: State, cmd: Command)
    requires HistoryOk(w, s) && Begin(w, cmd, s.manifest).Continue?
    ensures var prep := Begin(w, cmd, s.manifest).prep;
            prep.Assets? || prep.Records? ==> FromHistory(w, s, prep.m)
  {
    hide Load, FileAfter, EventBacked, Faithful, InGrantOrder, CanonicalInside;
    assert s.events[..|s.events|] == s.events;
    if cmd.Verify? && Load(w, s.manifest).Ok? {
      assert LoadedAt(w, s.start, s.events, |s.events|, Load(w, s.manifest).value);
    }
  }

  /** A hash pass keeps its snapshot, up to the stamp it asks the lock for. */
  lemma PassKeepsSnapshot(w: World, sights: seq<Sighting>, p: nat, cmd: Command, prep: Prep, manifest: Option<Bytes>,
                          look: Look)
    requires PrepBacked(w, sights, p, cmd, prep) && prep != Fresh
    ensures var next := Advance(w, cmd, prep, manifest, look);
            && (next.Continue? && (next.prep.Assets? || next.prep.Records?) ==>
                  (prep.Assets? || prep.Records?) && next.prep.m == prep.m)
            && (next.Lock? && next.request.StampRequest? ==>
                  prep.Records? && PassOf(w, Noted(sights, p, Target(w, cmd, prep), look), p, prep.m, next.request))
            && (next.Stop? && !next.outcome.Refused? ==>
                  prep.Records? && next.outcome.Checked?
                  && PassDone(w, Noted(sights, p, Target(w, cmd, prep), look), p, prep.m, next.outcome.statuses, map[],
                              next.outcome.records))
  {
    hide SawEvidence, StemsBacked, EvidenceFrom;
    var after, next := Noted(sights, p, Target(w, cmd, prep), look), Advance(w, cmd, prep, manifest, look);
    if prep.Records? && !next.Continue? {
      PassKept(w, sights, after, p, prep.m, prep.statuses, prep.verified);
      RecordsKept(w, sights, after, p, prep.m, prep.records);
    }
  }

  lemma PrepareKeepsSnapshot(w: World, s: State, p: nat)
    requires HistoryOk(w, s) && p < |s.procs| && PcOk(w, s, p) && SnapshotOk(w, s, p)
    requires s.procs[p].pc.Prepare? && Fits(s.procs[p].cmd, s.procs[p].pc.prep)
    requires Extends(s, Prepared(w, s, p))
    ensures SnapshotOk(w, Prepared(w, s, p), p)
    ensures Prepared(w, s, p).events == s.events
  {
    hide Begin, Load, FileAfter, EventBacked, Faithful, InGrantOrder, PassOf, FromHistory, LoadedAt, PrepBacked, Target,
         LookAt, Fits, AfterEvidence, AfterStem, AfterAsset, AfterRecord, ReportFrom, PassDone, Cause, Unread;
    var t, cmd, prep := Prepared(w, s, p), s.procs[p].cmd, s.procs[p].pc.prep;
    var target := Target(w, cmd, prep);
    var look := if target.Some? then LookAt(w, s.files, target.value) else Absent;
    var next := Advance(w, cmd, prep, s.manifest, look);
    if prep == Fresh {
      assert next == Begin(w, cmd, s.manifest);
      BeginNeverStamps(w, cmd, s.manifest);
      if next.Continue? {
        FirstSnapshot(w, s, cmd);
        if next.prep.Assets? || next.prep.Records? { FromHistoryKept(w, s, t, next.prep.m); }
      } else if next.Stop? {
        if next.outcome.Refused? { StopCaused(w, s.sights, p, cmd, prep, s.manifest, look); }
        FirstReport(w, s, t, p, cmd);
      }
    } else {
      PassKeepsSnapshot(w, s.sights, p, cmd, prep, s.manifest, look);
      if prep.Assets? || prep.Records? { FromHistoryKept(w, s, t, prep.m); }
      if next.Lock? && next.request.StampRequest? { StampHasSnapshot(w, t, p, prep.m, next.request); }
      if next.Stop? {
        if next.outcome.Refused? { StopCaused(w, s.sights, p, cmd, prep, s.manifest, look); }
        StopHasSnapshot(w, t, p, prep, next.outcome);
      }
    }
  }

  lemma FirstReport(w: World, s: State, t: State, p: nat, cmd: Command)
    requires HistoryOk(w, s) && Begin(w, cmd, s.manifest).Stop? && Extends(s, t) && t.events == s.events
    requires p < |t.procs| && t.procs[p].cmd == cmd
    requires var o := Begin(w, cmd, s.manifest).outcome;
             o.Refused? ==>
               && Cause(w, t.sights, p, cmd, o.error) && !o.error.UnreadableAsset?
               && (o.error.LoadFailed? ==> Load(w, s.manifest) == Err(o.error.error))
    ensures ReportFrom(w, t, p, Begin(w, cmd, s.manifest).outcome)
  {
    hide Load, FileAfter, EventBacked, Faithful, InGrantOrder, CanonicalInside, Cause, Unread;
    assert s.events[..|s.events|] == s.events;
    var o := Begin(w, cmd, s.manifest).outcome;
    if o.Refused? {
      if o.error.LoadFailed? { assert NotLoadedAt(w, t.start, t.events, |s.events|, o.error.error); }
    } else {
      LoadNeedsFile(w, s.manifest);
      assert LoadedAt(w, t.start, t.events, |s.events|, Load(w, s.manifest).value);
    }
  }

  lemma StopHasSnapshot(w: World, s: State, p: nat, prep: Prep, o: Outcome)
    requires prep.Assets? || prep.Records? ==> FromHistory(w, s, prep.m)
    requires !o.Refused? ==>
               prep.Records? && o.Checked? && PassDone(w, s.sights, p, prep.m, o.statuses, map[], o.records)
    requires o.Refused? ==>
               && p < |s.procs| && Cause(w, s.sights, p, s.procs[p].cmd, o.error) && !o.error.LoadFailed?
               && (o.error.UnreadableAsset? ==>
                     (prep.Assets? || prep.Records?) && Unread(w, s.sights, p, prep.m, o.error.path))
    ensures ReportFrom(w, s, p, o)
  {
    hide PassDone, Cause, Unread;
    if !o.Refused? || o.error.UnreadableAsset? {
      var i :| LoadedAt(w, s.start, s.events, i, prep.m);
    }
  }

  lemma BeginNeverStamps(w: World, cmd: Command, manifest: Option<Bytes>)
    ensures var next := Begin(w, cmd, manifest); next.Lock? ==> next.request.InitRequest?
  {
    hide Load, CanonicalInside;
  }

  lemma StampHasSnapshot(w: World, s: State, p: nat, m: Manifest, r: Request)
    requires r.StampRequest? && FromHistory(w, s, m) && PassOf(w, s.sights, p, m, r)
    ensures StampFrom(w, s, p, r, |s.events|)
  {
    hide PassOf;
    var i :| LoadedAt(w, s.start, s.events, i, m);
  }

  lemma OtherSnapshotKept(w: World, s: State, t: State, q: nat)
    requires Extends(s, t) && q < |s.procs| && t.procs[q] == s.procs[q] && SnapshotOk(w, s, q)
    ensures SnapshotOk(w, t, q)
  {
    hide FromHistory, StampFrom, ReportFrom;
    var pc := s.procs[q].pc;
    if StoppedWith(pc).Some? { ReportFromKept(w, s, t, q, StoppedWith(pc).value); }
    if pc.Prepare? && (pc.prep.Assets? || pc.prep.Records?) { FromHistoryKept(w, s, t, pc.prep.m); }
    if RequestOf(pc).Some? && RequestOf(pc).value.StampRequest? {
      StampFromKept(w, s, t, q, RequestOf(pc).value, |s.events|, |t.events|);
    }
  }

  lemma EventSnapshotsKept(w: World, s: State, t: State)
    requires Extends(s, t) && SnapshotsOk(w, s)
    ensures forall k :: 0 <= k < |s.events| && t.events[k].request.StampRequest? ==>
              StampFrom(w, t, t.events[k].pid, t.events[k].request, k)
  {
    hide StampFrom, SnapshotOk;
    forall k | 0 <= k < |s.events| && t.events[k].request.StampRequest?
      ensures StampFrom(w, t, t.events[k].pid, t.events[k].request, k)
    {
      StampFromKept(w, s, t, s.events[k].pid, s.events[k].request, k, k);
    }
  }

  /** The moving process, at any step but one before the lock. */
  lemma MovingSnapshotKept(w: World, s: State, step: Step)
    requires Enabled(w, s, step) && !step.Environment? && !(step.Go? && s.procs[step.p].pc.Prepare?)
    requires SnapshotOk(w, s, step.p) && Extends(s, Perform(w, s, step))
    ensures SnapshotOk(w, Perform(w, s, step), step.p)
    ensures var t := Perform(w, s, step);
            forall k :: |s.events| <= k < |t.events| && t.events[k].request.StampRequest? ==>
              StampFrom(w, t, t.events[k].pid, t.events[k].request, k)
  {
    hide FromHistory, StampFrom, ReportFrom, Perform, Enabled;
    var t, p := Perform(w, s, step), step.p;
    RequestMoves(w, s, step);
    var pc := s.procs[p].pc;
    if StoppedWith(pc).Some? { ReportFromKept(w, s, t, p, StoppedWith(pc).value); }
    if RequestOf(pc).Some? && RequestOf(pc).value.StampRequest? {
      StampFromKept(w, s, t, p, RequestOf(pc).value, |s.events|, |t.events|);
      StampFromKept(w, s, t, p, RequestOf(pc).value, |s.events|, |s.events|);
    }
    if pc.Prepare? && (pc.prep.Assets? || pc.prep.Records?) { FromHistoryKept(w, s, t, pc.prep.m); }
  }

  lemma SnapshotStep(w: World, s: State, step: Step)
    requires Inv(w, s) && SnapshotsOk(w, s) && Enabled(w, s, step)
    ensures SnapshotsOk(w, Perform(w, s, step))
  {
    hide Perform, Enabled, SnapshotOk, StampFrom, HistoryOk, LockOk, PcOk;
    var t := Perform(w, s, step);
    StepKeeps(w, s, step);
    EnvironmentOnly(w, s, step);
    StepExtends(s, t, step);
    EventSnapshotsKept(w, s, t);
    forall q | 0 <= q < |t.procs| ensures SnapshotOk(w, t, q) {
      if step.Environment? || q != step.p {
        OtherSnapshotKept(w, s, t, q);
      } else {
        MovingSnapshot(w, s, step);
      }
    }
    if !step.Environment? { MovingSnapshot(w, s, step); }
  }

  lemma EnvironmentOnly(w: World, s: State, step: Step)
    requires Enabled(w, s, step)
    ensures step.Environment? ==> Perform(w, s, step) == s.(files := step.files)
    ensures !step.Environment? ==> step.p < |s.procs|
    ensures step.Go? ==> GoEnabled(w, s, step.p) && Perform(w, s, step) == Gone(w, s, step.p)
  {
    hide Gone, GoEnabled, Print;
  }

  lemma MovingSnapshot(w: World, s: State, step: Step)
    requires Inv(w, s) && SnapshotsOk(w, s) && Enabled(w, s, step) && !step.Environment? && Extends(s, Perform(w, s, step))
    ensures var t := Perform(w, s, step);
            && step.p < |t.procs| && SnapshotOk(w, t, step.p)
            && forall k :: |s.events| <= k < |t.events| && t.events[k].request.StampRequest? ==>
                 StampFrom(w, t, t.events[k].pid, t.events[k].request, k)
  {
    hide Perform, Enabled, SnapshotOk, StampFrom, HistoryOk, LockOk, PcOk, Prepared, Fits;
    EnvironmentOnly(w, s, step);
    if step.Go? && s.procs[step.p].pc.Prepare? {
      assert Gone(w, s, step.p) == Prepared(w, s, step.p);
      PrepareKeepsSnapshot(w, s, step.p);
    } else {
      MovingSnapshotKept(w, s, step);
    }
  }

  lemma {:induction false} SnapshotsKept(w: World, s: State, steps: seq<Step>)
    requires Inv(w, s) && SnapshotsOk(w, s) && Exec(w, s, steps).Some?
    ensures Inv(w, Exec(w, s, steps).value) && SnapshotsOk(w, Exec(w, s, steps).value)
  {
    hide Inv, SnapshotsOk, Perform, Enabled;
    ExecKeeps(w, s, steps);
    if steps != [] {
      ExecKeeps(w, s, steps[..|steps| - 1]);
      SnapshotsKept(w, s, steps[..|steps| - 1]);
      SnapshotStep(w, Exec(w, s, steps[..|steps| - 1]).value, steps[|steps| - 1]);
    }
  }
}
