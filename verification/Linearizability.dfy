/** The step machine refines the sequential machine: whatever the interleaving, the
    failures and the crashes, the manifest file is what the atomic commands make of it, run
    one after another in the order the lock was granted, each with its own outcome. */
module Linearizability {
  import opened Wrappers
  import opened Worlds
  import opened Commands
  import opened Backing
  import opened Histories
  import opened Protocol

  // ---------------------------------------------------------------- the invariant

  /** The process has no atomic command in the history. */
  ghost predicate Quiet(s: State, p: nat) {
    forall k :: 0 <= k < |s.events| ==> s.events[k].pid != p
  }

  ghost predicate HasEvent(s: State, p: nat, outcome: Outcome) {
    exists k :: 0 <= k < |s.events| && s.events[k].pid == p && s.events[k].outcome == outcome
  }

  ghost predicate RequestHeld(w: World, s: State, p: nat, r: Request)
    requires p < |s.procs|
  {
    RequestBacked(w, s.sights, p, s.procs[p].cmd, r) && (!r.InitRequest? ==> s.manifest.Some?)
  }

  /** What the decision looked at, it noted. */
  ghost predicate LookSeen(w: World, sights: seq<Sighting>, p: nat, file: Option<Bytes>, r: Request, look: Look) {
    ChoiceTarget(w, file, r).Some? ==> Sighting(p, ChoiceTarget(w, file, r).value, look) in sights
  }

  ghost predicate WorkHeld(w: World, s: State, p: nat, work: Work)
    requires p < |s.procs|
  {
    && RequestHeld(w, s, p, work.request)
    && Judge(w, s.manifest, work.request, work.look) == Put(work.manifest, work.outcome)
    && LookSeen(w, s.sights, p, s.manifest, work.request, work.look)
  }

  ghost predicate EndingOk(s: State, p: nat, ending: Ending) {
    if ending.Decided? then HasEvent(s, p, ending.outcome) else Quiet(s, p)
  }

  /** What each point of a command knows. From the load to the rename, the manifest file is
      still the one that was loaded. */
  ghost predicate PcOk(w: World, s: State, p: nat)
    requires p < |s.procs|
  {
    match s.procs[p].pc
    case Prepare(prep) =>
      && Quiet(s, p) && PrepBacked(w, s.sights, p, s.procs[p].cmd, prep)
      && (prep != Fresh ==> s.manifest.Some?)
    case Try(r) => Quiet(s, p) && RequestHeld(w, s, p, r)
    case Notice(r) => Quiet(s, p) && RequestHeld(w, s, p, r)
    case Wait(r) => Quiet(s, p) && RequestHeld(w, s, p, r)
    case Read(r) => Quiet(s, p) && RequestHeld(w, s, p, r)
    case Choose(r, file) => Quiet(s, p) && RequestHeld(w, s, p, r) && file == s.manifest
    case Create(work) => Quiet(s, p) && WorkHeld(w, s, p, work)
    case Fill(work, temp) =>
      Quiet(s, p) && WorkHeld(w, s, p, work) && temp in s.temps && s.temps[temp] <= Print(w, work.manifest)
    case Sync(work, temp) =>
      Quiet(s, p) && WorkHeld(w, s, p, work) && temp in s.temps && s.temps[temp] == Print(w, work.manifest)
    case Rename(work, temp) =>
      Quiet(s, p) && WorkHeld(w, s, p, work) && temp in s.temps && s.temps[temp] == Print(w, work.manifest)
    case Remove(_) => Quiet(s, p)
    case Release(ending) => EndingOk(s, p, ending)
    case Done(ending) => EndingOk(s, p, ending)
    case Crashed => true
  }

  /** The lock excludes: a process is past its grant and before its release exactly when it
      is the holder. */
  ghost predicate LockOk(s: State) {
    && (forall p :: 0 <= p < |s.procs| ==> (Holds(s.procs[p].pc) <==> s.holder == Some(p)))
    && (s.holder.Some? ==> s.holder.value < |s.procs| && |s.grants| > 0 && s.grants[|s.grants| - 1] == s.holder.value)
    && (s.holder.Some? && Quiet(s, s.holder.value) ==>
          forall k :: 0 <= k < |s.events| ==> s.events[k].turn < |s.grants|)
  }

  ghost predicate EventBacked(w: World, s: State, k: nat)
    requires k < |s.events| && s.events[k].pid < |s.procs|
  {
    var e := s.events[k];
    && RequestBacked(w, s.sights, e.pid, s.procs[e.pid].cmd, e.request)
    && LookSeen(w, s.sights, e.pid, FileBefore(w, s.start, s.events, k), e.request, e.look)
    && (!e.request.InitRequest? ==> FileBefore(w, s.start, s.events, k).Some?)
  }

  ghost predicate HistoryOk(w: World, s: State) {
    && s.manifest == FileAfter(w, s.start, s.events)
    && Faithful(w, s.start, s.events)
    && InGrantOrder(s.events, s.grants)
    && forall k :: 0 <= k < |s.events| ==> s.events[k].pid < |s.procs| && EventBacked(w, s, k)
  }

  ghost predicate Inv(w: World, s: State) {
    LockOk(s) && HistoryOk(w, s) && forall p :: 0 <= p < |s.procs| ==> PcOk(w, s, p)
  }

  lemma InitialInv(w: World, s: State)
    requires Initial(s)
    ensures Inv(w, s)
  {
    hide Judge, RequestBacked, LookSeen;
  }

  // ---------------------------------------------------------------- what a step leaves to the others

  /** What a step of `p` may do to the shared state, seen from the rest. */
  ghost predicate Courteous(s: State, t: State, p: nat) {
    && p < |s.procs| && |t.procs| == |s.procs|
    && (forall q :: 0 <= q < |s.procs| ==> t.procs[q].cmd == s.procs[q].cmd)
    && (forall q :: 0 <= q < |s.procs| && q != p ==> t.procs[q] == s.procs[q])
    && t.start == s.start
    && s.sights <= t.sights && s.events <= t.events && s.grants <= t.grants
    && (forall k :: |s.events| <= k < |t.events| ==> t.events[k].pid == p)
    && (s.manifest.Some? ==> t.manifest.Some?)
    && (s.holder != Some(p) ==> t.manifest == s.manifest && t.temps == s.temps)
    && (forall q :: 0 <= q < |s.procs| && q != p ==> (t.holder == Some(q) <==> s.holder == Some(q)))
  }

  lemma QuietKept(s: State, t: State, p: nat, q: nat)
    requires Courteous(s, t, p) && q != p
    ensures Quiet(s, q) ==> Quiet(t, q)
    ensures forall o :: HasEvent(s, q, o) ==> HasEvent(t, q, o)
  {
    forall o | HasEvent(s, q, o) ensures HasEvent(t, q, o) {
      var k :| 0 <= k < |s.events| && s.events[k].pid == q && s.events[k].outcome == o;
      assert t.events[k] == s.events[k];
    }
  }

  lemma HeldKept(w: World, s: State, t: State, q: nat, r: Request)
    requires q < |s.procs| && |t.procs| == |s.procs| && t.procs[q].cmd == s.procs[q].cmd
    requires s.sights <= t.sights && (s.manifest.Some? ==> t.manifest.Some?)
    requires RequestHeld(w, s, q, r)
    ensures RequestHeld(w, t, q, r)
  {
    RequestKept(w, s.sights, t.sights, q, s.procs[q].cmd, r);
  }

  lemma WorkKept(w: World, s: State, t: State, q: nat, work: Work)
    requires q < |s.procs| && |t.procs| == |s.procs| && t.procs[q].cmd == s.procs[q].cmd
    requires s.sights <= t.sights && t.manifest == s.manifest
    requires WorkHeld(w, s, q, work)
    ensures WorkHeld(w, t, q, work)
  {
    hide Judge, RequestBacked, ChoiceTarget, PrepBacked;
    HeldKept(w, s, t, q, work.request);
  }

  /** A courteous step leaves every other process what it knows. */
  lemma OthersKept(w: World, s: State, t: State, p: nat, q: nat)
    requires LockOk(s) && Courteous(s, t, p) && q < |s.procs| && q != p && PcOk(w, s, q)
    ensures PcOk(w, t, q)
  {
    hide Judge, RequestBacked, LookSeen, PrepBacked, Print;
    QuietKept(s, t, p, q);
    match s.procs[q].pc
    case Prepare(prep) => PrepKept(w, s.sights, t.sights, q, s.procs[q].cmd, prep);
    case Try(r) => HeldKept(w, s, t, q, r);
    case Notice(r) => HeldKept(w, s, t, q, r);
    case Wait(r) => HeldKept(w, s, t, q, r);
    case Read(r) => HeldKept(w, s, t, q, r);
    case Choose(r, _) => HeldKept(w, s, t, q, r);
    case Create(work) => WorkKept(w, s, t, q, work);
    case Fill(work, _) => WorkKept(w, s, t, q, work);
    case Sync(work, _) => WorkKept(w, s, t, q, work);
    case Rename(work, _) => WorkKept(w, s, t, q, work);
    case _ =>
  }

  /** A courteous step that adds no atomic command and leaves the file alone. */
  lemma HistoryKept(w: World, s: State, t: State, p: nat)
    requires HistoryOk(w, s) && Courteous(s, t, p) && t.events == s.events && t.manifest == s.manifest
    ensures HistoryOk(w, t)
  {
    hide Judge, RequestBacked, ChoiceTarget, PrepBacked;
    forall k | 0 <= k < |t.events| ensures t.events[k].pid < |t.procs| && EventBacked(w, t, k) {
      EventKept(w, s, t, k);
    }
    InGrantOrderKept(s.events, s.grants, t.grants);
  }

  lemma InGrantOrderKept(events: seq<Event>, a: seq<nat>, b: seq<nat>)
    requires InGrantOrder(events, a) && a <= b
    ensures InGrantOrder(events, b)
  {
  }

  lemma EventKept(w: World, s: State, t: State, k: nat)
    requires k < |s.events| && s.events[k].pid < |s.procs| && EventBacked(w, s, k)
    requires |t.procs| == |s.procs| && t.start == s.start && s.sights <= t.sights && s.events <= t.events
    requires forall q :: 0 <= q < |s.procs| ==> t.procs[q].cmd == s.procs[q].cmd
    ensures EventBacked(w, t, k)
  {
    hide Judge, RequestBacked, ChoiceTarget, PrepBacked;
    var e := s.events[k];
    assert t.events[k] == e;
    RequestKept(w, s.sights, t.sights, e.pid, s.procs[e.pid].cmd, e.request);
    assert t.events[..k] == s.events[..k];
  }

  lemma StepKept(w: World, s: State, t: State, p: nat)
    requires Inv(w, s) && Courteous(s, t, p) && LockOk(t) && HistoryOk(w, t) && PcOk(w, t, p)
    ensures Inv(w, t)
  {
    hide Judge, RequestBacked, ChoiceTarget, PrepBacked;
    forall q | 0 <= q < |t.procs| && q != p ensures PcOk(w, t, q) {
      OthersKept(w, s, t, p, q);
    }
  }

  // ---------------------------------------------------------------- the lock, step by step

  /** A step that moves one process without taking or giving up the lock. */
  lemma LockStays(s: State, t: State, p: nat)
    requires LockOk(s) && p < |s.procs| == |t.procs| && t.procs == s.procs[p := t.procs[p]]
    requires Holds(t.procs[p].pc) == Holds(s.procs[p].pc)
    requires t.holder == s.holder && t.grants == s.grants
    requires t.events == s.events || (s.holder == Some(p) && |t.events| > 0 && t.events[|t.events| - 1].pid == p)
    ensures LockOk(t)
  {
  }

  lemma LockGranted(s: State, p: nat, r: Request)
    requires LockOk(s) && p < |s.procs| && s.holder == None && InGrantOrder(s.events, s.grants)
    ensures LockOk(Granted(s, p, r)) && Courteous(s, Granted(s, p, r), p)
  {
  }

  lemma LockGivenUp(s: State, t: State, p: nat)
    requires LockOk(s) && p < |s.procs| == |t.procs| && t.procs == s.procs[p := t.procs[p]] && !Holds(t.procs[p].pc)
    requires t.holder == if s.holder == Some(p) then None else s.holder
    requires t.grants == s.grants && t.events == s.events
    ensures LockOk(t)
  {
  }

  // ---------------------------------------------------------------- what the moving process knows

  lemma PreparedKnows(w: World, s: State, p: nat)
    requires p < |s.procs| && PcOk(w, s, p) && s.procs[p].pc.Prepare? && Fits(s.procs[p].cmd, s.procs[p].pc.prep)
    ensures PcOk(w, Prepared(w, s, p), p)
  {
    hide Advance, Target, LookAt, RequestBacked, PrepBacked, Judge, LookSeen;
    var cmd, prep := s.procs[p].cmd, s.procs[p].pc.prep;
    var target := Target(w, cmd, prep);
    var look := if target.Some? then LookAt(w, s.files, target.value) else Absent;
    AdvanceBacked(w, s.sights, p, cmd, prep, s.manifest, look);
    AdvanceNeedsProject(w, cmd, prep, s.manifest, look);
  }

  /** No command but `init` gets past its first step without a manifest. */
  lemma AdvanceNeedsProject(w: World, cmd: Command, prep: Prep, manifest: Option<Bytes>, look: Look)
    requires Fits(cmd, prep) && (prep != Fresh ==> manifest.Some?)
    ensures var next := Advance(w, cmd, prep, manifest, look);
            && (next.Continue? ==> manifest.Some?)
            && (next.Lock? && !next.request.InitRequest? ==> manifest.Some?)
  {
  }

  lemma PreparedMoves(w: World, s: State, p: nat)
    requires LockOk(s) && p < |s.procs| && s.procs[p].pc.Prepare? && Fits(s.procs[p].cmd, s.procs[p].pc.prep)
    ensures var t := Prepared(w, s, p);
            LockOk(t) && Courteous(s, t, p) && t.events == s.events && t.manifest == s.manifest
  {
    hide Advance, Target, LookAt, InGrantOrder;
    LockStays(s, Prepared(w, s, p), p);
  }

  lemma PrepareKeeps(w: World, s: State, p: nat)
    requires Inv(w, s) && p < |s.procs| && s.procs[p].pc.Prepare? && Fits(s.procs[p].cmd, s.procs[p].pc.prep)
    ensures Inv(w, Prepared(w, s, p)) && Courteous(s, Prepared(w, s, p), p)
  {
    hide Judge, RequestBacked, ChoiceTarget, PrepBacked;
    var t := Prepared(w, s, p);
    assert PcOk(w, s, p);
    PreparedKnows(w, s, p);
    PreparedMoves(w, s, p);
    HistoryKept(w, s, t, p);
    StepKept(w, s, t, p);
  }

  lemma GrantKeeps(w: World, s: State, p: nat, r: Request)
    requires Inv(w, s) && p < |s.procs| && s.holder == None && s.procs[p].pc in {Try(r), Wait(r)}
    ensures Inv(w, Granted(s, p, r)) && Courteous(s, Granted(s, p, r), p)
  {
    hide Judge, RequestBacked, ChoiceTarget, PrepBacked;
    var t := Granted(s, p, r);
    LockGranted(s, p, r);
    HistoryKept(w, s, t, p);
    assert PcOk(w, s, p);
    HeldKept(w, s, t, p, r);
    StepKept(w, s, t, p);
  }

  /** A step that changes nothing but where the process is. */
  lemma MoveKeeps(w: World, s: State, p: nat, pc: Pc)
    requires Inv(w, s) && p < |s.procs| && Holds(pc) == Holds(s.procs[p].pc)
    requires PcOk(w, Moved(s, p, pc), p)
    ensures Inv(w, Moved(s, p, pc)) && Courteous(s, Moved(s, p, pc), p)
  {
    hide Judge, RequestBacked, LookSeen, PrepBacked, EventBacked, Faithful, InGrantOrder, FileAfter;
    var t := Moved(s, p, pc);
    LockStays(s, t, p);
    HistoryKept(w, s, t, p);
    StepKept(w, s, t, p);
  }

  lemma QueueKeeps(w: World, s: State, p: nat)
    requires Inv(w, s) && p < |s.procs| && GoEnabled(w, s, p)
    requires var pc := s.procs[p].pc; pc.Try? || pc.Notice? || pc.Wait? || pc.Read?
    ensures Inv(w, Gone(w, s, p)) && Courteous(s, Gone(w, s, p), p)
  {
    hide Judge, RequestBacked, LookSeen, PrepBacked, EventBacked, Faithful, InGrantOrder, FileAfter, Print;
    assert PcOk(w, s, p);
    match s.procs[p].pc
    case Try(r) => if s.holder == None { GrantKeeps(w, s, p, r); } else { QueuedKnows(w, s, p, r, Notice(r)); }
    case Notice(r) => QueuedKnows(w, s, p, r, Wait(r));
    case Wait(r) => GrantKeeps(w, s, p, r);
    case Read(r) => QueuedKnows(w, s, p, r, Choose(r, s.manifest));
  }

  lemma QueuedKnows(w: World, s: State, p: nat, r: Request, pc: Pc)
    requires Inv(w, s) && p < |s.procs| && Quiet(s, p) && RequestHeld(w, s, p, r)
    requires Holds(pc) == Holds(s.procs[p].pc) && pc in {Notice(r), Wait(r), Choose(r, s.manifest)}
    ensures Inv(w, Moved(s, p, pc)) && Courteous(s, Moved(s, p, pc), p)
  {
    hide Judge, RequestBacked, ChoiceTarget, PrepBacked;
    HeldKept(w, s, Moved(s, p, pc), p, r);
    MoveKeeps(w, s, p, pc);
  }

  // ---------------------------------------------------------------- deciding

  lemma GrantOrderStep(s: State, p: nat, e: Event)
    requires LockOk(s) && InGrantOrder(s.events, s.grants) && s.holder == Some(p) && Quiet(s, p)
    requires e.pid == p && e.turn == |s.grants|
    ensures InGrantOrder(s.events + [e], s.grants)
  {
  }

  /** Adding the holder's atomic command to the history. */
  lemma AppendEvent(w: World, s: State, t: State, p: nat, e: Event)
    requires LockOk(s) && HistoryOk(w, s) && Courteous(s, t, p) && s.holder == Some(p) && Quiet(s, p)
    requires t.events == s.events + [e] && t.grants == s.grants && e.pid == p && e.turn == |s.grants|
    requires Judge(w, s.manifest, e.request, e.look).outcome == e.outcome
    requires t.manifest == Apply(w, s.manifest, e.request, e.look)
    requires RequestBacked(w, t.sights, p, t.procs[p].cmd, e.request)
    requires LookSeen(w, t.sights, p, s.manifest, e.request, e.look)
    requires !e.request.InitRequest? ==> s.manifest.Some?
    ensures HistoryOk(w, t)
  {
    hide Judge, Apply, RequestBacked, LookSeen, Faithful, InGrantOrder, FileAfter;
    FileAfterStep(w, s.start, s.events, e);
    FaithfulStep(w, s.start, s.events, e);
    GrantOrderStep(s, p, e);
    forall k | 0 <= k < |t.events| ensures t.events[k].pid < |t.procs| && EventBacked(w, t, k) {
      if k < |s.events| {
        EventKept(w, s, t, k);
      } else {
        assert t.events[..k] == s.events;
      }
    }
  }

  /** The state after the decision, spelled out. */
  lemma ChosenMoves(w: World, s: State, p: nat, r: Request)
    requires LockOk(s) && p < |s.procs| && s.procs[p].pc == Choose(r, s.manifest)
    ensures var t := Chosen(w, s, p, r, s.manifest);
            && LockOk(t) && Courteous(s, t, p) && t.manifest == s.manifest && t.grants == s.grants
  {
    hide Judge, InputLook, ChoiceTarget;
    LockStays(s, Chosen(w, s, p, r, s.manifest), p);
  }

  lemma ChosenKnows(w: World, s: State, p: nat, r: Request)
    requires p < |s.procs| && RequestHeld(w, s, p, r) && Quiet(s, p)
    ensures PcOk(w, Chosen(w, s, p, r, s.manifest), p)
    ensures RequestHeld(w, Chosen(w, s, p, r, s.manifest), p, r)
    ensures LookSeen(w, Chosen(w, s, p, r, s.manifest).sights, p, s.manifest, r, InputLook(w, s.manifest, r, s.files))
  {
    hide Judge, InputLook, RequestBacked, PrepBacked;
    var t := Chosen(w, s, p, r, s.manifest);
    HeldKept(w, s, t, p, r);
    if Judge(w, s.manifest, r, InputLook(w, s.manifest, r, s.files)).Keep? {
      assert t.events[|s.events|].pid == p;
    }
  }

  lemma ChooseKeeps(w: World, s: State, p: nat, r: Request)
    requires Inv(w, s) && p < |s.procs| && s.procs[p].pc == Choose(r, s.manifest)
    ensures Inv(w, Chosen(w, s, p, r, s.manifest)) && Courteous(s, Chosen(w, s, p, r, s.manifest), p)
  {
    hide Judge, RequestBacked, ChoiceTarget, PrepBacked;
    var t := Chosen(w, s, p, r, s.manifest);
    assert PcOk(w, s, p);
    ChosenMoves(w, s, p, r);
    ChosenKnows(w, s, p, r);
    var look := InputLook(w, s.manifest, r, s.files);
    var v := Judge(w, s.manifest, r, look);
    if v.Keep? {
      AppendEvent(w, s, t, p, Event(p, |s.grants|, r, look, v.outcome));
    } else {
      HistoryKept(w, s, t, p);
    }
    StepKept(w, s, t, p);
  }

  // ---------------------------------------------------------------- writing

  /** A step that touches only the process and its temporary file. */
  lemma TempKeeps(w: World, s: State, t: State, p: nat)
    requires Inv(w, s) && p < |s.procs| == |t.procs| && s.holder == Some(p) && Holds(t.procs[p].pc)
    requires t == s.(procs := s.procs[p := t.procs[p]], temps := t.temps) && t.procs[p].cmd == s.procs[p].cmd
    requires PcOk(w, t, p)
    ensures Inv(w, t) && Courteous(s, t, p)
  {
    hide Judge, RequestBacked, LookSeen, PrepBacked, EventBacked, Faithful, InGrantOrder, FileAfter;
    LockStays(s, t, p);
    HistoryKept(w, s, t, p);
    StepKept(w, s, t, p);
  }

  lemma WriteKeeps(w: World, s: State, step: Step)
    requires Inv(w, s) && Enabled(w, s, step) && (step.Open? || step.Chunk?)
    ensures Inv(w, Perform(w, s, step)) && Courteous(s, Perform(w, s, step), step.p)
  {
    hide Judge, RequestBacked, LookSeen, PrepBacked, EventBacked, Faithful, InGrantOrder, FileAfter, Print;
    var p, t := step.p, Perform(w, s, step);
    assert PcOk(w, s, p);
    var work := s.procs[p].pc.work;
    WorkKept(w, s, t, p, work);
    if step.Chunk? {
      var text, written := Print(w, work.manifest), s.temps[s.procs[p].pc.temp];
      assert written + text[|written|..|written| + step.n] == text[..|written| + step.n];
    }
    TempKeeps(w, s, t, p);
  }

  lemma FlushKeeps(w: World, s: State, p: nat)
    requires Inv(w, s) && p < |s.procs| && GoEnabled(w, s, p) && (s.procs[p].pc.Fill? || s.procs[p].pc.Sync?)
    ensures Inv(w, Gone(w, s, p)) && Courteous(s, Gone(w, s, p), p)
  {
    hide Judge, RequestBacked, LookSeen, PrepBacked, EventBacked, Faithful, InGrantOrder, FileAfter, Print;
    var t := Gone(w, s, p);
    assert PcOk(w, s, p);
    WorkKept(w, s, t, p, s.procs[p].pc.work);
    TempKeeps(w, s, t, p);
  }

  lemma RenamedMoves(s: State, p: nat, work: Work, temp: nat)
    requires LockOk(s) && p < |s.procs| && s.procs[p].pc == Rename(work, temp) && temp in s.temps
    ensures LockOk(Renamed(s, p, work, temp)) && Courteous(s, Renamed(s, p, work, temp), p)
    ensures HasEvent(Renamed(s, p, work, temp), p, work.outcome)
  {
    var t := Renamed(s, p, work, temp);
    assert t.events[|s.events|].pid == p;
    LockStays(s, t, p);
  }

  lemma RenameKeeps(w: World, s: State, p: nat, work: Work, temp: nat)
    requires Inv(w, s) && p < |s.procs| && s.procs[p].pc == Rename(work, temp)
    ensures temp in s.temps
    ensures Inv(w, Renamed(s, p, work, temp)) && Courteous(s, Renamed(s, p, work, temp), p)
  {
    hide Judge, RequestBacked, LookSeen, PrepBacked, EventBacked, Faithful, InGrantOrder, FileAfter, Print;
    assert PcOk(w, s, p);
    var t := Renamed(s, p, work, temp);
    RenamedMoves(s, p, work, temp);
    AppendEvent(w, s, t, p, Event(p, |s.grants|, work.request, work.look, work.outcome));
    StepKept(w, s, t, p);
  }

  // ---------------------------------------------------------------- ending

  lemma GiveUpKeeps(w: World, s: State, t: State, p: nat)
    requires Inv(w, s) && p < |s.procs| == |t.procs| && !Holds(t.procs[p].pc)
    requires t == s.(procs := s.procs[p := t.procs[p]], holder := t.holder) && t.procs[p].cmd == s.procs[p].cmd
    requires t.holder == if s.holder == Some(p) then None else s.holder
    requires PcOk(w, t, p)
    ensures Inv(w, t) && Courteous(s, t, p)
  {
    hide Judge, RequestBacked, LookSeen, PrepBacked, EventBacked, Faithful, InGrantOrder, FileAfter;
    LockGivenUp(s, t, p);
    HistoryKept(w, s, t, p);
    StepKept(w, s, t, p);
  }

  /** A command that ends without an atomic command of its own. */
  lemma QuietEnd(w: World, s: State, t: State, p: nat)
    requires p < |s.procs| && p < |t.procs| && Quiet(s, p) && t.events == s.events
    requires t.procs[p].pc.Remove? || t.procs[p].pc in {Release(Failed), Done(Failed)}
    ensures PcOk(w, t, p)
  {
    hide Judge, RequestBacked, LookSeen, PrepBacked, Print;
  }

  lemma QuietUntilDecided(w: World, s: State, p: nat)
    requires p < |s.procs| && PcOk(w, s, p) && (CanFail(s.procs[p].pc) || s.procs[p].pc.Remove?)
    ensures Quiet(s, p)
  {
  }

  lemma RemoveKeeps(w: World, s: State, p: nat, temp: nat)
    requires Inv(w, s) && p < |s.procs| && s.procs[p].pc == Remove(temp)
    ensures var t := Moved(s, p, Release(Failed)).(temps := s.temps - {temp});
            Inv(w, t) && Courteous(s, t, p)
  {
    hide Judge, RequestBacked, LookSeen, PrepBacked, EventBacked, Faithful, InGrantOrder, FileAfter;
    var t := Moved(s, p, Release(Failed)).(temps := s.temps - {temp});
    QuietUntilDecided(w, s, p);
    QuietEnd(w, s, t, p);
    TempKeeps(w, s, t, p);
  }

  lemma ReleaseKeeps(w: World, s: State, p: nat, ending: Ending)
    requires Inv(w, s) && p < |s.procs| && s.procs[p].pc == Release(ending)
    ensures var t := Moved(s, p, Done(ending)).(holder := None);
            Inv(w, t) && Courteous(s, t, p)
  {
    hide Judge, RequestBacked, LookSeen, PrepBacked, EventBacked, Faithful, InGrantOrder, FileAfter;
    var t := Moved(s, p, Done(ending)).(holder := None);
    assert PcOk(w, s, p);
    assert ending.Decided? ==> HasEvent(s, p, ending.outcome) && HasEvent(t, p, ending.outcome);
    GiveUpKeeps(w, s, t, p);
  }

  lemma FailKeeps(w: World, s: State, p: nat)
    requires Inv(w, s) && p < |s.procs| && CanFail(s.procs[p].pc)
    ensures Inv(w, FailedAt(s, p)) && Courteous(s, FailedAt(s, p), p)
  {
    hide Judge, RequestBacked, LookSeen, PrepBacked, EventBacked, Faithful, InGrantOrder, FileAfter;
    QuietUntilDecided(w, s, p);
    QuietEnd(w, s, FailedAt(s, p), p);
    if Holds(s.procs[p].pc) {
      TempKeeps(w, s, FailedAt(s, p), p);
    } else {
      GiveUpKeeps(w, s, FailedAt(s, p), p);
    }
  }

  lemma CrashKeeps(w: World, s: State, p: nat)
    requires Inv(w, s) && p < |s.procs|
    ensures var t := Moved(s, p, Crashed).(holder := if s.holder == Some(p) then None else s.holder);
            Inv(w, t) && Courteous(s, t, p)
  {
    hide Judge, RequestBacked, LookSeen, PrepBacked, EventBacked, Faithful, InGrantOrder, FileAfter;
    GiveUpKeeps(w, s, Moved(s, p, Crashed).(holder := if s.holder == Some(p) then None else s.holder), p);
  }

  lemma EnvironmentKeeps(w: World, s: State, files: Files)
    requires Inv(w, s)
    ensures Inv(w, s.(files := files))
  {
    hide Judge, RequestBacked, LookSeen, PrepBacked, Faithful, InGrantOrder, FileAfter, Print;
    var t := s.(files := files);
    forall p | 0 <= p < |t.procs| ensures PcOk(w, t, p) {
      assert PcOk(w, s, p);
    }
    forall k | 0 <= k < |t.events| ensures EventBacked(w, t, k) {
      assert EventBacked(w, s, k);
    }
  }

  lemma GoKeeps(w: World, s: State, p: nat)
    requires Inv(w, s) && p < |s.procs| && GoEnabled(w, s, p)
    ensures Inv(w, Gone(w, s, p)) && Courteous(s, Gone(w, s, p), p)
  {
    hide Judge, RequestBacked, ChoiceTarget, PrepBacked, Prepared, Chosen, HistoryOk, LockOk;
    assert PcOk(w, s, p);
    match s.procs[p].pc
    case Prepare(_) => PrepareKeeps(w, s, p);
    case Choose(r, _) => ChooseKeeps(w, s, p, r);
    case Fill(_, _) => FlushKeeps(w, s, p);
    case Sync(_, _) => FlushKeeps(w, s, p);
    case Rename(work, temp) => RenameKeeps(w, s, p, work, temp);
    case Remove(temp) => RemoveKeeps(w, s, p, temp);
    case Release(ending) => ReleaseKeeps(w, s, p, ending);
    case _ => QueueKeeps(w, s, p);
  }

  /** Every step keeps the invariant. */
  lemma StepKeeps(w: World, s: State, step: Step)
    requires Inv(w, s) && Enabled(w, s, step)
    ensures Inv(w, Perform(w, s, step))
    ensures !step.Environment? ==> Courteous(s, Perform(w, s, step), step.p)
  {
    hide Judge, RequestBacked, ChoiceTarget, PrepBacked, Prepared, Chosen, HistoryOk, LockOk;
    match step
    case Environment(files) => EnvironmentKeeps(w, s, files);
    case Fail(p) => FailKeeps(w, s, p);
    case Crash(p) => CrashKeeps(w, s, p);
    case Open(_, _) => WriteKeeps(w, s, step);
    case Chunk(_, _) => WriteKeeps(w, s, step);
    case Go(p) => GoKeeps(w, s, p);
  }
}
