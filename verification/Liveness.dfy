/** No deadlock and no endless run. Some process can always take its next call while any is
    unfinished, and every call brings the whole system closer to the end. */
module Liveness {
  import opened Wrappers
  import opened Worlds
  import opened Commands
  import opened Backing
  import opened Protocol
  import opened Linearizability
  import opened Runs

  // ---------------------------------------------------------------- some process can go on

  /** A process waits when it wants the lock and another one holds it. */
  predicate Waits(s: State, p: nat)
    requires p < |s.procs|
  {
    s.procs[p].pc.Wait? && s.holder != None
  }

  /** Its next call can be made, and can go well. */
  ghost predicate CanGoOn(w: World, s: State, p: nat) {
    exists step :: IsProcess(step) && !step.Fail? && step.p == p && Enabled(w, s, step)
  }

  ghost function Above(names: set<nat>): (n: nat)
    ensures forall x :: x in names ==> x < n
  {
    if names == {} then 0
    else
      var x :| x in names;
      var m := Above(names - {x});
      assert forall y :: y in names ==> y == x || y in names - {x};
      if x < m then m else x + 1
  }

  /** There is always a temporary name not in use. */
  lemma NameLeft(temps: map<nat, Bytes>) returns (n: nat)
    ensures n !in temps
  {
    n := Above(temps.Keys);
  }

  lemma NextCall(w: World, s: State, p: nat)
    requires p < |s.procs| && PcOk(w, s, p) && !Ended(s.procs[p].pc) && !Waits(s, p)
    ensures CanGoOn(w, s, p)
  {
    hide Print, Judge, RequestBacked, LookSeen, Fits;
    var pc := s.procs[p].pc;
    if pc.Create? {
      var temp := NameLeft(s.temps);
      assert Enabled(w, s, Open(p, temp));
    } else if pc.Fill? && s.temps[pc.temp] != Print(w, pc.work.manifest) {
      assert Enabled(w, s, Chunk(p, |Print(w, pc.work.manifest)| - |s.temps[pc.temp]|));
    } else {
      assert pc.Prepare? ==> PrepBacked(w, s.sights, p, s.procs[p].cmd, pc.prep);
      assert Enabled(w, s, Go(p));
    }
  }

  /** Deadlock freedom: in every reachable state with an unfinished process, some process
      can go on; a waiting one waits for a holder that can. */
  lemma NoDeadlock(w: World, s: State, steps: seq<Step>, t: State, p: nat)
    requires Initial(s) && Reaches(w, s, steps, t) && p < |t.procs| && !Ended(t.procs[p].pc)
    ensures Waits(t, p) ==> t.holder.value < |t.procs| && CanGoOn(w, t, t.holder.value)
    ensures !Waits(t, p) ==> CanGoOn(w, t, p)
  {
    hide PcOk, HistoryOk, Exec, CanGoOn;
    InitialInv(w, s);
    ExecKeeps(w, s, steps);
    if Waits(t, p) {
      NextCall(w, t, t.holder.value);
    } else {
      NextCall(w, t, p);
    }
  }

  /** The lock is free, and a process in the queue can take it. */
  ghost predicate FreeFor(w: World, s: State, q: nat)
    requires q < |s.procs|
  {
    && s.holder == None
    && (s.procs[q].pc.Wait? ==> GoEnabled(w, s, q) && Gone(w, s, q).holder == Some(q))
  }

  /** A crashed holder never blocks the rest: the lock is free at once. */
  lemma CrashFreesTheLock(w: World, s: State, steps: seq<Step>, t: State, p: nat, q: nat)
    requires Initial(s) && Reaches(w, s, steps, t) && p < |t.procs| && q < |t.procs|
    requires Holds(t.procs[p].pc) && q != p
    ensures Enabled(w, t, Crash(p))
    ensures var u := Perform(w, t, Crash(p));
            |u.procs| == |t.procs| && u.manifest == t.manifest && FreeFor(w, u, q)
  {
    hide PcOk, HistoryOk, Exec;
    InitialInv(w, s);
    ExecKeeps(w, s, steps);
  }

  // ---------------------------------------------------------------- the rank

  /** How far a process is from its end: stages first, and within a stage what is left of
      its loop. */
  function Stage(pc: Pc): nat {
    match pc
    case Prepare(Fresh) => 16
    case Prepare(AddHash(_)) => 15
    case Prepare(EvidenceRead(_)) => 15
    case Prepare(Stems(_, _, _, _)) => 14
    case Prepare(Assets(_, _, _, _)) => 14
    case Prepare(Records(_, _, _, _)) => 13
    case Try(_) => 12
    case Notice(_) => 11
    case Wait(_) => 10
    case Read(_) => 9
    case Choose(_, _) => 8
    case Create(_) => 7
    case Fill(_, _) => 6
    case Sync(_, _) => 5
    case Rename(_, _) => 4
    case Remove(_) => 3
    case Release(_) => 2
    case Done(_) => 1
    case Crashed => 0
  }

  function LeftOfPrep(prep: Prep): nat {
    match prep
    case Stems(_, _, evidence, done) =>
      if evidence.JobEvidence? && |done| <= |evidence.job.stems| then |evidence.job.stems| - |done| else 0
    case Assets(m, statuses, _, sized) =>
      if |statuses| <= |m.assets| then 2 * (|m.assets| - |statuses|) + (if sized then 0 else 1) else 0
    case Records(m, _, _, records) => if |records| <= |m.evaluations| then |m.evaluations| - |records| else 0
    case _ => 0
  }

  ghost function Left(w: World, pc: Pc, temps: map<nat, Bytes>): nat {
    match pc
    case Prepare(prep) => LeftOfPrep(prep)
    case Fill(work, temp) =>
      if temp in temps && |temps[temp]| <= |Print(w, work.manifest)| then |Print(w, work.manifest)| - |temps[temp]| else 0
    case _ => 0
  }

  ghost function Stages(procs: seq<Proc>): nat {
    if procs == [] then 0 else Stage(procs[0].pc) + Stages(procs[1..])
  }

  ghost function Lefts(w: World, procs: seq<Proc>, temps: map<nat, Bytes>): nat {
    if procs == [] then 0 else Left(w, procs[0].pc, temps) + Lefts(w, procs[1..], temps)
  }

  /** The global rank: lexicographic in all stages and all that is left. */
  ghost predicate RankFalls(w: World, s: State, t: State) {
    Stages(t.procs) < Stages(s.procs)
    || (Stages(t.procs) == Stages(s.procs) && Lefts(w, t.procs, t.temps) < Lefts(w, s.procs, s.temps))
  }

  lemma {:induction false} StagesUpdate(procs: seq<Proc>, p: nat, q: Proc)
    requires p < |procs|
    ensures Stages(procs[p := q]) == Stages(procs) - Stage(procs[p].pc) + Stage(q.pc)
  {
    if p > 0 {
      StagesUpdate(procs[1..], p - 1, q);
      assert procs[p := q][1..] == procs[1..][p - 1 := q];
    } else {
      assert procs[0 := q][1..] == procs[1..];
    }
  }

  /** No two processes write one temporary file, so filling one leaves the others' alone. */
  ghost predicate OthersLeft(w: World, a: seq<Proc>, before: map<nat, Bytes>, b: seq<Proc>, after: map<nat, Bytes>,
                             p: nat) {
    p < |a| == |b| && forall q :: 0 <= q < |a| && q != p ==> Left(w, b[q].pc, after) == Left(w, a[q].pc, before)
  }

  lemma {:induction false} LeftsSame(w: World, a: seq<Proc>, before: map<nat, Bytes>, b: seq<Proc>, after: map<nat,
                                     Bytes>)
    requires |a| == |b| && forall q :: 0 <= q < |a| ==> Left(w, b[q].pc, after) == Left(w, a[q].pc, before)
    ensures Lefts(w, b, after) == Lefts(w, a, before)
  {
    hide Left;
    if a != [] {
      forall q | 0 <= q < |a| - 1 ensures Left(w, b[1..][q].pc, after) == Left(w, a[1..][q].pc, before) {
        assert a[1..][q] == a[q + 1] && b[1..][q] == b[q + 1];
      }
      LeftsSame(w, a[1..], before, b[1..], after);
    }
  }

  lemma {:induction false} LeftsFall(w: World, a: seq<Proc>, before: map<nat, Bytes>, b: seq<Proc>, after: map<nat,
                                     Bytes>, p: nat)
    requires OthersLeft(w, a, before, b, after, p) && Left(w, b[p].pc, after) < Left(w, a[p].pc, before)
    ensures Lefts(w, b, after) < Lefts(w, a, before)
  {
    hide Left;
    forall q | 0 <= q < |a| - 1 && q + 1 != p ensures Left(w, b[1..][q].pc, after) == Left(w, a[1..][q].pc, before) {
      assert a[1..][q] == a[q + 1] && b[1..][q] == b[q + 1];
    }
    if p > 0 {
      LeftsFall(w, a[1..], before, b[1..], after, p - 1);
    } else {
      LeftsSame(w, a[1..], before, b[1..], after);
    }
  }

  /** A step that brings its process to a lower stage, or leaves less of its loop. */
  ghost predicate Advances(w: World, s: State, t: State, p: nat) {
    && p < |s.procs| == |t.procs| && t.procs == s.procs[p := t.procs[p]]
    && (Stage(t.procs[p].pc) < Stage(s.procs[p].pc)
        || (Stage(t.procs[p].pc) == Stage(s.procs[p].pc)
            && OthersLeft(w, s.procs, s.temps, t.procs, t.temps, p)
            && Left(w, t.procs[p].pc, t.temps) < Left(w, s.procs[p].pc, s.temps)))
  }

  lemma AdvanceLowersRank(w: World, s: State, t: State, p: nat)
    requires Advances(w, s, t, p)
    ensures RankFalls(w, s, t)
  {
    hide Stage, Left;
    StagesUpdate(s.procs, p, t.procs[p]);
    if Stage(t.procs[p].pc) == Stage(s.procs[p].pc) {
      LeftsFall(w, s.procs, s.temps, t.procs, t.temps, p);
    }
  }

  lemma PrepareLowers(w: World, cmd: Command, prep: Prep, manifest: Option<Bytes>, look: Look)
    requires Fits(cmd, prep)
    ensures var next := Advance(w, cmd, prep, manifest, look);
            next.Continue? ==>
              Stage(Prepare(next.prep)) < Stage(Prepare(prep))
              || (Stage(Prepare(next.prep)) == Stage(Prepare(prep)) && LeftOfPrep(next.prep) < LeftOfPrep(prep))
  {
    hide CanonicalInside, Load, EvidenceFrom;
  }

  lemma PreparedAdvances(w: World, s: State, p: nat)
    requires p < |s.procs| && s.procs[p].pc.Prepare? && Fits(s.procs[p].cmd, s.procs[p].pc.prep)
    ensures Advances(w, s, Prepared(w, s, p), p)
  {
    hide Advance, Target, LookAt, LeftOfPrep, Fits, Print;
    var cmd, prep := s.procs[p].cmd, s.procs[p].pc.prep;
    var target := Target(w, cmd, prep);
    var look := if target.Some? then LookAt(w, s.files, target.value) else Absent;
    PrepareLowers(w, cmd, prep, s.manifest, look);
  }

  lemma ChosenAdvances(w: World, s: State, p: nat, r: Request, file: Option<Bytes>)
    requires p < |s.procs| && s.procs[p].pc == Choose(r, file)
    ensures Advances(w, s, Chosen(w, s, p, r, file), p)
  {
    hide Judge, InputLook, ChoiceTarget, Left, Lefts;
  }

  lemma GoAdvances(w: World, s: State, p: nat)
    requires p < |s.procs| && GoEnabled(w, s, p)
    ensures Advances(w, s, Gone(w, s, p), p)
  {
    hide Prepared, Chosen, Judge, Print, Left, Lefts, Fits, LeftOfPrep;
    match s.procs[p].pc
    case Prepare(_) => PreparedAdvances(w, s, p);
    case Choose(r, file) => ChosenAdvances(w, s, p, r, file);
    case _ =>
  }

  /** Only the holder fills a temporary file, so a write leaves less to write and changes
      nobody else's share. */
  lemma ChunkAdvances(w: World, s: State, p: nat, n: nat)
    requires Inv(w, s) && Enabled(w, s, Chunk(p, n))
    ensures Advances(w, s, Perform(w, s, Chunk(p, n)), p)
  {
    hide Print, HistoryOk, PcOk;
    var t := Perform(w, s, Chunk(p, n));
    assert t.procs == s.procs[p := t.procs[p]];
    forall q | 0 <= q < |s.procs| && q != p ensures Left(w, t.procs[q].pc, t.temps) == Left(w, s.procs[q].pc, s.temps) {
      assert s.holder == Some(p);
      assert !Holds(s.procs[q].pc);
    }
  }

  /** Every call of a process lowers the rank, failed calls and crashes included; a change of
      the files leaves it as it is. */
  lemma StepLowersRank(w: World, s: State, step: Step)
    requires Inv(w, s) && Enabled(w, s, step)
    ensures !step.Environment? ==> RankFalls(w, s, Perform(w, s, step))
    ensures step.Environment? ==>
              var t := Perform(w, s, step);
              Stages(t.procs) == Stages(s.procs) && Lefts(w, t.procs, t.temps) == Lefts(w, s.procs, s.temps)
  {
    hide Inv, Gone, GoEnabled, Left, Lefts, Stages, RankFalls, Print;
    match step
    case Go(p) => GoAdvances(w, s, p); AdvanceLowersRank(w, s, Gone(w, s, p), p);
    case Chunk(p, n) => ChunkAdvances(w, s, p, n); AdvanceLowersRank(w, s, Perform(w, s, step), p);
    case Environment(_) =>
    case _ => AdvanceLowersRank(w, s, Perform(w, s, step), step.p);
  }

  // ---------------------------------------------------------------- every run ends

  /** An endless run: a state and a step for every moment. */
  ghost predicate Run(w: World, s: State, trace: nat -> State, steps: nat -> Step) {
    trace(0) == s && forall n: nat :: Follows(w, trace, steps, n)
  }

  ghost predicate Follows(w: World, trace: nat -> State, steps: nat -> Step, n: nat) {
    Enabled(w, trace(n), steps(n)) && trace(n + 1) == Perform(w, trace(n), steps(n))
  }

  /** From this moment on nobody but the environment moves. */
  ghost predicate Still(steps: nat -> Step, n: nat) {
    forall m: nat :: n <= m ==> steps(m).Environment?
  }

  lemma {:induction false} RunKeeps(w: World, s: State, trace: nat -> State, steps: nat -> Step, n: nat)
    requires Inv(w, s) && Run(w, s, trace, steps)
    ensures Inv(w, trace(n))
    decreases n
  {
    hide Inv, Perform, Enabled;
    if n > 0 {
      RunKeeps(w, s, trace, steps, n - 1);
      assert Follows(w, trace, steps, n - 1);
      StepKeeps(w, trace(n - 1), steps(n - 1));
    }
  }

  /** While only the environment moves, the rank stays. */
  lemma {:induction false} RankStays(w: World, s: State, trace: nat -> State, steps: nat -> Step, n: nat, m: nat)
    requires Inv(w, s) && Run(w, s, trace, steps) && n <= m && forall k: nat :: n <= k < m ==> steps(k).Environment?
    ensures Stages(trace(m).procs) == Stages(trace(n).procs)
    ensures Lefts(w, trace(m).procs, trace(m).temps) == Lefts(w, trace(n).procs, trace(n).temps)
    decreases m
  {
    hide Inv, Perform, Enabled, Lefts, Stages;
    if n < m {
      RankStays(w, s, trace, steps, n, m - 1);
      RunKeeps(w, s, trace, steps, m - 1);
      assert Follows(w, trace, steps, m - 1);
      StepLowersRank(w, trace(m - 1), steps(m - 1));
    }
  }

  lemma {:induction false} FirstMove(steps: nat -> Step, n: nat, m: nat) returns (k: nat)
    requires n <= m && !steps(m).Environment?
    ensures n <= k <= m && !steps(k).Environment? && forall j: nat :: n <= j < k ==> steps(j).Environment?
    decreases m - n
  {
    if !steps(n).Environment? {
      k := n;
    } else {
      k := FirstMove(steps, n + 1, m);
    }
  }

  /** Bounded runs: in every endless run, with any crashes and failures, the processes make
      only finitely many calls. */
  lemma {:induction false} CallsEnd(w: World, s: State, trace: nat -> State, steps: nat -> Step,
                                    n: nat) returns (end: nat)
    requires Inv(w, s) && Run(w, s, trace, steps)
    ensures n <= end && Still(steps, end)
    decreases Stages(trace(n).procs), Lefts(w, trace(n).procs, trace(n).temps)
  {
    hide Inv, Perform, Enabled, Lefts, Stages, Follows;
    if Still(steps, n) {
      end := n;
    } else {
      var m: nat :| n <= m && !steps(m).Environment?;
      var k := FirstMove(steps, n, m);
      RankStays(w, s, trace, steps, n, k);
      RunKeeps(w, s, trace, steps, k);
      MoveLowersRank(w, trace, steps, k);
      end := CallsEnd(w, s, trace, steps, k + 1);
    }
  }

  lemma MoveLowersRank(w: World, trace: nat -> State, steps: nat -> Step, k: nat)
    requires Follows(w, trace, steps, k) && Inv(w, trace(k)) && !steps(k).Environment?
    ensures RankFalls(w, trace(k), trace(k + 1))
  {
    hide Inv, Perform, Enabled, RankFalls;
    StepLowersRank(w, trace(k), steps(k));
  }

  /** The scheduler is fair: while some process can go on, some process at last does. */
  ghost predicate Fair(w: World, trace: nat -> State, steps: nat -> Step) {
    forall n: nat, p: nat :: CanGoOn(w, trace(n), p) ==> exists m: nat :: n <= m && !steps(m).Environment?
  }

  ghost predicate AllEnded(s: State) {
    forall p :: 0 <= p < |s.procs| ==> Ended(s.procs[p].pc)
  }

  lemma NobodyGoesOn(w: World, trace: nat -> State, steps: nat -> Step, n: nat)
    requires Fair(w, trace, steps) && Still(steps, n)
    ensures forall p: nat :: !CanGoOn(w, trace(n), p)
  {
    hide CanGoOn;
  }

  lemma StuckMeansEnded(w: World, s: State)
    requires Inv(w, s) && forall p: nat :: !CanGoOn(w, s, p)
    ensures AllEnded(s)
  {
    hide PcOk, HistoryOk, CanGoOn;
    forall p | 0 <= p < |s.procs| ensures Ended(s.procs[p].pc) {
      if !Ended(s.procs[p].pc) { NextCall(w, s, if Waits(s, p) then s.holder.value else p); }
    }
  }

  /** Every fair run ends: at last every process has ended, or crashed. */
  lemma FairRunsEnd(w: World, s: State, trace: nat -> State, steps: nat -> Step) returns (end: nat)
    requires Initial(s) && Run(w, s, trace, steps) && Fair(w, trace, steps)
    ensures AllEnded(trace(end))
  {
    hide Inv, Perform, Enabled, Follows, CanGoOn, Initial;
    InitialInv(w, s);
    end := CallsEnd(w, s, trace, steps, 0);
    RunKeeps(w, s, trace, steps, end);
    NobodyGoesOn(w, trace, steps, end);
    StuckMeansEnded(w, trace(end));
  }
}
