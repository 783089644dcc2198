/** One command by itself, in files that stay as they are: what its steps come to when
    nobody interferes, and that the step machine can indeed run it to that end. */
module Solo {
  import opened Wrappers
  import opened Worlds
  import opened Commands
  import opened Protocol
  import opened Runs
  import opened Liveness

  /** What the next step before the lock sees. */
  function LookFor(w: World, cmd: Command, prep: Prep, files: Files): Look {
    match Target(w, cmd, prep)
    case None => Absent
    case Some(c) => LookAt(w, files, c)
  }

  /** The steps before the lock, to their end: the lock is asked for, or the command stops. */
  function Drain(w: World, cmd: Command, prep: Prep, manifest: Option<Bytes>, files: Files): (next: Next)
    requires Fits(cmd, prep)
    ensures !next.Continue?
    decreases Stage(Prepare(prep)), LeftOfPrep(prep)
  {
    PrepareLowers(w, cmd, prep, manifest, LookFor(w, cmd, prep, files));
    match Advance(w, cmd, prep, manifest, LookFor(w, cmd, prep, files))
    case Continue(q) => Drain(w, cmd, q, manifest, files)
    case next => next
  }

  /** How a command comes out: what it reports, and the manifest file it leaves. */
  datatype Finish = Finish(outcome: Outcome, manifest: Option<Bytes>)

  function Alone(w: World, cmd: Command, manifest: Option<Bytes>, files: Files): Finish {
    var next := Drain(w, cmd, Fresh, manifest, files);
    if next.Lock? then Concluded(w, next.request, manifest, files) else Finish(next.outcome, manifest)
  }

  function Concluded(w: World, r: Request, manifest: Option<Bytes>, files: Files): Finish {
    var look := InputLook(w, manifest, r, files);
    Finish(Judge(w, manifest, r, look).outcome, Apply(w, manifest, r, look))
  }

  // ---------------------------------------------------------------- the machine can run it

  /** Calls of this process alone, none of them failing. */
  ghost predicate Own(steps: seq<Step>, p: nat) {
    forall i :: 0 <= i < |steps| ==> IsProcess(steps[i]) && !steps[i].Fail? && steps[i].p == p
  }

  /** Steps of its own take the state from `s` to `t`. */
  ghost predicate Does(w: World, s: State, p: nat, steps: seq<Step>, t: State) {
    Own(steps, p) && Reaches(w, s, steps, t)
  }

  /** The process is here now; every other one, and the files, are as they were. */
  ghost predicate Stands(s: State, t: State, p: nat, pc: Pc) {
    p < |s.procs| && t.procs == s.procs[p := s.procs[p].(pc := pc)] && t.files == s.files
  }

  lemma OneStep(w: World, s: State, step: Step)
    requires Enabled(w, s, step) && IsProcess(step) && !step.Fail?
    ensures Does(w, s, step.p, [step], Perform(w, s, step))
  {
    hide Perform, Enabled;
    assert [step][..0] == [];
    assert Exec(w, s, []) == Some(s);
    assert Exec(w, s, [step]) == Some(Perform(w, s, step));
  }

  lemma Then(w: World, s: State, p: nat, a: seq<Step>, m: State, b: seq<Step>, t: State)
    requires Does(w, s, p, a, m) && Does(w, m, p, b, t)
    ensures Does(w, s, p, a + b, t)
  {
    hide Exec;
    ReachesOn(w, s, a, m, b, t);
  }

  /** Where the steps before the lock lead. */
  function PcAfter(next: Next): Pc
    requires !next.Continue?
  {
    if next.Lock? then Try(next.request) else Done(Stopped(next.outcome))
  }

  lemma {:induction false} DrainRuns(w: World, s: State, p: nat, prep: Prep) returns (steps: seq<Step>, t: State)
    requires p < |s.procs| && s.procs[p].pc == Prepare(prep) && Fits(s.procs[p].cmd, prep)
    ensures Does(w, s, p, steps, t)
    ensures Stands(s, t, p, PcAfter(Drain(w, s.procs[p].cmd, prep, s.manifest, s.files)))
    ensures t.holder == s.holder && t.manifest == s.manifest
    decreases Stage(Prepare(prep)), LeftOfPrep(prep)
  {
    hide Exec, Perform, Enabled, Advance, Target, LookAt, Does, Stage, LeftOfPrep;
    var cmd := s.procs[p].cmd;
    var look := LookFor(w, cmd, prep, s.files);
    PrepareLowers(w, cmd, prep, s.manifest, look);
    var m := PrepareStep(w, s, p, prep);
    var next := Advance(w, cmd, prep, s.manifest, look);
    if next.Continue? {
      var rest: seq<Step>;
      rest, t := DrainRuns(w, m, p, next.prep);
      steps := [Go(p)] + rest;
      Then(w, s, p, [Go(p)], m, rest, t);
    } else {
      steps, t := [Go(p)], m;
    }
  }

  lemma PrepareStep(w: World, s: State, p: nat, prep: Prep) returns (m: State)
    requires p < |s.procs| && s.procs[p].pc == Prepare(prep) && Fits(s.procs[p].cmd, prep)
    ensures Does(w, s, p, [Go(p)], m) && m.holder == s.holder && m.manifest == s.manifest
    ensures var next := Advance(w, s.procs[p].cmd, prep, s.manifest, LookFor(w, s.procs[p].cmd, prep, s.files));
            Stands(s, m, p, if next.Continue? then Prepare(next.prep) else PcAfter(next))
  {
    hide Exec, Advance, Target, LookAt, Does, Fits;
    OneStep(w, s, Go(p));
    m := Perform(w, s, Go(p));
  }

  /** From the free lock to the decision. */
  lemma LockRuns(w: World, s: State, p: nat, r: Request) returns (t: State)
    requires p < |s.procs| && s.procs[p].pc == Try(r) && s.holder == None
    ensures Does(w, s, p, [Go(p), Go(p)], t) && Stands(s, t, p, Choose(r, s.manifest))
    ensures t.holder == Some(p) && t.manifest == s.manifest
  {
    hide Exec, Does, Judge, Load, LookAt;
    var m := Perform(w, s, Go(p));
    t := Perform(w, m, Go(p));
    OneStep(w, s, Go(p));
    OneStep(w, m, Go(p));
    Then(w, s, p, [Go(p)], m, [Go(p)], t);
    assert [Go(p)] + [Go(p)] == [Go(p), Go(p)];
  }

  /** While another holds the lock a process says so and waits. */
  lemma QueueRuns(w: World, s: State, p: nat, r: Request) returns (t: State)
    requires p < |s.procs| && s.procs[p].pc == Try(r) && s.holder != None
    ensures Does(w, s, p, [Go(p), Go(p)], t) && Stands(s, t, p, Wait(r))
    ensures t.holder == s.holder && t.manifest == s.manifest
  {
    hide Exec, Does, Judge, Load, LookAt;
    var m := Perform(w, s, Go(p));
    t := Perform(w, m, Go(p));
    OneStep(w, s, Go(p));
    OneStep(w, m, Go(p));
    Then(w, s, p, [Go(p)], m, [Go(p)], t);
    assert [Go(p)] + [Go(p)] == [Go(p), Go(p)];
  }

  /** From the wait, once the lock is free, to the decision. */
  lemma WakeRuns(w: World, s: State, p: nat, r: Request) returns (t: State)
    requires p < |s.procs| && s.procs[p].pc == Wait(r) && s.holder == None
    ensures Does(w, s, p, [Go(p), Go(p)], t) && Stands(s, t, p, Choose(r, s.manifest))
    ensures t.holder == Some(p) && t.manifest == s.manifest
  {
    hide Exec, Does, Judge, Load, LookAt;
    var m := Perform(w, s, Go(p));
    t := Perform(w, m, Go(p));
    OneStep(w, s, Go(p));
    OneStep(w, m, Go(p));
    Then(w, s, p, [Go(p)], m, [Go(p)], t);
    assert [Go(p)] + [Go(p)] == [Go(p), Go(p)];
  }

  /** The atomic write, from the decision to the rename. */
  lemma WriteRuns(w: World, s: State, p: nat, work: Work) returns (steps: seq<Step>, t: State)
    requires p < |s.procs| && s.procs[p].pc == Create(work)
    ensures Does(w, s, p, steps, t) && Stands(s, t, p, Release(Decided(work.outcome)))
    ensures t.holder == s.holder && t.manifest == Some(Print(w, work.manifest))
  {
    hide Exec, Does, Print;
    var temp := NameLeft(s.temps);
    var a, m := OpenRuns(w, s, p, work, temp);
    var b: seq<Step>;
    b, t := FlushRuns(w, m, p, work, temp);
    steps := a + b;
    Then(w, s, p, a, m, b, t);
  }

  lemma OpenRuns(w: World, s: State, p: nat, work: Work, temp: nat) returns (steps: seq<Step>, t: State)
    requires p < |s.procs| && s.procs[p].pc == Create(work) && temp !in s.temps
    ensures Does(w, s, p, steps, t) && Stands(s, t, p, Fill(work, temp))
    ensures t.holder == s.holder && t.manifest == s.manifest && temp in t.temps && t.temps[temp] == Print(w, work.manifest)
  {
    hide Exec, Does, Print;
    var n := |Print(w, work.manifest)|;
    var m := Perform(w, s, Open(p, temp));
    OneStep(w, s, Open(p, temp));
    if n == 0 {
      steps, t := [Open(p, temp)], m;
    } else {
      t := Perform(w, m, Chunk(p, n));
      OneStep(w, m, Chunk(p, n));
      steps := [Open(p, temp)] + [Chunk(p, n)];
      Then(w, s, p, [Open(p, temp)], m, [Chunk(p, n)], t);
    }
  }

  lemma FlushRuns(w: World, s: State, p: nat, work: Work, temp: nat) returns (steps: seq<Step>, t: State)
    requires p < |s.procs| && s.procs[p].pc == Fill(work, temp) && temp in s.temps && s.temps[temp] == Print(w, work.manifest)
    ensures Does(w, s, p, steps, t) && Stands(s, t, p, Release(Decided(work.outcome)))
    ensures t.holder == s.holder && t.manifest == Some(Print(w, work.manifest))
  {
    hide Exec, Does, Print;
    var a := Perform(w, s, Go(p));
    OneStep(w, s, Go(p));
    var b := Perform(w, a, Go(p));
    OneStep(w, a, Go(p));
    t := Perform(w, b, Go(p));
    OneStep(w, b, Go(p));
    Then(w, s, p, [Go(p)], a, [Go(p)], b);
    steps := [Go(p)] + [Go(p)] + [Go(p)];
    Then(w, s, p, [Go(p)] + [Go(p)], b, [Go(p)], t);
  }

  lemma ReleaseRuns(w: World, s: State, p: nat, ending: Ending) returns (t: State)
    requires p < |s.procs| && s.procs[p].pc == Release(ending)
    ensures Does(w, s, p, [Go(p)], t) && Stands(s, t, p, Done(ending)) && t.holder == None && t.manifest == s.manifest
  {
    hide Exec, Does;
    t := Perform(w, s, Go(p));
    OneStep(w, s, Go(p));
  }

  /** From the decision to the rename, or straight to the release when nothing is written. */
  lemma ChooseRuns(w: World, s: State, p: nat, r: Request) returns (steps: seq<Step>, t: State)
    requires p < |s.procs| && s.procs[p].pc == Choose(r, s.manifest)
    ensures Does(w, s, p, steps, t) && t.holder == s.holder
    ensures var f := Concluded(w, r, s.manifest, s.files);
            Stands(s, t, p, Release(Decided(f.outcome))) && t.manifest == f.manifest
  {
    hide Exec, Does, Judge, Print, InputLook, ChoiceTarget;
    var m := Perform(w, s, Go(p));
    OneStep(w, s, Go(p));
    if m.procs[p].pc.Create? {
      var rest: seq<Step>;
      rest, t := WriteRuns(w, m, p, m.procs[p].pc.work);
      steps := [Go(p)] + rest;
      Then(w, s, p, [Go(p)], m, rest, t);
    } else {
      steps, t := [Go(p)], m;
    }
  }

  /** A process that waited, once the lock is free, ends as its request is concluded on what
      stands then, whatever the others have done meanwhile. */
  lemma WaiterRuns(w: World, s: State, p: nat, r: Request) returns (steps: seq<Step>, t: State)
    requires p < |s.procs| && s.procs[p].pc == Wait(r) && s.holder == None
    ensures Does(w, s, p, steps, t) && t.holder == None
    ensures var f := Concluded(w, r, s.manifest, s.files);
            t.manifest == f.manifest && Stands(s, t, p, Done(Decided(f.outcome)))
  {
    hide Exec, Does, Concluded;
    var m := WakeRuns(w, s, p, r);
    var b, n := ChooseRuns(w, m, p, r);
    Then(w, s, p, [Go(p), Go(p)], m, b, n);
    t := ReleaseRuns(w, n, p, n.procs[p].pc.ending);
    Then(w, s, p, [Go(p), Go(p)] + b, n, [Go(p)], t);
    steps := [Go(p), Go(p)] + b + [Go(p)];
  }

  /** The machine runs every command to the very end the command has by itself: nobody need
      move but its process, and no call need fail. */
  lemma MachineRuns(w: World, s: State, p: nat) returns (steps: seq<Step>, t: State)
    requires p < |s.procs| && s.procs[p].pc == Prepare(Fresh) && s.holder == None
    ensures Does(w, s, p, steps, t) && t.holder == None
    ensures var f := Alone(w, s.procs[p].cmd, s.manifest, s.files);
            && t.manifest == f.manifest
            && (Stands(s, t, p, Done(Decided(f.outcome))) || Stands(s, t, p, Done(Stopped(f.outcome))))
  {
    hide Exec, Does, Drain, Concluded;
    steps, t := DrainRuns(w, s, p, Fresh);
    var next := Drain(w, s.procs[p].cmd, Fresh, s.manifest, s.files);
    if next.Lock? {
      var m := LockRuns(w, t, p, next.request);
      Then(w, s, p, steps, t, [Go(p), Go(p)], m);
      var b, n := ChooseRuns(w, m, p, next.request);
      Then(w, s, p, steps + [Go(p), Go(p)], m, b, n);
      var u := ReleaseRuns(w, n, p, n.procs[p].pc.ending);
      Then(w, s, p, steps + [Go(p), Go(p)] + b, n, [Go(p)], u);
      steps, t := steps + [Go(p), Go(p)] + b + [Go(p)], u;
    }
  }

  // ---------------------------------------------------------------- one after another

  /** The manifest file after the first `n` commands, each run by itself after the last. */
  ghost function Serial(w: World, procs: seq<Proc>, manifest: Option<Bytes>, files: Files, n: nat): Option<Bytes>
    requires n <= |procs|
  {
    if n == 0 then manifest
    else Alone(w, procs[n - 1].cmd, Serial(w, procs, manifest, files, n - 1), files).manifest
  }

  /** The process has ended with this outcome. */
  predicate EndedWith(pc: Pc, outcome: Outcome) {
    pc == Done(Decided(outcome)) || pc == Done(Stopped(outcome))
  }

  /** The first `n` processes have ended as their commands do, the others have not begun. */
  ghost predicate SerialState(w: World, s: State, t: State, n: nat)
    requires n <= |s.procs|
  {
    && |t.procs| == |s.procs| && t.holder == None && t.files == s.files
    && t.manifest == Serial(w, s.procs, s.manifest, s.files, n)
    && (forall p :: n <= p < |s.procs| ==> t.procs[p] == s.procs[p])
    && (forall p :: 0 <= p < n ==> EndedWith(t.procs[p].pc, SerialOutcome(w, s, p)))
  }

  ghost function SerialOutcome(w: World, s: State, p: nat): Outcome
    requires p < |s.procs|
  {
    Alone(w, s.procs[p].cmd, Serial(w, s.procs, s.manifest, s.files, p), s.files).outcome
  }

  /** Any commands one after another are a run of the machine. */
  lemma {:induction false} SerialRuns(w: World, s: State, n: nat) returns (steps: seq<Step>, t: State)
    requires Initial(s) && n <= |s.procs|
    ensures Reaches(w, s, steps, t) && SerialState(w, s, t, n)
    decreases n
  {
    hide Exec, Alone;
    if n == 0 {
      steps, t := [], s;
      NoSteps(w, s);
    } else {
      var a, m := SerialRuns(w, s, n - 1);
      var b, u := MachineRuns(w, m, n - 1);
      ReachesOn(w, s, a, m, b, u);
      steps, t := a + b, u;
    }
  }

  lemma NoSteps(w: World, s: State)
    ensures Reaches(w, s, [], s)
  {
  }
}
