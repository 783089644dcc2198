/** The manifest protocol as a step machine: any number of processes, each at its own
    point of its own command, over one lock, one manifest file, temporary files, and
    files whose contents anyone may change.

    A step is one system call. It may go well, it may fail, and a process may crash at
    any point; the kernel then frees its lock and leaves its temporary file behind. */
module Protocol {
  import opened Wrappers
  import opened Manifests
  import opened Worlds
  import opened Commands
  import opened Backing
  import opened Histories

  /** How a command ends: with an outcome decided under the lock, with one settled before
      it, or with a failed system call. */
  datatype Ending = Decided(outcome: Outcome) | Stopped(outcome: Outcome) | Failed

  /** A decided write: the request, what its input showed, what is to be written. */
  datatype Work = Work(request: Request, look: Look, manifest: Manifest, outcome: Outcome)

  datatype Pc =
    | Prepare(prep: Prep)
    | Try(request: Request)
    | Notice(request: Request)
    | Wait(request: Request)
    | Read(request: Request)
    | Choose(request: Request, file: Option<Bytes>)
    | Create(work: Work)
    | Fill(work: Work, temp: nat)
    | Sync(work: Work, temp: nat)
    | Rename(work: Work, temp: nat)
    | Remove(temp: nat)
    | Release(ending: Ending)
    | Done(ending: Ending)
    | Crashed

  datatype Proc = Proc(cmd: Command, pc: Pc)

  /** `start`, `grants`, `events` and `sights` are history: the manifest file at the outset,
      the processes in the order the lock was granted, the atomic commands so far, and
      every read so far. No step depends on them. */
  datatype State = State(
    procs: seq<Proc>,
    holder: Option<nat>,
    manifest: Option<Bytes>,
    temps: map<nat, Bytes>,
    files: Files,
    start: Option<Bytes>,
    grants: seq<nat>,
    events: seq<Event>,
    sights: seq<Sighting>)

  /** `Go` is the program's next call going well; `Open` and `Chunk` say which temporary
      name was drawn and how many bytes one write took; `Fail` is that call failing. */
  datatype Step =
    | Go(p: nat)
    | Open(p: nat, temp: nat)
    | Chunk(p: nat, n: nat)
    | Fail(p: nat)
    | Crash(p: nat)
    | Environment(files: Files)

  ghost predicate Initial(s: State) {
    && (forall p :: 0 <= p < |s.procs| ==> s.procs[p].pc == Prepare(Fresh))
    && s.holder == None && s.start == s.manifest
    && s.grants == [] && s.events == [] && s.sights == []
  }

  predicate Holds(pc: Pc) {
    pc.Read? || pc.Choose? || pc.Create? || pc.Fill? || pc.Sync? || pc.Rename? || pc.Remove? || pc.Release?
  }

  predicate Ended(pc: Pc) {
    pc.Done? || pc.Crashed?
  }

  predicate IsProcess(step: Step) {
    step.Go? || step.Open? || step.Chunk? || step.Fail?
  }

  // ---------------------------------------------------------------- what can happen

  ghost predicate GoEnabled(w: World, s: State, p: nat)
    requires p < |s.procs|
  {
    match s.procs[p].pc
    case Prepare(prep) => Fits(s.procs[p].cmd, prep)
    case Wait(_) => s.holder == None
    case Create(_) => false
    case Fill(work, temp) => temp in s.temps && s.temps[temp] == Print(w, work.manifest)
    case Rename(_, temp) => temp in s.temps
    case Done(_) => false
    case Crashed => false
    case _ => true
  }

  predicate CanFail(pc: Pc) {
    pc.Prepare? || pc.Try? || pc.Wait? || pc.Read? || pc.Create? || pc.Fill? || pc.Sync? || pc.Rename? || pc.Remove?
  }

  ghost predicate Enabled(w: World, s: State, step: Step) {
    match step
    case Go(p) => p < |s.procs| && GoEnabled(w, s, p)
    case Open(p, temp) => p < |s.procs| && s.procs[p].pc.Create? && temp !in s.temps
    case Chunk(p, n) =>
      && p < |s.procs| && s.procs[p].pc.Fill? && s.procs[p].pc.temp in s.temps && n > 0
      && |s.temps[s.procs[p].pc.temp]| + n <= |Print(w, s.procs[p].pc.work.manifest)|
    case Fail(p) => p < |s.procs| && CanFail(s.procs[p].pc)
    case Crash(p) => p < |s.procs| && !Ended(s.procs[p].pc)
    case Environment(_) => true
  }

  // ---------------------------------------------------------------- what then happens

  ghost function Moved(s: State, p: nat, pc: Pc): State
    requires p < |s.procs|
  {
    s.(procs := s.procs[p := s.procs[p].(pc := pc)])
  }

  /** One step before the lock: one look, noted, and on to the next local state. */
  ghost function Prepared(w: World, s: State, p: nat): State
    requires p < |s.procs| && s.procs[p].pc.Prepare? && Fits(s.procs[p].cmd, s.procs[p].pc.prep)
  {
    var cmd, prep := s.procs[p].cmd, s.procs[p].pc.prep;
    var target := Target(w, cmd, prep);
    var look := if target.Some? then LookAt(w, s.files, target.value) else Absent;
    var noted := s.(sights := Noted(s.sights, p, target, look));
    match Advance(w, cmd, prep, s.manifest, look)
    case Continue(next) => Moved(noted, p, Prepare(next))
    case Lock(request) => Moved(noted, p, Try(request))
    case Stop(outcome) => Moved(noted, p, Done(Stopped(outcome)))
  }

  ghost function Granted(s: State, p: nat, request: Request): State
    requires p < |s.procs|
  {
    Moved(s, p, Read(request)).(holder := Some(p), grants := s.grants + [p])
  }

  /** The file a lock holder looks at before it decides. */
  ghost function ChoiceTarget(w: World, file: Option<Bytes>, r: Request): Option<Candidate> {
    match Load(w, file)
    case Err(_) => None
    case Ok(m) => InputTarget(w, m, r)
  }

  /** The decision under the lock: nothing to write ends the command here. */
  ghost function Chosen(w: World, s: State, p: nat, r: Request, file: Option<Bytes>): State
    requires p < |s.procs|
  {
    var look := InputLook(w, file, r, s.files);
    var noted := s.(sights := Noted(s.sights, p, ChoiceTarget(w, file, r), look));
    match Judge(w, file, r, look)
    case Put(m, outcome) => Moved(noted, p, Create(Work(r, look, m, outcome)))
    case Keep(outcome) =>
      Moved(noted, p, Release(Decided(outcome))).(events := s.events + [Event(p, |s.grants|, r, look, outcome)])
  }

  /** The rename: whatever the temporary file holds is the manifest now. */
  ghost function Renamed(s: State, p: nat, work: Work, temp: nat): State
    requires p < |s.procs| && temp in s.temps
  {
    Moved(s, p, Release(Decided(work.outcome))).(
      manifest := Some(s.temps[temp]),
      temps := s.temps - {temp},
      events := s.events + [Event(p, |s.grants|, work.request, work.look, work.outcome)])
  }

  ghost function Gone(w: World, s: State, p: nat): State
    requires p < |s.procs| && GoEnabled(w, s, p)
  {
    match s.procs[p].pc
    case Prepare(_) => Prepared(w, s, p)
    case Try(r) => if s.holder == None then Granted(s, p, r) else Moved(s, p, Notice(r))
    case Notice(r) => Moved(s, p, Wait(r))
    case Wait(r) => Granted(s, p, r)
    case Read(r) => Moved(s, p, Choose(r, s.manifest))
    case Choose(r, file) => Chosen(w, s, p, r, file)
    case Fill(work, temp) => Moved(s, p, Sync(work, temp))
    case Sync(work, temp) => Moved(s, p, Rename(work, temp))
    case Rename(work, temp) => Renamed(s, p, work, temp)
    case Remove(temp) => Moved(s, p, Release(Failed)).(temps := s.temps - {temp})
    case Release(ending) => Moved(s, p, Done(ending)).(holder := None)
    case _ => s
  }

  /** A failed call: before the lock the command ends; under it the lock is given up, and
      a failed rename first tries to remove the temporary file. */
  ghost function FailedAt(s: State, p: nat): State
    requires p < |s.procs|
  {
    var pc := s.procs[p].pc;
    if pc.Prepare? || pc.Try? || pc.Wait? then Moved(s, p, Done(Failed))
    else if pc.Rename? then Moved(s, p, Remove(pc.temp))
    else Moved(s, p, Release(Failed))
  }

  ghost function Perform(w: World, s: State, step: Step): State
    requires Enabled(w, s, step)
  {
    match step
    case Go(p) => Gone(w, s, p)
    case Open(p, temp) => Moved(s, p, Fill(s.procs[p].pc.work, temp)).(temps := s.temps[temp := []])
    case Chunk(p, n) =>
      var pc := s.procs[p].pc;
      var text, written := Print(w, pc.work.manifest), |s.temps[pc.temp]|;
      s.(temps := s.temps[pc.temp := s.temps[pc.temp] + text[written..written + n]])
    case Fail(p) => FailedAt(s, p)
    case Crash(p) => Moved(s, p, Crashed).(holder := if s.holder == Some(p) then None else s.holder)
    case Environment(files) => s.(files := files)
  }

  /** The state a schedule leads to, if every step of it can happen. */
  ghost function Exec(w: World, s: State, steps: seq<Step>): Option<State> {
    if steps == [] then Some(s)
    else
      var before := Exec(w, s, steps[..|steps| - 1]);
      if before.Some? && Enabled(w, before.value, steps[|steps| - 1]) then
        Some(Perform(w, before.value, steps[|steps| - 1]))
      else
        None
  }

  ghost predicate Reaches(w: World, s: State, steps: seq<Step>, t: State) {
    Exec(w, s, steps) == Some(t)
  }
}
