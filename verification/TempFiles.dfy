/** Temporary files beside the manifest: none is left by a command that came to its end, and
    none of another process's is ever touched. */
module TempFiles {
  import opened Worlds
  import opened Commands
  import opened Protocol

  /** Between creating its temporary file and being rid of it. */
  predicate Writing(pc: Pc) {
    pc.Fill? || pc.Sync? || pc.Rename? || pc.Remove?
  }

  /** A crash, or a failed call, may leave one behind. */
  predicate Broken(pc: Pc) {
    pc.Crashed? || pc == Release(Failed) || pc == Done(Failed)
  }

  ghost predicate Leaves(pc: Pc, temp: nat) {
    (Writing(pc) && pc.temp == temp) || Broken(pc)
  }

  ghost predicate LeftBy(s: State, temp: nat) {
    exists p :: 0 <= p < |s.procs| && Leaves(s.procs[p].pc, temp)
  }

  /** Files that were there stay as they were; every other is some process's. */
  ghost predicate TempsKept(start: map<nat, Bytes>, s: State) {
    && (forall temp :: temp in start ==> temp in s.temps && s.temps[temp] == start[temp])
    && (forall temp :: temp in s.temps && temp !in start ==> LeftBy(s, temp))
    && (forall p :: 0 <= p < |s.procs| && Writing(s.procs[p].pc) ==> s.procs[p].pc.temp !in start)
  }

  /** Process p goes on to a place where it may still leave whatever it might have left. */
  lemma LeftKept(s: State, t: State, p: nat, temp: nat)
    requires p < |s.procs| == |t.procs| && LeftBy(s, temp)
    requires forall q :: 0 <= q < |s.procs| && q != p ==> t.procs[q] == s.procs[q]
    requires Leaves(s.procs[p].pc, temp) ==> Leaves(t.procs[p].pc, temp)
    ensures LeftBy(t, temp)
  {
    hide Leaves;
    var q :| 0 <= q < |s.procs| && Leaves(s.procs[q].pc, temp);
    assert Leaves(t.procs[q].pc, temp);
  }

  /** One process moves: it may start a file of its own, be rid of it, or leave it. */
  ghost predicate Moves(s: State, t: State, p: nat) {
    && p < |s.procs| == |t.procs|
    && (forall q :: 0 <= q < |s.procs| && q != p ==> t.procs[q] == s.procs[q])
    && var before, after := s.procs[p].pc, t.procs[p].pc;
    && (forall temp :: temp in s.temps && !(Writing(before) && before.temp == temp) ==>
          temp in t.temps && t.temps[temp] == s.temps[temp])
    && (forall temp :: temp in t.temps && temp !in s.temps ==> Leaves(after, temp))
    && (forall temp :: temp in t.temps && Leaves(before, temp) ==> Leaves(after, temp))
    && (Writing(after) ==> after.temp !in s.temps || (Writing(before) && before.temp == after.temp))
  }

  lemma MoveKeepsTemps(start: map<nat, Bytes>, s: State, t: State, p: nat)
    requires TempsKept(start, s) && Moves(s, t, p)
    ensures TempsKept(start, t)
  {
    forall temp | temp in t.temps && temp !in start ensures LeftBy(t, temp) {
      if temp in s.temps { LeftKept(s, t, p, temp); } else { assert Leaves(t.procs[p].pc, temp); }
    }
  }

  /** Nothing is written before the lock, nor by deciding. */
  lemma DecidingMoves(w: World, s: State, p: nat)
    requires p < |s.procs| && GoEnabled(w, s, p)
    requires s.procs[p].pc.Prepare? || s.procs[p].pc.Choose?
    ensures Moves(s, Gone(w, s, p), p)
  {
    hide Advance, Judge, InputLook, Print, Target, LookAt, ChoiceTarget;
  }

  lemma RenameMoves(s: State, p: nat)
    requires p < |s.procs| && s.procs[p].pc.Rename? && s.procs[p].pc.temp in s.temps
    ensures Moves(s, Renamed(s, p, s.procs[p].pc.work, s.procs[p].pc.temp), p)
  {
  }

  lemma LockMoves(w: World, s: State, p: nat)
    requires p < |s.procs| && GoEnabled(w, s, p)
    requires var pc := s.procs[p].pc; !pc.Prepare? && !pc.Choose? && !pc.Rename?
    ensures Moves(s, Gone(w, s, p), p)
  {
    hide Prepared, Chosen, Renamed, Print;
    assert Gone(w, s, p).temps == if s.procs[p].pc.Remove? then s.temps - {s.procs[p].pc.temp} else s.temps;
  }

  lemma GoMoves(w: World, s: State, p: nat)
    requires p < |s.procs| && GoEnabled(w, s, p)
    ensures Moves(s, Gone(w, s, p), p)
  {
    hide Moves, Prepared, Chosen, Renamed, Print;
    var pc := s.procs[p].pc;
    if pc.Prepare? || pc.Choose? {
      DecidingMoves(w, s, p);
    } else if pc.Rename? {
      RenameMoves(s, p);
    } else {
      LockMoves(w, s, p);
    }
  }

  lemma StepKeepsTemps(w: World, start: map<nat, Bytes>, s: State, step: Step)
    requires TempsKept(start, s) && Enabled(w, s, step)
    ensures TempsKept(start, Perform(w, s, step))
  {
    hide Gone, GoEnabled, Print, TempsKept;
    var t := Perform(w, s, step);
    if step.Environment? {
      FilesKeepTemps(start, s, t);
    } else {
      if step.Go? { GoMoves(w, s, step.p); }
      MoveKeepsTemps(start, s, t, step.p);
    }
  }

  lemma FilesKeepTemps(start: map<nat, Bytes>, s: State, t: State)
    requires TempsKept(start, s) && t == s.(files := t.files)
    ensures TempsKept(start, t)
  {
    forall temp | temp in t.temps && temp !in start ensures LeftBy(t, temp) { SameProcs(s, t, temp); }
  }

  lemma SameProcs(s: State, t: State, temp: nat)
    requires t.procs == s.procs && LeftBy(s, temp)
    ensures LeftBy(t, temp)
  {
  }

  lemma {:induction false} RunKeepsTemps(w: World, s: State, steps: seq<Step>)
    requires Initial(s) && Exec(w, s, steps).Some?
    ensures TempsKept(s.temps, Exec(w, s, steps).value)
  {
    hide Enabled, Perform, TempsKept;
    if steps == [] {
      assert TempsKept(s.temps, s) by { NothingWritten(s); }
    } else {
      var last := |steps| - 1;
      RunKeepsTemps(w, s, steps[..last]);
      StepKeepsTemps(w, s.temps, Exec(w, s, steps[..last]).value, steps[last]);
    }
  }

  lemma NothingWritten(s: State)
    requires Initial(s)
    ensures TempsKept(s.temps, s)
  {
  }

  /** No stray files. In every reachable state the files there were at the outset are there
      unchanged, and any other belongs to a process that is writing it or that crashed or had
      a call fail; when there is no such process, there is no other file. */
  lemma NoStrayFiles(w: World, s: State, steps: seq<Step>, t: State)
    requires Initial(s) && Reaches(w, s, steps, t)
    ensures forall temp :: temp in s.temps ==> temp in t.temps && t.temps[temp] == s.temps[temp]
    ensures forall temp :: temp in t.temps && temp !in s.temps ==> LeftBy(t, temp)
    ensures (forall p :: 0 <= p < |t.procs| ==> !Writing(t.procs[p].pc) && !Broken(t.procs[p].pc)) ==> t.temps == s.temps
  {
    hide Exec;
    RunKeepsTemps(w, s, steps);
  }

  /** A crash and a failed call leave every file as it is, the manifest and all temporary
      files. After a failed rename the next call removes the process's own temporary file,
      if it goes well, and nothing else; then the lock is released. */
  lemma FailuresLeave(w: World, s: State, p: nat)
    requires p < |s.procs|
    ensures !Ended(s.procs[p].pc) ==> SameFiles(s, Perform(w, s, Crash(p)))
    ensures CanFail(s.procs[p].pc) ==> SameFiles(s, Perform(w, s, Fail(p)))
    ensures s.procs[p].pc.Rename? ==> CleansUp(w, s, p)
  {
    hide Prepared, Chosen, Renamed, Print;
  }

  ghost predicate SameFiles(s: State, t: State) {
    t.manifest == s.manifest && t.temps == s.temps && t.files == s.files
  }

  ghost predicate CleansUp(w: World, s: State, p: nat)
    requires p < |s.procs| && s.procs[p].pc.Rename?
  {
    var failed := Perform(w, s, Fail(p));
    && Enabled(w, failed, Go(p))
    && var t := Perform(w, failed, Go(p));
    && t.temps == s.temps - {s.procs[p].pc.temp} && t.manifest == s.manifest && t.files == s.files
    && p < |t.procs| && t.procs[p].pc == Release(Failed)
  }
}
