/** What holds of every run of the protocol, for any number of processes, any schedule, any
    failures and crashes, and any changes to the files meanwhile. */
module Runs {
  import opened Wrappers
  import opened Manifests
  import opened Codec
  import opened Worlds
  import opened Commands
  import opened Backing
  import opened Histories
  import opened Protocol
  import opened Linearizability

  /** The histories of the earlier state are prefixes of the later one's. */
  ghost predicate Extends(s: State, t: State) {
    && s.start == t.start && s.events <= t.events && s.grants <= t.grants && s.sights <= t.sights
    && |s.procs| == |t.procs|
    && (forall p :: 0 <= p < |s.procs| ==> s.procs[p].cmd == t.procs[p].cmd)
    && (s.manifest.Some? ==> t.manifest.Some?)
  }

  lemma {:induction false} ExecKeeps(w: World, s: State, steps: seq<Step>)
    requires Inv(w, s) && Exec(w, s, steps).Some?
    ensures Inv(w, Exec(w, s, steps).value) && Extends(s, Exec(w, s, steps).value)
  {
    hide Inv;
    if steps != [] {
      var before, last := Exec(w, s, steps[..|steps| - 1]).value, steps[|steps| - 1];
      ExecKeeps(w, s, steps[..|steps| - 1]);
      StepKeeps(w, before, last);
      StepExtends(before, Perform(w, before, last), last);
    }
  }

  lemma {:induction false} ReachesOn(w: World, s: State, a: seq<Step>, m: State, b: seq<Step>, t: State)
    requires Reaches(w, s, a, m) && Reaches(w, m, b, t)
    ensures Reaches(w, s, a + b, t)
    decreases |b|
  {
    hide Perform, Enabled;
    if b == [] {
      assert a + b == a;
    } else {
      assert (a + b)[..|a + b| - 1] == a + b[..|b| - 1];
      ReachesOn(w, s, a, m, b[..|b| - 1], Exec(w, m, b[..|b| - 1]).value);
    }
  }

  lemma StepExtends(s: State, t: State, step: Step)
    requires !step.Environment? ==> Courteous(s, t, step.p)
    requires step.Environment? ==> t == s.(files := step.files)
    ensures Extends(s, t)
  {
  }

  /** Every process that has ended reports the outcome of its own atomic command, or ended
      without one. */
  ghost predicate Reported(t: State) {
    forall p :: 0 <= p < |t.procs| && t.procs[p].pc.Done? ==> EndingOk(t, p, t.procs[p].pc.ending)
  }

  /** Every atomic command carried what its own process had been asked and had seen. */
  ghost predicate Carried(w: World, t: State) {
    forall k :: 0 <= k < |t.events| ==> t.events[k].pid < |t.procs| && EventBacked(w, t, k)
  }

  /** Linearizability. In every reachable state the manifest file is the result of the
      atomic commands in the history, applied in the order the lock was granted to the file
      there was at the outset; each has the outcome the atomic command has at that point;
      and the outcomes reported under the lock are exactly these, once per process. */
  lemma Linearizable(w: World, s: State, steps: seq<Step>, t: State)
    requires Initial(s) && Reaches(w, s, steps, t)
    ensures t.manifest == FileAfter(w, s.manifest, t.events)
    ensures Faithful(w, s.manifest, t.events)
    ensures InGrantOrder(t.events, t.grants)
    ensures Reported(t) && Carried(w, t)
  {
    hide RequestBacked, Judge, FileAfter, Faithful, InGrantOrder, EventBacked, LookSeen, PrepBacked, Print;
    InitialInv(w, s);
    ExecKeeps(w, s, steps);
    forall p | 0 <= p < |t.procs| && t.procs[p].pc.Done? ensures EndingOk(t, p, t.procs[p].pc.ending) {
      assert PcOk(w, t, p);
    }
  }

  /** Mutual exclusion, and the holder is the last one granted. */
  lemma OneHolder(w: World, s: State, steps: seq<Step>, t: State, p: nat, q: nat)
    requires Initial(s) && Reaches(w, s, steps, t) && p < |t.procs| && q < |t.procs|
    requires Holds(t.procs[p].pc) && Holds(t.procs[q].pc)
    ensures p == q && t.holder == Some(p)
  {
    hide PcOk, HistoryOk;
    InitialInv(w, s);
    ExecKeeps(w, s, steps);
  }

  /** Real time is respected: a command that had ended before another one began comes first
      in the history. */
  lemma RealTimeOrder(w: World, s: State, a: seq<Step>, m: State, b: seq<Step>, t: State, i: nat, j: nat)
    requires Initial(s) && Reaches(w, s, a, m) && Reaches(w, m, b, t)
    requires i < |t.events| && j < |t.events|
    requires t.events[i].pid < |m.procs| && t.events[j].pid < |m.procs|
    requires m.procs[t.events[i].pid].pc.Done? && m.procs[t.events[j].pid].pc == Prepare(Fresh)
    ensures i < j
  {
    hide Exec, Judge, RequestBacked, FileAfter;
    InitialInv(w, s);
    ExecKeeps(w, s, a);
    ExecKeeps(w, m, b);
    assert PcOk(w, m, t.events[j].pid);
    assert forall k :: 0 <= k < |m.events| ==> t.events[k] == m.events[k];
    EndedStaysQuiet(w, m, b, t.events[i].pid);
  }

  /** A process that has ended takes no part any more. */
  lemma {:induction false} EndedStaysQuiet(w: World, s: State, steps: seq<Step>, p: nat)
    requires Inv(w, s) && Exec(w, s, steps).Some? && p < |s.procs| && Ended(s.procs[p].pc)
    ensures EndedFrom(s, Exec(w, s, steps).value, p)
  {
    hide Inv, Perform, Enabled;
    if steps != [] {
      var before := Exec(w, s, steps[..|steps| - 1]).value;
      EndedStaysQuiet(w, s, steps[..|steps| - 1], p);
      ExecKeeps(w, s, steps[..|steps| - 1]);
      EndedStep(w, before, steps[|steps| - 1], p);
    }
  }

  ghost predicate EndedFrom(s: State, t: State, p: nat)
    requires p < |s.procs|
  {
    && p < |t.procs| && t.procs[p] == s.procs[p]
    && s.events <= t.events
    && forall k :: |s.events| <= k < |t.events| ==> t.events[k].pid != p
  }

  lemma EndedStep(w: World, s: State, step: Step, p: nat)
    requires Inv(w, s) && Enabled(w, s, step) && p < |s.procs| && Ended(s.procs[p].pc)
    ensures EndedFrom(s, Perform(w, s, step), p)
  {
    hide Inv, Print, Fits;
    StepKeeps(w, s, step);
    if !step.Environment? {
      assert step.p != p by { hide Perform; }
    }
  }

  // ---------------------------------------------------------------- crash and failure atomicity

  /** Only a rename changes the manifest file, and it puts a complete canonical manifest
      there in one step: what the loaded manifest's command decided. Failures, crashes and
      everything before the rename leave the bytes as they are. */
  lemma OnlyRenameWrites(w: World, s: State, steps: seq<Step>, t: State, step: Step)
    requires Initial(s) && Reaches(w, s, steps, t) && Enabled(w, t, step)
    ensures var u := Perform(w, t, step);
            if step.Go? && t.procs[step.p].pc.Rename? then
              var work := t.procs[step.p].pc.work;
              && u.manifest == Some(Print(w, work.manifest))
              && Judge(w, t.manifest, work.request, work.look) == Put(work.manifest, work.outcome)
            else
              u.manifest == t.manifest
  {
    InitialInv(w, s);
    ExecKeeps(w, s, steps);
    if !step.Environment? { StepWrites(w, t, step); }
  }

  lemma StepWrites(w: World, s: State, step: Step)
    requires Enabled(w, s, step) && !step.Environment? && PcOk(w, s, step.p)
    ensures var u := Perform(w, s, step);
            if step.Go? && s.procs[step.p].pc.Rename? then
              var work := s.procs[step.p].pc.work;
              && u.manifest == Some(Print(w, work.manifest))
              && Judge(w, s.manifest, work.request, work.look) == Put(work.manifest, work.outcome)
            else
              u.manifest == s.manifest
  {
    hide Judge, RequestBacked, LookSeen, PrepBacked, Print, Advance;
  }

  /** Crash atomicity: in every reachable state the file is what there was at the outset, or
      the complete canonical text of a committed manifest. */
  lemma ManifestIsWhole(w: World, s: State, steps: seq<Step>, t: State)
    requires Initial(s) && Reaches(w, s, steps, t)
    ensures t.manifest == s.manifest
         || exists k :: Writes(w, s.manifest, t.events, k) && t.manifest == Some(Print(w, Written(w, s.manifest, t.events, k)))
  {
    hide Judge, Print, FileAfter, Exec;
    Linearizable(w, s, steps, t);
    FileIsWhole(w, s.manifest, t.events);
  }

  lemma {:induction false} FileIsWhole(w: World, start: Option<Bytes>, events: seq<Event>)
    ensures FileAfter(w, start, events) == start
         || exists k :: Writes(w, start, events, k) && FileAfter(w, start, events) == Some(Print(w, Written(w, start, events, k)))
  {
    hide Judge, Print;
    if events != [] {
      var n := |events| - 1;
      var rest := events[..n];
      FileIsWhole(w, start, rest);
      if Writes(w, start, events, n) {
      } else if FileAfter(w, start, rest) != start {
        var k :| Writes(w, start, rest, k) && FileAfter(w, start, rest) == Some(Print(w, Written(w, start, rest, k)));
        assert rest[..k] == events[..k];
        assert Writes(w, start, events, k);
      }
    }
  }

  /** An error means nothing was written: a command that ended in a refusal, stopped before
      the lock, or failed in a system call has no atomic command that changed the file. */
  lemma ErrorsLeaveTheFile(w: World, s: State, steps: seq<Step>, t: State, p: nat, k: nat)
    requires Initial(s) && Reaches(w, s, steps, t) && p < |t.procs| && t.procs[p].pc.Done?
    requires t.procs[p].pc.ending.Decided? ==> t.procs[p].pc.ending.outcome.Refused?
    requires k < |t.events| && t.events[k].pid == p
    ensures FileBefore(w, s.manifest, t.events, k + 1) == FileBefore(w, s.manifest, t.events, k)
  {
    hide Judge, FileAfter, Exec, EventBacked;
    Linearizable(w, s, steps, t);
    assert EndingOk(t, p, t.procs[p].pc.ending);
    var o := t.procs[p].pc.ending.outcome;
    var i :| 0 <= i < |t.events| && t.events[i].pid == p && t.events[i].outcome == o;
    assert i == k;
    FileBeforeNext(w, s.manifest, t.events, k);
    RefusalKeeps(w, FileBefore(w, s.manifest, t.events, k), t.events[k].request, t.events[k].look);
  }

  /** A refusal never writes, nor does finding the evidence already imported. */
  lemma RefusalKeeps(w: World, file: Option<Bytes>, r: Request, look: Look)
    ensures var o := Judge(w, file, r, look).outcome;
            o.Refused? || o.AlreadyImported? || o.EvaluationAlreadyImported? ==> Apply(w, file, r, look) == file
  {
    hide Load, Print;
  }

  // ---------------------------------------------------------------- readers without the lock

  /** An unlocked load in any state reads one version of the history that every later state
      still shows, and a later load never reads an earlier version. */
  lemma ReadersSeeHistory(w: World, s: State, a: seq<Step>, m: State, b: seq<Step>, t: State)
    requires Initial(s) && Reaches(w, s, a, m) && Reaches(w, m, b, t)
    ensures |m.events| <= |t.events|
    ensures m.manifest == FileBefore(w, s.manifest, t.events, |m.events|)
    ensures t.manifest == FileBefore(w, s.manifest, t.events, |t.events|)
  {
    hide Exec, Judge, RequestBacked, Faithful, FileAfter;
    InitialInv(w, s);
    ExecKeeps(w, s, a);
    ExecKeeps(w, m, b);
    assert t.events[..|m.events|] == m.events;
    assert t.events[..|t.events|] == t.events;
  }

  /** `show` gives the file's exact bytes of that moment, and what they load as. */
  lemma ShowIsASnapshot(w: World, s: State, p: nat)
    requires p < |s.procs| && s.procs[p] == Proc(Show, Prepare(Fresh))
    ensures GoEnabled(w, s, p)
    ensures Gone(w, s, p).procs[p].pc ==
            match Load(w, s.manifest)
            case Err(e) => Done(Stopped(Refused(LoadFailed(e))))
            case Ok(m) => Done(Stopped(Shown(s.manifest.value, m)))
  {
    hide Load;
  }

  /** Past its existence check no command finds the project gone: under the lock every
      request but `init`'s meets a manifest file. */
  lemma ProjectStays(w: World, s: State, steps: seq<Step>, t: State, k: nat)
    requires Initial(s) && Reaches(w, s, steps, t) && k < |t.events| && !t.events[k].request.InitRequest?
    ensures FileBefore(w, s.manifest, t.events, k).Some?
    ensures t.events[k].outcome != Refused(LoadFailed(NotAProject))
  {
    hide RequestBacked, Decide, LookSeen;
    InitialInv(w, s);
    ExecKeeps(w, s, steps);
    assert EventBacked(w, t, k);
    var file := FileBefore(w, s.manifest, t.events, k);
    assert Judge(w, file, t.events[k].request, t.events[k].look).outcome == t.events[k].outcome;
    LoadFinds(w, file);
    if Load(w, file).Ok? { DecideFinds(w, Load(w, file).value, t.events[k].request, t.events[k].look); }
  }

  lemma LoadFinds(w: World, file: Option<Bytes>)
    requires file.Some?
    ensures Load(w, file) != Err(NotAProject)
  {
  }

  lemma DecideFinds(w: World, m: Manifest, r: Request, look: Look)
    requires !r.InitRequest?
    ensures Decide(w, m, r, look).outcome != Refused(LoadFailed(NotAProject))
  {
    if r.JobRequest? && FindJob(m.derivations, r.sha256).None? && LinkInput(w, m, r, look).Ok? {
      LinkStemsErrors(m.assets, LinkInput(w, m, r, look).value.added, [], r.stems, r.now);
    }
  }

  lemma {:induction false} LinkStemsErrors(known: seq<Asset>, added: seq<Asset>, done: seq<ImportedAsset>,
                                           todo: seq<PreStem>, now: string)
    ensures var r := LinkStems(known, added, done, todo, now); r.Err? ==> r.error.StemPathConflict?
    decreases |todo|
  {
    if todo != [] {
      match FindStem(known, added, todo[0].rel)
      case Some(found) => LinkStemsErrors(known, added, done + [found], todo[1..], now);
      case None =>
        var asset := StemAsset(known, added, todo[0], now);
        LinkStemsErrors(known, added + [asset], done + [ImportedAsset(asset, Registered)], todo[1..], now);
    }
  }
}
