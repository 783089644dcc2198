/** Schedule independence: any number of concurrent `add`s of different new files all
    succeed, in whatever order their steps interleave, and the files registered are the
    same, though the ids minted depend on the order. */
module Schedules {
  import opened Wrappers
  import opened Slugs
  import opened Manifests
  import opened Worlds
  import opened Commands
  import opened Decisions
  import opened Rereading
  import opened Backing
  import opened Histories
  import opened Protocol
  import opened Linearizability
  import opened Runs
  import opened Versions
  import opened Authenticity
  import opened Guarantees

  /** What is registered of a file, apart from its id and its times. */
  datatype Identity = Identity(path: string, sha256: string, size: nat, role: string)

  function IdentityOf(a: Asset): Identity {
    Identity(a.path, a.sha256, a.size, a.role)
  }

  function Identities(assets: seq<Asset>): set<Identity> {
    set a | a in assets :: IdentityOf(a)
  }

  /** An `add` of a readable file below the root, its id left to be minted. */
  ghost predicate Addable(w: World, files: Files, cmd: Command) {
    && cmd.Add? && cmd.chosen == None && ValidSlug(cmd.role) && !Rooted(cmd.rel)
    && CanonicalInside(w, Arg(cmd.rel)).Ok? && LookAt(w, files, Arg(cmd.rel)).Plain?
  }

  function AddedIdentity(w: World, files: Files, cmd: Command): Identity
    requires Addable(w, files, cmd)
  {
    var bytes := LookAt(w, files, Arg(cmd.rel)).bytes;
    Identity(CanonicalInside(w, Arg(cmd.rel)).value.stored, w.hash(bytes), |bytes|, cmd.role)
  }

  ghost predicate AllAddable(w: World, s: State) {
    forall p :: 0 <= p < |s.procs| ==> Addable(w, s.files, s.procs[p].cmd)
  }

  ghost function NewIdentity(w: World, s: State, p: nat): Identity
    requires AllAddable(w, s) && p < |s.procs|
  {
    AddedIdentity(w, s.files, s.procs[p].cmd)
  }

  /** Nothing but `add`s of files at paths that are all different and not yet registered. */
  ghost predicate NewAdds(w: World, s: State, m: Manifest) {
    && AllAddable(w, s) && Load(w, s.manifest) == Ok(m)
    && (forall p, a :: 0 <= p < |s.procs| && a in m.assets ==> a.path != NewIdentity(w, s, p).path)
    && (forall p, q :: 0 <= p < q < |s.procs| ==> NewIdentity(w, s, p).path != NewIdentity(w, s, q).path)
  }

  /** No crash, no failed call, and no change to what the added paths show. */
  ghost predicate Calm(w: World, s: State, step: Step) {
    && !step.Crash? && !step.Fail?
    && (step.Environment? ==> SameLooks(w, s, step.files))
  }

  ghost predicate SameLooks(w: World, s: State, files: Files) {
    forall p :: 0 <= p < |s.procs| && s.procs[p].cmd.Add? ==>
      LookAt(w, files, Arg(s.procs[p].cmd.rel)) == LookAt(w, s.files, Arg(s.procs[p].cmd.rel))
  }

  ghost predicate CalmRun(w: World, s: State, steps: seq<Step>) {
    forall i :: 0 <= i < |steps| ==> Calm(w, s, steps[i])
  }

  // ---------------------------------------------------------------- every process stays healthy

  predicate Healthy(pc: Pc) {
    match pc
    case Prepare(prep) => prep == Fresh || prep.AddHash?
    case Remove(_) => false
    case Release(ending) => ending.Decided?
    case Done(ending) => ending.Decided?
    case Crashed => false
    case _ => true
  }

  ghost predicate AllHealthy(w: World, s: State, t: State) {
    && |t.procs| == |s.procs| && SameLooks(w, s, t.files) && t.manifest.Some?
    && forall p :: 0 <= p < |t.procs| ==> t.procs[p].cmd == s.procs[p].cmd && Healthy(t.procs[p].pc)
  }

  lemma PreparedHealthy(w: World, s: State, t: State, p: nat)
    requires AllAddable(w, s) && AllHealthy(w, s, t) && p < |t.procs| && GoEnabled(w, t, p) && t.procs[p].pc.Prepare?
    ensures p < |Prepared(w, t, p).procs| && Healthy(Prepared(w, t, p).procs[p].pc) && Prepared(w, t, p).files == t.files
  {
    hide LookAt, CanonicalInside;
    assert Addable(w, s.files, s.procs[p].cmd);
  }

  lemma GoneHealthy(w: World, s: State, t: State, p: nat)
    requires AllAddable(w, s) && AllHealthy(w, s, t) && p < |t.procs| && GoEnabled(w, t, p)
    ensures p < |Gone(w, t, p).procs| && Healthy(Gone(w, t, p).procs[p].pc) && Gone(w, t, p).files == t.files
  {
    hide LookAt, AllAddable, SameLooks, Prepared, Judge, InputLook, ChoiceTarget, Print;
    assert Healthy(t.procs[p].pc);
    if t.procs[p].pc.Prepare? { PreparedHealthy(w, s, t, p); }
  }

  lemma StepHealthy(w: World, s: State, t: State, step: Step)
    requires AllAddable(w, s) && AllHealthy(w, s, t) && Inv(w, t) && Enabled(w, t, step) && Calm(w, s, step)
    ensures AllHealthy(w, s, Perform(w, t, step))
  {
    hide LookAt, AllAddable, SameLooks, Gone, GoEnabled, Print, Inv;
    StepKeeps(w, t, step);
    if step.Go? { GoneHealthy(w, s, t, step.p); }
  }

  lemma {:induction false} RunHealthy(w: World, s: State, steps: seq<Step>)
    requires AllAddable(w, s) && Initial(s) && s.manifest.Some? && CalmRun(w, s, steps) && Exec(w, s, steps).Some?
    ensures AllHealthy(w, s, Exec(w, s, steps).value)
  {
    hide LookAt, AllAddable, Perform, Enabled, Inv, Calm, AllHealthy;
    if steps != [] {
      InitialInv(w, s);
      ExecKeeps(w, s, steps[..|steps| - 1]);
      RunHealthy(w, s, steps[..|steps| - 1]);
      StepHealthy(w, s, Exec(w, s, steps[..|steps| - 1]).value, steps[|steps| - 1]);
    } else {
      StartHealthy(w, s);
    }
  }

  lemma StartHealthy(w: World, s: State)
    requires Initial(s) && s.manifest.Some?
    ensures AllHealthy(w, s, s)
  {
    hide LookAt;
  }

  // ---------------------------------------------------------------- what the requests carry

  predicate Carries(r: Request, x: Identity) {
    r.AddRequest? && r.chosen == None && r.path == x.path && r.sha256 == x.sha256 && r.size == x.size && r.role == x.role
  }

  lemma RequestCarries(w: World, s: State, steps: seq<Step>, t: State, k: nat)
    requires AllAddable(w, s) && Initial(s) && s.manifest.Some? && CalmRun(w, s, steps) && Reaches(w, s, steps, t)
    requires k < |t.events|
    ensures t.events[k].pid < |s.procs| && Carries(t.events[k].request, NewIdentity(w, s, t.events[k].pid))
  {
    hide Exec, LookAt, Judge, FileAfter, LookSeen, SawEvidence, StemsBacked, PassOf, CanonicalInside, Faithful;
    InitialInv(w, s);
    ExecKeeps(w, s, steps);
    RunHealthy(w, s, steps);
    assert EventBacked(w, t, k);
    var e := t.events[k];
    var cmd := s.procs[e.pid].cmd;
    assert Addable(w, s.files, cmd);
    assert RequestBacked(w, t.sights, e.pid, cmd, e.request);
    var bytes: Content :| Saw(t.sights, e.pid, Arg(cmd.rel), bytes) && w.hash(bytes) == e.request.sha256 && |bytes| == e.request.size;
    SightsAreTrue(w, s, steps, Sighting(e.pid, Arg(cmd.rel), Plain(bytes)));
    var n :| ShownAt(w, s, steps, n, e.pid, Arg(cmd.rel), Plain(bytes));
    assert CalmRun(w, s, steps[..n]);
    RunHealthy(w, s, steps[..n]);
  }

  // ---------------------------------------------------------------- each of them is added

  /** The identities registered by the first `k` commands. */
  ghost function NewBefore(w: World, s: State, events: seq<Event>, k: nat): set<Identity>
    requires AllAddable(w, s) && k <= |events| && forall i :: 0 <= i < |events| ==> events[i].pid < |s.procs|
  {
    set i | 0 <= i < k :: NewIdentity(w, s, events[i].pid)
  }

  ghost predicate AddHistory(w: World, s: State, events: seq<Event>) {
    && AllAddable(w, s)
    && (forall i :: 0 <= i < |events| ==> events[i].pid < |s.procs| && Carries(events[i].request, NewIdentity(w, s, events[i].pid)))
    && (forall i, j :: 0 <= i < j < |events| ==> events[i].pid != events[j].pid)
  }

  lemma AddSucceeds(w: World, file: Option<Bytes>, m: Manifest, r: Request, look: Look, x: Identity)
    requires Load(w, file) == Ok(m) && Carries(r, x) && forall a :: a in m.assets ==> a.path != x.path
    ensures var v := Judge(w, file, r, look);
            && v.Put? && v.outcome.Added? && IdentityOf(v.outcome.asset) == x
            && v.manifest == m.(assets := m.assets + [v.outcome.asset])
  {
    hide Load;
  }

  ghost predicate AddsTo(w: World, s: State, events: seq<Event>, k: nat, m: Manifest, n: Manifest)
    requires AddHistory(w, s, events) && k <= |events|
  {
    && n == m.(assets := n.assets) && |n.assets| == |m.assets| + k
    && Identities(n.assets) == Identities(m.assets) + NewBefore(w, s, events, k)
  }

  lemma NextIsNew(w: World, s: State, m: Manifest, events: seq<Event>, k: nat, n: Manifest)
    requires NewAdds(w, s, m) && AddHistory(w, s, events) && k < |events| && AddsTo(w, s, events, k, m, n)
    ensures forall a :: a in n.assets ==> a.path != NewIdentity(w, s, events[k].pid).path
  {
    hide Load, AllAddable, NewIdentity;
    forall a | a in n.assets ensures a.path != NewIdentity(w, s, events[k].pid).path {
      assert IdentityOf(a) in Identities(n.assets);
      if IdentityOf(a) in Identities(m.assets) {
        var b :| b in m.assets && IdentityOf(b) == IdentityOf(a);
        assert b.path != NewIdentity(w, s, events[k].pid).path;
      } else {
        var i :| 0 <= i < k && NewIdentity(w, s, events[i].pid) == IdentityOf(a);
        var p, q := events[i].pid, events[k].pid;
        assert p != q;
        if p < q {
          assert NewIdentity(w, s, p).path != NewIdentity(w, s, q).path;
        } else {
          assert NewIdentity(w, s, q).path != NewIdentity(w, s, p).path;
        }
      }
    }
  }

  lemma AddsOneMore(w: World, s: State, events: seq<Event>, k: nat, m: Manifest, n: Manifest, a: Asset)
    requires AddHistory(w, s, events) && k < |events| && AddsTo(w, s, events, k, m, n)
    requires IdentityOf(a) == NewIdentity(w, s, events[k].pid)
    ensures AddsTo(w, s, events, k + 1, m, n.(assets := n.assets + [a]))
  {
    hide AllAddable, NewIdentity;
    assert Identities(n.assets + [a]) == Identities(n.assets) + {IdentityOf(a)};
    assert NewBefore(w, s, events, k + 1) == NewBefore(w, s, events, k) + {NewIdentity(w, s, events[k].pid)};
  }

  lemma AddsAreShallow(w: World, start: Option<Bytes>, s: State, events: seq<Event>, k: nat)
    requires AddHistory(w, s, events) && k <= |events|
    ensures InOrder(events) && ShallowUpTo(w, start, events, k)
  {
    hide Writes, NewIdentity;
    forall i | 0 <= i < |events| ensures RequestOk(events[i].request) && Shallow(events[i].request) {
      assert Carries(events[i].request, NewIdentity(w, s, events[i].pid));
      RoleIsSlug(w, s, events[i].pid);
    }
  }

  lemma RoleIsSlug(w: World, s: State, p: nat)
    requires AllAddable(w, s) && p < |s.procs|
    ensures ValidSlug(NewIdentity(w, s, p).role)
  {
    hide LookAt, CanonicalInside;
    assert Addable(w, s.files, s.procs[p].cmd);
  }

  /** The k-th command finds all the earlier ones' files registered, and registers its own. */
  lemma {:induction false} EachIsAdded(w: World, s: State, m: Manifest, events: seq<Event>, k: nat)
    requires TextLayer(w) && NewAdds(w, s, m) && AddHistory(w, s, events) && k <= |events|
    ensures VersionBefore(w, s.manifest, events, k).Some?
    ensures AddsTo(w, s, events, k, m, VersionBefore(w, s.manifest, events, k).value)
    ensures forall i :: 0 <= i < k ==>
              var o := Judge(w, FileBefore(w, s.manifest, events, i), events[i].request, events[i].look).outcome;
              o.Added? && IdentityOf(o.asset) == NewIdentity(w, s, events[i].pid)
  {
    hide Judge, Load, FileAfter, AllAddable, NewIdentity, TextLayer, Evolves, Good, VersionOk, RequestOk, Carries,
         NewBefore;
    if k == 0 {
      NoneYet(w, s, m, events);
    } else {
      hide Version, AddsTo;
      EachIsAdded(w, s, m, events, k - 1);
      var n := VersionBefore(w, s.manifest, events, k - 1).value;
      var e, file := events[k - 1], FileBefore(w, s.manifest, events, k - 1);
      AddsAreShallow(w, s.manifest, s, events, k - 1);
      StaysReadable(w, s.manifest, events, k - 1);
      NextIsNew(w, s, m, events, k - 1, n);
      AddSucceeds(w, file, n, e.request, e.look, NewIdentity(w, s, e.pid));
      VersionNext(w, s.manifest, events, k - 1);
      AddsOneMore(w, s, events, k - 1, m, n, Judge(w, file, e.request, e.look).outcome.asset);
    }
  }

  lemma NoneYet(w: World, s: State, m: Manifest, events: seq<Event>)
    requires NewAdds(w, s, m) && AddHistory(w, s, events)
    ensures VersionBefore(w, s.manifest, events, 0) == Some(m) && AddsTo(w, s, events, 0, m, m)
  {
    hide Load, AllAddable, NewIdentity;
    assert events[..0] == [];
  }

  // ---------------------------------------------------------------- and all of them are

  lemma {:induction false} PidsCount(events: seq<Event>, k: nat)
    requires k <= |events| && forall i, j :: 0 <= i < j < |events| ==> events[i].pid != events[j].pid
    ensures |set i | 0 <= i < k :: events[i].pid| == k
  {
    if k > 0 {
      PidsCount(events, k - 1);
      var before := set i | 0 <= i < k - 1 :: events[i].pid;
      assert (set i | 0 <= i < k :: events[i].pid) == before + {events[k - 1].pid};
    }
  }

  ghost function FirstNumbers(n: nat): (r: set<nat>)
    ensures |r| == n && forall p: nat :: p in r <==> p < n
  {
    if n == 0 then {} else FirstNumbers(n - 1) + {n - 1}
  }

  ghost predicate HasPid(events: seq<Event>, p: nat) {
    exists k :: 0 <= k < |events| && events[k].pid == p
  }

  ghost predicate AddedAll(w: World, s: State, t: State)
    requires AllAddable(w, s)
  {
    && |t.procs| == |s.procs|
    && forall p :: 0 <= p < |t.procs| ==> AddedOne(w, s, t, p)
  }

  ghost predicate AddedOne(w: World, s: State, t: State, p: nat)
    requires AllAddable(w, s) && p < |s.procs| && p < |t.procs|
  {
    var pc := t.procs[p].pc;
    && pc.Done? && pc.ending.Decided? && pc.ending.outcome.Added?
    && IdentityOf(pc.ending.outcome.asset) == NewIdentity(w, s, p)
  }

  /** Schedule independence. Under every schedule without crashes and failed calls, once all
      `add`s have ended every one of them has registered its file, and what is registered
      then, whatever the order, is what was there before and these files, each once. */
  lemma ScheduleIndependence(w: World, s: State, m: Manifest, steps: seq<Step>, t: State)
    requires TextLayer(w) && Initial(s) && NewAdds(w, s, m) && CalmRun(w, s, steps) && Reaches(w, s, steps, t)
    requires forall p :: 0 <= p < |t.procs| ==> t.procs[p].pc.Done?
    ensures AddedAll(w, s, t)
    ensures Load(w, t.manifest).Ok?
    ensures var n := Load(w, t.manifest).value;
            && n == m.(assets := n.assets)
            && |n.assets| == |m.assets| + |s.procs|
            && Identities(n.assets) == Identities(m.assets) + set p: nat | 0 <= p < |s.procs| :: NewIdentity(w, s, p)
  {
    hide Exec, Judge, Load, FileAfter, AllAddable, NewIdentity, TextLayer, Version, CalmRun, RequestOk, ShallowUpTo,
         Carries, Addable, LookAt;
    LoadNothing(w);
    AddHistoryOf(w, s, steps, t);
    EachIsAdded(w, s, m, t.events, |t.events|);
    AddsAreShallow(w, s.manifest, s, t.events, |t.events|);
    assert t.events[..|t.events|] == t.events;
    ReadableUnlessTooDeep(w, s, steps, t);
    EveryoneDecided(w, s, m, steps, t);
    EventsAreEveryone(w, s, t);
  }

  lemma AddHistoryOf(w: World, s: State, steps: seq<Step>, t: State)
    requires Initial(s) && AllAddable(w, s) && s.manifest.Some? && CalmRun(w, s, steps) && Reaches(w, s, steps, t)
    ensures AddHistory(w, s, t.events)
  {
    hide Exec, Judge, FileAfter, AllAddable, NewIdentity, CalmRun, Carries, EventBacked, Faithful;
    Linearizable(w, s, steps, t);
    forall i | 0 <= i < |t.events|
      ensures t.events[i].pid < |s.procs| && Carries(t.events[i].request, NewIdentity(w, s, t.events[i].pid))
    {
      RequestCarries(w, s, steps, t, i);
    }
  }

  lemma EveryoneDecided(w: World, s: State, m: Manifest, steps: seq<Step>, t: State)
    requires TextLayer(w) && Initial(s) && NewAdds(w, s, m) && s.manifest.Some? && CalmRun(w, s, steps) && Reaches(w, s, steps, t)
    requires forall p :: 0 <= p < |t.procs| ==> t.procs[p].pc.Done?
    ensures AddedAll(w, s, t)
    ensures forall p :: 0 <= p < |t.procs| ==> HasPid(t.events, p)
  {
    hide Exec, Judge, Load, FileAfter, AllAddable, NewIdentity, TextLayer, Version, CalmRun, EventBacked, AddsTo,
         Addable, LookAt;
    Linearizable(w, s, steps, t);
    RunHealthy(w, s, steps);
    AddHistoryOf(w, s, steps, t);
    EachIsAdded(w, s, m, t.events, |t.events|);
    forall p | 0 <= p < |t.procs|
      ensures AddedOne(w, s, t, p) && HasPid(t.events, p)
    {
      assert Healthy(t.procs[p].pc) && EndingOk(t, p, t.procs[p].pc.ending);
      var o := t.procs[p].pc.ending.outcome;
      var k :| 0 <= k < |t.events| && t.events[k].pid == p && t.events[k].outcome == o;
    }
  }

  lemma EveryoneCounts(events: seq<Event>, n: nat)
    requires forall i, j :: 0 <= i < j < |events| ==> events[i].pid != events[j].pid
    requires forall i :: 0 <= i < |events| ==> events[i].pid < n
    requires forall p :: 0 <= p < n ==> HasPid(events, p)
    ensures |events| == n
  {
    PidsCount(events, |events|);
    var pids := set i | 0 <= i < |events| :: events[i].pid;
    forall p: nat | p < n ensures p in pids {
      assert HasPid(events, p);
    }
    assert pids == FirstNumbers(n);
  }

  lemma EventsAreEveryone(w: World, s: State, t: State)
    requires AllAddable(w, s) && AddHistory(w, s, t.events) && |t.procs| == |s.procs|
    requires forall p :: 0 <= p < |t.procs| ==> HasPid(t.events, p)
    ensures |t.events| == |s.procs|
    ensures NewBefore(w, s, t.events, |t.events|) == set p: nat | 0 <= p < |s.procs| :: NewIdentity(w, s, p)
  {
    hide AllAddable, NewIdentity, Carries, HasPid;
    EveryoneCounts(t.events, |s.procs|);
    forall p: nat | p < |s.procs| ensures NewIdentity(w, s, p) in NewBefore(w, s, t.events, |t.events|) {
      PidIsNew(w, s, t.events, p);
    }
    assert forall x :: x in NewBefore(w, s, t.events, |t.events|) ==>
             x in set p: nat | 0 <= p < |s.procs| :: NewIdentity(w, s, p);
  }

  lemma PidIsNew(w: World, s: State, events: seq<Event>, p: nat)
    requires AllAddable(w, s) && AddHistory(w, s, events) && p < |s.procs| && HasPid(events, p)
    ensures NewIdentity(w, s, p) in NewBefore(w, s, events, |events|)
  {
    hide AllAddable, NewIdentity, Carries;
    var k :| 0 <= k < |events| && events[k].pid == p;
    assert NewIdentity(w, s, events[k].pid) in NewBefore(w, s, events, |events|);
  }
}
