/** The sequential machine: a history of atomic commands, each judged on the manifest file
    as the ones before it left it. */
module Histories {
  import opened Wrappers
  import opened Manifests
  import opened Worlds
  import opened Commands

  /** One atomic command: whose it is, the lock grant it ran under, what it carried, what
      its input file showed, and how it came out. */
  datatype Event = Event(pid: nat, turn: nat, request: Request, look: Look, outcome: Outcome)

  /** The manifest file after the history, one command at a time. */
  ghost function FileAfter(w: World, start: Option<Bytes>, events: seq<Event>): Option<Bytes> {
    if events == [] then start
    else
      var last := events[|events| - 1];
      Apply(w, FileAfter(w, start, events[..|events| - 1]), last.request, last.look)
  }

  /** The file the k-th command found. */
  ghost function FileBefore(w: World, start: Option<Bytes>, events: seq<Event>, k: nat): Option<Bytes>
    requires k <= |events|
  {
    FileAfter(w, start, events[..k])
  }

  /** Every recorded outcome is the one the atomic command has at that point. */
  ghost predicate Faithful(w: World, start: Option<Bytes>, events: seq<Event>) {
    forall k :: 0 <= k < |events| ==>
      Judge(w, FileBefore(w, start, events, k), events[k].request, events[k].look).outcome == events[k].outcome
  }

  /** Each process at most once, in the order the lock was granted. */
  ghost predicate InGrantOrder(events: seq<Event>, grants: seq<nat>) {
    && (forall i :: 0 <= i < |events| ==> 0 < events[i].turn <= |grants| && grants[events[i].turn - 1] == events[i].pid)
    && (forall i, j :: 0 <= i < j < |events| ==> events[i].turn < events[j].turn && events[i].pid != events[j].pid)
  }

  /** Did the k-th atomic command write? */
  ghost predicate Writes(w: World, start: Option<Bytes>, events: seq<Event>, k: int) {
    0 <= k < |events| && Judge(w, FileBefore(w, start, events, k), events[k].request, events[k].look).Put?
  }

  /** What it wrote. */
  ghost function Written(w: World, start: Option<Bytes>, events: seq<Event>, k: int): Manifest
    requires Writes(w, start, events, k)
  {
    Judge(w, FileBefore(w, start, events, k), events[k].request, events[k].look).manifest
  }

  lemma FileAfterStep(w: World, start: Option<Bytes>, events: seq<Event>, e: Event)
    ensures FileAfter(w, start, events + [e]) == Apply(w, FileAfter(w, start, events), e.request, e.look)
  {
    assert (events + [e])[..|events|] == events;
  }

  lemma FileBeforeKept(w: World, start: Option<Bytes>, events: seq<Event>, e: Event, k: nat)
    requires k <= |events|
    ensures FileBefore(w, start, events + [e], k) == FileBefore(w, start, events, k)
  {
    assert (events + [e])[..k] == events[..k];
  }

  lemma FaithfulStep(w: World, start: Option<Bytes>, events: seq<Event>, e: Event)
    requires Faithful(w, start, events)
    requires Judge(w, FileAfter(w, start, events), e.request, e.look).outcome == e.outcome
    ensures Faithful(w, start, events + [e])
  {
    forall k | 0 <= k < |events + [e]|
      ensures Judge(w, FileBefore(w, start, events + [e], k), (events + [e])[k].request, (events + [e])[k].look).outcome
              == (events + [e])[k].outcome
    {
      FileBeforeKept(w, start, events, e, k);
      if k == |events| { assert events[..k] == events; }
    }
  }

  lemma FileBeforeNext(w: World, start: Option<Bytes>, events: seq<Event>, k: nat)
    requires k < |events|
    ensures FileBefore(w, start, events, k + 1) == Apply(w, FileBefore(w, start, events, k), events[k].request, events[k].look)
  {
    FileAfterStep(w, start, events[..k], events[k]);
    assert events[..k + 1] == events[..k] + [events[k]];
  }
}
