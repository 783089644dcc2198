/** The versions of a project: what each atomic command leaves as the manifest, what every
    version keeps, and what becomes of it over a whole history. */
module Versions {
  import opened Wrappers
  import opened Manifests
  import opened Codec
  import opened Worlds
  import opened Commands
  import opened Decisions
  import opened Rereading
  import opened Histories

  /** The latest manifest: what the last writing command wrote, or what there was at the
      outset if it loads. */
  ghost function Version(w: World, start: Option<Bytes>, events: seq<Event>): Option<Manifest> {
    if events == [] then
      match Load(w, start)
      case Ok(m) => Some(m)
      case Err(_) => None
    else
      var rest, last := events[..|events| - 1], events[|events| - 1];
      match Judge(w, FileAfter(w, start, rest), last.request, last.look)
      case Put(m, _) => Some(m)
      case Keep(_) => Version(w, start, rest)
  }

  /** The version the k-th command found. */
  ghost function VersionBefore(w: World, start: Option<Bytes>, events: seq<Event>, k: nat): Option<Manifest>
    requires k <= |events|
  {
    Version(w, start, events[..k])
  }

  /** Every command's request is in order, as the steps before the lock leave it. */
  ghost predicate InOrder(events: seq<Event>) {
    forall k :: 0 <= k < |events| ==> RequestOk(events[k].request)
  }

  /** The file holds this version: it loads as it, or is its text, too deep to parse. */
  ghost predicate FileHolds(w: World, file: Option<Bytes>, m: Manifest) {
    Load(w, file) == Ok(m) || (file == Some(Print(w, m)) && Load(w, file) == Err(Parse))
  }

  ghost predicate VersionOk(w: World, start: Option<Bytes>, file: Option<Bytes>, v: Option<Manifest>) {
    match v
    case None => file == start && Load(w, start).Err?
    case Some(m) => FileHolds(w, file, m)
  }

  /** How one command takes a version to the next. */
  ghost predicate VersionStep(v: Option<Manifest>, next: Option<Manifest>) {
    v.Some? ==> next.Some? && Evolves(v.value, next.value) && (Good(v.value) ==> Good(next.value))
  }

  lemma EvolvesReflexive(m: Manifest)
    ensures Evolves(m, m)
  {
  }

  lemma JudgeSteps(w: World, start: Option<Bytes>, file: Option<Bytes>, v: Option<Manifest>, r: Request, look: Look)
    requires TextLayer(w) && RequestOk(r) && VersionOk(w, start, file, v) && Judge(w, file, r, look).Put?
    ensures var n := Judge(w, file, r, look).manifest;
            && FileHolds(w, Some(Print(w, n)), n) && VersionStep(v, Some(n))
            && (v.None? ==> r.InitRequest? && Good(n))
            && (v.Some? ==> !r.InitRequest? && Load(w, file) == Ok(v.value))
  {
    hide Print, Load, DecideAdd, DecideJob, DecideCompare, DecideStamp, Good, Evolves;
    var n := Judge(w, file, r, look).manifest;
    WriteReadsBack(w, file, r, look);
    if r.InitRequest? {
      NewManifestLoads(r.id, r.name, r.now);
      LoadNothing(w);
    } else {
      var m := Load(w, file).value;
      DecideEvolves(w, m, r, look);
      if Good(m) { DecideKeepsGood(w, m, r, look); }
    }
  }

  lemma LoadNothing(w: World)
    ensures Load(w, None) == Err(NotAProject)
  {
  }

  lemma {:induction false} VersionIsHeld(w: World, start: Option<Bytes>, events: seq<Event>)
    requires TextLayer(w) && InOrder(events)
    ensures VersionOk(w, start, FileAfter(w, start, events), Version(w, start, events))
  {
    hide Judge, Load, Print, RequestOk, Good, Evolves;
    if events != [] {
      var rest, last := events[..|events| - 1], events[|events| - 1];
      VersionIsHeld(w, start, rest);
      if Judge(w, FileAfter(w, start, rest), last.request, last.look).Put? {
        JudgeSteps(w, start, FileAfter(w, start, rest), Version(w, start, rest), last.request, last.look);
      }
    }
  }

  /** One command of a history, from the version it finds to the version it leaves. */
  lemma VersionNext(w: World, start: Option<Bytes>, events: seq<Event>, k: nat)
    requires TextLayer(w) && InOrder(events) && k < |events|
    ensures var file, v, next := FileBefore(w, start, events, k), VersionBefore(w, start, events, k), VersionBefore(w, start, events, k + 1);
            && VersionOk(w, start, file, v) && VersionStep(v, next)
            && (if Writes(w, start, events, k) then next == Some(Written(w, start, events, k)) else next == v)
            && (v.None? && next.Some? ==> events[k].request.InitRequest? && Good(next.value))
            && (v.Some? && Writes(w, start, events, k) ==> !events[k].request.InitRequest? && Load(w, file) == Ok(v.value))
  {
    hide Judge, Load, Print, RequestOk, Good, Evolves, VersionOk;
    VersionIsHeld(w, start, events[..k]);
    assert events[..k + 1][..k] == events[..k];
    if Writes(w, start, events, k) {
      JudgeSteps(w, start, FileBefore(w, start, events, k), VersionBefore(w, start, events, k), events[k].request, events[k].look);
    } else if VersionBefore(w, start, events, k).Some? {
      EvolvesReflexive(VersionBefore(w, start, events, k).value);
    }
  }

  /** No lost update: between any two versions of a history, the later one holds all of the
      earlier one. */
  lemma {:induction false} NoLostUpdate(w: World, start: Option<Bytes>, events: seq<Event>, i: nat, j: nat)
    requires TextLayer(w) && InOrder(events) && i <= j <= |events| && VersionBefore(w, start, events, i).Some?
    ensures VersionBefore(w, start, events, j).Some?
    ensures Evolves(VersionBefore(w, start, events, i).value, VersionBefore(w, start, events, j).value)
    decreases j
  {
    hide Version, Evolves, RequestOk;
    if i == j {
      EvolvesReflexive(VersionBefore(w, start, events, i).value);
    } else {
      NoLostUpdate(w, start, events, i, j - 1);
      VersionNext(w, start, events, j - 1);
      EvolvesTransitive(VersionBefore(w, start, events, i).value, VersionBefore(w, start, events, j - 1).value,
                        VersionBefore(w, start, events, j).value);
    }
  }

  /** Every version is good: from an empty directory always, from a manifest that loads if
      that one is good. */
  lemma {:induction false} VersionsAreGood(w: World, start: Option<Bytes>, events: seq<Event>, k: nat)
    requires TextLayer(w) && InOrder(events) && k <= |events|
    requires Load(w, start).Ok? ==> Good(Load(w, start).value)
    ensures VersionBefore(w, start, events, k).Some? ==> Good(VersionBefore(w, start, events, k).value)
  {
    hide Good, RequestOk, Load;
    if k > 0 {
      hide Version;
      VersionsAreGood(w, start, events, k - 1);
      VersionNext(w, start, events, k - 1);
    }
  }

  // ---------------------------------------------------------------- readable or not

  /** The k-th command, if it wrote, carried a shallow value. */
  ghost predicate ShallowUpTo(w: World, start: Option<Bytes>, events: seq<Event>, n: nat) {
    forall k :: 0 <= k < n && Writes(w, start, events, k) ==> Shallow(events[k].request)
  }

  lemma NoVersionNoWrite(w: World, start: Option<Bytes>, events: seq<Event>, k: nat, n: nat)
    requires TextLayer(w) && InOrder(events) && k < n <= |events| && VersionBefore(w, start, events, n).None?
    ensures !Writes(w, start, events, k)
  {
    hide Version, Judge, Evolves;
    VersionNext(w, start, events, k);
    if Writes(w, start, events, k) { NoLostUpdate(w, start, events, k + 1, n); }
  }

  /** The manifest loads again, as the latest version, if and only if no command has written
      a value nested too deep. */
  lemma {:induction false} StaysReadable(w: World, start: Option<Bytes>, events: seq<Event>, n: nat)
    requires TextLayer(w) && InOrder(events) && n <= |events| && VersionBefore(w, start, events, n).Some?
    ensures Load(w, FileBefore(w, start, events, n)) ==
              if ShallowUpTo(w, start, events, n) then Ok(VersionBefore(w, start, events, n).value) else Err(Parse)
  {
    hide Judge, Load, Print, RequestOk, Good, Evolves, VersionOk, Shallow, FileAfter;
    if n > 0 {
      hide Version;
      VersionNext(w, start, events, n - 1);
      FileBeforeNext(w, start, events, n - 1);
      ReadableStep(w, start, events, n - 1);
      if VersionBefore(w, start, events, n - 1).Some? {
        StaysReadable(w, start, events, n - 1);
      } else {
        forall k | 0 <= k < n - 1 ensures !Writes(w, start, events, k) {
          NoVersionNoWrite(w, start, events, k, n - 1);
        }
      }
    } else {
      hide Version;
      StartReads(w, start, events);
    }
  }

  lemma StartReads(w: World, start: Option<Bytes>, events: seq<Event>)
    requires VersionBefore(w, start, events, 0).Some?
    ensures Load(w, FileBefore(w, start, events, 0)) == Ok(VersionBefore(w, start, events, 0).value)
  {
    hide Load;
    assert events[..0] == [];
  }

  lemma ReadableStep(w: World, start: Option<Bytes>, events: seq<Event>, k: nat)
    requires TextLayer(w) && InOrder(events) && k < |events|
    ensures Writes(w, start, events, k) ==>
              Load(w, FileBefore(w, start, events, k + 1)) ==
                if Shallow(events[k].request) then Ok(Written(w, start, events, k)) else Err(Parse)
    ensures !Writes(w, start, events, k) ==> FileBefore(w, start, events, k + 1) == FileBefore(w, start, events, k)
  {
    hide Judge, Load, Print, RequestOk, Shallow, FileAfter;
    FileBeforeNext(w, start, events, k);
    if Writes(w, start, events, k) {
      WriteReadsBack(w, FileBefore(w, start, events, k), events[k].request, events[k].look);
    }
  }
}
