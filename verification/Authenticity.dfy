/** Authentic identity. Files may change at any time; still every asset registered carries
    the hash and length of bytes its path held at that command's own hashing step, and every
    derivation and evaluation says what the very bytes say that its hashed reference names. */
module Authenticity {
  import opened Wrappers
  import opened Json
  import opened Manifests
  import opened Paths
  import opened Worlds
  import opened Commands
  import opened Records
  import opened Backing
  import opened Histories
  import opened Protocol
  import opened Linearizability
  import opened Runs

  // ---------------------------------------------------------------- sightings are true

  /** At step `n` of the run process `p` looked at this path, and this is what was there. */
  ghost predicate ShownAt(w: World, s: State, steps: seq<Step>, n: int, p: nat, c: Candidate, look: Look) {
    && 0 <= n < |steps| && steps[n] == Go(p)
    && Exec(w, s, steps[..n]).Some?
    && LookAt(w, Exec(w, s, steps[..n]).value.files, c) == look
  }

  lemma StepSights(w: World, s: State, step: Step, x: Sighting)
    requires Enabled(w, s, step) && x in Perform(w, s, step).sights && x !in s.sights
    ensures step == Go(x.pid) && LookAt(w, s.files, x.at) == x.look
  {
    hide Judge, Advance, Print, Load, LookAt, InputTarget, Fits;
    assert step.Go?;
    var p := step.p;
    match s.procs[p].pc
    case Prepare(prep) => PrepareSights(w, s, p, x);
    case Choose(r, file) => ChooseSights(w, s, p, r, file, x);
    case _ =>
  }

  lemma PrepareSights(w: World, s: State, p: nat, x: Sighting)
    requires p < |s.procs| && s.procs[p].pc.Prepare? && Fits(s.procs[p].cmd, s.procs[p].pc.prep)
    requires x in Prepared(w, s, p).sights && x !in s.sights
    ensures x.pid == p && LookAt(w, s.files, x.at) == x.look
  {
    hide Advance, LookAt, Fits, Target;
  }

  lemma ChooseSights(w: World, s: State, p: nat, r: Request, file: Option<Bytes>, x: Sighting)
    requires p < |s.procs| && x in Chosen(w, s, p, r, file).sights && x !in s.sights
    ensures x.pid == p && LookAt(w, s.files, x.at) == x.look
  {
    hide Judge, Load, LookAt, InputTarget;
  }

  /** Every read in the history shows what the path held at that very step of that process. */
  lemma {:induction false} SightsAreTrue(w: World, s: State, steps: seq<Step>, x: Sighting)
    requires s.sights == [] && Exec(w, s, steps).Some? && x in Exec(w, s, steps).value.sights
    ensures exists n :: ShownAt(w, s, steps, n, x.pid, x.at, x.look)
  {
    hide Perform, Enabled, LookAt;
    var n := |steps| - 1;
    var before := Exec(w, s, steps[..n]).value;
    if x in before.sights {
      SightsAreTrue(w, s, steps[..n], x);
      var k :| ShownAt(w, s, steps[..n], k, x.pid, x.at, x.look);
      assert steps[..n][..k] == steps[..k];
      assert ShownAt(w, s, steps, k, x.pid, x.at, x.look);
    } else {
      StepSights(w, before, steps[n], x);
      assert ShownAt(w, s, steps, n, x.pid, x.at, x.look);
    }
  }

  // ---------------------------------------------------------------- what a decision appends

  /** The bytes at this path, as the process saw them, have this hash and this length. */
  ghost predicate SawAsset(w: World, sights: seq<Sighting>, p: nat, a: Asset) {
    exists c: Candidate ::
      && CanonicalInside(w, c).Ok? && CanonicalInside(w, c).value.stored == a.path
      && (SawDigest(w, sights, p, c, a.sha256, a.size)
          || SawDigest(w, sights, p, At(CanonicalInside(w, c).value.path), a.sha256, a.size))
  }

  ghost predicate FromStem(a: Asset, pre: PreStem) {
    a.path == pre.rel && a.sha256 == pre.hash && a.size == pre.size
  }

  lemma {:induction false} AppendedComeFromStems(known: seq<Asset>, added: seq<Asset>, done: seq<ImportedAsset>,
                                                 todo: seq<PreStem>,
                                                 now: string, a: Asset)
    requires LinkStems(known, added, done, todo, now).Ok? && a in LinkStems(known, added, done, todo, now).value.added
    ensures a in added || exists k :: 0 <= k < |todo| && FromStem(a, todo[k])
    decreases |todo|
  {
    if todo != [] {
      match FindStem(known, added, todo[0].rel)
      case Some(found) => AppendedComeFromStems(known, added, done + [found], todo[1..], now, a);
      case None =>
        var asset := StemAsset(known, added, todo[0], now);
        AppendedComeFromStems(known, added + [asset], done + [ImportedAsset(asset, Registered)], todo[1..], now, a);
        assert FromStem(asset, todo[0]);
      if a !in added && exists k :: 0 <= k < |todo[1..]| && FromStem(a, todo[1..][k]) {
        var k :| 0 <= k < |todo[1..]| && FromStem(a, todo[1..][k]);
        assert FromStem(a, todo[k + 1]);
      }
    }
  }

  lemma StemSeen(w: World, sights: seq<Sighting>, p: nat, folder: CPath, names: seq<string>, stems: seq<PreStem>,
                 k: nat, a: Asset)
    requires StemsBacked(w, sights, p, folder, names, stems) && k < |stems| && FromStem(a, stems[k])
    ensures SawAsset(w, sights, p, a)
  {
    var c := Leaf(folder, names[k] + ".wav");
    assert StemBacked(w, sights, p, folder, names[k], stems[k]);
    assert CanonicalInside(w, c).Ok?;
  }

  lemma InputSeen(w: World, sights: seq<Sighting>, p: nat, m: Manifest, r: Request, look: Look, a: Asset)
    requires r.JobRequest? && FindJob(m.derivations, r.sha256).None? && LinkInput(w, m, r, look).Ok?
    requires InputTarget(w, m, r).Some? ==> Sighting(p, InputTarget(w, m, r).value, look) in sights
    requires a in LinkInput(w, m, r, look).value.added
    ensures SawAsset(w, sights, p, a)
  {
    var c := Arg(r.job.inputPath);
    assert Saw(sights, p, At(CanonicalInside(w, c).value.path), look.bytes);
    assert CanonicalInside(w, c).Ok?;
  }

  /** Every asset a decision appends was seen by its process as it is registered. */
  lemma AppendedWereSeen(w: World, sights: seq<Sighting>, p: nat, cmd: Command, m: Manifest, r: Request, look: Look,
                         a: Asset)
    requires !r.InitRequest? && RequestBacked(w, sights, p, cmd, r) && Decide(w, m, r, look).Put?
    requires InputTarget(w, m, r).Some? ==> Sighting(p, InputTarget(w, m, r).value, look) in sights
    requires |Decide(w, m, r, look).manifest.assets| > |m.assets|
    requires a in Decide(w, m, r, look).manifest.assets[|m.assets|..]
    ensures SawAsset(w, sights, p, a)
  {
    hide SawEvidence, StemsBacked, LinkInput, LinkStems, SawAsset, InputTarget, RequestBacked, DecideJob, DecideAdd;
    match r
    case AddRequest(_, _, _, _, _, _, _) => AddAppendedWasSeen(w, sights, p, cmd, m, r, a);
    case JobRequest(_, _, _, job, _, stems, _) => JobAppendedWereSeen(w, sights, p, cmd, m, r, look, a);
    case StampRequest(_, _, _, _) =>
    case CompareRequest(_, _, _, _, _, _) =>
  }

  lemma AddAppendedWasSeen(w: World, sights: seq<Sighting>, p: nat, cmd: Command, m: Manifest, r: Request, a: Asset)
    requires r.AddRequest? && RequestBacked(w, sights, p, cmd, r) && DecideAdd(m, r).Put?
    requires a in DecideAdd(m, r).manifest.assets[|m.assets|..]
    ensures SawAsset(w, sights, p, a)
  {
    hide FindPath;
    assert CanonicalInside(w, Arg(cmd.rel)).Ok?;
  }

  lemma JobAppendedWereSeen(w: World, sights: seq<Sighting>, p: nat, cmd: Command, m: Manifest, r: Request, look: Look,
                            a: Asset)
    requires r.JobRequest? && RequestBacked(w, sights, p, cmd, r) && DecideJob(w, m, r, look).Put?
    requires InputTarget(w, m, r).Some? ==> Sighting(p, InputTarget(w, m, r).value, look) in sights
    requires a in DecideJob(w, m, r, look).manifest.assets[|m.assets|..]
    ensures SawAsset(w, sights, p, a)
  {
    hide SawEvidence, StemsBacked, InputTarget, FindJob;
    var added := LinkInput(w, m, r, look).value.added;
    var links := LinkStems(m.assets, added, [], r.stems, r.now).value;
    assert DecideJob(w, m, r, look).manifest.assets[|m.assets|..] == links.added;
    AppendedComeFromStems(m.assets, added, [], r.stems, r.now, a);
    if a in added {
      InputSeen(w, sights, p, m, r, look, a);
    } else {
      var k :| 0 <= k < |r.stems| && FromStem(a, r.stems[k]);
      StemSeen(w, sights, p, r.folder, r.job.stems, r.stems, k, a);
    }
  }

  // ---------------------------------------------------------------- over a run

  /** At a step of its own this process looked at a file whose stored path the asset has,
      and found bytes with the asset's hash and length there. */
  ghost predicate AssetShown(w: World, s: State, steps: seq<Step>, p: nat, a: Asset) {
    exists n, at: Inside, bytes: Content ::
      && AssetShownAt(w, s, steps, p, a, n, at, bytes)
  }

  ghost predicate AssetShownAt(w: World, s: State, steps: seq<Step>, p: nat, a: Asset, n: int, at: Inside,
                               bytes: Content) {
    && ShownAt(w, s, steps, n, p, At(at.path), Plain(bytes))
    && w.root <= at.path && at.stored == Stored(at.path[|w.root|..])
    && a.path == at.stored && a.sha256 == w.hash(bytes) && a.size == |bytes|
  }

  lemma SeenWasShown(w: World, s: State, steps: seq<Step>, p: nat, a: Asset)
    requires RealPaths(w) && s.sights == [] && Exec(w, s, steps).Some?
    requires SawAsset(w, Exec(w, s, steps).value.sights, p, a)
    ensures AssetShown(w, s, steps, p, a)
  {
    hide Exec, Stored;
    var sights := Exec(w, s, steps).value.sights;
    var c: Candidate :|
      && CanonicalInside(w, c).Ok? && CanonicalInside(w, c).value.stored == a.path
      && (SawDigest(w, sights, p, c, a.sha256, a.size)
          || SawDigest(w, sights, p, At(CanonicalInside(w, c).value.path), a.sha256, a.size));
    var at := CanonicalInside(w, c).value;
    var there := if SawDigest(w, sights, p, c, a.sha256, a.size) then c else At(at.path);
    var bytes: Content :| Saw(sights, p, there, bytes) && w.hash(bytes) == a.sha256 && |bytes| == a.size;
    SightsAreTrue(w, s, steps, Sighting(p, there, Plain(bytes)));
    var n :| ShownAt(w, s, steps, n, p, there, Plain(bytes));
    SamePlace(w, s, steps, n, p, c, bytes);
    assert AssetShownAt(w, s, steps, p, a, n, at, bytes);
  }

  lemma SamePlace(w: World, s: State, steps: seq<Step>, n: int, p: nat, c: Candidate, bytes: Content)
    requires RealPaths(w) && CanonicalInside(w, c).Ok?
    requires ShownAt(w, s, steps, n, p, c, Plain(bytes))
    ensures ShownAt(w, s, steps, n, p, At(CanonicalInside(w, c).value.path), Plain(bytes))
  {
    hide Exec, Stored;
  }

  /** Authentic identity. Every asset a command of any run registers carries the hash and
      the length of the bytes found under its stored path at a step of that very command. */
  lemma RegisteredAssetsAreAuthentic(w: World, s: State, steps: seq<Step>, t: State, k: nat, a: Asset)
    requires RealPaths(w) && Initial(s) && Reaches(w, s, steps, t)
    requires Writes(w, s.manifest, t.events, k) && !t.events[k].request.InitRequest?
    requires var m := Load(w, FileBefore(w, s.manifest, t.events, k)).value;
             var n := Written(w, s.manifest, t.events, k);
             |n.assets| > |m.assets| && a in n.assets[|m.assets|..]
    ensures AssetShown(w, s, steps, t.events[k].pid, a)
  {
    hide RequestBacked, Exec, Decide, InputTarget, Load, RealPaths, SawAsset, AssetShown, FileAfter, CanonicalInside;
    Linearizable(w, s, steps, t);
    InitialInv(w, s);
    ExecKeeps(w, s, steps);
    assert EventBacked(w, t, k);
    var e, m := t.events[k], Load(w, FileBefore(w, s.manifest, t.events, k)).value;
    AppendedWereSeen(w, t.sights, e.pid, t.procs[e.pid].cmd, m, e.request, e.look, a);
    SeenWasShown(w, s, steps, e.pid, a);
  }

  // ---------------------------------------------------------------- evidence

  /** At a step of its own this process read this evidence file, and these bytes, whose hash
      the manifest records, yield this evidence. */
  ghost predicate EvidenceShownAt(w: World, s: State, steps: seq<Step>, p: nat, arg: string, path: string,
                                  sha256: string,
                                  e: Evidence, n: int, bytes: Content) {
    && CanonicalInside(w, Arg(arg)).Ok? && CanonicalInside(w, Arg(arg)).value.stored == path
    && ShownAt(w, s, steps, n, p, At(CanonicalInside(w, Arg(arg)).value.path), Plain(bytes))
    && w.hash(bytes) == sha256 && BytesYield(w, bytes, e)
  }

  ghost predicate EvidenceShown(w: World, s: State, steps: seq<Step>, p: nat, arg: string, path: string, sha256: string,
                                e: Evidence) {
    exists n, bytes: Content :: EvidenceShownAt(w, s, steps, p, arg, path, sha256, e, n, bytes)
  }

  lemma SeenEvidenceWasShown(w: World, s: State, steps: seq<Step>, p: nat, arg: string, at: Inside, sha256: string,
                             e: Evidence)
    requires s.sights == [] && Exec(w, s, steps).Some?
    requires SawEvidence(w, Exec(w, s, steps).value.sights, p, arg, at, sha256, e)
    ensures EvidenceShown(w, s, steps, p, arg, at.stored, sha256, e)
  {
    hide Exec, BytesYield, LookAt;
    var sights := Exec(w, s, steps).value.sights;
    var bytes: Content :| Saw(sights, p, At(at.path), bytes) && w.hash(bytes) == sha256 && BytesYield(w, bytes, e);
    SightsAreTrue(w, s, steps, Sighting(p, At(at.path), Plain(bytes)));
    var n :| ShownAt(w, s, steps, n, p, At(at.path), Plain(bytes));
    assert EvidenceShownAt(w, s, steps, p, arg, at.stored, sha256, e, n, bytes);
  }

  /** What a derivation says of the job it was imported from. */
  ghost predicate SaysJob(d: Derivation, job: JobRecord, createdAt: string) {
    && d.tool == "uncompose" && d.toolVersion == Some(job.engineVersion)
    && d.params == Some([Entry("preset", job.preset)]) && d.createdAt == createdAt
    && d.ext == None
  }

  lemma JobSaid(w: World, m: Manifest, r: Request, look: Look)
    requires r.JobRequest? && DecideJob(w, m, r, look).Put?
    ensures var n := DecideJob(w, m, r, look).manifest;
            && |n.derivations| == |m.derivations| + 1
            && SaysJob(n.derivations[|m.derivations|], r.job, r.createdAt)
            && n.derivations[|m.derivations|].job == Some(JobRef(r.rel, r.sha256, None))
  {
  }

  /** Every derivation a run imports says what the job record says, and its hashed reference
      names the very bytes that were read. */
  lemma ImportedDerivationIsAuthentic(w: World, s: State, steps: seq<Step>, t: State, k: nat)
    requires Initial(s) && Reaches(w, s, steps, t)
    requires Writes(w, s.manifest, t.events, k) && t.events[k].request.JobRequest?
    ensures var r, ds := t.events[k].request, Written(w, s.manifest, t.events, k).derivations;
            && ds != [] && t.events[k].pid < |t.procs| && t.procs[t.events[k].pid].cmd.Import?
            && var d := ds[|ds| - 1];
            && d.job.Some? && SaysJob(d, r.job, r.createdAt)
            && EvidenceShown(w, s, steps, t.events[k].pid, t.procs[t.events[k].pid].cmd.arg, d.job.value.path,
                             d.job.value.sha256, Evidence.JobEvidence(r.job, r.createdAt))
  {
    hide Exec, DecideJob, Load, FileAfter, CanonicalInside, SawEvidence, StemsBacked, LookSeen, SaysJob, EvidenceShown;
    Linearizable(w, s, steps, t);
    InitialInv(w, s);
    ExecKeeps(w, s, steps);
    assert EventBacked(w, t, k);
    var e, m := t.events[k], Load(w, FileBefore(w, s.manifest, t.events, k)).value;
    JobSaid(w, m, e.request, e.look);
    var arg := t.procs[e.pid].cmd.arg;
    SeenEvidenceWasShown(w, s, steps, e.pid, arg, CanonicalInside(w, Arg(arg)).value, e.request.sha256,
                         Evidence.JobEvidence(e.request.job, e.request.createdAt));
  }

  /** What an evaluation says of the verdict it was imported from. */
  ghost predicate SaysVerdict(e: Evaluation, v: Evidence)
    requires v.CompareEvidence?
  {
    && e.candidates == v.candidates && e.preference == v.preference && e.createdAt == v.completedAt
    && e.confidence == (if v.confidence == Some(Null) then None else v.confidence)
    && e.ext == None
  }

  lemma VerdictSaid(m: Manifest, r: Request)
    requires r.CompareRequest? && DecideCompare(m, r).Put?
    ensures var n := DecideCompare(m, r).manifest;
            && |n.evaluations| == |m.evaluations| + 1
            && SaysVerdict(n.evaluations[|m.evaluations|], CompareEvidence(r.candidates, r.preference, r.confidence, r.completedAt))
            && n.evaluations[|m.evaluations|].record == RecordRef(r.rel, r.sha256, None)
  {
  }

  /** The same for every evaluation a run imports. */
  lemma ImportedEvaluationIsAuthentic(w: World, s: State, steps: seq<Step>, t: State, k: nat)
    requires Initial(s) && Reaches(w, s, steps, t)
    requires Writes(w, s.manifest, t.events, k) && t.events[k].request.CompareRequest?
    ensures var r, es := t.events[k].request, Written(w, s.manifest, t.events, k).evaluations;
            && es != [] && t.events[k].pid < |t.procs| && t.procs[t.events[k].pid].cmd.Import?
            && var e, v := es[|es| - 1], CompareEvidence(r.candidates, r.preference, r.confidence, r.completedAt);
            && SaysVerdict(e, v)
            && EvidenceShown(w, s, steps, t.events[k].pid, t.procs[t.events[k].pid].cmd.arg, e.record.path, e.record.sha256, v)
  {
    hide Exec, DecideCompare, Load, FileAfter, CanonicalInside, SawEvidence, LookSeen, SaysVerdict, EvidenceShown;
    Linearizable(w, s, steps, t);
    InitialInv(w, s);
    ExecKeeps(w, s, steps);
    assert EventBacked(w, t, k);
    var e, m := t.events[k], Load(w, FileBefore(w, s.manifest, t.events, k)).value;
    var r := e.request;
    VerdictSaid(m, r);
    var arg := t.procs[e.pid].cmd.arg;
    SeenEvidenceWasShown(w, s, steps, e.pid, arg, CanonicalInside(w, Arg(arg)).value, r.sha256,
                         CompareEvidence(r.candidates, r.preference, r.confidence, r.completedAt));
  }
}
