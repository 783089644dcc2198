/** How every command comes out under the lock, said of the file that stands there, the
    request, and what the input shows; and how the whole command comes out. */
module Verdicts {
  import opened Wrappers
  import opened Manifests
  import opened Codec
  import opened Worlds
  import opened Commands
  import opened Rereading
  import opened Loading
  import opened Refusals
  import opened Histories
  import opened Solo
  import opened Preparing

  // ---------------------------------------------------------------- under the lock

  /** The stamp marks the assets the pass vouches for, by id and hash, and writes only if there
      is one; it reports what the pass found either way. */
  ghost predicate StampComesOut(m: Manifest, r: Request, v: Verdict)
    requires r.StampRequest?
  {
    && v.outcome == Checked(r.statuses, r.records)
    && (v.Put? <==> exists a :: a in m.assets && a.id in r.verified && r.verified[a.id] == a.sha256)
    && (v.Put? ==>
          var n := v.manifest;
          && n == m.(assets := n.assets) && |n.assets| == |m.assets|
          && forall i :: 0 <= i < |m.assets| ==> Stamped(m.assets[i], r, n.assets[i]))
  }

  predicate Stamped(before: Asset, r: Request, after: Asset)
    requires r.StampRequest?
  {
    if before.id in r.verified && r.verified[before.id] == before.sha256 then after == before.(lastVerified := Some(r.now))
    else after == before
  }

  lemma StampDecides(m: Manifest, r: Request)
    requires r.StampRequest?
    ensures StampComesOut(m, r, DecideStamp(m, r))
  {
    if i :| 0 <= i < |m.assets| && Vouched(r.verified, m.assets[i]) { assert m.assets[i] in m.assets; }
    if a :| a in m.assets && a.id in r.verified && r.verified[a.id] == a.sha256 {
      var i :| 0 <= i < |m.assets| && m.assets[i] == a;
      assert Vouched(r.verified, m.assets[i]);
    }
  }

  ghost predicate DecidedOn(w: World, m: Manifest, r: Request, look: Look, v: Verdict) {
    match r
    case InitRequest(_, _, _) => false
    case AddRequest(_, _, _, _, _, _, _) => AddComesOut(m, r, v)
    case JobRequest(_, _, _, _, _, _, _) => JobComesOut(w, m, r, look, v)
    case CompareRequest(_, _, _, _, _, _) => CompareComesOut(m, r, v)
    case StampRequest(_, _, _, _) => StampComesOut(m, r, v)
  }

  /** The atomic command: `init` wants no file there and makes a new project; any other wants
      one that loads, and decides on what it holds. */
  ghost predicate ComesOut(w: World, file: Option<Bytes>, r: Request, look: Look, v: Verdict) {
    if r.InitRequest? then
      if file.Some? then v == Keep(Refused(AlreadyExists))
      else v.Put? && v.outcome == Initialized && NewProject(v.manifest, r.id, r.name, r.now)
    else
      || (exists error :: LoadRefused(w, file, error) && v == Keep(Refused(LoadFailed(error))))
      || (exists m :: LoadsAs(w, file, m) && DecidedOn(w, m, r, look, v))
  }

  lemma JudgeComesOut(w: World, file: Option<Bytes>, r: Request, look: Look)
    ensures ComesOut(w, file, r, look, Judge(w, file, r, look))
  {
    hide Load, LoadRefused, LoadsAs, NewProject, AddComesOut, JobComesOut, CompareComesOut, StampComesOut,
         DecideAdd, DecideJob, DecideCompare, DecideStamp;
    if r.InitRequest? {
      NewManifestLoads(r.id, r.name, r.now);
    } else {
      var loaded := Load(w, file);
      if loaded.Err? {
        LoadMeans(w, file, NewManifest("", "", ""), loaded.error);
      } else {
        LoadMeans(w, file, loaded.value, NotAProject);
        match r
        case AddRequest(_, _, _, _, _, _, _) => AddDecides(loaded.value, r);
        case JobRequest(_, _, _, _, _, _, _) => JobDecides(w, loaded.value, r, look);
        case CompareRequest(_, _, _, _, _, _) => CompareDecides(loaded.value, r);
        case StampRequest(_, _, _, _) => StampDecides(loaded.value, r);
      }
    }
  }

  /** What the input showed, where it is looked at: a job new to the manifest, its input's hash
      not registered, the recorded path relative and inside. */
  ghost predicate LookFits(w: World, file: Option<Bytes>, files: Files, r: Request, look: Look) {
    forall m :: LoadsAs(w, file, m) && r.JobRequest? && !JobTaken(m, r.sha256) && !HashTaken(m, r.job.inputSha256)
                && !Rooted(r.job.inputPath) && w.canonicalize(Arg(r.job.inputPath)).Ok?
                && w.root <= w.canonicalize(Arg(r.job.inputPath)).value ==>
      look == LookAt(w, files, At(w.canonicalize(Arg(r.job.inputPath)).value))
  }

  lemma LookFitsInput(w: World, file: Option<Bytes>, files: Files, r: Request)
    ensures LookFits(w, file, files, r, InputLook(w, file, r, files))
  {
    hide Load, LoadsAs, LookAt, InputLook, JobTaken, HashTaken;
    forall m | LoadsAs(w, file, m) && r.JobRequest? && !JobTaken(m, r.sha256) && !HashTaken(m, r.job.inputSha256)
               && !Rooted(r.job.inputPath) && w.canonicalize(Arg(r.job.inputPath)).Ok?
               && w.root <= w.canonicalize(Arg(r.job.inputPath)).value
      ensures InputLook(w, file, r, files) == LookAt(w, files, At(w.canonicalize(Arg(r.job.inputPath)).value))
    {
      LoadMeans(w, file, m, NotAProject);
      InputLookIs(w, file, m, r, files);
    }
  }

  /** The request, on the file as it stands at the grant: outcome, and the file afterwards. */
  ghost predicate Finishes(w: World, r: Request, file: Option<Bytes>, files: Files, f: Finish) {
    exists look, v :: LookFits(w, file, files, r, look) && ComesOut(w, file, r, look, v) && Left(w, file, v, f)
  }

  ghost predicate Left(w: World, file: Option<Bytes>, v: Verdict, f: Finish) {
    f == Finish(v.outcome, if v.Put? then Some(Print(w, v.manifest)) else file)
  }

  lemma ConcludedFinishes(w: World, r: Request, file: Option<Bytes>, files: Files)
    ensures Finishes(w, r, file, files, Concluded(w, r, file, files))
  {
    hide InputLook, Judge, LookFits, ComesOut, Print;
    var look := InputLook(w, file, r, files);
    LookFitsInput(w, file, files, r);
    JudgeComesOut(w, file, r, look);
    assert Left(w, file, Judge(w, file, r, look), Concluded(w, r, file, files));
  }

  // ---------------------------------------------------------------- whole commands

  /** What a command asks for, or how it stops, before the lock. */
  ghost predicate Asks(w: World, cmd: Command, manifest: Option<Bytes>, files: Files, next: Next) {
    match cmd
    case Init(id, name, now) => next == Lock(InitRequest(id, name, now))
    case Add(_, _, _, _) => AddAsks(w, cmd, manifest, files, next)
    case Import(_, _) => ImportAsks(w, cmd, manifest, files, next)
    case Verify(_) => VerifyAsks(w, cmd, manifest, files, next)
    case Show =>
      || (exists error :: LoadRefused(w, manifest, error) && Refuses(next, LoadFailed(error)))
      || (exists m :: LoadsAs(w, manifest, m) && next == Stop(Shown(manifest.value, m)))
  }

  lemma AsksThis(w: World, cmd: Command, manifest: Option<Bytes>, files: Files)
    ensures Asks(w, cmd, manifest, files, Drain(w, cmd, Fresh, manifest, files))
  {
    hide Load, LoadRefused, LoadsAs, AddAsks, ImportAsks, VerifyAsks, Drain;
    InitAndShowAsk(w, cmd, manifest, files);
    match cmd
    case Init(_, _, _) =>
    case Add(_, _, _, _) => AddAsksThis(w, cmd, manifest, files);
    case Import(_, _) => ImportAsksThis(w, cmd, manifest, files);
    case Verify(_) => VerifyAsksThis(w, cmd, manifest, files);
    case Show =>
      var loaded := Load(w, manifest);
      if loaded.Err? {
        LoadMeans(w, manifest, NewManifest("", "", ""), loaded.error);
      } else {
        LoadMeans(w, manifest, loaded.value, NotAProject);
      }
  }

  /** The whole command: what it asks for on what it found, settled on what stands when it is
      granted the lock. */
  ghost predicate RunsTo(w: World, cmd: Command, manifest: Option<Bytes>, files: Files, granted: Option<Bytes>,
                         filesThen: Files, f: Finish) {
    exists next :: Asks(w, cmd, manifest, files, next) && Ends(w, next, manifest, granted, filesThen, f)
  }

  ghost predicate Ends(w: World, next: Next, manifest: Option<Bytes>, granted: Option<Bytes>, filesThen: Files, f: Finish) {
    match next
    case Lock(request) => Finishes(w, request, granted, filesThen, f)
    case Stop(outcome) => f == Finish(outcome, manifest)
    case Continue(_) => false
  }

  /** A command by itself comes out as its parts say. */
  lemma AloneRuns(w: World, cmd: Command, manifest: Option<Bytes>, files: Files)
    ensures RunsTo(w, cmd, manifest, files, manifest, files, Alone(w, cmd, manifest, files))
  {
    hide Asks, Finishes, Concluded;
    AsksThis(w, cmd, manifest, files);
    var next := Drain(w, cmd, Fresh, manifest, files);
    if next.Lock? { ConcludedFinishes(w, next.request, manifest, files); }
    assert Ends(w, next, manifest, manifest, files, Alone(w, cmd, manifest, files));
  }

  // ---------------------------------------------------------------- histories

  /** The k-th command came out so on the file the ones before it left, and what it wrote is
      what the next one finds. */
  ghost predicate CameOut(w: World, start: Option<Bytes>, events: seq<Event>, k: nat)
    requires k < |events|
  {
    exists v ::
      && ComesOut(w, FileBefore(w, start, events, k), events[k].request, events[k].look, v)
      && Left(w, FileBefore(w, start, events, k), v, Finish(events[k].outcome, FileBefore(w, start, events, k + 1)))
  }

  lemma EachComesOut(w: World, start: Option<Bytes>, events: seq<Event>, k: nat)
    requires Faithful(w, start, events) && k < |events|
    ensures CameOut(w, start, events, k)
  {
    hide Judge, ComesOut, Print, FileAfter;
    var file := FileBefore(w, start, events, k);
    FileBeforeNext(w, start, events, k);
    JudgeComesOut(w, file, events[k].request, events[k].look);
    assert Left(w, file, Judge(w, file, events[k].request, events[k].look),
                Finish(events[k].outcome, FileBefore(w, start, events, k + 1)));
  }
}
