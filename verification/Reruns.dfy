/** Importing the same job again. The design record promises a byte-identical re-run is a
    no-op "regardless of what else changed on disk"; the program hashes the stems first, so
    it is one exactly while every stem is still there to be read. */
module Reruns {
  import opened Wrappers
  import opened Paths
  import opened Worlds
  import opened Commands
  import opened Records
  import opened Imports
  import opened Solo
  import opened Preparing

  /** The argument names a job record the manifest holds already, byte for byte. */
  ghost predicate HeldJob(w: World, cmd: Command, manifest: Option<Bytes>, files: Files, bytes: Content,
                          evidence: Evidence, id: string) {
    && cmd.Import? && Load(w, manifest).Ok? && CanonicalInside(w, Arg(cmd.arg)).Ok?
    && LookAt(w, files, At(CanonicalInside(w, Arg(cmd.arg)).value.path)) == Plain(bytes)
    && BytesYield(w, bytes, evidence) && evidence.JobEvidence?
    && JobKnown(Load(w, manifest).value, w.hash(bytes), id)
  }

  /** The folder the record named by the argument lies in. */
  ghost predicate FolderOfJob(w: World, cmd: Command, folder: CPath) {
    cmd.Import? && CanonicalInside(w, Arg(cmd.arg)).Ok? && IsFolder(w, CanonicalInside(w, Arg(cmd.arg)).value.path, folder)
  }

  /** The refusal names the first stem that is not a readable file inside the project. */
  ghost predicate StemRefused(w: World, files: Files, folder: CPath, names: seq<string>, o: Outcome) {
    exists k :: FirstBadStem(w, files, folder, names, k) && o.Refused? && StemTrouble(w, folder, names[k], o.error)
  }

  ghost predicate AllStemsReadable(w: World, files: Files, folder: CPath, names: seq<string>) {
    forall k :: 0 <= k < |names| ==> StemReadable(w, files, folder, names[k])
  }

  /** Where a held job's import gets before the lock. */
  lemma HeldJobAsks(w: World, cmd: Command, manifest: Option<Bytes>, files: Files, bytes: Content, evidence: Evidence,
                    id: string, folder: CPath)
    requires HeldJob(w, cmd, manifest, files, bytes, evidence, id) && FolderOfJob(w, cmd, folder)
    ensures var next := Drain(w, cmd, Fresh, manifest, files);
            || (AllStemsReadable(w, files, folder, evidence.job.stems) && next.Lock? && next.request.JobRequest?
                && next.request.sha256 == w.hash(bytes))
            || (next.Stop? && StemRefused(w, files, folder, evidence.job.stems, next.outcome))
  {
    hide LookAt, Load, JobKnown, StemFound, StemReadable, StemTrouble, BytesYield, YieldsNone, EvidenceFrom;
    ImportAsksThis(w, cmd, manifest, files);
    LoadNeedsFile(w, manifest);
    var at := CanonicalInside(w, Arg(cmd.arg)).value;
    var next := Drain(w, cmd, Fresh, manifest, files);
    assert EvidenceAsks(w, cmd, files, at, bytes, next);
    OneEvidence(w, cmd.arg, bytes, evidence);
    assert JobAsks(w, cmd, files, at, w.hash(bytes), evidence, next);
    OneFolder(w, at.path);
    if next.Lock? { AllReadable(w, files, folder, evidence.job.stems, next.request.stems); }
  }

  /** Bytes yield one evidence, or one refusal. */
  lemma OneEvidence(w: World, arg: string, bytes: Bytes, e: Evidence)
    requires BytesYield(w, bytes, e)
    ensures forall other :: BytesYield(w, bytes, other) ==> other == e
    ensures forall error :: !YieldsNone(w, arg, bytes, error)
  {
    hide BytesYield, YieldsNone, EvidenceFrom;
    EvidenceIs(w, arg, bytes, e, MalformedJob(arg));
    forall other | BytesYield(w, bytes, other) ensures other == e {
      EvidenceIs(w, arg, bytes, other, MalformedJob(arg));
    }
    forall error ensures !YieldsNone(w, arg, bytes, error) {
      EvidenceIs(w, arg, bytes, e, error);
    }
  }

  lemma OneFolder(w: World, path: CPath)
    ensures forall a, b :: IsFolder(w, path, a) && IsFolder(w, path, b) ==> a == b
  {
    ParentIsFolder(w, path);
  }

  /** Importing a job again that the manifest already holds: a no-op naming the derivation
      if and only if every stem named in the record is still a readable file inside the
      project; otherwise a refusal naming the first that is not. The manifest is untouched
      either way. */
  lemma RerunIsNoOp(w: World, cmd: Command, manifest: Option<Bytes>, files: Files, bytes: Content, evidence: Evidence,
                    id: string, folder: CPath)
    requires HeldJob(w, cmd, manifest, files, bytes, evidence, id) && FolderOfJob(w, cmd, folder)
    ensures var f := Alone(w, cmd, manifest, files);
            && f.manifest == manifest
            && (f.outcome == AlreadyImported(id) <==> AllStemsReadable(w, files, folder, evidence.job.stems))
            && (f.outcome != AlreadyImported(id) ==> StemRefused(w, files, folder, evidence.job.stems, f.outcome))
  {
    hide LookAt, Load, JobKnown, StemReadable, StemTrouble, BytesYield, Concluded, IsFolder;
    HeldJobAsks(w, cmd, manifest, files, bytes, evidence, id, folder);
    var next := Drain(w, cmd, Fresh, manifest, files);
    if next.Lock? { KnownJobConcludes(w, next.request, manifest, files, id); }
  }

  lemma KnownJobConcludes(w: World, r: Request, manifest: Option<Bytes>, files: Files, id: string)
    requires r.JobRequest? && Load(w, manifest).Ok? && JobKnown(Load(w, manifest).value, r.sha256, id)
    ensures Concluded(w, r, manifest, files) == Finish(AlreadyImported(id), manifest)
  {
    hide Load, LookAt, LinkInput, LinkStems;
  }

  /** The promise fails at once when the record's first stem has been deleted since. */
  lemma DeletedStemRefusesRerun(w: World, cmd: Command, manifest: Option<Bytes>, files: Files, bytes: Content,
                                evidence: Evidence, id: string, folder: CPath)
    requires HeldJob(w, cmd, manifest, files, bytes, evidence, id) && FolderOfJob(w, cmd, folder)
    requires evidence.job.stems != [] && Nowhere(w, Leaf(folder, evidence.job.stems[0] + ".wav"))
    ensures Alone(w, cmd, manifest, files) == Finish(Refused(StemMissing(evidence.job.stems[0] + ".wav")), manifest)
  {
    hide LookAt, Load, JobKnown, BytesYield, IsFolder;
    RerunIsNoOp(w, cmd, manifest, files, bytes, evidence, id, folder);
    var stems := evidence.job.stems;
    assert !StemReadable(w, files, folder, stems[0]);
    var o := Alone(w, cmd, manifest, files).outcome;
    var k :| FirstBadStem(w, files, folder, stems, k) && o.Refused? && StemTrouble(w, folder, stems[k], o.error);
    assert k == 0;
  }
}
