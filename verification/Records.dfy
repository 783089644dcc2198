/** What an import reads out of a record file, said of the file's tree: which job record or
    comparison record it holds, what evidence follows, and why there may be none. */
module Records {
  import opened Wrappers
  import opened Json
  import opened Codec
  import opened CodecLaws
  import opened Worlds
  import opened Commands

  // ---------------------------------------------------------------- job records

  /** The tree says this job record, field by field; other keys are tolerated. */
  ghost predicate JobSays(j: Json, job: JobRecord) {
    var names := ["input_path", "input_sha256", "preset", "stems", "engine_version", "outcome", "finished_at_unix"];
    && OpenSlots(j, names).Some?
    && JobSaysSlots(OpenSlots(j, names).value, job)
  }

  ghost predicate JobSaysSlots(s: Slots, job: JobRecord)
    requires |s| == 7
  {
    && Says(s[0], job.inputPath) && Says(s[1], job.inputSha256) && s[2] == Some(job.preset)
    && Lists(s[3], job.stems) && Says(s[4], job.engineVersion) && Says(s[5], job.outcome)
    && s[6] == Some(Num(UInt(job.finishedAt)))
  }

  lemma JobReadsSlots(s: Slots, job: JobRecord)
    requires |s| == 7
    ensures JobOfSlots(s) == Some(job) <==> JobSaysSlots(s, job)
  {
    hide AsStrings, Lists;
    ListsReads(s[3], job.stems);
  }

  /** A job record is read if and only if the tree says it. */
  lemma JobReads(j: Json, job: JobRecord)
    ensures DecodeJob(j) == Some(job) <==> JobSays(j, job)
  {
    hide JobOfSlots, JobSaysSlots, OpenSlots;
    assert JOB_FIELDS ==
      ["input_path", "input_sha256", "preset", "stems", "engine_version", "outcome", "finished_at_unix"];
    OpenLength(j, JOB_FIELDS);
    if OpenSlots(j, JOB_FIELDS).Some? { JobReadsSlots(OpenSlots(j, JOB_FIELDS).value, job); }
  }

  lemma OpenLength(j: Json, names: seq<string>)
    ensures OpenSlots(j, names).Some? ==> |OpenSlots(j, names).value| == |names|
  {
  }

  /** The evidence a job's tree yields. */
  ghost predicate JobYields(w: World, j: Json, e: Evidence) {
    e.JobEvidence? && JobSays(j, e.job) && e.job.outcome == "success" && w.rfc3339(e.job.finishedAt) == Some(e.createdAt)
  }

  /** Why a job's tree yields none: it says no job record, the run did not succeed, or its
      time is none the calendar knows; in that order. */
  ghost predicate JobRefused(w: World, arg: string, j: Json, error: Error) {
    || (error == MalformedJob(arg) && forall job :: !JobSays(j, job))
    || (exists job :: JobSays(j, job) && job.outcome != "success" && error == NotSuccess(job.outcome))
    || (exists job :: JobSays(j, job) && job.outcome == "success" && w.rfc3339(job.finishedAt) == None
                      && error == InvalidTimestamp(job.finishedAt))
  }

  lemma JobEvidenceIs(w: World, arg: string, j: Json)
    ensures forall e :: JobFrom(w, arg, j) == Ok(e) <==> JobYields(w, j, e)
    ensures forall error :: JobFrom(w, arg, j) == Err(error) <==> JobRefused(w, arg, j, error)
  {
    hide DecodeJob, JobSays;
    forall job ensures DecodeJob(j) == Some(job) <==> JobSays(j, job) {
      JobReads(j, job);
    }
  }

  // ---------------------------------------------------------------- comparison records

  ghost predicate CandidateSays(j: Json, c: CompareCandidate) {
    var s := OpenSlots(j, ["label", "asset"]);
    s.Some? && Says(s.value[0], c.name) && MaySay(s.value[1], c.asset)
  }

  /** An optional value of any kind. */
  predicate MayHold(slot: Option<Json>, v: Option<Json>) {
    if v.Some? then slot == v && !Blank(slot) else Blank(slot)
  }

  ghost predicate ResultSays(j: Json, preference: Option<string>, confidence: Option<Json>) {
    var s := OpenSlots(j, ["preference", "confidence"]);
    s.Some? && j != Arr([]) && MaySay(s.value[0], preference) && MayHold(s.value[1], confidence)
  }

  /** The tree says this comparison record: every candidate in order, the time, the verdict.
      A verdict given as a positional array must fill `preference`. */
  ghost predicate CompareSays(j: Json, r: CompareRecord) {
    var s := OpenSlots(j, ["candidates", "completed_at", "result"]);
    s.Some? && CompareSaysSlots(s.value, r)
  }

  ghost predicate CompareSaysSlots(s: Slots, r: CompareRecord)
    requires |s| == 3
  {
    && Items(s[0], |r.candidates|)
    && (forall i :: 0 <= i < |r.candidates| ==> CandidateSays(s[0].value.items[i], r.candidates[i]))
    && Says(s[1], r.completedAt)
    && s[2].Some? && ResultSays(s[2].value, r.preference, r.confidence)
  }

  lemma CandidateReads(j: Json, c: CompareCandidate)
    ensures DecodeCandidate(j) == Some(c) <==> CandidateSays(j, c)
  {
    OpenLength(j, ["label", "asset"]);
  }

  lemma ResultReads(j: Json, preference: Option<string>, confidence: Option<Json>)
    ensures DecodeResult(j) == Some(CompareResult(preference, confidence)) <==> ResultSays(j, preference, confidence)
  {
    OpenLength(j, ["preference", "confidence"]);
  }

  lemma CompareReadsSlots(s: Slots, r: CompareRecord)
    requires |s| == 3
    ensures CompareOfSlots(s) == Some(r) <==> CompareSaysSlots(s, r)
  {
    hide DecodeCandidate, CandidateSays, DecodeResult, ResultSays, AsList;
    ItemsRead(s[0], DecodeCandidate, r.candidates);
    if Items(s[0], |r.candidates|) {
      forall i | 0 <= i < |r.candidates| { CandidateReads(s[0].value.items[i], r.candidates[i]); }
    }
    if s[2].Some? { ResultReads(s[2].value, r.preference, r.confidence); }
  }

  /** A comparison record is read if and only if the tree says it. */
  lemma CompareReads(j: Json, r: CompareRecord)
    ensures DecodeCompare(j) == Some(r) <==> CompareSays(j, r)
  {
    hide CompareOfSlots, CompareSaysSlots, OpenSlots;
    var names := ["candidates", "completed_at", "result"];
    OpenLength(j, names);
    if OpenSlots(j, names).Some? { CompareReadsSlots(OpenSlots(j, names).value, r); }
  }

  ghost predicate FirstLabelled(candidates: seq<CompareCandidate>, k: int, name: string) {
    0 <= k < |candidates| && candidates[k].name == name && forall i :: 0 <= i < k ==> candidates[i].name != name
  }

  /** A label stands for the asset of the first candidate that carries it; a label of no
      candidate for nothing. */
  lemma {:induction false} LabelIsCandidate(candidates: seq<CompareCandidate>, name: string)
    ensures forall k :: FirstLabelled(candidates, k, name) ==> candidates[k].asset == AssetOfLabel(candidates, name)
    ensures (forall k :: !FirstLabelled(candidates, k, name)) ==> AssetOfLabel(candidates, name) == None
    ensures (exists k :: FirstLabelled(candidates, k, name)) <==> exists c :: c in candidates && c.name == name
  {
    if candidates != [] {
      var rest := candidates[1..];
      LabelIsCandidate(rest, name);
      assert forall i :: 1 <= i < |candidates| ==> candidates[i] == rest[i - 1];
      if candidates[0].name == name {
        assert FirstLabelled(candidates, 0, name);
        assert candidates[0] in candidates;
      } else {
        forall k ensures FirstLabelled(candidates, k + 1, name) <==> FirstLabelled(rest, k, name) {
          assert k >= 0 && k < |rest| ==> candidates[k + 1] == rest[k];
        }
        forall k | FirstLabelled(candidates, k, name) ensures FirstLabelled(rest, k - 1, name) {
          assert FirstLabelled(candidates, (k - 1) + 1, name);
        }
      }
    }
  }

  /** The preference the record states: none, or the asset its label stands for. */
  ghost predicate Prefers(r: CompareRecord, preference: Option<string>) {
    if r.preference.None? then preference == None
    else preference.Some? && exists k :: FirstLabelled(r.candidates, k, r.preference.value)
                                         && preference == r.candidates[k].asset
  }

  /** The evidence a comparison's tree yields. */
  ghost predicate CompareYields(w: World, j: Json, e: Evidence) {
    && e.CompareEvidence? && w.conforms(j)
    && exists r :: CompareSays(j, r) && EvidenceOf(r, e)
  }

  ghost predicate EvidenceOf(r: CompareRecord, e: Evidence)
    requires e.CompareEvidence?
  {
    && |e.candidates| == |r.candidates|
    && (forall k :: 0 <= k < |r.candidates| ==> r.candidates[k].asset == Some(e.candidates[k]))
    && Prefers(r, e.preference) && e.confidence == r.confidence && e.completedAt == r.completedAt
  }

  ghost predicate AllNameAssets(r: CompareRecord) {
    forall c :: c in r.candidates ==> c.asset.Some?
  }

  ghost predicate LabelKnown(r: CompareRecord) {
    r.preference.Some? ==> exists c :: c in r.candidates && c.name == r.preference.value
  }

  /** Why a comparison's tree yields none: it does not conform, says no record, a candidate
      names no asset, or the preferred label is no candidate's; in that order. */
  ghost predicate CompareRefused(w: World, arg: string, j: Json, error: Error) {
    if !w.conforms(j) then error == RecordNotConforming(arg)
    else
      || (error == MalformedRecord(arg) && forall r :: !CompareSays(j, r))
      || (exists r :: CompareSays(j, r) && !AllNameAssets(r) && error == CandidateMissingAsset)
      || (exists r :: CompareSays(j, r) && AllNameAssets(r) && !LabelKnown(r) && error == UnknownPreference(r.preference.value))
  }

  lemma CandidateAssetsAre(r: CompareRecord, ids: seq<string>)
    ensures CandidateAssets(r.candidates) == Some(ids) <==>
              |ids| == |r.candidates| && forall k :: 0 <= k < |r.candidates| ==> r.candidates[k].asset == Some(ids[k])
    ensures CandidateAssets(r.candidates).None? <==> !AllNameAssets(r)
  {
    if |ids| == |r.candidates| && forall k :: 0 <= k < |r.candidates| ==> r.candidates[k].asset == Some(ids[k]) {
      assert CandidateAssets(r.candidates).value == ids;
    }
    forall i | 0 <= i < |r.candidates| ensures r.candidates[i] in r.candidates {
    }
  }

  /** From one record: the evidence, or the refusal. */
  lemma VerdictIs(w: World, arg: string, j: Json, r: CompareRecord, e: Evidence, error: Error)
    requires w.conforms(j) && DecodeCompare(j) == Some(r)
    ensures CompareFrom(w, arg, j) == Ok(e) <==> e.CompareEvidence? && EvidenceOf(r, e)
    ensures CompareFrom(w, arg, j) == Err(error) <==>
              || (!AllNameAssets(r) && error == CandidateMissingAsset)
              || (AllNameAssets(r) && !LabelKnown(r) && error == UnknownPreference(r.preference.value))
  {
    hide DecodeCompare, CandidateAssets, AllNameAssets, AssetOfLabel, FirstLabelled;
    if e.CompareEvidence? { CandidateAssetsAre(r, e.candidates); }
    CandidateAssetsAre(r, []);
    if CandidateAssets(r.candidates).Some? {
      CandidateAssetsAre(r, CandidateAssets(r.candidates).value);
      if r.preference.Some? {
        LabelIsCandidate(r.candidates, r.preference.value);
        PreferredIsNamed(r);
      }
    }
  }

  /** A label some candidate carries stands for an asset, when every candidate names one. */
  lemma PreferredIsNamed(r: CompareRecord)
    requires AllNameAssets(r) && r.preference.Some?
    ensures LabelKnown(r) <==> AssetOfLabel(r.candidates, r.preference.value).Some?
  {
    LabelIsCandidate(r.candidates, r.preference.value);
    if LabelKnown(r) {
      var k :| FirstLabelled(r.candidates, k, r.preference.value);
      assert r.candidates[k] in r.candidates;
    }
  }

  lemma CompareEvidenceIs(w: World, arg: string, j: Json, e: Evidence, error: Error)
    ensures CompareFrom(w, arg, j) == Ok(e) <==> CompareYields(w, j, e)
    ensures CompareFrom(w, arg, j) == Err(error) <==> CompareRefused(w, arg, j, error)
  {
    hide DecodeCompare, CompareSays, EvidenceOf, AllNameAssets, LabelKnown, CandidateAssets, AssetOfLabel;
    forall r ensures DecodeCompare(j) == Some(r) <==> CompareSays(j, r) {
      CompareReads(j, r);
    }
    if w.conforms(j) && DecodeCompare(j).Some? {
      VerdictIs(w, arg, j, DecodeCompare(j).value, e, error);
      NoVerdictElse(w, arg, j);
    }
  }

  lemma NoVerdictElse(w: World, arg: string, j: Json)
    ensures CompareFrom(w, arg, j).Ok? ==> CompareFrom(w, arg, j).value.CompareEvidence?
  {
  }

  // ---------------------------------------------------------------- one file, either kind

  /** A string stands under the top-level `schema`. */
  ghost predicate Declares(j: Json, schema: string) {
    j.Obj? && Lookup(j.entries, "schema") == Some(Str(schema))
  }

  ghost predicate Undeclared(j: Json) {
    forall schema :: !Declares(j, schema)
  }

  lemma SchemaIs(j: Json)
    ensures forall schema :: SchemaOf(j) == Some(schema) <==> Declares(j, schema)
    ensures SchemaOf(j) == None <==> Undeclared(j)
  {
    if SchemaOf(j).Some? { assert Declares(j, SchemaOf(j).value); }
  }

  /** The evidence a file's tree yields: a job's if it declares no schema, a comparison's if
      it declares the comparison schema. */
  ghost predicate Yields(w: World, j: Json, e: Evidence) {
    || (Undeclared(j) && JobYields(w, j, e))
    || (Declares(j, "https://uncompose.org/schemas/compare/v0/uncompose.compare.schema.json") && CompareYields(w, j, e))
  }

  /** Why a file yields no evidence: it does not parse, it declares another schema, or its
      tree yields none of its kind. */
  ghost predicate YieldsNone(w: World, arg: string, bytes: Bytes, error: Error) {
    match w.parse(bytes)
    case None => error == MalformedJob(arg)
    case Some(j) =>
      || (Undeclared(j) && JobRefused(w, arg, j, error))
      || (Declares(j, "https://uncompose.org/schemas/compare/v0/uncompose.compare.schema.json") && CompareRefused(w, arg, j, error))
      || (exists schema :: Declares(j, schema) && error == UnrecognizedImportSchema(schema)
                           && schema != "https://uncompose.org/schemas/compare/v0/uncompose.compare.schema.json")
  }

  /** The bytes of an evidence file yield this evidence. */
  ghost predicate BytesYield(w: World, bytes: Bytes, e: Evidence) {
    w.parse(bytes).Some? && Yields(w, w.parse(bytes).value, e)
  }

  /** What import reads out of a file, both ways: this evidence if and only if the file's
      tree yields it, this refusal if and only if it is the reason there is none. */
  lemma EvidenceIs(w: World, arg: string, bytes: Bytes, e: Evidence, error: Error)
    ensures EvidenceFrom(w, arg, bytes) == Ok(e) <==> BytesYield(w, bytes, e)
    ensures EvidenceFrom(w, arg, bytes) == Err(error) <==> YieldsNone(w, arg, bytes, error)
  {
    hide JobFrom, CompareFrom, JobYields, CompareYields, JobRefused, CompareRefused, Declares, Undeclared, SchemaOf;
    if w.parse(bytes).Some? {
      var j := w.parse(bytes).value;
      SchemaIs(j);
      JobEvidenceIs(w, arg, j);
      CompareEvidenceIs(w, arg, j, e, error);
      if SchemaOf(j).Some? {
        var schema := SchemaOf(j).value;
        assert Declares(j, schema) && forall other :: Declares(j, other) ==> other == schema;
      }
    }
  }
}
