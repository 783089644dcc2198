/** What a write leaves behind for the next reader: whether it loads again, what a repeated
    import finds there, and what `verify` stamped. */
module Rereading {
  import opened Wrappers
  import opened Json
  import opened Manifests
  import opened Codec
  import opened CodecLaws
  import opened Paths
  import opened Worlds
  import opened Commands
  import opened Decisions

  // ---------------------------------------------------------------- every write is readable

  /** What a loaded manifest always is. */
  lemma LoadGives(w: World, file: Option<Bytes>)
    requires TextLayer(w) && Load(w, file).Ok?
    ensures Storable(Load(w, file).value) && Nests(Load(w, file).value, MAX_NESTING)
  {
    var j := w.parse(file.value).value;
    LoadedIsStorable(j);
    LoadedNests(j, MAX_NESTING);
  }

  /** A storable manifest, printed, loads again exactly when it nests within the parser's limit. */
  lemma PrintLoads(w: World, m: Manifest, depth: nat)
    requires TextLayer(w) && Storable(m) && Nests(m, depth)
    ensures Load(w, Some(Print(w, m))) == if Nests(m, MAX_NESTING) then Ok(m) else Err(Parse)
  {
    ManifestSane(m, depth);
    ManifestSane(m, MAX_NESTING);
    TreeRoundTrip(m);
  }

  /** The imported values sit deeper in the manifest than in their own file: a preset three
      levels, a confidence one. This is how deep they may nest. */
  ghost predicate Shallow(r: Request) {
    match r
    case JobRequest(_, _, _, job, _, _, _) => Sane(job.preset, MAX_NESTING - 4)
    case CompareRequest(_, _, _, _, confidence, _) => confidence.None? || Sane(confidence.value, MAX_NESTING - 3)
    case _ => true
  }

  /** A project just made: who it is, when it was made, and nothing in it. */
  predicate NewProject(m: Manifest, id: string, name: string, createdAt: string) {
    && m.schema == "https://uncompose.org/schemas/project/v0/uncompose.project.schema.json"
    && m.project.id == id && m.project.name == name && m.project.createdAt == createdAt
    && m.assets == [] && m.derivations == [] && m.evaluations == []
    && m.project.ext == None && m.ext == None
  }

  lemma NewManifestLoads(id: string, name: string, now: string)
    ensures NewProject(NewManifest(id, name, now), id, name, now)
    ensures Storable(NewManifest(id, name, now)) && Nests(NewManifest(id, name, now), MAX_NESTING)
    ensures Good(NewManifest(id, name, now))
  {
  }

  lemma StampStores(m: Manifest, verified: map<string, string>, now: string, depth: nat)
    requires Storable(m) && Nests(m, depth)
    ensures Storable(m.(assets := Stamp(m.assets, verified, now)))
    ensures Nests(m.(assets := Stamp(m.assets, verified, now)), depth)
  {
    var s := Stamp(m.assets, verified, now);
    forall i | 0 <= i < |s| ensures ExtOk(s[i].ext) && AssetNests(s[i], depth - 2) {
      assert s[i].ext == m.assets[i].ext && AssetNests(m.assets[i], depth - 2);
    }
  }

  lemma AppendAssetsStores(m: Manifest, added: seq<Asset>, depth: nat)
    requires Storable(m) && Nests(m, depth) && depth > 2
    requires forall a :: a in added ==> a.ext.None?
    ensures Storable(m.(assets := m.assets + added)) && Nests(m.(assets := m.assets + added), depth)
  {
    var n := m.(assets := m.assets + added);
    forall i | 0 <= i < |n.assets| ensures ExtOk(n.assets[i].ext) && AssetNests(n.assets[i], depth - 2) {
      if i < |m.assets| {
        assert AssetNests(m.assets[i], depth - 2);
      } else {
        assert n.assets[i] in added;
      }
    }
  }

  lemma {:induction false} LinkedAssetsPlain(known: seq<Asset>, added: seq<Asset>, done: seq<ImportedAsset>,
                                             todo: seq<PreStem>, now: string)
    requires LinkStems(known, added, done, todo, now).Ok? && forall a :: a in added ==> a.ext.None?
    ensures forall a :: a in LinkStems(known, added, done, todo, now).value.added ==> a.ext.None?
    decreases |todo|
  {
    if todo != [] {
      match FindStem(known, added, todo[0].rel)
      case Some(found) => LinkedAssetsPlain(known, added, done + [found], todo[1..], now);
      case None =>
        var asset := StemAsset(known, added, todo[0], now);
        LinkedAssetsPlain(known, added + [asset], done + [ImportedAsset(asset, Registered)], todo[1..], now);
    }
  }

  lemma AppendDerivationNests(m: Manifest, d: Derivation, depth: nat)
    requires Storable(m) && Nests(m, depth) && depth > 5
    requires d.ext.None? && d.job.Some? && d.job.value.ext.None? && d.params.Some? && |d.params.value| == 1
    ensures Storable(m.(derivations := m.derivations + [d]))
    ensures Nests(m.(derivations := m.derivations + [d]), depth) <==> Sane(d.params.value[0].value, depth - 4)
    ensures Sane(d.params.value[0].value, depth - 1) ==> Nests(m.(derivations := m.derivations + [d]), depth + 3)
  {
    var n := m.(derivations := m.derivations + [d]);
    PresetNests(d, depth);
    if Sane(d.params.value[0].value, depth - 1) {
      PresetNests(d, depth + 3);
      NestsDeeper(m, depth, depth + 3);
    }
    assert n.derivations[|m.derivations|] == d;
  }

  lemma PresetNests(d: Derivation, depth: nat)
    requires depth > 5
    requires d.ext.None? && d.job.Some? && d.job.value.ext.None? && d.params.Some? && |d.params.value| == 1
    ensures DerivationNests(d, depth - 2) <==> Sane(d.params.value[0].value, depth - 4)
  {
    var params := d.params.value;
    assert DistinctKeys(params);
    assert Sane(Obj(params), depth - 3) <==> Sane(params[0].value, depth - 4);
  }

  lemma NestsDeeper(m: Manifest, shallow: nat, deep: nat)
    requires shallow <= deep && Nests(m, shallow)
    ensures Nests(m, deep)
  {
    ManifestSane(m, shallow);
    SaneDeeper(Encode(m), shallow, deep);
    ManifestSane(m, deep);
  }

  lemma AppendEvaluationNests(m: Manifest, e: Evaluation, depth: nat)
    requires Storable(m) && Nests(m, depth) && depth > 5
    requires e.ext.None? && e.record.ext.None? && e.confidence != Some(Null)
    ensures Storable(m.(evaluations := m.evaluations + [e]))
    ensures Nests(m.(evaluations := m.evaluations + [e]), depth) <==>
              (e.confidence.None? || Sane(e.confidence.value, depth - 3))
    ensures (e.confidence.None? || Sane(e.confidence.value, depth - 2)) ==>
              Nests(m.(evaluations := m.evaluations + [e]), depth + 3)
  {
    var n := m.(evaluations := m.evaluations + [e]);
    if e.confidence.None? || Sane(e.confidence.value, depth - 2) {
      NestsDeeper(m, depth, depth + 3);
      if e.confidence.Some? { SaneDeeper(e.confidence.value, depth - 2, depth); }
    }
    assert n.evaluations[|m.evaluations|] == e;
  }

  lemma JobStores(w: World, m: Manifest, r: Request, look: Look)
    requires Storable(m) && Nests(m, MAX_NESTING) && r.JobRequest? && RequestOk(r) && DecideJob(w, m, r, look).Put?
    ensures var n := DecideJob(w, m, r, look).manifest;
            Storable(n) && Nests(n, MAX_NESTING + 3) && (Nests(n, MAX_NESTING) <==> Shallow(r))
  {
    var l := LinkInput(w, m, r, look).value;
    var links := LinkStems(m.assets, l.added, [], r.stems, r.now).value;
    LinkInputPlain(w, m, r, look);
    LinkedAssetsPlain(m.assets, l.added, [], r.stems, r.now);
    LinkedJobStores(m, r, l.input, links);
  }

  lemma LinkInputPlain(w: World, m: Manifest, r: Request, look: Look)
    requires r.JobRequest? && LinkInput(w, m, r, look).Ok?
    ensures forall a :: a in LinkInput(w, m, r, look).value.added ==> a.ext.None?
  {
  }

  lemma LinkedJobStores(m: Manifest, r: Request, input: ImportedAsset, links: StemLinks)
    requires Storable(m) && Nests(m, MAX_NESTING) && r.JobRequest? && RequestOk(r)
    requires forall a :: a in links.added ==> a.ext.None?
    ensures var n := m.(assets := m.assets + links.added,
                        derivations := m.derivations + [JobDerivation(m, r, input, links.stems)]);
            Storable(n) && Nests(n, MAX_NESTING + 3) && (Nests(n, MAX_NESTING) <==> Shallow(r))
  {
    AppendAssetsStores(m, links.added, MAX_NESTING);
    AppendDerivationNests(m.(assets := m.assets + links.added), JobDerivation(m, r, input, links.stems), MAX_NESTING);
  }

  lemma DecideStores(w: World, m: Manifest, r: Request, look: Look)
    requires Storable(m) && Nests(m, MAX_NESTING) && !r.InitRequest? && RequestOk(r) && Decide(w, m, r, look).Put?
    ensures var n := Decide(w, m, r, look).manifest;
            Storable(n) && Nests(n, MAX_NESTING + 3) && (Nests(n, MAX_NESTING) <==> Shallow(r))
  {
    var n := Decide(w, m, r, look).manifest;
    match r
    case AddRequest(_, _, _, _, _, _, _) =>
      AppendAssetsStores(m, [n.assets[|m.assets|]], MAX_NESTING);
      NestsDeeper(n, MAX_NESTING, MAX_NESTING + 3);
    case JobRequest(_, _, _, _, _, _, _) => JobStores(w, m, r, look);
    case CompareRequest(_, _, _, _, _, _) =>
      AppendEvaluationNests(m, n.evaluations[|m.evaluations|], MAX_NESTING);
    case StampRequest(_, _, _, _) =>
      StampStores(m, r.verified, r.now, MAX_NESTING);
      NestsDeeper(n, MAX_NESTING, MAX_NESTING + 3);
  }

  /** Every write is read back as exactly what was written, if and only if the imported
      value is shallow; a deeper one leaves a manifest no command can parse again. */
  lemma WriteReadsBack(w: World, file: Option<Bytes>, r: Request, look: Look)
    requires TextLayer(w) && RequestOk(r) && Judge(w, file, r, look).Put?
    ensures var n := Judge(w, file, r, look).manifest;
            Load(w, Some(Print(w, n))) == if Shallow(r) then Ok(n) else Err(Parse)
  {
    var n := Judge(w, file, r, look).manifest;
    if r.InitRequest? {
      NewManifestLoads(r.id, r.name, r.now);
      PrintLoads(w, n, MAX_NESTING);
    } else {
      LoadGives(w, file);
      DecideStores(w, Load(w, file).value, r, look);
      PrintLoads(w, n, MAX_NESTING + 3);
    }
  }

  /** `init` refuses where a manifest file is, whatever it holds. Elsewhere it leaves one that
      loads as a new project under the id, name and time it was given. */
  lemma InitLeaves(w: World, file: Option<Bytes>, r: Request, look: Look)
    requires TextLayer(w) && r.InitRequest?
    ensures file.Some? ==> Judge(w, file, r, look) == Keep(Refused(AlreadyExists)) && Apply(w, file, r, look) == file
    ensures file.None? ==>
              && Judge(w, file, r, look).Put? && Judge(w, file, r, look).outcome == Initialized
              && var after := Load(w, Apply(w, file, r, look));
              && after.Ok? && NewProject(after.value, r.id, r.name, r.now)
  {
    hide Load, NewProject, Print;
    NewManifestLoads(r.id, r.name, r.now);
    if file.None? { WriteReadsBack(w, file, r, look); }
  }

  // ---------------------------------------------------------------- a preset too deep

  function Nest(k: nat): Json {
    if k == 0 then Null else Arr([Nest(k - 1)])
  }

  lemma {:induction false} NestDepth(k: nat, depth: nat)
    ensures Sane(Nest(k), depth) <==> k <= depth
    decreases k
  {
    if k > 0 && depth > 0 {
      NestDepth(k - 1, depth - 1);
      assert Nest(k) == Arr([Nest(k - 1)]) && [Nest(k - 1)][0] == Nest(k - 1);
    }
  }

  /** A job record with this preset and these stems. */
  function JobWith(preset: Json, stems: seq<string>): JobRecord {
    JobRecord("mix.wav", "ab", preset, stems, "1.0", "success", 0)
  }

  function JobSlots(preset: Json, stems: seq<string>): Slots {
    [Some(Str("mix.wav")), Some(Str("ab")), Some(preset), Some(OfStrings(stems)), Some(Str("1.0")),
     Some(Str("success")), Some(Num(UInt(0)))]
  }

  function JobTree(preset: Json, stems: seq<string>): Json {
    Obj(Compact(JOB_FIELDS, JobSlots(preset, stems)))
  }

  /** A job record whose preset nests `k` arrays. */
  function DeepJob(k: nat): JobRecord {
    JobWith(Nest(k), [])
  }

  function DeepJobTree(k: nat): Json {
    JobTree(Nest(k), [])
  }

  lemma JobFieldsDistinct()
    ensures DistinctStrings(JOB_FIELDS) && "schema" !in JOB_FIELDS
  {
  }

  lemma NoSchema(j: Json, names: seq<string>)
    requires j.Obj? && ClosedSlots(j, names).Some? && "schema" !in names
    ensures SchemaOf(j) == None
  {
  }

  lemma JobTreeDecodes(preset: Json, stems: seq<string>)
    ensures SchemaOf(JobTree(preset, stems)) == None && DecodeJob(JobTree(preset, stems)) == Some(JobWith(preset, stems))
  {
    var s := JobSlots(preset, stems);
    JobFieldsDistinct();
    SlotsReadBack(JOB_FIELDS, s);
    NoSchema(JobTree(preset, stems), JOB_FIELDS);
    StringsReadBack(stems);
    assert JobOfSlots(s) == Some(JobWith(preset, stems));
    assert OpenSlots(JobTree(preset, stems), JOB_FIELDS) == ClosedSlots(JobTree(preset, stems), JOB_FIELDS);
  }

  lemma JobTreeSane(preset: Json, stems: seq<string>)
    requires Sane(preset, MAX_NESTING - 1)
    ensures Sane(JobTree(preset, stems), MAX_NESTING)
  {
    JobFieldsDistinct();
    CompactSane(JOB_FIELDS, JobSlots(preset, stems), MAX_NESTING);
    assert SlotsSane(JobSlots(preset, stems), MAX_NESTING - 1) by {
      assert Sane(OfStrings(stems), MAX_NESTING - 1);
    }
  }

  /** A preset of up to 126 nested arrays is within what import reads from its file. */
  lemma DeepJobIsAccepted(w: World, arg: string, k: nat)
    requires TextLayer(w) && w.rfc3339(0).Some? && k <= 126
    ensures EvidenceFrom(w, arg, w.text(DeepJobTree(k))) == Ok(JobEvidence(DeepJob(k), w.rfc3339(0).value))
  {
    NestDepth(k, MAX_NESTING - 1);
    JobTreeSane(Nest(k), []);
    JobTreeDecodes(Nest(k), []);
  }

  function DeepRequest(k: nat): Request {
    JobRequest("job/job.json", "cd", [FromText("job")], DeepJob(k), "t", [], "t")
  }

  /** From 124 on the import succeeds, and after it no command can load the manifest. */
  lemma DeepPresetIsNotReadable(w: World, k: nat)
    requires TextLayer(w) && 124 <= k <= 126
    ensures var mix := Asset("mix", "mix.wav", "ab", 3, "mix", "t", None, None);
            var m := NewManifest("p", "demo", "t").(assets := [mix]);
            var file := Some(Print(w, m));
            && Load(w, file) == Ok(m)
            && RequestOk(DeepRequest(k))
            && Judge(w, file, DeepRequest(k), Absent).Put?
            && Load(w, Apply(w, file, DeepRequest(k), Absent)) == Err(Parse)
  {
    var mix := Asset("mix", "mix.wav", "ab", 3, "mix", "t", None, None);
    var empty := NewManifest("p", "demo", "t");
    var m := empty.(assets := [mix]);
    NewManifestLoads("p", "demo", "t");
    AppendAssetsStores(empty, [mix], MAX_NESTING);
    assert [] + [mix] == [mix];
    assert m == empty.(assets := empty.assets + [mix]);
    PrintLoads(w, m, MAX_NESTING);
    NestDepth(k, MAX_NESTING - 1);
    NestDepth(k, MAX_NESTING - 4);
    DeepDecision(w, m, k);
    WriteReadsBack(w, Some(Print(w, m)), DeepRequest(k), Absent);
  }

  lemma DeepDecision(w: World, m: Manifest, k: nat)
    requires m.derivations == [] && FindHash(m.assets, "ab").Some?
    ensures DecideJob(w, m, DeepRequest(k), Absent).Put?
  {
  }

  // ---------------------------------------------------------------- repeated imports

  lemma {:induction false} FindJobStable(a: seq<Derivation>, b: seq<Derivation>, sha256: string)
    requires a <= b
    ensures FindJob(a, sha256).Some? ==> FindJob(b, sha256) == FindJob(a, sha256)
    ensures FindJob(a, sha256).None? && |b| == |a| + 1 && b[|a|].job.Some? && b[|a|].job.value.sha256 == sha256 ==>
              FindJob(b, sha256) == Some(b[|a|])
  {
    if a != [] {
      assert a[1..] <= b[1..] && (|b| > |a| ==> b[1..][|a| - 1] == b[|a|]);
      FindJobStable(a[1..], b[1..], sha256);
    }
  }

  lemma {:induction false} FindRecordStable(a: seq<Evaluation>, b: seq<Evaluation>, sha256: string)
    requires a <= b
    ensures FindRecord(a, sha256).Some? ==> FindRecord(b, sha256) == FindRecord(a, sha256)
    ensures FindRecord(a, sha256).None? && |b| == |a| + 1 && b[|a|].record.sha256 == sha256 ==>
              FindRecord(b, sha256) == Some(b[|a|])
  {
    if a != [] {
      assert a[1..] <= b[1..] && (|b| > |a| ==> b[1..][|a| - 1] == b[|a|]);
      FindRecordStable(a[1..], b[1..], sha256);
    }
  }

  // ---------------------------------------------------------------- verify's stamp

  /** The map the hash pass builds: each verified asset under its id, later ones replacing
      earlier ones. */
  function VouchMap(assets: seq<Asset>, statuses: seq<AssetStatus>): map<string, string>
    requires |statuses| <= |assets|
  {
    if statuses == [] then map[]
    else
      var k := |statuses| - 1;
      var rest := VouchMap(assets, statuses[..k]);
      if statuses[k].integrity == Verified then rest[assets[k].id := assets[k].sha256] else rest
  }

  ghost predicate VerifiedAt(assets: seq<Asset>, statuses: seq<AssetStatus>, k: int, id: string) {
    0 <= k < |statuses| && k < |assets| && statuses[k].integrity == Verified && assets[k].id == id
  }

  /** With duplicate ids the last verified asset under an id speaks for it. */
  lemma {:induction false} VouchMapIsLastVerified(assets: seq<Asset>, statuses: seq<AssetStatus>, id: string)
    requires |statuses| <= |assets|
    ensures id in VouchMap(assets, statuses) <==> exists k :: VerifiedAt(assets, statuses, k, id)
    ensures id in VouchMap(assets, statuses) ==>
              exists k :: VerifiedAt(assets, statuses, k, id) && VouchMap(assets, statuses)[id] == assets[k].sha256
                          && forall j :: k < j ==> !VerifiedAt(assets, statuses, j, id)
    decreases |statuses|
  {
    if statuses != [] {
      var n := |statuses| - 1;
      var shorter := statuses[..n];
      VouchMapIsLastVerified(assets, shorter, id);
      forall k | 0 <= k < n ensures VerifiedAt(assets, statuses, k, id) <==> VerifiedAt(assets, shorter, k, id) {
      }
      assert VouchMap(assets, statuses) ==
        if statuses[n].integrity == Verified then VouchMap(assets, shorter)[assets[n].id := assets[n].sha256]
        else VouchMap(assets, shorter);
      if VerifiedAt(assets, statuses, n, id) {
      } else if id in VouchMap(assets, shorter) {
        var k :| VerifiedAt(assets, shorter, k, id) && VouchMap(assets, shorter)[id] == assets[k].sha256
                 && forall j :: k < j ==> !VerifiedAt(assets, shorter, j, id);
        assert VerifiedAt(assets, statuses, k, id);
        forall j | k < j ensures !VerifiedAt(assets, statuses, j, id) {
          if j < n { assert !VerifiedAt(assets, shorter, j, id); }
        }
      }
    }
  }

  ghost predicate UniqueIds(assets: seq<Asset>) {
    forall i, j :: 0 <= i < j < |assets| ==> assets[i].id != assets[j].id
  }

  /** The pass verified an asset with this id and this hash. */
  ghost predicate PassVerified(snapshot: seq<Asset>, statuses: seq<AssetStatus>, a: Asset) {
    exists k :: VerifiedAt(snapshot, statuses, k, a.id) && snapshot[k].sha256 == a.sha256
  }

  /** The last asset the pass verified under this id had this hash. */
  ghost predicate LastVerified(snapshot: seq<Asset>, statuses: seq<AssetStatus>, a: Asset) {
    exists k :: LastVerifiedAt(snapshot, statuses, k, a.id) && snapshot[k].sha256 == a.sha256
  }

  ghost predicate LastVerifiedAt(snapshot: seq<Asset>, statuses: seq<AssetStatus>, k: int, id: string) {
    VerifiedAt(snapshot, statuses, k, id) && forall j :: k < j ==> !VerifiedAt(snapshot, statuses, j, id)
  }

  lemma VouchedIsLastVerified(snapshot: seq<Asset>, statuses: seq<AssetStatus>, a: Asset)
    requires |statuses| == |snapshot|
    ensures Vouched(VouchMap(snapshot, statuses), a) <==> LastVerified(snapshot, statuses, a)
  {
    hide VouchMap;
    VouchMapIsLastVerified(snapshot, statuses, a.id);
    if a.id in VouchMap(snapshot, statuses) {
      var k :| VerifiedAt(snapshot, statuses, k, a.id) && VouchMap(snapshot, statuses)[a.id] == snapshot[k].sha256
               && forall j :: k < j ==> !VerifiedAt(snapshot, statuses, j, a.id);
      assert LastVerifiedAt(snapshot, statuses, k, a.id);
      forall i | LastVerifiedAt(snapshot, statuses, i, a.id) ensures i == k {
      }
    }
  }

  /** Where ids are unique there is no later one: any verified one is the last. */
  lemma UniqueIsLast(snapshot: seq<Asset>, statuses: seq<AssetStatus>, a: Asset)
    requires UniqueIds(snapshot)
    ensures LastVerified(snapshot, statuses, a) <==> PassVerified(snapshot, statuses, a)
  {
    if PassVerified(snapshot, statuses, a) {
      var k :| VerifiedAt(snapshot, statuses, k, a.id) && snapshot[k].sha256 == a.sha256;
      assert LastVerifiedAt(snapshot, statuses, k, a.id);
    }
  }

  /** The stamp against a stale snapshot. Whatever that snapshot was and whatever happened
      since, the locked stamp marks exactly the current assets whose hash is the one the
      pass last verified under their id, changes nothing else in them or in the manifest,
      and writes only if it marked one. Where the snapshot's ids are unique, that is every
      asset whose id and hash the pass verified. */
  lemma StampIsExact(snapshot: seq<Asset>, statuses: seq<AssetStatus>, m: Manifest, r: Request)
    requires |statuses| == |snapshot|
    requires r.StampRequest? && r.verified == VouchMap(snapshot, statuses)
    ensures DecideStamp(m, r).outcome == Checked(r.statuses, r.records)
    ensures DecideStamp(m, r).Put? <==> exists i :: 0 <= i < |m.assets| && LastVerified(snapshot, statuses, m.assets[i])
    ensures DecideStamp(m, r).Put? ==>
              var n := DecideStamp(m, r).manifest;
              && n == m.(assets := n.assets) && |n.assets| == |m.assets|
              && forall i :: 0 <= i < |m.assets| ==>
                   n.assets[i] == if LastVerified(snapshot, statuses, m.assets[i])
                                  then m.assets[i].(lastVerified := Some(r.now)) else m.assets[i]
    ensures UniqueIds(snapshot) ==>
              forall i :: 0 <= i < |m.assets| ==>
                (LastVerified(snapshot, statuses, m.assets[i]) <==> PassVerified(snapshot, statuses, m.assets[i]))
  {
    hide LastVerified, PassVerified, VouchMap;
    forall i | 0 <= i < |m.assets|
      ensures Vouched(r.verified, m.assets[i]) <==> LastVerified(snapshot, statuses, m.assets[i])
    {
      VouchedIsLastVerified(snapshot, statuses, m.assets[i]);
    }
    if UniqueIds(snapshot) {
      forall i | 0 <= i < |m.assets|
        ensures LastVerified(snapshot, statuses, m.assets[i]) <==> PassVerified(snapshot, statuses, m.assets[i])
      {
        UniqueIsLast(snapshot, statuses, m.assets[i]);
      }
    }
  }
}
