/** What the codec promises: reading undoes writing, accepted trees have a normal form,
    and nothing outside the schema's shape gets in. */
module CodecLaws {
  import opened Wrappers
  import opened Json
  import opened Manifests
  import opened Codec

  lemma FieldNamesDistinct()
    ensures DistinctStrings(MANIFEST_FIELDS) && DistinctStrings(PROJECT_FIELDS) && DistinctStrings(ASSET_FIELDS)
    ensures DistinctStrings(DERIVATION_FIELDS) && DistinctStrings(REF_FIELDS) && DistinctStrings(EVALUATION_FIELDS)
  {
  }

  // ---------------------------------------------------------------- reading back

  lemma ProjectReadsBack(p: Project)
    ensures DecodeProject(EncodeProject(p)) == Some(p)
  {
    FieldNamesDistinct();
    SlotsReadBack(PROJECT_FIELDS, ProjectSlots(p));
  }

  lemma AssetSlotsReadBack(a: Asset)
    ensures AssetOfSlots(AssetSlots(a)) == Some(a)
  {
  }

  lemma AssetReadsBack(a: Asset)
    ensures DecodeAsset(EncodeAsset(a)) == Some(a)
  {
    FieldNamesDistinct();
    AssetSlotsReadBack(a);
    SlotsReadBack(ASSET_FIELDS, AssetSlots(a));
  }

  lemma JobRefReadsBack(j: JobRef)
    ensures DecodeJobRef(EncodeJobRef(j)) == Some(j)
  {
    FieldNamesDistinct();
    SlotsReadBack(REF_FIELDS, [Some(Str(j.path)), Some(Str(j.sha256)), OfOptObject(j.ext)]);
  }

  lemma RecordRefReadsBack(r: RecordRef)
    ensures DecodeRecordRef(EncodeRecordRef(r)) == Some(r)
  {
    FieldNamesDistinct();
    SlotsReadBack(REF_FIELDS, [Some(Str(r.path)), Some(Str(r.sha256)), OfOptObject(r.ext)]);
  }

  lemma DerivationSlotsReadBack(d: Derivation)
    ensures DerivationOfSlots(DerivationSlots(d)) == Some(d)
  {
    StringsReadBack(d.inputs);
    StringsReadBack(d.outputs);
    if d.job.Some? { JobRefReadsBack(d.job.value); }
  }

  lemma DerivationReadsBack(d: Derivation)
    ensures DecodeDerivation(EncodeDerivation(d)) == Some(d)
  {
    FieldNamesDistinct();
    DerivationSlotsReadBack(d);
    SlotsReadBack(DERIVATION_FIELDS, DerivationSlots(d));
  }

  lemma EvaluationSlotsReadBack(e: Evaluation)
    ensures EvaluationOfSlots(EvaluationSlots(e)) == Some(e) <==> e.confidence != Some(Null)
  {
    StringsReadBack(e.candidates);
    RecordRefReadsBack(e.record);
  }

  /** An evaluation reads back exactly when its confidence is not an explicit `null`. */
  lemma EvaluationReadsBack(e: Evaluation)
    ensures DecodeEvaluation(EncodeEvaluation(e)) == Some(e) <==> e.confidence != Some(Null)
  {
    FieldNamesDistinct();
    EvaluationSlotsReadBack(e);
    SlotsReadBack(EVALUATION_FIELDS, EvaluationSlots(e));
  }

  /** What the reader demands beyond the types: the schema URL, slug `ext` keys, and no
      explicit `null` confidence. */
  ghost predicate Storable(m: Manifest) {
    && m.schema == SCHEMA_URL
    && ExtsOk(m)
    && forall i :: 0 <= i < |m.evaluations| ==> m.evaluations[i].confidence != Some(Null)
  }

  lemma ManifestSlotsReadBack(m: Manifest)
    requires forall i :: 0 <= i < |m.evaluations| ==> m.evaluations[i].confidence != Some(Null)
    ensures ManifestOfSlots(ManifestSlots(m)) == Some(m)
  {
    ProjectReadsBack(m.project);
    forall i | 0 <= i < |m.assets| ensures DecodeAsset(EncodeAsset(m.assets[i])) == Some(m.assets[i]) {
      AssetReadsBack(m.assets[i]);
    }
    forall i | 0 <= i < |m.derivations|
      ensures DecodeDerivation(EncodeDerivation(m.derivations[i])) == Some(m.derivations[i])
    {
      DerivationReadsBack(m.derivations[i]);
    }
    forall i | 0 <= i < |m.evaluations|
      ensures DecodeEvaluation(EncodeEvaluation(m.evaluations[i])) == Some(m.evaluations[i])
    {
      EvaluationReadsBack(m.evaluations[i]);
    }
    ListReadsBack(m.assets, EncodeAsset, DecodeAsset);
    ListReadsBack(m.derivations, EncodeDerivation, DecodeDerivation);
    ListReadsBack(m.evaluations, EncodeEvaluation, DecodeEvaluation);
    assert ManifestSlots(m)[0] == Some(Str(m.schema));
  }

  lemma ManifestReadsBack(m: Manifest)
    requires forall i :: 0 <= i < |m.evaluations| ==> m.evaluations[i].confidence != Some(Null)
    ensures Decode(Encode(m)) == Some(m)
    ensures SchemaOf(Encode(m)) == Some(m.schema)
  {
    FieldNamesDistinct();
    ManifestSlotsReadBack(m);
    SlotsReadBack(MANIFEST_FIELDS, ManifestSlots(m));
    SchemaSlot(Encode(m));
    assert ManifestSlots(m)[0] == Some(Str(m.schema));
  }

  lemma SchemaSlot(j: Json)
    requires j.Obj? && ClosedSlots(j, MANIFEST_FIELDS).Some?
    ensures SchemaOf(j) == AsString(ClosedSlots(j, MANIFEST_FIELDS).value[0])
  {
    assert MANIFEST_FIELDS[0] == "schema";
  }

  /** Whatever the strict reader accepts can be stored again. */
  lemma LoadedIsStorable(j: Json)
    ensures LoadTree(j).Ok? ==> Storable(LoadTree(j).value)
  {
    if LoadTree(j).Ok? {
      var m := LoadTree(j).value;
      WalkCoversEveryExt(m);
      DecodedSchema(j);
      DecodedConfidence(j);
    }
  }

  lemma DecodedSchema(j: Json)
    requires Decode(j).Some? && SchemaOf(j).Some?
    ensures Decode(j).value.schema == SchemaOf(j).value
  {
    SchemaSlot(j);
  }

  lemma DecodedConfidence(j: Json)
    requires Decode(j).Some?
    ensures forall i :: 0 <= i < |Decode(j).value.evaluations| ==> Decode(j).value.evaluations[i].confidence != Some(Null)
  {
    hide DecodeProject, DecodeAsset, DecodeDerivation, DecodeEvaluation;
    var items := ClosedSlots(j, MANIFEST_FIELDS).value[4].value.items;
    forall i | 0 <= i < |items| ensures DecodeEvaluation(items[i]).value.confidence != Some(Null) {
      EvaluationNeverNull(items[i]);
    }
  }

  lemma EvaluationNeverNull(j: Json)
    requires DecodeEvaluation(j).Some?
    ensures DecodeEvaluation(j).value.confidence != Some(Null)
  {
    NeverNull(ClosedSlots(j, EVALUATION_FIELDS).value);
  }

  lemma NeverNull(s: Slots)
    requires |s| == 7 && EvaluationOfSlots(s).Some?
    ensures EvaluationOfSlots(s).value.confidence != Some(Null)
  {
  }

  /** Reading what was written gives back exactly what was written, for the storable
      manifests and for no others. */
  lemma TreeRoundTrip(m: Manifest)
    ensures LoadTree(Encode(m)) == Ok(m) <==> Storable(m)
  {
    if Storable(m) {
      ManifestReadsBack(m);
      WalkCoversEveryExt(m);
    } else if LoadTree(Encode(m)) == Ok(m) {
      LoadedIsStorable(Encode(m));
    }
  }

  /** Normal form: rewriting an accepted tree loses nothing, and rewriting again changes nothing. */
  lemma NormalForm(j: Json)
    requires LoadTree(j).Ok?
    ensures LoadTree(Encode(LoadTree(j).value)) == LoadTree(j)
  {
    LoadedIsStorable(j);
    TreeRoundTrip(LoadTree(j).value);
  }

  // ---------------------------------------------------------------- the closed shape

  /** No object holds a key outside its field list. */
  ghost predicate ClosedTo(j: Json, names: seq<string>) {
    j.Obj? ==> forall i :: 0 <= i < |j.entries| ==> j.entries[i].key in names
  }

  /** An object, or a positional array, of these fields and no others. */
  ghost predicate Fielded(j: Json, names: seq<string>) {
    ClosedTo(j, names) && ClosedSlots(j, names).Some?
  }

  /** Absent and `null` alike. */
  predicate Blank(slot: Option<Json>) {
    slot == None || slot == Some(Null)
  }

  /** A required text stands in the slot as it is. */
  predicate Says(slot: Option<Json>, text: string) {
    slot == Some(Str(text))
  }

  /** An optional text. */
  predicate MaySay(slot: Option<Json>, text: Option<string>) {
    if text.Some? then Says(slot, text.value) else Blank(slot)
  }

  /** A list of texts, in order. */
  predicate Lists(slot: Option<Json>, texts: seq<string>) {
    slot == Some(OfStrings(texts))
  }

  /** An `ext` or `params` subtree is carried entry for entry, in order. */
  predicate Carried(slot: Option<Json>, kept: Option<seq<Entry>>) {
    if kept.Some? then slot == Some(Obj(kept.value)) else Blank(slot)
  }

  ghost predicate RefFrom(j: Json, path: string, sha256: string, ext: Ext) {
    var names := ["path", "sha256", "ext"];
    && Fielded(j, names)
    && var s := ClosedSlots(j, names).value;
    && Says(s[0], path) && Says(s[1], sha256) && Carried(s[2], ext)
  }

  ghost predicate ProjectFrom(j: Json, p: Project) {
    var names := ["id", "name", "created_at", "ext"];
    Fielded(j, names) && ProjectFromSlots(ClosedSlots(j, names).value, p)
  }

  ghost predicate ProjectFromSlots(s: Slots, p: Project)
    requires |s| == 4
  {
    && Says(s[0], p.id) && Says(s[1], p.name) && Says(s[2], p.createdAt) && Carried(s[3], p.ext)
  }

  ghost predicate AssetFrom(j: Json, a: Asset) {
    var names := ["id", "path", "sha256", "size", "role", "added_at", "last_verified", "ext"];
    Fielded(j, names) && AssetFromSlots(ClosedSlots(j, names).value, a)
  }

  ghost predicate AssetFromSlots(s: Slots, a: Asset)
    requires |s| == 8
  {
    && Says(s[0], a.id) && Says(s[1], a.path) && Says(s[2], a.sha256)
    && s[3] == Some(Num(UInt(a.size)))
    && Says(s[4], a.role) && Says(s[5], a.addedAt) && MaySay(s[6], a.lastVerified) && Carried(s[7], a.ext)
  }

  ghost predicate DerivationFrom(j: Json, d: Derivation) {
    var names := ["id", "inputs", "outputs", "tool", "tool_version", "params", "created_at", "job", "ext"];
    Fielded(j, names) && DerivationFromSlots(ClosedSlots(j, names).value, d)
  }

  ghost predicate DerivationFromSlots(s: Slots, d: Derivation)
    requires |s| == 9
  {
    && Says(s[0], d.id) && Lists(s[1], d.inputs) && Lists(s[2], d.outputs) && Says(s[3], d.tool)
    && MaySay(s[4], d.toolVersion) && Carried(s[5], d.params) && Says(s[6], d.createdAt)
    && JobRefFrom(s[7], d.job) && Carried(s[8], d.ext)
  }

  ghost predicate JobRefFrom(slot: Option<Json>, job: Option<JobRef>) {
    if job.Some? then
      slot.Some? && slot.value != Null && RefFrom(slot.value, job.value.path, job.value.sha256, job.value.ext)
    else Blank(slot)
  }

  ghost predicate EvaluationFrom(j: Json, e: Evaluation) {
    var names := ["id", "candidates", "preference", "confidence", "created_at", "record", "ext"];
    Fielded(j, names) && EvaluationFromSlots(ClosedSlots(j, names).value, e)
  }

  /** In particular the `preference` slot is filled: leaving the key out is refused. */
  ghost predicate EvaluationFromSlots(s: Slots, e: Evaluation)
    requires |s| == 7
  {
    && Says(s[0], e.id) && Lists(s[1], e.candidates)
    && s[2] == Some(if e.preference.Some? then Str(e.preference.value) else Null)
    && (if e.confidence.Some? then s[3] == e.confidence && !Blank(s[3]) else Blank(s[3]))
    && Says(s[4], e.createdAt)
    && s[5].Some? && RefFrom(s[5].value, e.record.path, e.record.sha256, e.record.ext)
    && Carried(s[6], e.ext)
  }

  lemma ListsReads(slot: Option<Json>, texts: seq<string>)
    ensures AsStrings(slot) == Some(texts) <==> Lists(slot, texts)
  {
    StringsReadBack(texts);
    if AsStrings(slot) == Some(texts) {
      assert slot.value.items == OfStrings(texts).items;
    }
  }

  lemma ProjectIsFrom(j: Json, p: Project)
    ensures DecodeProject(j) == Some(p) <==> ProjectFrom(j, p)
  {
    hide ProjectOfSlots, ProjectFromSlots;
    if ClosedSlots(j, PROJECT_FIELDS).Some? { ProjectIsFromSlots(ClosedSlots(j, PROJECT_FIELDS).value, p); }
  }

  lemma ProjectIsFromSlots(s: Slots, p: Project)
    requires |s| == 4
    ensures ProjectOfSlots(s) == Some(p) <==> ProjectFromSlots(s, p)
  {
  }

  lemma AssetIsFromSlots(s: Slots, a: Asset)
    requires |s| == 8
    ensures AssetOfSlots(s) == Some(a) <==> AssetFromSlots(s, a)
  {
  }

  lemma AssetIsFrom(j: Json, a: Asset)
    ensures DecodeAsset(j) == Some(a) <==> AssetFrom(j, a)
  {
    hide AssetOfSlots, AssetFromSlots;
    if ClosedSlots(j, ASSET_FIELDS).Some? { AssetIsFromSlots(ClosedSlots(j, ASSET_FIELDS).value, a); }
  }

  lemma RefIsFrom(j: Json, path: string, sha256: string, ext: Ext)
    ensures DecodeJobRef(j) == Some(JobRef(path, sha256, ext)) <==> RefFrom(j, path, sha256, ext)
    ensures DecodeRecordRef(j) == Some(RecordRef(path, sha256, ext)) <==> RefFrom(j, path, sha256, ext)
  {
  }

  lemma JobIsFrom(slot: Option<Json>, job: Option<JobRef>)
    ensures AsOptJobRef(slot) == Some(job) <==> JobRefFrom(slot, job)
  {
    hide DecodeJobRef, RefFrom;
    if slot.Some? && job.Some? { RefIsFrom(slot.value, job.value.path, job.value.sha256, job.value.ext); }
  }

  lemma DerivationIsFromSlots(s: Slots, d: Derivation)
    requires |s| == 9
    ensures DerivationOfSlots(s) == Some(d) <==> DerivationFromSlots(s, d)
  {
    hide AsOptJobRef, JobRefFrom, AsStrings, Lists;
    ListsReads(s[1], d.inputs);
    ListsReads(s[2], d.outputs);
    JobIsFrom(s[7], d.job);
  }

  lemma DerivationIsFrom(j: Json, d: Derivation)
    ensures DecodeDerivation(j) == Some(d) <==> DerivationFrom(j, d)
  {
    hide DerivationOfSlots, DerivationFromSlots;
    if ClosedSlots(j, DERIVATION_FIELDS).Some? {
      DerivationIsFromSlots(ClosedSlots(j, DERIVATION_FIELDS).value, d);
    }
  }

  lemma EvaluationIsFromSlots(s: Slots, e: Evaluation)
    requires |s| == 7
    ensures EvaluationOfSlots(s) == Some(e) <==> EvaluationFromSlots(s, e)
  {
    hide DecodeRecordRef, RefFrom, AsStrings, Lists;
    ListsReads(s[1], e.candidates);
    if s[5].Some? { RefIsFrom(s[5].value, e.record.path, e.record.sha256, e.record.ext); }
  }

  lemma EvaluationIsFrom(j: Json, e: Evaluation)
    ensures DecodeEvaluation(j) == Some(e) <==> EvaluationFrom(j, e)
  {
    hide EvaluationOfSlots, EvaluationFromSlots;
    if ClosedSlots(j, EVALUATION_FIELDS).Some? {
      EvaluationIsFromSlots(ClosedSlots(j, EVALUATION_FIELDS).value, e);
    }
  }

  /** An array with one item for each. */
  predicate Items(slot: Option<Json>, n: nat) {
    slot.Some? && slot.value.Arr? && |slot.value.items| == n
  }

  lemma ItemsRead<T>(slot: Option<Json>, read: Json -> Option<T>, xs: seq<T>)
    ensures AsList(slot, read) == Some(xs) <==>
              Items(slot, |xs|) && forall i :: 0 <= i < |xs| ==> read(slot.value.items[i]) == Some(xs[i])
  {
    if Items(slot, |xs|) && forall i :: 0 <= i < |xs| ==> read(slot.value.items[i]) == Some(xs[i]) {
      assert AsList(slot, read).value == xs;
    }
  }

  /** Every field of the manifest is the slot of its name. */
  ghost predicate ManifestFrom(s: Slots, m: Manifest)
    requires |s| == 6
  {
    && Says(s[0], m.schema)
    && s[1].Some? && ProjectFrom(s[1].value, m.project)
    && Items(s[2], |m.assets|) && Items(s[3], |m.derivations|) && Items(s[4], |m.evaluations|)
    && (forall i :: 0 <= i < |m.assets| ==> AssetFrom(s[2].value.items[i], m.assets[i]))
    && (forall i :: 0 <= i < |m.derivations| ==> DerivationFrom(s[3].value.items[i], m.derivations[i]))
    && (forall i :: 0 <= i < |m.evaluations| ==> EvaluationFrom(s[4].value.items[i], m.evaluations[i]))
    && Carried(s[5], m.ext)
  }

  lemma ManifestIsFrom(s: Slots, m: Manifest)
    requires |s| == 6
    ensures ManifestOfSlots(s) == Some(m) <==> ManifestFrom(s, m)
  {
    hide DecodeProject, ProjectFrom, DecodeAsset, AssetFrom, DecodeDerivation, DerivationFrom, DecodeEvaluation,
         EvaluationFrom, AsList;
    if s[1].Some? { ProjectIsFrom(s[1].value, m.project); }
    ItemsRead(s[2], DecodeAsset, m.assets);
    ItemsRead(s[3], DecodeDerivation, m.derivations);
    ItemsRead(s[4], DecodeEvaluation, m.evaluations);
    if Items(s[2], |m.assets|) {
      forall i | 0 <= i < |m.assets| { AssetIsFrom(s[2].value.items[i], m.assets[i]); }
    }
    if Items(s[3], |m.derivations|) {
      forall i | 0 <= i < |m.derivations| { DerivationIsFrom(s[3].value.items[i], m.derivations[i]); }
    }
    if Items(s[4], |m.evaluations|) {
      forall i | 0 <= i < |m.evaluations| { EvaluationIsFrom(s[4].value.items[i], m.evaluations[i]); }
    }
  }

  /** The tree has a manifest's shape, and this manifest is what it says: an object, closed
      at every level, whose every field is the manifest's field of that name, a `preference`
      stated in every evaluation, each opaque subtree entry for entry. */
  ghost predicate Shaped(j: Json, m: Manifest) {
    var names := ["schema", "project", "assets", "derivations", "evaluations", "ext"];
    Fielded(j, names) && ManifestFrom(ClosedSlots(j, names).value, m)
  }

  /** A tree decodes to a manifest if and only if it has that manifest's shape. */
  lemma DecodesShaped(j: Json, m: Manifest)
    ensures Decode(j) == Some(m) <==> Shaped(j, m)
  {
    hide ManifestOfSlots, ManifestFrom;
    assert MANIFEST_FIELDS == ["schema", "project", "assets", "derivations", "evaluations", "ext"];
    if ClosedSlots(j, MANIFEST_FIELDS).Some? { ManifestIsFrom(ClosedSlots(j, MANIFEST_FIELDS).value, m); }
  }

  /** What acceptance means, both ways: a tree loads as this manifest if and only if it is an
      object of its shape with the exact schema URL and only slugs for `ext` keys. One stray
      key anywhere refuses the whole tree. */
  lemma AcceptedTree(j: Json, m: Manifest)
    ensures LoadTree(j) == Ok(m) <==>
              && j.Obj? && Shaped(j, m) && ExtsOk(m)
              && m.schema == "https://uncompose.org/schemas/project/v0/uncompose.project.schema.json"
  {
    hide ManifestOfSlots, ManifestFrom, FirstBad, ExtSites, ExtsOk;
    WalkCoversEveryExt(m);
    DecodesShaped(j, m);
    if ClosedSlots(j, MANIFEST_FIELDS).Some? {
      FromSchema(ClosedSlots(j, MANIFEST_FIELDS).value, m);
      if j.Obj? { SchemaSlot(j); }
    }
  }

  lemma FromSchema(s: Slots, m: Manifest)
    requires |s| == 6
    ensures ManifestFrom(s, m) ==> AsString(s[0]) == Some(m.schema)
  {
  }

  // ---------------------------------------------------------------- the order written

  /** The object's keys are among these, each at most once, in this order. */
  ghost predicate WrittenInOrder(j: Json, names: seq<string>) {
    && j.Obj? && ClosedTo(j, names)
    && forall a, b :: 0 <= a < b < |j.entries| ==> Precedes(names, j.entries[a].key, j.entries[b].key)
  }

  ghost predicate Precedes(names: seq<string>, s: string, t: string) {
    exists i, k :: 0 <= i < k < |names| && names[i] == s && names[k] == t
  }

  lemma CompactIsInOrder(names: seq<string>, slots: Slots)
    requires |slots| == |names|
    ensures WrittenInOrder(Obj(Compact(names, slots)), names)
  {
    hide Compact;
    var all := Compact(names, slots);
    forall k | 0 <= k < |all| ensures all[k].key in names {
      CompactEntries(names, slots);
      assert all[k] in all;
      var i :| 0 <= i < |names| && slots[i] == Some(all[k].value) && all[k].key == names[i];
    }
    forall a, b | 0 <= a < b < |all| ensures Precedes(names, all[a].key, all[b].key) {
      var i, k := CompactInOrder(names, slots, a, b);
    }
  }

  /** Every object is written with its fields in the one canonical order. */
  lemma FieldOrder(m: Manifest, a: Asset, d: Derivation, job: JobRef, e: Evaluation, record: RecordRef)
    ensures WrittenInOrder(Encode(m), ["schema", "project", "assets", "derivations", "evaluations", "ext"])
    ensures WrittenInOrder(EncodeProject(m.project), ["id", "name", "created_at", "ext"])
    ensures WrittenInOrder(EncodeAsset(a), ["id", "path", "sha256", "size", "role", "added_at", "last_verified", "ext"])
    ensures WrittenInOrder(EncodeDerivation(d),
                    ["id", "inputs", "outputs", "tool", "tool_version", "params", "created_at", "job", "ext"])
    ensures WrittenInOrder(EncodeJobRef(job), ["path", "sha256", "ext"])
    ensures WrittenInOrder(EncodeEvaluation(e), ["id", "candidates", "preference", "confidence", "created_at", "record", "ext"])
    ensures WrittenInOrder(EncodeRecordRef(record), ["path", "sha256", "ext"])
  {
    hide WrittenInOrder;
    CompactIsInOrder(MANIFEST_FIELDS, ManifestSlots(m));
    CompactIsInOrder(PROJECT_FIELDS, ProjectSlots(m.project));
    CompactIsInOrder(ASSET_FIELDS, AssetSlots(a));
    CompactIsInOrder(DERIVATION_FIELDS, DerivationSlots(d));
    CompactIsInOrder(REF_FIELDS, [Some(Str(job.path)), Some(Str(job.sha256)), OfOptObject(job.ext)]);
    CompactIsInOrder(EVALUATION_FIELDS, EvaluationSlots(e));
    CompactIsInOrder(REF_FIELDS, [Some(Str(record.path)), Some(Str(record.sha256)), OfOptObject(record.ext)]);
  }

  // ---------------------------------------------------------------- nesting

  ghost predicate ExtSane(ext: Option<seq<Entry>>, depth: nat) {
    ext.Some? ==> Sane(Obj(ext.value), depth)
  }

  lemma ProjectSane(p: Project, depth: nat)
    ensures Sane(EncodeProject(p), depth) <==> depth > 0 && ExtSane(p.ext, depth - 1)
  {
    FieldNamesDistinct();
    CompactSane(PROJECT_FIELDS, ProjectSlots(p), depth);
    if depth > 0 {
      var s := ProjectSlots(p);
      assert s[3] == OfOptObject(p.ext);
      assert forall i :: 0 <= i < |s| && i != 3 ==> s[i].Some? ==> Sane(s[i].value, depth - 1);
    }
  }

  ghost predicate AssetNests(a: Asset, depth: nat) {
    depth > 0 && ExtSane(a.ext, depth - 1)
  }

  lemma AssetSane(a: Asset, depth: nat)
    ensures Sane(EncodeAsset(a), depth) <==> AssetNests(a, depth)
  {
    FieldNamesDistinct();
    CompactSane(ASSET_FIELDS, AssetSlots(a), depth);
    if depth > 0 {
      var s := AssetSlots(a);
      assert s[7] == OfOptObject(a.ext);
      assert forall i :: 0 <= i < |s| && i != 7 ==> s[i].Some? ==> Sane(s[i].value, depth - 1);
    }
  }

  lemma RefSane(path: string, sha256: string, ext: Ext, depth: nat)
    ensures Sane(Obj(Compact(REF_FIELDS, [Some(Str(path)), Some(Str(sha256)), OfOptObject(ext)])), depth)
       <==> depth > 0 && ExtSane(ext, depth - 1)
  {
    FieldNamesDistinct();
    var s: Slots := [Some(Str(path)), Some(Str(sha256)), OfOptObject(ext)];
    CompactSane(REF_FIELDS, s, depth);
    if depth > 0 {
      assert s[2] == OfOptObject(ext);
      assert forall i :: 0 <= i < |s| && i != 2 ==> s[i].Some? ==> Sane(s[i].value, depth - 1);
    }
  }

  ghost predicate DerivationNests(d: Derivation, depth: nat) {
    && depth > 1
    && ExtSane(d.params, depth - 1)
    && ExtSane(d.ext, depth - 1)
    && (d.job.Some? ==> ExtSane(d.job.value.ext, depth - 2))
  }

  lemma DerivationSane(d: Derivation, depth: nat)
    ensures Sane(EncodeDerivation(d), depth) <==> DerivationNests(d, depth)
  {
    FieldNamesDistinct();
    CompactSane(DERIVATION_FIELDS, DerivationSlots(d), depth);
    var s := DerivationSlots(d);
    assert s[1] == Some(OfStrings(d.inputs));
    if depth > 1 {
      if d.job.Some? { RefSane(d.job.value.path, d.job.value.sha256, d.job.value.ext, depth - 1); }
      assert s[5] == OfOptObject(d.params) && s[8] == OfOptObject(d.ext);
      assert s[7] == if d.job.Some? then Some(EncodeJobRef(d.job.value)) else None;
      assert forall i :: 0 <= i < |s| && i !in {5, 7, 8} ==> s[i].Some? ==> Sane(s[i].value, depth - 1);
    } else {
      assert !Sane(OfStrings(d.inputs), 0);
    }
  }

  ghost predicate EvaluationNests(e: Evaluation, depth: nat) {
    && depth > 1
    && (e.confidence.Some? ==> Sane(e.confidence.value, depth - 1))
    && ExtSane(e.ext, depth - 1)
    && ExtSane(e.record.ext, depth - 2)
  }

  lemma EvaluationSane(e: Evaluation, depth: nat)
    ensures Sane(EncodeEvaluation(e), depth) <==> EvaluationNests(e, depth)
  {
    FieldNamesDistinct();
    CompactSane(EVALUATION_FIELDS, EvaluationSlots(e), depth);
    var s := EvaluationSlots(e);
    assert s[1] == Some(OfStrings(e.candidates));
    if depth > 1 {
      RefSane(e.record.path, e.record.sha256, e.record.ext, depth - 1);
      assert s[3] == e.confidence && s[5] == Some(EncodeRecordRef(e.record)) && s[6] == OfOptObject(e.ext);
      assert forall i :: 0 <= i < |s| && i !in {3, 5, 6} ==> s[i].Some? ==> Sane(s[i].value, depth - 1);
    } else {
      assert !Sane(OfStrings(e.candidates), 0);
    }
  }

  /** How deep a manifest nests, part by part. */
  ghost predicate Nests(m: Manifest, depth: nat) {
    && depth > 1
    && ExtSane(m.ext, depth - 1)
    && ExtSane(m.project.ext, depth - 2)
    && (forall i :: 0 <= i < |m.assets| ==> AssetNests(m.assets[i], depth - 2))
    && (forall i :: 0 <= i < |m.derivations| ==> DerivationNests(m.derivations[i], depth - 2))
    && (forall i :: 0 <= i < |m.evaluations| ==> EvaluationNests(m.evaluations[i], depth - 2))
  }

  lemma ManifestSane(m: Manifest, depth: nat)
    ensures Sane(Encode(m), depth) <==> Nests(m, depth)
  {
    FieldNamesDistinct();
    CompactSane(MANIFEST_FIELDS, ManifestSlots(m), depth);
    if depth > 0 { ManifestSlotsSane(m, depth); }
  }

  lemma ManifestSlotsSane(m: Manifest, depth: nat)
    requires depth > 0
    ensures SlotsSane(ManifestSlots(m), depth - 1) <==> Nests(m, depth)
  {
    var s := ManifestSlots(m);
    assert s[1] == Some(EncodeProject(m.project));
    if depth > 1 {
      ProjectSane(m.project, depth - 1);
      assert s[5] == OfOptObject(m.ext);
      assert s[2] == Some(OfList(m.assets, EncodeAsset));
      assert s[3] == Some(OfList(m.derivations, EncodeDerivation));
      assert s[4] == Some(OfList(m.evaluations, EncodeEvaluation));
      AssetListSane(m.assets, depth - 1);
      DerivationListSane(m.derivations, depth - 1);
      EvaluationListSane(m.evaluations, depth - 1);
      assert SlotsSane(s, depth - 1) <==>
          && Sane(s[1].value, depth - 1) && Sane(s[2].value, depth - 1) && Sane(s[3].value, depth - 1)
          && Sane(s[4].value, depth - 1) && (s[5].Some? ==> Sane(s[5].value, depth - 1)) by {
        assert s[0] == Some(Str(m.schema));
      }
    } else {
      assert !Sane(EncodeProject(m.project), 0);
    }
  }

  lemma AssetListSane(xs: seq<Asset>, depth: nat)
    requires depth > 0
    ensures Sane(OfList(xs, EncodeAsset), depth) <==>
            forall i :: 0 <= i < |xs| ==> AssetNests(xs[i], depth - 1)
  {
    ListSane(xs, EncodeAsset, depth);
    forall i | 0 <= i < |xs| ensures Sane(EncodeAsset(xs[i]), depth - 1) <==> AssetNests(xs[i], depth - 1) {
      AssetSane(xs[i], depth - 1);
    }
  }

  lemma DerivationListSane(xs: seq<Derivation>, depth: nat)
    requires depth > 0
    ensures Sane(OfList(xs, EncodeDerivation), depth) <==>
            forall i :: 0 <= i < |xs| ==> DerivationNests(xs[i], depth - 1)
  {
    ListSane(xs, EncodeDerivation, depth);
    forall i | 0 <= i < |xs| ensures Sane(EncodeDerivation(xs[i]), depth - 1) <==> DerivationNests(xs[i], depth - 1) {
      DerivationSane(xs[i], depth - 1);
    }
  }

  lemma EvaluationListSane(xs: seq<Evaluation>, depth: nat)
    requires depth > 0
    ensures Sane(OfList(xs, EncodeEvaluation), depth) <==>
            forall i :: 0 <= i < |xs| ==> EvaluationNests(xs[i], depth - 1)
  {
    ListSane(xs, EncodeEvaluation, depth);
    forall i | 0 <= i < |xs| ensures Sane(EncodeEvaluation(xs[i]), depth - 1) <==> EvaluationNests(xs[i], depth - 1) {
      EvaluationSane(xs[i], depth - 1);
    }
  }

  lemma ListSane<T>(xs: seq<T>, write: T -> Json, depth: nat)
    requires depth > 0
    ensures Sane(OfList(xs, write), depth) <==> forall i :: 0 <= i < |xs| ==> Sane(write(xs[i]), depth - 1)
  {
    var items := OfList(xs, write).items;
    assert forall i :: 0 <= i < |xs| ==> items[i] == write(xs[i]);
  }

  /** Rewriting never nests deeper than what was read. */
  lemma LoadedNests(j: Json, depth: nat)
    requires Sane(j, depth) && Decode(j).Some?
    ensures Nests(Decode(j).value, depth)
  {
    hide Nests, ManifestOfSlots;
    ReadSlotsSane(j, MANIFEST_FIELDS, depth);
    SlotsNest(ClosedSlots(j, MANIFEST_FIELDS).value, depth - 1);
  }

  lemma SlotsNest(s: Slots, depth: nat)
    requires |s| == 6 && SlotsSane(s, depth) && ManifestOfSlots(s).Some?
    ensures Nests(ManifestOfSlots(s).value, depth + 1)
  {
    ReadSlotsSane(s[1].value, PROJECT_FIELDS, depth);
    AssetItemsNest(s[2], depth);
    DerivationItemsNest(s[3], depth);
    EvaluationItemsNest(s[4], depth);
  }

  lemma AssetItemsNest(slot: Option<Json>, depth: nat)
    requires AsList(slot, DecodeAsset).Some? && Sane(slot.value, depth)
    ensures depth > 0
    ensures forall i :: 0 <= i < |slot.value.items| ==> AssetNests(AsList(slot, DecodeAsset).value[i], depth - 1)
  {
    forall i | 0 <= i < |slot.value.items| ensures AssetNests(AsList(slot, DecodeAsset).value[i], depth - 1) {
      ReadAssetNests(slot.value.items[i], depth - 1);
    }
  }

  lemma DerivationItemsNest(slot: Option<Json>, depth: nat)
    requires AsList(slot, DecodeDerivation).Some? && Sane(slot.value, depth)
    ensures depth > 0
    ensures forall i :: 0 <= i < |slot.value.items| ==> DerivationNests(AsList(slot, DecodeDerivation).value[i], depth - 1)
  {
    forall i | 0 <= i < |slot.value.items|
      ensures DerivationNests(AsList(slot, DecodeDerivation).value[i], depth - 1)
    {
      ReadDerivationNests(slot.value.items[i], depth - 1);
    }
  }

  lemma EvaluationItemsNest(slot: Option<Json>, depth: nat)
    requires AsList(slot, DecodeEvaluation).Some? && Sane(slot.value, depth)
    ensures depth > 0
    ensures forall i :: 0 <= i < |slot.value.items| ==> EvaluationNests(AsList(slot, DecodeEvaluation).value[i], depth - 1)
  {
    forall i | 0 <= i < |slot.value.items|
      ensures EvaluationNests(AsList(slot, DecodeEvaluation).value[i], depth - 1)
    {
      ReadEvaluationNests(slot.value.items[i], depth - 1);
    }
  }

  lemma ReadAssetNests(j: Json, depth: nat)
    requires Sane(j, depth) && DecodeAsset(j).Some?
    ensures AssetNests(DecodeAsset(j).value, depth)
  {
    hide AssetNests, AssetOfSlots;
    ReadSlotsSane(j, ASSET_FIELDS, depth);
    AssetSlotsNest(ClosedSlots(j, ASSET_FIELDS).value, depth - 1);
  }

  lemma AssetSlotsNest(s: Slots, depth: nat)
    requires |s| == 8 && SlotsSane(s, depth) && AssetOfSlots(s).Some?
    ensures AssetNests(AssetOfSlots(s).value, depth + 1)
  {
  }

  lemma ReadDerivationNests(j: Json, depth: nat)
    requires Sane(j, depth) && DecodeDerivation(j).Some?
    ensures DerivationNests(DecodeDerivation(j).value, depth)
  {
    hide DerivationNests, DerivationOfSlots;
    ReadSlotsSane(j, DERIVATION_FIELDS, depth);
    DerivationSlotsNest(ClosedSlots(j, DERIVATION_FIELDS).value, depth - 1);
  }

  lemma ReadEvaluationNests(j: Json, depth: nat)
    requires Sane(j, depth) && DecodeEvaluation(j).Some?
    ensures EvaluationNests(DecodeEvaluation(j).value, depth)
  {
    hide EvaluationNests, EvaluationOfSlots;
    ReadSlotsSane(j, EVALUATION_FIELDS, depth);
    EvaluationSlotsNest(ClosedSlots(j, EVALUATION_FIELDS).value, depth - 1);
  }

  lemma ReadJobRefNests(j: Json, depth: nat)
    requires Sane(j, depth) && DecodeJobRef(j).Some?
    ensures depth > 0 && ExtSane(DecodeJobRef(j).value.ext, depth - 1)
  {
    ReadSlotsSane(j, REF_FIELDS, depth);
  }

  lemma DerivationSlotsNest(s: Slots, depth: nat)
    requires |s| == 9 && SlotsSane(s, depth) && DerivationOfSlots(s).Some?
    ensures DerivationNests(DerivationOfSlots(s).value, depth + 1)
  {
    hide DecodeJobRef;
    assert Sane(s[1].value, depth);
    if s[7].Some? && s[7].value != Null { ReadJobRefNests(s[7].value, depth); }
  }

  lemma EvaluationSlotsNest(s: Slots, depth: nat)
    requires |s| == 7 && SlotsSane(s, depth) && EvaluationOfSlots(s).Some?
    ensures EvaluationNests(EvaluationOfSlots(s).value, depth + 1)
  {
    assert Sane(s[1].value, depth);
    ReadSlotsSane(s[5].value, REF_FIELDS, depth);
  }
}
