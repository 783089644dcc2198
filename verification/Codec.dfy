/** The strict reader and the canonical writer, at the level of JSON trees.

    Field lists are in declaration order, which is the order the writer emits and the
    order a positional array is read in. */
module Codec {
  import opened Wrappers
  import opened Slugs
  import opened Json
  import opened Manifests

  const MANIFEST_FIELDS := ["schema", "project", "assets", "derivations", "evaluations", "ext"]
  const PROJECT_FIELDS := ["id", "name", "created_at", "ext"]
  const ASSET_FIELDS := ["id", "path", "sha256", "size", "role", "added_at", "last_verified", "ext"]
  const DERIVATION_FIELDS := ["id", "inputs", "outputs", "tool", "tool_version", "params", "created_at", "job", "ext"]
  const REF_FIELDS := ["path", "sha256", "ext"]
  const EVALUATION_FIELDS := ["id", "candidates", "preference", "confidence", "created_at", "record", "ext"]

  // ---------------------------------------------------------------- writer

  function EncodeProject(p: Project): Json {
    Obj(Compact(PROJECT_FIELDS, ProjectSlots(p)))
  }

  function ProjectSlots(p: Project): Slots {
    [Some(Str(p.id)), Some(Str(p.name)), Some(Str(p.createdAt)), OfOptObject(p.ext)]
  }

  function EncodeAsset(a: Asset): Json {
    Obj(Compact(ASSET_FIELDS, AssetSlots(a)))
  }

  function AssetSlots(a: Asset): Slots {
    [Some(Str(a.id)), Some(Str(a.path)), Some(Str(a.sha256)), Some(Num(UInt(a.size))), Some(Str(a.role)),
     Some(Str(a.addedAt)), OfOptString(a.lastVerified), OfOptObject(a.ext)]
  }

  function EncodeJobRef(j: JobRef): Json {
    Obj(Compact(REF_FIELDS, [Some(Str(j.path)), Some(Str(j.sha256)), OfOptObject(j.ext)]))
  }

  function EncodeRecordRef(r: RecordRef): Json {
    Obj(Compact(REF_FIELDS, [Some(Str(r.path)), Some(Str(r.sha256)), OfOptObject(r.ext)]))
  }

  function EncodeDerivation(d: Derivation): Json {
    Obj(Compact(DERIVATION_FIELDS, DerivationSlots(d)))
  }

  function DerivationSlots(d: Derivation): Slots {
    [Some(Str(d.id)), Some(OfStrings(d.inputs)), Some(OfStrings(d.outputs)), Some(Str(d.tool)),
     OfOptString(d.toolVersion), OfOptObject(d.params), Some(Str(d.createdAt)),
     if d.job.Some? then Some(EncodeJobRef(d.job.value)) else None, OfOptObject(d.ext)]
  }

  function EncodeEvaluation(e: Evaluation): Json {
    Obj(Compact(EVALUATION_FIELDS, EvaluationSlots(e)))
  }

  /** `preference` is always written, as `null` when there is none. */
  function EvaluationSlots(e: Evaluation): Slots {
    [Some(Str(e.id)), Some(OfStrings(e.candidates)),
     Some(if e.preference.Some? then Str(e.preference.value) else Null),
     e.confidence, Some(Str(e.createdAt)), Some(EncodeRecordRef(e.record)), OfOptObject(e.ext)]
  }

  function Encode(m: Manifest): Json {
    Obj(Compact(MANIFEST_FIELDS, ManifestSlots(m)))
  }

  function ManifestSlots(m: Manifest): Slots {
    [Some(Str(m.schema)), Some(EncodeProject(m.project)), Some(OfList(m.assets, EncodeAsset)),
     Some(OfList(m.derivations, EncodeDerivation)), Some(OfList(m.evaluations, EncodeEvaluation)),
     OfOptObject(m.ext)]
  }

  // ---------------------------------------------------------------- reader

  function ProjectOfSlots(s: Slots): Option<Project>
    requires |s| == 4
  {
    var id, name, created, ext := AsString(s[0]), AsString(s[1]), AsString(s[2]), AsOptObject(s[3]);
    if id.Some? && name.Some? && created.Some? && ext.Some? then
      Some(Project(id.value, name.value, created.value, ext.value))
    else
      None
  }

  function DecodeProject(j: Json): Option<Project> {
    var slots := ClosedSlots(j, PROJECT_FIELDS);
    if slots.None? then None else ProjectOfSlots(slots.value)
  }

  function AssetOfSlots(s: Slots): Option<Asset>
    requires |s| == 8
  {
    var id, path, sha, size := AsString(s[0]), AsString(s[1]), AsString(s[2]), AsU64(s[3]);
    var role, added, verified, ext := AsString(s[4]), AsString(s[5]), AsOptString(s[6]), AsOptObject(s[7]);
    if id.Some? && path.Some? && sha.Some? && size.Some? && role.Some? && added.Some? && verified.Some? && ext.Some? then
      Some(Asset(id.value, path.value, sha.value, size.value, role.value, added.value, verified.value, ext.value))
    else
      None
  }

  function DecodeAsset(j: Json): Option<Asset> {
    var slots := ClosedSlots(j, ASSET_FIELDS);
    if slots.None? then None else AssetOfSlots(slots.value)
  }

  function JobRefOfSlots(s: Slots): Option<JobRef>
    requires |s| == 3
  {
    var path, sha, ext := AsString(s[0]), AsString(s[1]), AsOptObject(s[2]);
    if path.Some? && sha.Some? && ext.Some? then Some(JobRef(path.value, sha.value, ext.value)) else None
  }

  function DecodeJobRef(j: Json): Option<JobRef> {
    var slots := ClosedSlots(j, REF_FIELDS);
    if slots.None? then None else JobRefOfSlots(slots.value)
  }

  function RecordRefOfSlots(s: Slots): Option<RecordRef>
    requires |s| == 3
  {
    var path, sha, ext := AsString(s[0]), AsString(s[1]), AsOptObject(s[2]);
    if path.Some? && sha.Some? && ext.Some? then Some(RecordRef(path.value, sha.value, ext.value)) else None
  }

  function DecodeRecordRef(j: Json): Option<RecordRef> {
    var slots := ClosedSlots(j, REF_FIELDS);
    if slots.None? then None else RecordRefOfSlots(slots.value)
  }

  /** An optional nested job reference: absent and `null` read as none. */
  function AsOptJobRef(slot: Option<Json>): Option<Option<JobRef>> {
    match slot
    case None => Some(None)
    case Some(Null) => Some(None)
    case Some(j) => var r := DecodeJobRef(j); if r.Some? then Some(r) else None
  }

  function DerivationOfSlots(s: Slots): Option<Derivation>
    requires |s| == 9
  {
    var id, inputs, outputs, tool := AsString(s[0]), AsStrings(s[1]), AsStrings(s[2]), AsString(s[3]);
    var version, params, created := AsOptString(s[4]), AsOptObject(s[5]), AsString(s[6]);
    var job, ext := AsOptJobRef(s[7]), AsOptObject(s[8]);
    if id.Some? && inputs.Some? && outputs.Some? && tool.Some? && version.Some? && params.Some? && created.Some?
       && job.Some? && ext.Some? then
      Some(Derivation(id.value, inputs.value, outputs.value, tool.value, version.value, params.value,
                      created.value, job.value, ext.value))
    else
      None
  }

  function DecodeDerivation(j: Json): Option<Derivation> {
    var slots := ClosedSlots(j, DERIVATION_FIELDS);
    if slots.None? then None else DerivationOfSlots(slots.value)
  }

  /** `preference`: the key must be there, and `null` reads as none. */
  function AsRequiredNullable(slot: Option<Json>): Option<Option<string>> {
    if slot.None? then None else AsOptString(slot)
  }

  function EvaluationOfSlots(s: Slots): Option<Evaluation>
    requires |s| == 7
  {
    var id, candidates, preference := AsString(s[0]), AsStrings(s[1]), AsRequiredNullable(s[2]);
    var confidence, created := AsOptValue(s[3]), AsString(s[4]);
    var record := if s[5].Some? then DecodeRecordRef(s[5].value) else None;
    var ext := AsOptObject(s[6]);
    if id.Some? && candidates.Some? && preference.Some? && created.Some? && record.Some? && ext.Some? then
      Some(Evaluation(id.value, candidates.value, preference.value, confidence, created.value, record.value,
                      ext.value))
    else
      None
  }

  function DecodeEvaluation(j: Json): Option<Evaluation> {
    var slots := ClosedSlots(j, EVALUATION_FIELDS);
    if slots.None? then None else EvaluationOfSlots(slots.value)
  }

  function ManifestOfSlots(s: Slots): Option<Manifest>
    requires |s| == 6
  {
    var schema := AsString(s[0]);
    var project := if s[1].Some? then DecodeProject(s[1].value) else None;
    var assets, derivations := AsList(s[2], DecodeAsset), AsList(s[3], DecodeDerivation);
    var evaluations, ext := AsList(s[4], DecodeEvaluation), AsOptObject(s[5]);
    if schema.Some? && project.Some? && assets.Some? && derivations.Some? && evaluations.Some? && ext.Some? then
      Some(Manifest(schema.value, project.value, assets.value, derivations.value, evaluations.value, ext.value))
    else
      None
  }

  function Decode(j: Json): Option<Manifest> {
    var slots := ClosedSlots(j, MANIFEST_FIELDS);
    if slots.None? then None else ManifestOfSlots(slots.value)
  }

  // ---------------------------------------------------------------- the ext walk

  /** A place an `ext` object may stand, with the name its error gives it. */
  datatype ExtSite = ExtSite(owner: string, ext: Ext)

  function AssetSites(assets: seq<Asset>): seq<ExtSite> {
    seq(|assets|, i requires 0 <= i < |assets| => ExtSite("asset '" + assets[i].id + "'", assets[i].ext))
  }

  function DerivationSite(d: Derivation): seq<ExtSite> {
    [ExtSite("derivation '" + d.id + "'", d.ext)]
    + if d.job.Some? then [ExtSite("derivation '" + d.id + "' job", d.job.value.ext)] else []
  }

  function DerivationSites(ds: seq<Derivation>): seq<ExtSite> {
    if ds == [] then [] else DerivationSites(ds[..|ds| - 1]) + DerivationSite(ds[|ds| - 1])
  }

  function EvaluationSite(e: Evaluation): seq<ExtSite> {
    [ExtSite("evaluation '" + e.id + "'", e.ext), ExtSite("evaluation '" + e.id + "' record", e.record.ext)]
  }

  function EvaluationSites(es: seq<Evaluation>): seq<ExtSite> {
    if es == [] then [] else EvaluationSites(es[..|es| - 1]) + EvaluationSite(es[|es| - 1])
  }

  /** Every site, in the order the walk visits them. */
  function ExtSites(m: Manifest): seq<ExtSite> {
    [ExtSite("the manifest", m.ext), ExtSite("project", m.project.ext)]
    + AssetSites(m.assets) + DerivationSites(m.derivations) + EvaluationSites(m.evaluations)
  }

  datatype BadKey = BadKey(owner: string, key: string)

  function FirstBadEntry(entries: seq<Entry>): (r: Option<string>)
    ensures r.None? <==> forall i :: 0 <= i < |entries| ==> ValidSlug(entries[i].key)
  {
    if entries == [] then None
    else if !ValidSlug(entries[0].key) then Some(entries[0].key)
    else
      assert forall i :: 1 <= i < |entries| ==> entries[i] == entries[1..][i - 1];
      FirstBadEntry(entries[1..])
  }

  ghost predicate ExtOk(ext: Ext) {
    ext.Some? ==> forall i :: 0 <= i < |ext.value| ==> ValidSlug(ext.value[i].key)
  }

  /** The one check an `ext` object gets: every key is a slug. */
  function CheckExt(site: ExtSite): (r: Option<BadKey>)
    ensures r.None? <==> ExtOk(site.ext)
  {
    if site.ext.None? then None
    else
      var key := FirstBadEntry(site.ext.value);
      if key.Some? then Some(BadKey(site.owner, key.value)) else None
  }

  ghost predicate FirstBadAt(entries: seq<Entry>, k: int) {
    0 <= k < |entries| && !ValidSlug(entries[k].key) && forall i :: 0 <= i < k ==> ValidSlug(entries[i].key)
  }

  /** What is reported is the object's owner and its first key that is no slug. */
  lemma CheckExtReportsFirst(site: ExtSite)
    ensures var bad := CheckExt(site);
            && (bad.None? <==> ExtOk(site.ext))
            && (bad.Some? ==>
                  exists k :: site.ext.Some? && FirstBadAt(site.ext.value, k)
                              && bad.value == BadKey(site.owner, site.ext.value[k].key))
  {
    if CheckExt(site).Some? { var k := FirstBadKey(site.ext.value); }
  }

  lemma {:induction false} FirstBadKey(entries: seq<Entry>) returns (k: nat)
    requires FirstBadEntry(entries).Some?
    ensures FirstBadAt(entries, k) && FirstBadEntry(entries) == Some(entries[k].key)
  {
    k := 0;
    if ValidSlug(entries[0].key) {
      var j := FirstBadKey(entries[1..]);
      k := j + 1;
      assert forall i :: 1 <= i < |entries| ==> entries[i] == entries[1..][i - 1];
    }
  }

  function FirstBad(sites: seq<ExtSite>): (r: Option<BadKey>)
    ensures r.None? <==> forall i :: 0 <= i < |sites| ==> ExtOk(sites[i].ext)
  {
    if sites == [] then None
    else if CheckExt(sites[0]).Some? then CheckExt(sites[0])
    else
      assert forall i :: 1 <= i < |sites| ==> sites[i] == sites[1..][i - 1];
      FirstBad(sites[1..])
  }

  lemma {:induction false} FirstBadConcat(a: seq<ExtSite>, b: seq<ExtSite>)
    ensures FirstBad(a + b) == if FirstBad(a).Some? then FirstBad(a) else FirstBad(b)
  {
    if a == [] {
      assert a + b == b;
    } else {
      assert (a + b)[1..] == a[1..] + b;
      FirstBadConcat(a[1..], b);
    }
  }

  /** Every `ext` of the manifest has slug keys. */
  ghost predicate ExtsOk(m: Manifest) {
    && ExtOk(m.ext)
    && ExtOk(m.project.ext)
    && (forall i :: 0 <= i < |m.assets| ==> ExtOk(m.assets[i].ext))
    && (forall i :: 0 <= i < |m.derivations| ==>
          ExtOk(m.derivations[i].ext) && (m.derivations[i].job.Some? ==> ExtOk(m.derivations[i].job.value.ext)))
    && (forall i :: 0 <= i < |m.evaluations| ==>
          ExtOk(m.evaluations[i].ext) && ExtOk(m.evaluations[i].record.ext))
  }

  lemma {:induction false} DerivationSitesOk(ds: seq<Derivation>)
    ensures FirstBad(DerivationSites(ds)).None? <==>
              forall i :: 0 <= i < |ds| ==> ExtOk(ds[i].ext) && (ds[i].job.Some? ==> ExtOk(ds[i].job.value.ext))
  {
    if ds != [] {
      var rest, last := ds[..|ds| - 1], DerivationSite(ds[|ds| - 1]);
      DerivationSitesOk(rest);
      FirstBadConcat(DerivationSites(rest), last);
      var d := ds[|ds| - 1];
      assert last[0].ext == d.ext;
      assert d.job.Some? ==> |last| == 2 && last[1].ext == d.job.value.ext;
      assert forall i :: 0 <= i < |ds| ==> if i < |ds| - 1 then ds[i] == rest[i] else ds[i] == d;
    }
  }

  lemma {:induction false} EvaluationSitesOk(es: seq<Evaluation>)
    ensures FirstBad(EvaluationSites(es)).None? <==>
              forall i :: 0 <= i < |es| ==> ExtOk(es[i].ext) && ExtOk(es[i].record.ext)
  {
    if es != [] {
      var rest, last := es[..|es| - 1], EvaluationSite(es[|es| - 1]);
      EvaluationSitesOk(rest);
      FirstBadConcat(EvaluationSites(rest), last);
      var e := es[|es| - 1];
      assert last[0].ext == e.ext && last[1].ext == e.record.ext;
      assert forall i :: 0 <= i < |es| ==> if i < |es| - 1 then es[i] == rest[i] else es[i] == e;
    }
  }

  lemma AssetSitesOk(assets: seq<Asset>)
    ensures FirstBad(AssetSites(assets)).None? <==> forall i :: 0 <= i < |assets| ==> ExtOk(assets[i].ext)
  {
    var sites := AssetSites(assets);
    assert forall i :: 0 <= i < |assets| ==> sites[i].ext == assets[i].ext;
  }

  /** The walk misses no object: it passes exactly when every `ext` there is has slug keys. */
  lemma WalkCoversEveryExt(m: Manifest)
    ensures FirstBad(ExtSites(m)).None? <==> ExtsOk(m)
  {
    var head := [ExtSite("the manifest", m.ext), ExtSite("project", m.project.ext)];
    var a, d, e := AssetSites(m.assets), DerivationSites(m.derivations), EvaluationSites(m.evaluations);
    FirstBadConcat(head + a + d, e);
    FirstBadConcat(head + a, d);
    FirstBadConcat(head, a);
    assert head[0].ext == m.ext && head[1].ext == m.project.ext;
    AssetSitesOk(m.assets);
    DerivationSitesOk(m.derivations);
    EvaluationSitesOk(m.evaluations);
  }

  /** The program's walk over the manifest, object by object; its three loops stand in
      the methods below. */
  method ValidateExtKeys(m: Manifest) returns (bad: Option<BadKey>)
    ensures bad == FirstBad(ExtSites(m))
  {
    ghost var head := [ExtSite("the manifest", m.ext), ExtSite("project", m.project.ext)];
    ghost var a, d, e := AssetSites(m.assets), DerivationSites(m.derivations), EvaluationSites(m.evaluations);
    FirstBadConcat(head + a + d, e);
    FirstBadConcat(head + a, d);
    FirstBadConcat(head, a);
    assert head[1..][1..] == [];
    bad := CheckExt(ExtSite("the manifest", m.ext));
    if bad.None? {
      bad := CheckExt(ExtSite("project", m.project.ext));
    }
    if bad.None? {
      bad := ValidateAssets(m.assets);
    }
    if bad.None? {
      bad := ValidateDerivations(m.derivations);
    }
    if bad.None? {
      bad := ValidateEvaluations(m.evaluations);
    }
  }

  method ValidateAssets(assets: seq<Asset>) returns (bad: Option<BadKey>)
    ensures bad == FirstBad(AssetSites(assets))
  {
    for i := 0 to |assets|
      invariant FirstBad(AssetSites(assets[..i])).None?
    {
      var site := ExtSite("asset '" + assets[i].id + "'", assets[i].ext);
      bad := CheckExt(site);
      if bad.Some? {
        PrefixAssetSites(assets, i);
        FirstBadConcat(AssetSites(assets[..i]), AssetSites(assets[i..]));
        return;
      }
      assert AssetSites(assets[..i + 1]) == AssetSites(assets[..i]) + [site];
      FirstBadConcat(AssetSites(assets[..i]), [site]);
    }
    assert assets[..|assets|] == assets;
    bad := None;
  }

  method ValidateDerivations(ds: seq<Derivation>) returns (bad: Option<BadKey>)
    ensures bad == FirstBad(DerivationSites(ds))
  {
    for i := 0 to |ds|
      invariant FirstBad(DerivationSites(ds[..i])).None?
    {
      assert ds[..i + 1][..i] == ds[..i];
      FirstBadConcat(DerivationSites(ds[..i]), DerivationSite(ds[i]));
      bad := CheckExt(ExtSite("derivation '" + ds[i].id + "'", ds[i].ext));
      if bad.None? && ds[i].job.Some? {
        bad := CheckExt(ExtSite("derivation '" + ds[i].id + "' job", ds[i].job.value.ext));
      }
      FirstBadDerivation(ds[i], bad);
      if bad.Some? {
        FirstBadDerivations(ds, i + 1);
        return;
      }
    }
    assert ds[..|ds|] == ds;
    bad := None;
  }

  method ValidateEvaluations(es: seq<Evaluation>) returns (bad: Option<BadKey>)
    ensures bad == FirstBad(EvaluationSites(es))
  {
    for i := 0 to |es|
      invariant FirstBad(EvaluationSites(es[..i])).None?
    {
      assert es[..i + 1][..i] == es[..i];
      FirstBadConcat(EvaluationSites(es[..i]), EvaluationSite(es[i]));
      bad := CheckExt(ExtSite("evaluation '" + es[i].id + "'", es[i].ext));
      if bad.None? {
        bad := CheckExt(ExtSite("evaluation '" + es[i].id + "' record", es[i].record.ext));
      }
      FirstBadEvaluation(es[i], bad);
      if bad.Some? {
        FirstBadEvaluations(es, i + 1);
        return;
      }
    }
    assert es[..|es|] == es;
    bad := None;
  }

  lemma PrefixAssetSites(assets: seq<Asset>, i: nat)
    requires i < |assets|
    ensures AssetSites(assets) == AssetSites(assets[..i]) + AssetSites(assets[i..])
    ensures CheckExt(AssetSites(assets)[i]).Some? ==>
              FirstBad(AssetSites(assets[i..])) == CheckExt(AssetSites(assets)[i])
  {
    assert AssetSites(assets[i..])[0] == AssetSites(assets)[i];
  }

  lemma FirstBadDerivation(d: Derivation, bad: Option<BadKey>)
    requires var first := CheckExt(ExtSite("derivation '" + d.id + "'", d.ext));
             bad == if first.None? && d.job.Some? then
                      CheckExt(ExtSite("derivation '" + d.id + "' job", d.job.value.ext)) else first
    ensures FirstBad(DerivationSite(d)) == bad
  {
    var sites := DerivationSite(d);
    assert |sites| == 2 ==> sites[1..][1..] == [];
  }

  lemma FirstBadEvaluation(e: Evaluation, bad: Option<BadKey>)
    requires var first := CheckExt(ExtSite("evaluation '" + e.id + "'", e.ext));
             bad == if first.None? then
                      CheckExt(ExtSite("evaluation '" + e.id + "' record", e.record.ext)) else first
    ensures FirstBad(EvaluationSite(e)) == bad
  {
    var sites := EvaluationSite(e);
    assert sites[1..][1..] == [];
  }

  /** A bad key found in a prefix is the first of the whole list. */
  lemma {:induction false} FirstBadDerivations(ds: seq<Derivation>, n: nat)
    requires n <= |ds| && FirstBad(DerivationSites(ds[..n])).Some?
    ensures FirstBad(DerivationSites(ds)) == FirstBad(DerivationSites(ds[..n]))
    decreases |ds|
  {
    if n == |ds| {
      assert ds[..n] == ds;
    } else {
      var rest := ds[..|ds| - 1];
      assert rest[..n] == ds[..n];
      FirstBadDerivations(rest, n);
      FirstBadConcat(DerivationSites(rest), DerivationSite(ds[|ds| - 1]));
    }
  }

  lemma {:induction false} FirstBadEvaluations(es: seq<Evaluation>, n: nat)
    requires n <= |es| && FirstBad(EvaluationSites(es[..n])).Some?
    ensures FirstBad(EvaluationSites(es)) == FirstBad(EvaluationSites(es[..n]))
    decreases |es|
  {
    if n == |es| {
      assert es[..n] == es;
    } else {
      var rest := es[..|es| - 1];
      assert rest[..n] == es[..n];
      FirstBadEvaluations(rest, n);
      FirstBadConcat(EvaluationSites(rest), EvaluationSite(es[|es| - 1]));
    }
  }

  // ---------------------------------------------------------------- loading a tree

  datatype LoadError =
    | NotAProject
    | Parse
    | UnrecognizedSchema(found: Option<string>)
    | Invalid
    | InvalidExtKey(bad: BadKey)

  /** The top-level `schema`, when the tree is an object holding a string there. */
  function SchemaOf(j: Json): Option<string> {
    if j.Obj? then AsString(Lookup(j.entries, "schema")) else None
  }

  /** The strict read: the schema URL first, then the shape, then the `ext` keys. */
  function LoadTree(j: Json): Result<Manifest, LoadError> {
    if SchemaOf(j) != Some(SCHEMA_URL) then Err(UnrecognizedSchema(SchemaOf(j)))
    else
      match Decode(j)
      case None => Err(Invalid)
      case Some(m) =>
        match FirstBad(ExtSites(m))
        case Some(bad) => Err(InvalidExtKey(bad))
        case None => Ok(m)
  }
}
