/** When the strict read of the manifest file succeeds, and each way it is refused: in which
    order the checks speak, and what each refusal names. */
module Loading {
  import opened Wrappers
  import opened Json
  import opened Manifests
  import opened Codec
  import opened CodecLaws
  import opened Worlds
  import opened Records

  // ---------------------------------------------------------------- the first bad ext key

  /** The report of one `ext` object: its owner and its first key that is no slug. */
  ghost predicate Reports(owner: string, ext: Ext, bad: BadKey) {
    ext.Some? && exists k :: FirstBadAt(ext.value, k) && bad == BadKey(owner, ext.value[k].key)
  }

  lemma SiteReports(site: ExtSite, bad: BadKey)
    ensures CheckExt(site) == Some(bad) <==> Reports(site.owner, site.ext, bad)
  {
    CheckExtReportsFirst(site);
  }

  ghost predicate AssetReports(assets: seq<Asset>, i: int, bad: BadKey) {
    && 0 <= i < |assets| && (forall j :: 0 <= j < i ==> ExtOk(assets[j].ext))
    && Reports("asset '" + assets[i].id + "'", assets[i].ext, bad)
  }

  ghost predicate DerivationExtsOk(d: Derivation) {
    ExtOk(d.ext) && (d.job.Some? ==> ExtOk(d.job.value.ext))
  }

  /** What one derivation reports, its own object before its job's. */
  ghost predicate OneDerivationReports(d: Derivation, bad: BadKey) {
    if ExtOk(d.ext) then d.job.Some? && Reports("derivation '" + d.id + "' job", d.job.value.ext, bad)
    else Reports("derivation '" + d.id + "'", d.ext, bad)
  }

  ghost predicate DerivationReports(ds: seq<Derivation>, i: int, bad: BadKey) {
    && 0 <= i < |ds| && (forall j :: 0 <= j < i ==> DerivationExtsOk(ds[j]))
    && OneDerivationReports(ds[i], bad)
  }

  ghost predicate EvaluationExtsOk(e: Evaluation) {
    ExtOk(e.ext) && ExtOk(e.record.ext)
  }

  /** What one evaluation reports, its own object before its record's. */
  ghost predicate OneEvaluationReports(e: Evaluation, bad: BadKey) {
    if ExtOk(e.ext) then Reports("evaluation '" + e.id + "' record", e.record.ext, bad)
    else Reports("evaluation '" + e.id + "'", e.ext, bad)
  }

  ghost predicate EvaluationReports(es: seq<Evaluation>, i: int, bad: BadKey) {
    && 0 <= i < |es| && (forall j :: 0 <= j < i ==> EvaluationExtsOk(es[j]))
    && OneEvaluationReports(es[i], bad)
  }

  /** The report of the whole walk: the manifest's own object, the project's, then the assets,
      the derivations each with its job, the evaluations each with its record. */
  ghost predicate WalkReports(m: Manifest, bad: BadKey) {
    if !ExtOk(m.ext) then Reports("the manifest", m.ext, bad)
    else if !ExtOk(m.project.ext) then Reports("project", m.project.ext, bad)
    else if exists a :: a in m.assets && !ExtOk(a.ext) then exists i :: AssetReports(m.assets, i, bad)
    else if exists d :: d in m.derivations && !DerivationExtsOk(d) then exists i :: DerivationReports(m.derivations, i, bad)
    else exists i :: EvaluationReports(m.evaluations, i, bad)
  }

  lemma LastAssetReports(assets: seq<Asset>, bad: BadKey)
    requires assets != []
    ensures var n := |assets| - 1;
            (exists i :: AssetReports(assets, i, bad)) <==>
              || (exists i :: AssetReports(assets[..n], i, bad))
              || (&& (forall j :: 0 <= j < n ==> ExtOk(assets[j].ext))
                  && Reports("asset '" + assets[n].id + "'", assets[n].ext, bad))
  {
    hide Reports, ExtOk;
    var n := |assets| - 1;
    if i :| AssetReports(assets, i, bad) {
      if i < n { assert AssetReports(assets[..n], i, bad); }
    }
    if i :| AssetReports(assets[..n], i, bad) { assert AssetReports(assets, i, bad); }
    if (forall j :: 0 <= j < n ==> ExtOk(assets[j].ext)) && Reports("asset '" + assets[n].id + "'", assets[n].ext, bad) {
      assert AssetReports(assets, n, bad);
    }
  }

  lemma {:induction false} AssetsReport(assets: seq<Asset>, bad: BadKey)
    ensures FirstBad(AssetSites(assets)) == Some(bad) <==> exists i :: AssetReports(assets, i, bad)
    decreases |assets|
  {
    hide Reports, ExtOk, CheckExt, AssetReports;
    if assets != [] {
      var n := |assets| - 1;
      var rest, last := assets[..n], AssetSites(assets)[n];
      AssetsReport(rest, bad);
      AssetSitesOk(rest);
      assert AssetSites(assets) == AssetSites(rest) + [last];
      FirstBadConcat(AssetSites(rest), [last]);
      SiteReports(last, bad);
      assert [last][1..] == [];
      LastAssetReports(assets, bad);
      assert forall j :: 0 <= j < n ==> rest[j] == assets[j];
    } else {
      assert forall i :: !AssetReports(assets, i, bad) by { NoAssetReports(bad); }
    }
  }

  lemma NoAssetReports(bad: BadKey)
    ensures forall i :: !AssetReports([], i, bad)
    ensures forall i :: !DerivationReports([], i, bad)
    ensures forall i :: !EvaluationReports([], i, bad)
  {
  }

  lemma DerivationSiteReports(d: Derivation, bad: BadKey)
    ensures FirstBad(DerivationSite(d)) == Some(bad) <==> OneDerivationReports(d, bad)
  {
    hide Reports, ExtOk, CheckExt;
    var own := ExtSite("derivation '" + d.id + "'", d.ext);
    SiteReports(own, bad);
    CheckExtReportsFirst(own);
    if d.job.Some? { SiteReports(ExtSite("derivation '" + d.id + "' job", d.job.value.ext), bad); }
    FirstBadDerivation(d, if CheckExt(own).None? && d.job.Some? then
                            CheckExt(ExtSite("derivation '" + d.id + "' job", d.job.value.ext)) else CheckExt(own));
  }

  lemma LastDerivationReports(ds: seq<Derivation>, bad: BadKey)
    requires ds != []
    ensures var n := |ds| - 1;
            (exists i :: DerivationReports(ds, i, bad)) <==>
              || (exists i :: DerivationReports(ds[..n], i, bad))
              || ((forall j :: 0 <= j < n ==> DerivationExtsOk(ds[j])) && OneDerivationReports(ds[n], bad))
  {
    hide OneDerivationReports, DerivationExtsOk;
    var n := |ds| - 1;
    if i :| DerivationReports(ds, i, bad) {
      if i < n { assert DerivationReports(ds[..n], i, bad); }
    }
    if i :| DerivationReports(ds[..n], i, bad) { assert DerivationReports(ds, i, bad); }
    if (forall j :: 0 <= j < n ==> DerivationExtsOk(ds[j])) && OneDerivationReports(ds[n], bad) {
      assert DerivationReports(ds, n, bad);
    }
  }

  lemma {:induction false} DerivationsReport(ds: seq<Derivation>, bad: BadKey)
    ensures FirstBad(DerivationSites(ds)) == Some(bad) <==> exists i :: DerivationReports(ds, i, bad)
    decreases |ds|
  {
    hide OneDerivationReports, ExtOk, CheckExt, DerivationReports, DerivationSite;
    if ds != [] {
      var n := |ds| - 1;
      var rest := ds[..n];
      DerivationsReport(rest, bad);
      DerivationSitesOk(rest);
      FirstBadConcat(DerivationSites(rest), DerivationSite(ds[n]));
      DerivationSiteReports(ds[n], bad);
      LastDerivationReports(ds, bad);
      assert forall j :: 0 <= j < n ==> rest[j] == ds[j];
    } else {
      NoAssetReports(bad);
    }
  }

  lemma EvaluationSiteReports(e: Evaluation, bad: BadKey)
    ensures FirstBad(EvaluationSite(e)) == Some(bad) <==> OneEvaluationReports(e, bad)
  {
    hide Reports, ExtOk, CheckExt;
    var own, record := ExtSite("evaluation '" + e.id + "'", e.ext), ExtSite("evaluation '" + e.id + "' record", e.record.ext);
    SiteReports(own, bad);
    SiteReports(record, bad);
    CheckExtReportsFirst(own);
    FirstBadEvaluation(e, if CheckExt(own).None? then CheckExt(record) else CheckExt(own));
  }

  lemma LastEvaluationReports(es: seq<Evaluation>, bad: BadKey)
    requires es != []
    ensures var n := |es| - 1;
            (exists i :: EvaluationReports(es, i, bad)) <==>
              || (exists i :: EvaluationReports(es[..n], i, bad))
              || ((forall j :: 0 <= j < n ==> EvaluationExtsOk(es[j])) && OneEvaluationReports(es[n], bad))
  {
    hide OneEvaluationReports, EvaluationExtsOk;
    var n := |es| - 1;
    if i :| EvaluationReports(es, i, bad) {
      if i < n { assert EvaluationReports(es[..n], i, bad); }
    }
    if i :| EvaluationReports(es[..n], i, bad) { assert EvaluationReports(es, i, bad); }
    if (forall j :: 0 <= j < n ==> EvaluationExtsOk(es[j])) && OneEvaluationReports(es[n], bad) {
      assert EvaluationReports(es, n, bad);
    }
  }

  lemma {:induction false} EvaluationsReport(es: seq<Evaluation>, bad: BadKey)
    ensures FirstBad(EvaluationSites(es)) == Some(bad) <==> exists i :: EvaluationReports(es, i, bad)
    decreases |es|
  {
    hide OneEvaluationReports, ExtOk, CheckExt, EvaluationReports, EvaluationSite;
    if es != [] {
      var n := |es| - 1;
      var rest := es[..n];
      EvaluationsReport(rest, bad);
      EvaluationSitesOk(rest);
      FirstBadConcat(EvaluationSites(rest), EvaluationSite(es[n]));
      EvaluationSiteReports(es[n], bad);
      LastEvaluationReports(es, bad);
      assert forall j :: 0 <= j < n ==> rest[j] == es[j];
    } else {
      NoAssetReports(bad);
    }
  }

  /** The walk reports the first bad key of the first bad object, both named. */
  lemma WalkReportsFirst(m: Manifest, bad: BadKey)
    ensures FirstBad(ExtSites(m)) == Some(bad) <==> !ExtsOk(m) && WalkReports(m, bad)
  {
    hide Reports, ExtOk, CheckExt, AssetReports, DerivationReports, EvaluationReports;
    WalkCoversEveryExt(m);
    WalkSplits(m);
    WhichPart(m);
    SiteReports(ExtSite("the manifest", m.ext), bad);
    SiteReports(ExtSite("project", m.project.ext), bad);
    AssetsReport(m.assets, bad);
    DerivationsReport(m.derivations, bad);
    EvaluationsReport(m.evaluations, bad);
  }

  lemma WalkSplits(m: Manifest)
    ensures var head, project := CheckExt(ExtSite("the manifest", m.ext)), CheckExt(ExtSite("project", m.project.ext));
            var a, d := FirstBad(AssetSites(m.assets)), FirstBad(DerivationSites(m.derivations));
            && FirstBad(ExtSites(m)) == (if head.Some? then head else if project.Some? then project
                                         else if a.Some? then a else if d.Some? then d
                                         else FirstBad(EvaluationSites(m.evaluations)))
            && (head.Some? <==> !ExtOk(m.ext)) && (project.Some? <==> !ExtOk(m.project.ext))
  {
    hide ExtOk, CheckExt, AssetSites, DerivationSites, EvaluationSites;
    var one, two := ExtSite("the manifest", m.ext), ExtSite("project", m.project.ext);
    var a, d, e := AssetSites(m.assets), DerivationSites(m.derivations), EvaluationSites(m.evaluations);
    FirstBadConcat([one, two] + a + d, e);
    FirstBadConcat([one, two] + a, d);
    FirstBadConcat([one, two], a);
    assert [one, two][1..] == [two] && [two][1..] == [];
    CheckExtReportsFirst(one);
    CheckExtReportsFirst(two);
  }

  lemma WhichPart(m: Manifest)
    ensures FirstBad(AssetSites(m.assets)).Some? <==> exists x :: x in m.assets && !ExtOk(x.ext)
    ensures FirstBad(DerivationSites(m.derivations)).Some? <==> exists x :: x in m.derivations && !DerivationExtsOk(x)
  {
    hide ExtOk, FirstBad;
    AssetSitesOk(m.assets);
    DerivationSitesOk(m.derivations);
    forall i | 0 <= i < |m.assets| ensures m.assets[i] in m.assets {
    }
    forall i | 0 <= i < |m.derivations|
      ensures m.derivations[i] in m.derivations
      ensures DerivationExtsOk(m.derivations[i]) <==>
                ExtOk(m.derivations[i].ext) && (m.derivations[i].job.Some? ==> ExtOk(m.derivations[i].job.value.ext))
    {
    }
  }

  // ---------------------------------------------------------------- the whole read

  /** Why the manifest file is refused. No file, no JSON; then the schema, before anything
      else is looked at, naming what was found in its place; then the shape; then the keys. */
  ghost predicate LoadRefused(w: World, file: Option<Bytes>, error: LoadError) {
    if file.None? then error == NotAProject
    else if w.parse(file.value).None? then error == Parse
    else TreeRefused(w.parse(file.value).value, error)
  }

  ghost predicate TreeRefused(j: Json, error: LoadError) {
    if !Declares(j, "https://uncompose.org/schemas/project/v0/uncompose.project.schema.json") then
      error.UnrecognizedSchema? && (if error.found.Some? then Declares(j, error.found.value) else Undeclared(j))
    else if forall m :: !Shaped(j, m) then error == Invalid
    else error.InvalidExtKey? && exists m :: Shaped(j, m) && !ExtsOk(m) && WalkReports(m, error.bad)
  }

  /** The manifest a file holds. */
  ghost predicate LoadsAs(w: World, file: Option<Bytes>, m: Manifest) {
    && file.Some? && w.parse(file.value).Some?
    && var j := w.parse(file.value).value;
    && Declares(j, "https://uncompose.org/schemas/project/v0/uncompose.project.schema.json")
    && Shaped(j, m) && ExtsOk(m)
  }

  lemma TreeLoads(j: Json, m: Manifest, error: LoadError)
    ensures LoadTree(j) == Err(error) <==> TreeRefused(j, error)
    ensures LoadTree(j) == Ok(m) <==>
              && Declares(j, "https://uncompose.org/schemas/project/v0/uncompose.project.schema.json")
              && Shaped(j, m) && ExtsOk(m)
  {
    hide Decode, Shaped, FirstBad, ExtSites, ExtsOk, WalkReports, Declares, SchemaOf;
    SchemaIs(j);
    forall n ensures Decode(j) == Some(n) <==> Shaped(j, n) {
      DecodesShaped(j, n);
    }
    if Decode(j).Some? {
      var n := Decode(j).value;
      WalkCoversEveryExt(n);
      forall bad ensures FirstBad(ExtSites(n)) == Some(bad) <==> !ExtsOk(n) && WalkReports(n, bad) {
        WalkReportsFirst(n, bad);
      }
    }
  }

  /** The strict read, both ways: this manifest if and only if the file holds it, this refusal
      if and only if it is the reason it holds none. */
  lemma LoadMeans(w: World, file: Option<Bytes>, m: Manifest, error: LoadError)
    ensures Load(w, file) == Ok(m) <==> LoadsAs(w, file, m)
    ensures Load(w, file) == Err(error) <==> LoadRefused(w, file, error)
  {
    hide LoadTree, Shaped, ExtsOk, Declares, TreeRefused;
    if file.Some? && w.parse(file.value).Some? { TreeLoads(w.parse(file.value).value, m, error); }
  }
}
