/** What every decision under the lock keeps, and what each command's decision means. */
module Decisions {
  import opened Wrappers
  import opened Slugs
  import opened Json
  import opened Manifests
  import opened Paths
  import opened Worlds
  import opened Commands

  // ---------------------------------------------------------------- the manifest invariant

  ghost predicate UniqueAssets(assets: seq<Asset>) {
    forall i, j :: 0 <= i < j < |assets| ==> assets[i].id != assets[j].id && assets[i].path != assets[j].path
  }

  ghost predicate UniqueDerivations(ds: seq<Derivation>) {
    forall i, j :: 0 <= i < j < |ds| ==>
      && ds[i].id != ds[j].id
      && (ds[i].job.Some? && ds[j].job.Some? ==> ds[i].job.value.sha256 != ds[j].job.value.sha256)
  }

  ghost predicate UniqueEvaluations(es: seq<Evaluation>) {
    forall i, j :: 0 <= i < j < |es| ==> es[i].id != es[j].id && es[i].record.sha256 != es[j].record.sha256
  }

  ghost predicate SlugAssets(assets: seq<Asset>) {
    forall a :: a in assets ==> ValidSlug(a.id) && ValidSlug(a.role)
  }

  ghost predicate AllIn(ids: seq<string>, known: set<string>) {
    forall id :: id in ids ==> id in known
  }

  ghost predicate DerivationOk(d: Derivation, known: set<string>) {
    ValidSlug(d.id) && AllIn(d.inputs, known) && AllIn(d.outputs, known)
  }

  ghost predicate EvaluationOk(e: Evaluation, known: set<string>) {
    && ValidSlug(e.id)
    && AllIn(e.candidates, known)
    && (e.preference.Some? ==> e.preference.value in e.candidates)
  }

  /** Ids, paths and evidence hashes are each free of duplicates, every link names a
      registered asset, every preference is a candidate, every id and role is a slug. */
  ghost predicate Good(m: Manifest) {
    && UniqueAssets(m.assets) && UniqueDerivations(m.derivations) && UniqueEvaluations(m.evaluations)
    && SlugAssets(m.assets)
    && (forall d :: d in m.derivations ==> DerivationOk(d, AssetIds(m.assets)))
    && (forall e :: e in m.evaluations ==> EvaluationOk(e, AssetIds(m.assets)))
  }

  /** The later manifest holds the earlier one: same identity, derivations and evaluations
      as an exact prefix, assets as a prefix up to `last_verified`. */
  ghost predicate Evolves(m: Manifest, n: Manifest) {
    && n.schema == m.schema && n.project == m.project && n.ext == m.ext
    && m.derivations <= n.derivations
    && m.evaluations <= n.evaluations
    && AssetsEvolve(m.assets, n.assets)
  }

  ghost predicate AssetsEvolve(a: seq<Asset>, b: seq<Asset>) {
    |a| <= |b| && forall i :: 0 <= i < |a| ==> b[i].(lastVerified := a[i].lastVerified) == a[i]
  }

  lemma EvolvesTransitive(a: Manifest, b: Manifest, c: Manifest)
    requires Evolves(a, b) && Evolves(b, c)
    ensures Evolves(a, c)
  {
    forall i | 0 <= i < |a.assets| ensures c.assets[i].(lastVerified := a.assets[i].lastVerified) == a.assets[i] {
      assert b.assets[i].(lastVerified := a.assets[i].lastVerified) == a.assets[i];
      assert c.assets[i].(lastVerified := b.assets[i].lastVerified) == b.assets[i];
    }
  }

  lemma AssetsEvolveIds(a: seq<Asset>, b: seq<Asset>)
    requires AssetsEvolve(a, b)
    ensures AssetIds(a) <= AssetIds(b)
  {
    forall x | x in a ensures x.id in AssetIds(b) {
      var i :| 0 <= i < |a| && a[i] == x;
      assert b[i].(lastVerified := a[i].lastVerified) == a[i];
      assert b[i] in b;
    }
  }

  /** What the steps before the lock guarantee of a request. */
  ghost predicate RequestOk(r: Request) {
    match r
    case AddRequest(_, _, _, _, _, role, _) => ValidSlug(role)
    case JobRequest(_, _, _, job, _, _, _) => Sane(job.preset, MAX_NESTING - 1)
    case CompareRequest(_, _, candidates, preference, confidence, _) =>
      && (preference.Some? ==> preference.value in candidates)
      && (confidence.Some? ==> Sane(confidence.value, MAX_NESTING - 2))
    case _ => true
  }

  // ---------------------------------------------------------------- decisions evolve

  lemma StampEvolves(assets: seq<Asset>, verified: map<string, string>, now: string)
    ensures AssetsEvolve(assets, Stamp(assets, verified, now))
    ensures AssetIds(Stamp(assets, verified, now)) == AssetIds(assets)
  {
    var s := Stamp(assets, verified, now);
    AssetsEvolveIds(assets, s);
    forall x | x in s ensures x.id in AssetIds(assets) {
      var i :| 0 <= i < |s| && s[i] == x;
      assert assets[i] in assets;
    }
  }

  /** No decision loses or rewrites what an earlier one recorded. */
  lemma DecideEvolves(w: World, m: Manifest, r: Request, look: Look)
    requires !r.InitRequest?
    ensures Decide(w, m, r, look).Put? ==> Evolves(m, Decide(w, m, r, look).manifest)
  {
    if r.StampRequest? {
      StampEvolves(m.assets, r.verified, r.now);
    } else if r.JobRequest? && Decide(w, m, r, look).Put? {
      var n := Decide(w, m, r, look).manifest;
      assert m.assets <= n.assets;
    }
  }

  // ---------------------------------------------------------------- decisions keep the invariant

  lemma AppendAsset(assets: seq<Asset>, a: Asset)
    requires UniqueAssets(assets) && SlugAssets(assets)
    requires a.id !in AssetIds(assets) && (forall b :: b in assets ==> b.path != a.path)
    requires ValidSlug(a.id) && ValidSlug(a.role)
    ensures UniqueAssets(assets + [a]) && SlugAssets(assets + [a])
  {
    forall i | 0 <= i < |assets| ensures assets[i].id != a.id && assets[i].path != a.path {
      assert assets[i] in assets;
    }
  }

  lemma MintSlug(text: string, taken: set<string>)
    ensures ValidSlug(Mint(SlugOf(text), taken)) && Mint(SlugOf(text), taken) !in taken
  {
    SlugOfIsSlug(text);
    MintIsSlug(SlugOf(text), taken);
    MintIsLeastFree(SlugOf(text), taken, "");
  }

  lemma RolesAreSlugs()
    ensures ValidSlug(INPUT_ROLE) && ValidSlug(STEM_ROLE)
  {
  }

  /** More assets leave every link in place. */
  lemma LinksSurvive(m: Manifest, n: Manifest)
    requires Good(m) && AssetIds(m.assets) <= AssetIds(n.assets)
    ensures forall d :: d in m.derivations ==> DerivationOk(d, AssetIds(n.assets))
    ensures forall e :: e in m.evaluations ==> EvaluationOk(e, AssetIds(n.assets))
  {
  }

  lemma AddKeepsGood(m: Manifest, r: Request)
    requires Good(m) && r.AddRequest? && RequestOk(r) && DecideAdd(m, r).Put?
    ensures Good(DecideAdd(m, r).manifest)
  {
    var n := DecideAdd(m, r).manifest;
    var a := n.assets[|m.assets|];
    if r.chosen.None? { MintSlug(r.stem, AssetIds(m.assets)); }
    AppendAsset(m.assets, a);
    LinksSurvive(m, n);
  }

  lemma StampKeepsGood(m: Manifest, r: Request)
    requires Good(m) && r.StampRequest? && DecideStamp(m, r).Put?
    ensures Good(DecideStamp(m, r).manifest)
  {
    var n := DecideStamp(m, r).manifest;
    StampEvolves(m.assets, r.verified, r.now);
    forall x | x in n.assets ensures ValidSlug(x.id) && ValidSlug(x.role) {
      var i :| 0 <= i < |n.assets| && n.assets[i] == x;
      assert m.assets[i] in m.assets;
    }
    LinksSurvive(m, n);
  }

  lemma CompareKeepsGood(m: Manifest, r: Request)
    requires Good(m) && r.CompareRequest? && RequestOk(r) && DecideCompare(m, r).Put?
    ensures Good(DecideCompare(m, r).manifest)
  {
    var n := DecideCompare(m, r).manifest;
    var e := n.evaluations[|m.evaluations|];
    MintSlug(JoinWith(r.candidates, "-vs-"), EvaluationIds(m.evaluations));
    forall i | 0 <= i < |m.evaluations|
      ensures m.evaluations[i].id != e.id && m.evaluations[i].record.sha256 != e.record.sha256
    {
      assert m.evaluations[i] in m.evaluations;
    }
    assert EvaluationOk(e, AssetIds(n.assets));
  }

  // ---------------------------------------------------------------- linking stems

  ghost predicate StemsLinked(known: seq<Asset>, added: seq<Asset>, stems: seq<ImportedAsset>) {
    forall s :: s in stems ==> if s.origin == Existing then s.asset in known else s.asset in added
  }

  /** Assets fit to be appended: slugs, under ids and paths that are new and all different. */
  ghost predicate NewAssets(known: seq<Asset>, added: seq<Asset>) {
    && UniqueAssets(added) && SlugAssets(added)
    && (forall a :: a in added ==> a.id !in AssetIds(known))
    && (forall a, b :: a in added && b in known ==> a.path != b.path)
  }

  /** Appending them to assets that are in order leaves assets in order. */
  lemma NewAssetsKeep(known: seq<Asset>, added: seq<Asset>)
    requires NewAssets(known, added) && UniqueAssets(known) && SlugAssets(known)
    ensures UniqueAssets(known + added) && SlugAssets(known + added)
  {
    var all := known + added;
    forall i, j | 0 <= i < j < |all| ensures all[i].id != all[j].id && all[i].path != all[j].path {
      if i < |known| <= j {
        assert all[i] in known && all[j] in added;
      }
    }
  }

  lemma OneMoreNew(known: seq<Asset>, added: seq<Asset>, a: Asset)
    requires NewAssets(known, added) && ValidSlug(a.id) && ValidSlug(a.role)
    requires a.id !in AssetIds(known) + AssetIds(added)
    requires forall b :: b in known || b in added ==> b.path != a.path
    ensures NewAssets(known, added + [a])
  {
    AppendAsset(added, a);
  }

  /** Everything the stem loop promises of its result, from any point of it and whatever the
      manifest: positions, paths and hashes, where each link came from, what was registered. */
  ghost predicate LinksSound(known: seq<Asset>, added: seq<Asset>, done: seq<ImportedAsset>, todo: seq<PreStem>,
                             links: StemLinks) {
    && added <= links.added
    && NewAssets(known, links.added)
    && done <= links.stems && |links.stems| == |done| + |todo|
    && StemsLinked(known, links.added, links.stems)
    && (forall k :: 0 <= k < |todo| ==> StemMatches(links.stems[|done| + k], todo[k]))
    && (forall i :: |added| <= i < |links.added| ==> ImportedAsset(links.added[i], Registered) in links.stems)
  }

  ghost predicate StemMatches(s: ImportedAsset, pre: PreStem) {
    s.asset.path == pre.rel && s.asset.sha256 == pre.hash
  }

  lemma {:induction false} LinkStemsSound(known: seq<Asset>, added: seq<Asset>, done: seq<ImportedAsset>,
                                          todo: seq<PreStem>, now: string)
    requires NewAssets(known, added) && StemsLinked(known, added, done)
    requires LinkStems(known, added, done, todo, now).Ok?
    ensures LinksSound(known, added, done, todo, LinkStems(known, added, done, todo, now).value)
    decreases |todo|
  {
    if todo != [] {
      match FindStem(known, added, todo[0].rel)
      case Some(found) =>
        FoundIsLinked(known, added, done, todo[0].rel);
        LinkStemsSound(known, added, done + [found], todo[1..], now);
        StemStep(known, added, done, todo, found, LinkStems(known, added, done, todo, now).value);
      case None =>
        var asset := StemAsset(known, added, todo[0], now);
        var one := ImportedAsset(asset, Registered);
        StemRegisters(known, added, done, todo[0], now);
        LinkStemsSound(known, added + [asset], done + [one], todo[1..], now);
        StemStep(known, added + [asset], done, todo, one, LinkStems(known, added, done, todo, now).value);
        RegisteredIsReported(known, added, asset, done, todo, LinkStems(known, added, done, todo, now).value);
    }
  }

  lemma FoundIsLinked(known: seq<Asset>, added: seq<Asset>, done: seq<ImportedAsset>, path: string)
    requires StemsLinked(known, added, done) && FindStem(known, added, path).Some?
    ensures StemsLinked(known, added, done + [FindStem(known, added, path).value])
    ensures FindStem(known, added, path).value.asset.path == path
  {
  }

  lemma RegisteredIsReported(known: seq<Asset>, added: seq<Asset>, asset: Asset, done: seq<ImportedAsset>,
                             todo: seq<PreStem>, links: StemLinks)
    requires LinksSound(known, added + [asset], done, todo, links) && ImportedAsset(asset, Registered) in links.stems
    ensures LinksSound(known, added, done, todo, links)
  {
    assert links.added[|added|] == (added + [asset])[|added|];
    assert added <= added + [asset];
  }

  lemma StemRegisters(known: seq<Asset>, added: seq<Asset>, done: seq<ImportedAsset>, pre: PreStem, now: string)
    requires NewAssets(known, added)
    requires StemsLinked(known, added, done) && FindStem(known, added, pre.rel).None?
    ensures var asset := StemAsset(known, added, pre, now);
            && NewAssets(known, added + [asset])
            && StemsLinked(known, added + [asset], done + [ImportedAsset(asset, Registered)])
  {
    MintSlug(pre.name, AssetIds(known) + AssetIds(added));
    RolesAreSlugs();
    OneMoreNew(known, added, StemAsset(known, added, pre, now));
  }

  lemma StemStep(known: seq<Asset>, added: seq<Asset>, done: seq<ImportedAsset>, todo: seq<PreStem>, one: ImportedAsset,
                 links: StemLinks)
    requires todo != [] && StemMatches(one, todo[0])
    requires LinksSound(known, added, done + [one], todo[1..], links)
    ensures LinksSound(known, added, done, todo, links)
    ensures one in links.stems
  {
    assert links.stems[|done|] == (done + [one])[|done|];
    forall k | 0 <= k < |todo| ensures StemMatches(links.stems[|done| + k], todo[k]) {
      if k > 0 {
        assert StemMatches(links.stems[|done + [one]| + (k - 1)], todo[1..][k - 1]);
      }
    }
  }

  /** Whatever the manifest, the input linked has the recorded hash, and is one of its assets
      or one new asset. */
  lemma LinkInputSound(w: World, m: Manifest, r: Request, look: Look)
    requires r.JobRequest? && LinkInput(w, m, r, look).Ok?
    ensures var l := LinkInput(w, m, r, look).value;
            && l.input.asset.sha256 == r.job.inputSha256
            && NewAssets(m.assets, l.added)
            && (if l.input.origin == Existing then l.added == [] && l.input.asset in m.assets
                else l.added == [l.input.asset])
  {
    var l := LinkInput(w, m, r, look).value;
    if l.input.origin == Registered {
      var a := l.input.asset;
      MintSlug(FileStem(a.path), AssetIds(m.assets));
      RolesAreSlugs();
      OneMoreNew(m.assets, [], a);
      assert [] + [a] == [a];
    }
  }

  /** The ids of the assets an import reports as registered. */
  ghost function RegisteredIds(input: ImportedAsset, stems: seq<ImportedAsset>): set<string> {
    set x | x in [input] + stems && x.origin == Registered :: x.asset.id
  }

  /** What a job import that writes has done. The linked input has the job's hash; outputs
      match the job's stems position by position, in path and in hash; the ids reported as
      registered are exactly the ids appended, all of them new; what is reported as existing
      was there. */
  ghost predicate JobLinked(m: Manifest, r: Request, n: Manifest, outcome: Outcome)
    requires r.JobRequest?
  {
    && outcome.Imported?
    && |n.assets| >= |m.assets| && n.assets[..|m.assets|] == m.assets
    && |n.derivations| == |m.derivations| + 1 && m.derivations <= n.derivations
    && var d, appended := n.derivations[|n.derivations| - 1], n.assets[|m.assets|..];
    && outcome.derivation == d.id && d.id !in DerivationIds(m.derivations)
    && d.job == Some(JobRef(r.rel, r.sha256, None))
    && outcome.input.asset.sha256 == r.job.inputSha256
    && d.inputs == [outcome.input.asset.id]
    && |d.outputs| == |outcome.stems| == |r.stems|
    && (forall k :: 0 <= k < |r.stems| ==>
          && StemMatches(outcome.stems[k], r.stems[k])
          && d.outputs[k] == outcome.stems[k].asset.id)
    && RegisteredIds(outcome.input, outcome.stems) == AssetIds(appended)
    && NewAssets(m.assets, appended)
    && (forall x :: x in [outcome.input] + outcome.stems ==>
          if x.origin == Existing then x.asset in m.assets else x.asset in appended)
  }

  /** ... whatever manifest it was imported into. */
  lemma JobIsLinked(w: World, m: Manifest, r: Request, look: Look)
    requires r.JobRequest? && DecideJob(w, m, r, look).Put?
    ensures JobLinked(m, r, DecideJob(w, m, r, look).manifest, DecideJob(w, m, r, look).outcome)
  {
    hide NewAssets;
    var l := LinkInput(w, m, r, look).value;
    LinkInputSound(w, m, r, look);
    LinkStemsSound(m.assets, l.added, [], r.stems, r.now);
    var links := LinkStems(m.assets, l.added, [], r.stems, r.now).value;
    RegisteredAreAppended(m.assets, l, links);
    LinkedDerivation(m, r, l, links);
  }

  lemma LinkedDerivation(m: Manifest, r: Request, l: Linked, links: StemLinks)
    requires r.JobRequest? && l.input.asset.sha256 == r.job.inputSha256
    requires LinksSound(m.assets, l.added, [], r.stems, links)
    requires if l.input.origin == Existing then l.added == [] && l.input.asset in m.assets else l.added == [l.input.asset]
    requires RegisteredIds(l.input, links.stems) == AssetIds(links.added)
    ensures var d := JobDerivation(m, r, l.input, links.stems);
            JobLinked(m, r, m.(assets := m.assets + links.added, derivations := m.derivations + [d]),
                      Imported(l.input, links.stems, d.id))
  {
    hide Mint, SlugOf, FolderName, RegisteredIds, AssetIds, NewAssets;
    var d := JobDerivation(m, r, l.input, links.stems);
    var n := m.(assets := m.assets + links.added, derivations := m.derivations + [d]);
    assert n.assets[|m.assets|..] == links.added;
    assert n.derivations[|n.derivations| - 1] == d;
    MintSlug(FolderName(r.folder), DerivationIds(m.derivations));
    assert l.input.origin == Registered ==> links.added[0] == l.input.asset;
    forall k | 0 <= k < |r.stems| ensures StemMatches(links.stems[k], r.stems[k]) {
      assert StemMatches(links.stems[0 + k], r.stems[k]);
    }
  }

  lemma RegisteredAreAppended(known: seq<Asset>, l: Linked, links: StemLinks)
    requires l.added <= links.added && StemsLinked(known, links.added, links.stems)
    requires if l.input.origin == Existing then l.added == [] else l.added == [l.input.asset]
    requires forall i :: |l.added| <= i < |links.added| ==> ImportedAsset(links.added[i], Registered) in links.stems
    ensures RegisteredIds(l.input, links.stems) == AssetIds(links.added)
  {
    forall a | a in links.added ensures a.id in RegisteredIds(l.input, links.stems) {
      var i :| 0 <= i < |links.added| && links.added[i] == a;
      var x := ImportedAsset(a, Registered);
      if i < |l.added| {
        assert l.added[i] == a;
        assert x == l.input;
      }
      assert x in [l.input] + links.stems;
    }
    forall x | x in [l.input] + links.stems && x.origin == Registered ensures x.asset in links.added {
      if x == l.input { assert links.added[0] == x.asset; }
    }
  }

  lemma JobKeepsGood(w: World, m: Manifest, r: Request, look: Look)
    requires Good(m) && r.JobRequest? && DecideJob(w, m, r, look).Put?
    ensures Good(DecideJob(w, m, r, look).manifest)
  {
    JobIsLinked(w, m, r, look);
    DecideEvolves(w, m, r, look);
    MintSlug(FolderName(r.folder), DerivationIds(m.derivations));
    var n := DecideJob(w, m, r, look).manifest;
    NewAssetsKeep(m.assets, n.assets[|m.assets|..]);
    assert n.assets == m.assets + n.assets[|m.assets|..];
    LinkedJobIsGood(m, r, n, DecideJob(w, m, r, look).outcome);
  }

  lemma LinkedJobIsGood(m: Manifest, r: Request, n: Manifest, o: Outcome)
    requires Good(m) && r.JobRequest? && JobLinked(m, r, n, o) && AssetsEvolve(m.assets, n.assets)
    requires UniqueAssets(n.assets) && SlugAssets(n.assets) && n.evaluations == m.evaluations
    requires ValidSlug(o.derivation) && FindJob(m.derivations, r.sha256).None?
    ensures Good(n)
  {
    var d := n.derivations[|m.derivations|];
    AssetsEvolveIds(m.assets, n.assets);
    LinksSurvive(m, n);
    LinkedIdsKnown(m, n, o);
    assert o.input in [o.input] + o.stems;
    forall k | 0 <= k < |d.outputs| ensures d.outputs[k] in AssetIds(n.assets) {
      assert o.stems[k] in [o.input] + o.stems;
      assert StemMatches(o.stems[k], r.stems[k]);
    }
    forall i | 0 <= i < |m.derivations|
      ensures m.derivations[i].id != d.id
      ensures m.derivations[i].job.Some? ==> m.derivations[i].job.value.sha256 != d.job.value.sha256
    {
      assert m.derivations[i] in m.derivations;
    }
    assert DerivationOk(d, AssetIds(n.assets));
    assert n.derivations == m.derivations + [d];
  }

  lemma LinkedIdsKnown(m: Manifest, n: Manifest, o: Outcome)
    requires |m.assets| <= |n.assets| && n.assets[..|m.assets|] == m.assets && o.Imported?
    requires forall x :: x in [o.input] + o.stems ==>
               if x.origin == Existing then x.asset in m.assets else x.asset in n.assets[|m.assets|..]
    ensures forall x :: x in [o.input] + o.stems ==> x.asset.id in AssetIds(n.assets)
  {
    assert n.assets == m.assets + n.assets[|m.assets|..];
  }

  /** Every decision keeps the manifest invariant. */
  lemma DecideKeepsGood(w: World, m: Manifest, r: Request, look: Look)
    requires Good(m) && !r.InitRequest? && RequestOk(r) && Decide(w, m, r, look).Put?
    ensures Good(Decide(w, m, r, look).manifest)
  {
    match r
    case AddRequest(_, _, _, _, _, _, _) => AddKeepsGood(m, r);
    case JobRequest(_, _, _, _, _, _, _) => JobKeepsGood(w, m, r, look);
    case CompareRequest(_, _, _, _, _, _) => CompareKeepsGood(m, r);
    case StampRequest(_, _, _, _) => StampKeepsGood(m, r);
  }
}
