/** Corners the documents do not speak of: a job without stems, a job that names one file
    twice, and two files that share a stored path. For each, exactly when it happens, and
    an instance. */
module Corners {
  import opened Wrappers
  import opened Slugs
  import opened Json
  import opened Manifests
  import opened Paths
  import opened Worlds
  import opened Commands
  import opened Decisions
  import opened Rereading
  import opened Refusals
  import opened Histories
  import opened Protocol
  import opened Guarantees

  // ---------------------------------------------------------------- no stems

  /** An imported derivation has no outputs, as the published schema forbids, if and only if
      the job record it was imported from names no stem. */
  lemma EmptyOutputsIff(w: World, s: State, steps: seq<Step>, t: State, k: nat)
    requires Initial(s) && Reaches(w, s, steps, t)
    requires k < |t.events| && t.events[k].outcome.Imported?
    ensures t.events[k].request.JobRequest? && Writes(w, s.manifest, t.events, k)
    ensures var ds := Written(w, s.manifest, t.events, k).derivations;
            ds != [] && (ds[|ds| - 1].outputs == [] <==> t.events[k].request.job.stems == [])
  {
    hide Judge, Exec, FileAfter, Load, NewAssets, RegisteredIds, StemLinked;
    EveryImportIsLinked(w, s, steps, t, k);
  }

  const MIX := Asset("mix", "mix.wav", "ab", 3, "mix", "t", None, None)

  /** A project with one asset, the input of the jobs below. */
  function MixProject(): Manifest {
    NewManifest("p", "demo", "t").(assets := [MIX])
  }

  /** A record without stems is accepted, and imported with empty outputs. */
  lemma StemlessJobImports(w: World, arg: string)
    requires TextLayer(w) && w.rfc3339(0).Some?
    ensures EvidenceFrom(w, arg, w.text(DeepJobTree(0))) == Ok(JobEvidence(DeepJob(0), w.rfc3339(0).value))
    ensures DeepJob(0).stems == []
    ensures var v := DecideJob(w, MixProject(), DeepRequest(0), Absent);
            v.Put? && |v.manifest.derivations| == 1 && v.manifest.derivations[0].outputs == []
  {
    DeepJobIsAccepted(w, arg, 0);
    DeepDecision(w, MixProject(), 0);
  }

  // ---------------------------------------------------------------- one file named twice

  /** The assets an import reports as registered, one for each time it reports one. */
  function ReportedRegistered(xs: seq<ImportedAsset>): seq<Asset> {
    if xs == [] then []
    else (if xs[0].origin == Registered then [xs[0].asset] else []) + ReportedRegistered(xs[1..])
  }

  ghost predicate DistinctPaths(assets: seq<Asset>) {
    forall i, j :: 0 <= i < j < |assets| ==> assets[i].path != assets[j].path
  }

  ghost predicate NoRepeats(assets: seq<Asset>) {
    forall i, j :: 0 <= i < j < |assets| ==> assets[i] != assets[j]
  }

  ghost function Elements(assets: seq<Asset>): set<Asset> {
    set a | a in assets
  }

  lemma RepeatsStep(first: Asset, rest: seq<Asset>)
    ensures NoRepeats([first] + rest) <==> first !in rest && NoRepeats(rest)
  {
    var all := [first] + rest;
    assert forall i :: 0 <= i < |rest| ==> all[i + 1] == rest[i];
    if NoRepeats(all) {
      forall i, j | 0 <= i < j < |rest| ensures rest[i] != rest[j] {
        assert all[i + 1] != all[j + 1];
      }
      forall j | 0 <= j < |rest| ensures rest[j] != first {
        assert all[0] != all[j + 1];
      }
    }
    if first !in rest && NoRepeats(rest) {
      forall i, j | 0 <= i < j < |all| ensures all[i] != all[j] {
        if i == 0 { assert all[j] in rest; }
      }
    }
  }

  lemma {:induction false} ElementsCount(assets: seq<Asset>)
    ensures |Elements(assets)| <= |assets|
    ensures |Elements(assets)| == |assets| <==> NoRepeats(assets)
  {
    hide NoRepeats;
    if assets != [] {
      var first, rest := assets[0], assets[1..];
      ElementsCount(rest);
      RepeatsStep(first, rest);
      assert assets == [first] + rest;
      assert Elements(assets) == {first} + Elements(rest);
      if first in rest { assert Elements(assets) == Elements(rest); }
    } else {
      NoneRepeat();
    }
  }

  lemma NoneRepeat()
    ensures NoRepeats([])
  {
  }

  lemma {:induction false} ReportedElements(xs: seq<ImportedAsset>, a: Asset)
    ensures a in ReportedRegistered(xs) <==> ImportedAsset(a, Registered) in xs
  {
    if xs != [] {
      ReportedElements(xs[1..], a);
      assert xs == [xs[0]] + xs[1..];
    }
  }

  /** As many assets are reported registered as are appended if and only if no two reports
      name one stored path, the new input's among them; otherwise more are reported. */
  lemma ReportedTwiceIff(m: Manifest, r: Request, n: Manifest, o: Outcome)
    requires r.JobRequest? && JobLinked(m, r, n, o)
    ensures var reported := ReportedRegistered([o.input] + o.stems);
            && |reported| >= |n.assets| - |m.assets|
            && (|reported| == |n.assets| - |m.assets| <==> DistinctPaths(reported))
  {
    var all, appended := [o.input] + o.stems, n.assets[|m.assets|..];
    var reported := ReportedRegistered(all);
    forall a ensures a in reported <==> a in appended {
      ReportedElements(all, a);
      if a in appended { AppendedIsReported(m, r, n, o, a); }
    }
    assert Elements(reported) == Elements(appended);
    ElementsCount(reported);
    ElementsCount(appended);
    assert NoRepeats(appended);
    assert DistinctPaths(reported) <==> NoRepeats(reported) by {
      SamePathSame(reported, appended);
    }
  }

  lemma AppendedIsReported(m: Manifest, r: Request, n: Manifest, o: Outcome, a: Asset)
    requires r.JobRequest? && JobLinked(m, r, n, o) && a in n.assets[|m.assets|..]
    ensures ImportedAsset(a, Registered) in [o.input] + o.stems
  {
    var all, appended := [o.input] + o.stems, n.assets[|m.assets|..];
    assert a.id in AssetIds(appended);
    assert a.id in RegisteredIds(o.input, o.stems);
    var x :| x in all && x.origin == Registered && x.asset.id == a.id;
    assert x.asset in appended;
    var i :| 0 <= i < |appended| && appended[i] == a;
    var j :| 0 <= j < |appended| && appended[j] == x.asset;
    assert i == j;
  }

  lemma SamePathSame(reported: seq<Asset>, appended: seq<Asset>)
    requires UniqueAssets(appended) && forall a :: a in reported ==> a in appended
    ensures DistinctPaths(reported) <==> NoRepeats(reported)
  {
    if NoRepeats(reported) {
      forall i, j | 0 <= i < j < |reported| ensures reported[i].path != reported[j].path {
        assert reported[i] in appended && reported[j] in appended;
        var x :| 0 <= x < |appended| && appended[x] == reported[i];
        var y :| 0 <= y < |appended| && appended[y] == reported[j];
        assert x != y;
      }
    }
  }

  const VOCALS := PreStem("vocals", "job/vocals.wav", "cd", 5)

  /** A job whose record names one stem twice. */
  function TwiceRequest(): Request {
    var job := JobRecord("mix.wav", "ab", Null, ["vocals", "vocals"], "1.0", "success", 0);
    JobRequest("job/job.json", "ef", [FromText("job")], job, "t", [VOCALS, VOCALS], "t")
  }

  /** Its import reports two registered assets and appends one. */
  lemma RepeatedStemImports(w: World)
    ensures var v := DecideJob(w, MixProject(), TwiceRequest(), Absent);
            && v.Put? && v.outcome.Imported?
            && |v.manifest.assets| == |MixProject().assets| + 1
            && |ReportedRegistered([v.outcome.input] + v.outcome.stems)| == 2
  {
    hide Mint, SlugOf;
    var known, r := MixProject().assets, TwiceRequest();
    var a := StemAsset(known, [], VOCALS, "t");
    var one := ImportedAsset(a, Registered);
    assert FindHash(known, "ab") == Some(MIX);
    assert LinkInput(w, MixProject(), r, Absent) == Ok(Linked(ImportedAsset(MIX, Existing), []));
    VocalsLink(known, a, one);
    assert LinkStems(known, [], [], r.stems, "t") == Ok(StemLinks([a], [one, one]));
    var input := ImportedAsset(MIX, Existing);
    assert ([input] + [one, one])[1..] == [one, one] && [one, one][1..] == [one] && [one][1..] == [];
    assert ReportedRegistered([one]) == [a];
    assert ReportedRegistered([one, one]) == [a] + [a];
  }

  lemma VocalsLink(known: seq<Asset>, a: Asset, one: ImportedAsset)
    requires known == [MIX] && a == StemAsset(known, [], VOCALS, "t") && one == ImportedAsset(a, Registered)
    ensures LinkStems(known, [], [], [VOCALS, VOCALS], "t") == Ok(StemLinks([a], [one, one]))
  {
    hide Mint, SlugOf;
    assert "mix.wav"[0] != "job/vocals.wav"[0];
    assert FindPath(known, VOCALS.rel) == None;
    assert FindStem(known, [], VOCALS.rel) == None;
    assert FindStem(known, [a], VOCALS.rel) == Some(one);
    assert [VOCALS, VOCALS][1..] == [VOCALS] && [VOCALS][1..] == [];
    assert [] + [a] == [a] && [] + [one] == [one] && [one] + [one] == [one, one];
    assert LinkStems(known, [a], [one, one], [], "t") == Ok(StemLinks([a], [one, one]));
    assert LinkStems(known, [a], [one], [VOCALS], "t") == LinkStems(known, [a], [one, one], [], "t");
  }

  // ---------------------------------------------------------------- two files, one stored path

  /** Once one of two files that share a stored path is registered, the other never can be. */
  lemma TwinIsRefused(w: World, one: Candidate, other: Candidate, m: Manifest, r: Request)
    requires CanonicalInside(w, one).Ok? && CanonicalInside(w, other).Ok?
    requires var a, b := CanonicalInside(w, one).value.path[|w.root|..], CanonicalInside(w, other).value.path[|w.root|..];
             AllValid(a) && AllValid(b) && LossyAll(a) == LossyAll(b)
    requires exists x :: x in m.assets && x.path == CanonicalInside(w, one).value.stored
    requires r.AddRequest? && r.path == CanonicalInside(w, other).value.stored
    ensures DecideAdd(m, r).Keep? && DecideAdd(m, r).outcome.Refused? && DecideAdd(m, r).outcome.error.DuplicatePath?
  {
    var a, b := CanonicalInside(w, one).value.path[|w.root|..], CanonicalInside(w, other).value.path[|w.root|..];
    StoredAlike(a, b);
    AddDecides(m, r);
  }
}
