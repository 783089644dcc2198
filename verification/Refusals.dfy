/** When each decision under the lock goes through and when it refuses, said of the manifest
    and not of the order in which the program looks things up. */
module Refusals {
  import opened Wrappers
  import opened Slugs
  import opened Json
  import opened Manifests
  import opened Paths
  import opened Worlds
  import opened Commands
  import opened Decisions

  ghost predicate PathTaken(assets: seq<Asset>, path: string) {
    exists a :: a in assets && a.path == path
  }

  // ---------------------------------------------------------------- the first one wins

  ghost predicate FirstAt(assets: seq<Asset>, i: int, path: string) {
    0 <= i < |assets| && assets[i].path == path && forall j :: 0 <= j < i ==> assets[j].path != path
  }

  /** A search by path yields the first asset there, if there is one. */
  lemma {:induction false} FindPathIsFirst(assets: seq<Asset>, path: string)
    ensures FindPath(assets, path).None? <==> !PathTaken(assets, path)
    ensures FindPath(assets, path).Some? ==>
              exists i :: FirstAt(assets, i, path) && FindPath(assets, path) == Some(assets[i])
  {
    if FindPath(assets, path).Some? {
      if assets[0].path == path {
        assert FirstAt(assets, 0, path);
      } else {
        FindPathIsFirst(assets[1..], path);
        var i :| FirstAt(assets[1..], i, path) && FindPath(assets[1..], path) == Some(assets[1..][i]);
        assert forall j :: 1 <= j < |assets| ==> assets[j] == assets[1..][j - 1];
        assert FirstAt(assets, i + 1, path);
      }
    }
  }

  ghost predicate FirstWithHash(assets: seq<Asset>, i: int, sha256: string) {
    0 <= i < |assets| && assets[i].sha256 == sha256 && forall j :: 0 <= j < i ==> assets[j].sha256 != sha256
  }

  /** A search by hash yields the first asset with it, wherever it lies. */
  lemma {:induction false} FindHashIsFirst(assets: seq<Asset>, sha256: string)
    ensures FindHash(assets, sha256).None? <==> forall a :: a in assets ==> a.sha256 != sha256
    ensures FindHash(assets, sha256).Some? ==>
              exists i :: FirstWithHash(assets, i, sha256) && FindHash(assets, sha256) == Some(assets[i])
  {
    if FindHash(assets, sha256).Some? {
      if assets[0].sha256 == sha256 {
        assert FirstWithHash(assets, 0, sha256);
      } else {
        FindHashIsFirst(assets[1..], sha256);
        var i :| FirstWithHash(assets[1..], i, sha256) && FindHash(assets[1..], sha256) == Some(assets[1..][i]);
        assert forall j :: 1 <= j < |assets| ==> assets[j] == assets[1..][j - 1];
        assert FirstWithHash(assets, i + 1, sha256);
      }
    }
  }

  predicate HasJob(d: Derivation, sha256: string) {
    d.job.Some? && d.job.value.sha256 == sha256
  }

  ghost predicate FirstWithJob(ds: seq<Derivation>, i: int, sha256: string) {
    0 <= i < |ds| && HasJob(ds[i], sha256) && forall j :: 0 <= j < i ==> !HasJob(ds[j], sha256)
  }

  /** A search by job hash yields the first derivation imported from it. */
  lemma {:induction false} FindJobIsFirst(ds: seq<Derivation>, sha256: string)
    ensures FindJob(ds, sha256).None? <==> forall d :: d in ds ==> !HasJob(d, sha256)
    ensures FindJob(ds, sha256).Some? ==> exists i :: FirstWithJob(ds, i, sha256) && FindJob(ds, sha256) == Some(ds[i])
  {
    if FindJob(ds, sha256).Some? {
      if HasJob(ds[0], sha256) {
        assert FirstWithJob(ds, 0, sha256);
      } else {
        FindJobIsFirst(ds[1..], sha256);
        var i :| FirstWithJob(ds[1..], i, sha256) && FindJob(ds[1..], sha256) == Some(ds[1..][i]);
        assert forall j :: 1 <= j < |ds| ==> ds[j] == ds[1..][j - 1];
        assert FirstWithJob(ds, i + 1, sha256);
      }
    }
  }

  ghost predicate FirstWithRecord(es: seq<Evaluation>, i: int, sha256: string) {
    0 <= i < |es| && es[i].record.sha256 == sha256 && forall j :: 0 <= j < i ==> es[j].record.sha256 != sha256
  }

  /** A search by record hash yields the first evaluation imported from it. */
  lemma {:induction false} FindRecordIsFirst(es: seq<Evaluation>, sha256: string)
    ensures FindRecord(es, sha256).None? <==> forall e :: e in es ==> e.record.sha256 != sha256
    ensures FindRecord(es, sha256).Some? ==>
              exists i :: FirstWithRecord(es, i, sha256) && FindRecord(es, sha256) == Some(es[i])
  {
    if FindRecord(es, sha256).Some? {
      if es[0].record.sha256 == sha256 {
        assert FirstWithRecord(es, 0, sha256);
      } else {
        FindRecordIsFirst(es[1..], sha256);
        var i :| FirstWithRecord(es[1..], i, sha256) && FindRecord(es[1..], sha256) == Some(es[1..][i]);
        assert forall j :: 1 <= j < |es| ==> es[j] == es[1..][j - 1];
        assert FirstWithRecord(es, i + 1, sha256);
      }
    }
  }

  // ---------------------------------------------------------------- add

  /** The id given, if it is a free slug; or one minted, which always is. */
  ghost predicate IdFree(m: Manifest, chosen: Option<string>) {
    chosen.Some? ==> ValidSlug(chosen.value) && chosen.value !in AssetIds(m.assets)
  }

  /** `add` registers if and only if the path is new and the id, if given, is a free slug;
      then it appends exactly the file it hashed, under the id given or minted. A duplicate
      path is refused first, naming the first asset that has it; then the id. */
  ghost predicate AddComesOut(m: Manifest, r: Request, v: Verdict)
    requires r.AddRequest?
  {
    && (v.Put? <==> !PathTaken(m.assets, r.path) && IdFree(m, r.chosen))
    && (v.Put? ==>
          && v.outcome.Added?
          && var a := v.outcome.asset;
          && v.manifest == m.(assets := m.assets + [a])
          && a == Asset(a.id, r.path, r.sha256, r.size, r.role, r.now, None, None)
          && a.id !in AssetIds(m.assets)
          && a.id == (if r.chosen.Some? then r.chosen.value else Mint(SlugOf(r.stem), AssetIds(m.assets))))
    && (v.Keep? ==>
          if PathTaken(m.assets, r.path) then
            exists i :: FirstAt(m.assets, i, r.path) && v.outcome == Refused(DuplicatePath(r.path, m.assets[i].id))
          else
            && r.chosen.Some?
            && v.outcome == Refused(if ValidSlug(r.chosen.value) then IdInUse(r.chosen.value) else InvalidSlug("id", r.chosen.value)))
  }

  lemma AddDecides(m: Manifest, r: Request)
    requires r.AddRequest?
    ensures AddComesOut(m, r, DecideAdd(m, r))
  {
    hide SlugOf;
    FindPathIsFirst(m.assets, r.path);
    MintIsLeastFree(SlugOf(r.stem), AssetIds(m.assets), "");
  }

  // ---------------------------------------------------------------- comparison records

  ghost predicate RecordTaken(m: Manifest, sha256: string) {
    exists e :: e in m.evaluations && e.record.sha256 == sha256
  }

  /** An evaluation is imported if and only if its record is new and all its candidates are
      registered; it then says what the record says. A known record comes first, then the
      first unregistered candidate. */
  ghost predicate CompareComesOut(m: Manifest, r: Request, v: Verdict)
    requires r.CompareRequest?
  {
    && (v.Put? <==> !RecordTaken(m, r.sha256) && AllIn(r.candidates, AssetIds(m.assets)))
    && (v.Put? ==> v.outcome.EvaluationImported? && EvaluationRecorded(m, r, v.outcome.evaluation)
                   && v.manifest == m.(evaluations := m.evaluations + [v.outcome.evaluation]))
    && (RecordTaken(m, r.sha256) ==>
          exists i :: FirstWithRecord(m.evaluations, i, r.sha256)
                      && v.outcome == EvaluationAlreadyImported(m.evaluations[i].id))
    && (v.Keep? && !RecordTaken(m, r.sha256) ==>
          exists k :: FirstMissing(r.candidates, AssetIds(m.assets), k)
                      && v.outcome == Refused(UnknownAsset(r.candidates[k])))
  }

  ghost predicate EvaluationRecorded(m: Manifest, r: Request, e: Evaluation)
    requires r.CompareRequest?
  {
    var ids := EvaluationIds(m.evaluations);
    && e.id == Mint(SlugOf(JoinWith(r.candidates, "-vs-")), ids) && e.id !in ids
    && e.candidates == r.candidates && e.preference == r.preference && e.createdAt == r.completedAt
    && e.confidence == (if r.confidence == Some(Null) then None else r.confidence)
    && e.record == RecordRef(r.rel, r.sha256, None) && e.ext == None
  }

  lemma CompareDecides(m: Manifest, r: Request)
    requires r.CompareRequest?
    ensures CompareComesOut(m, r, DecideCompare(m, r))
  {
    hide SlugOf;
    FindRecordIsFirst(m.evaluations, r.sha256);
    if FindRecord(m.evaluations, r.sha256).None? {
      if AllIn(r.candidates, AssetIds(m.assets)) {
        MintIsLeastFree(SlugOf(JoinWith(r.candidates, "-vs-")), EvaluationIds(m.evaluations), "");
      } else {
        var k := FirstUnknownIsFirst(r.candidates, AssetIds(m.assets));
      }
    }
  }

  ghost predicate FirstMissing(ids: seq<string>, known: set<string>, k: int) {
    0 <= k < |ids| && ids[k] !in known && forall i :: 0 <= i < k ==> ids[i] in known
  }

  /** The unregistered id reported is the first one. */
  lemma {:induction false} FirstUnknownIsFirst(ids: seq<string>, known: set<string>) returns (k: nat)
    requires FirstUnknown(ids, known).Some?
    ensures FirstMissing(ids, known, k) && FirstUnknown(ids, known) == Some(ids[k])
  {
    k := 0;
    if ids[0] in known {
      var j := FirstUnknownIsFirst(ids[1..], known);
      k := j + 1;
      assert forall i :: 1 <= i < |ids| ==> ids[i] == ids[1..][i - 1];
    }
  }

  // ---------------------------------------------------------------- job records

  /** No stem contradicts the first asset registered at its path, nor another stem. */
  ghost predicate Consistent(assets: seq<Asset>, stems: seq<PreStem>) {
    && (forall i, k :: 0 <= k < |stems| && FirstAt(assets, i, stems[k].rel) ==> assets[i].sha256 == stems[k].hash)
    && (forall j, k :: 0 <= j < k < |stems| && stems[j].rel == stems[k].rel ==> stems[j].hash == stems[k].hash)
  }

  /** Whatever is registered, the stems can be linked if and only if they are consistent. */
  lemma {:induction false} StemsLinkIff(known: seq<Asset>, added: seq<Asset>, done: seq<ImportedAsset>, todo: seq<PreStem>, now: string)
    ensures LinkStems(known, added, done, todo, now).Ok? <==> Consistent(known + added, todo)
    decreases |todo|
  {
    hide FirstAt;
    if todo != [] {
      var pre := todo[0];
      match FindStem(known, added, pre.rel)
      case Some(found) =>
        var i := FoundIsFirst(known, added, pre.rel);
        if found.asset.sha256 == pre.hash {
          StemsLinkIff(known, added, done + [found], todo[1..], now);
          FoundIsConsistent(known + added, i, todo);
        }
      case None =>
        var asset := StemAsset(known, added, pre, now);
        NoneThere(known, added, pre.rel);
        StemsLinkIff(known, added + [asset], done + [ImportedAsset(asset, Registered)], todo[1..], now);
        assert known + (added + [asset]) == known + added + [asset];
        NewIsConsistent(known + added, asset, todo);
    }
  }

  lemma FoundIsFirst(known: seq<Asset>, added: seq<Asset>, path: string) returns (i: nat)
    requires FindStem(known, added, path).Some?
    ensures FirstAt(known + added, i, path) && (known + added)[i] == FindStem(known, added, path).value.asset
  {
    FindPathIsFirst(known, path);
    FindPathIsFirst(added, path);
    if FindPath(known, path).Some? {
      i :| FirstAt(known, i, path) && FindPath(known, path) == Some(known[i]);
    } else {
      var k :| FirstAt(added, k, path) && FindPath(added, path) == Some(added[k]);
      i := |known| + k;
      assert forall j :: 0 <= j < |known| ==> known[j] in known;
    }
  }

  lemma NoneThere(known: seq<Asset>, added: seq<Asset>, path: string)
    requires FindStem(known, added, path).None?
    ensures forall a :: a in known + added ==> a.path != path
  {
  }

  lemma OneFirst(assets: seq<Asset>, i: int, j: int, path: string)
    requires FirstAt(assets, i, path) && FirstAt(assets, j, path)
    ensures i == j
  {
  }

  lemma FoundIsConsistent(assets: seq<Asset>, i: nat, todo: seq<PreStem>)
    requires todo != [] && FirstAt(assets, i, todo[0].rel) && assets[i].sha256 == todo[0].hash
    ensures Consistent(assets, todo) <==> Consistent(assets, todo[1..])
  {
    var rest := todo[1..];
    assert forall k :: 0 <= k < |rest| ==> rest[k] == todo[k + 1];
    if Consistent(assets, rest) {
      forall n, k | 0 <= k < |todo| && FirstAt(assets, n, todo[k].rel) ensures assets[n].sha256 == todo[k].hash {
        if k > 0 { assert todo[k] == rest[k - 1]; } else { OneFirst(assets, n, i, todo[0].rel); }
      }
      forall j, k | 0 <= j < k < |todo| && todo[j].rel == todo[k].rel ensures todo[j].hash == todo[k].hash {
        assert todo[k] == rest[k - 1];
        if j > 0 { assert todo[j] == rest[j - 1]; } else { assert FirstAt(assets, i, rest[k - 1].rel); }
      }
    }
  }

  lemma FirstInLonger(assets: seq<Asset>, a: Asset, i: int, path: string)
    requires i < |assets|
    ensures FirstAt(assets + [a], i, path) <==> FirstAt(assets, i, path)
  {
    assert forall j :: 0 <= j < |assets| ==> (assets + [a])[j] == assets[j];
  }

  lemma NewIsConsistent(assets: seq<Asset>, a: Asset, todo: seq<PreStem>)
    requires todo != [] && a.path == todo[0].rel && a.sha256 == todo[0].hash
    requires forall b :: b in assets ==> b.path != todo[0].rel
    ensures Consistent(assets, todo) <==> Consistent(assets + [a], todo[1..])
  {
    var rest, all := todo[1..], assets + [a];
    assert forall k :: 0 <= k < |rest| ==> rest[k] == todo[k + 1];
    assert FirstAt(all, |assets|, todo[0].rel);
    if Consistent(assets, todo) {
      forall n, k | 0 <= k < |rest| && FirstAt(all, n, rest[k].rel) ensures all[n].sha256 == rest[k].hash {
        if n < |assets| {
          FirstInLonger(assets, a, n, todo[k + 1].rel);
        } else {
          assert todo[0].rel == todo[k + 1].rel;
        }
      }
    }
    if Consistent(all, rest) {
      forall n, k | 0 <= k < |todo| && FirstAt(assets, n, todo[k].rel) ensures assets[n].sha256 == todo[k].hash {
        assert assets[n] in assets;
        FirstInLonger(assets, a, n, rest[k - 1].rel);
      }
      forall j, k | 0 <= j < k < |todo| && todo[j].rel == todo[k].rel ensures todo[j].hash == todo[k].hash {
        assert todo[k] == rest[k - 1];
        if j > 0 { assert todo[j] == rest[j - 1]; } else { assert FirstAt(all, |assets|, rest[k - 1].rel); }
      }
    }
  }

  ghost predicate JobTaken(m: Manifest, sha256: string) {
    exists d :: d in m.derivations && HasJob(d, sha256)
  }

  /** The input's hash is registered under any path, or the file at the recorded path is
      inside the project, has that hash now, and lies where no asset does. */
  ghost predicate InputLinkable(w: World, m: Manifest, job: JobRecord, look: Look) {
    HashTaken(m, job.inputSha256) || InputFits(w, m, job, look)
  }

  ghost predicate HashTaken(m: Manifest, sha256: string) {
    exists a :: a in m.assets && a.sha256 == sha256
  }

  ghost predicate InputFits(w: World, m: Manifest, job: JobRecord, look: Look) {
    var c := Arg(job.inputPath);
    && !Rooted(job.inputPath) && w.canonicalize(c).Ok? && w.root <= w.canonicalize(c).value
    && look.Plain? && w.hash(look.bytes) == job.inputSha256
    && !PathTaken(m.assets, Stored(w.canonicalize(c).value[|w.root|..]))
  }

  /** Why the input cannot be linked: the recorded path is absolute, leads nowhere, leads out,
      cannot be read, or shows another hash; or an asset of another hash lies there. */
  ghost predicate InputTrouble(w: World, m: Manifest, job: JobRecord, look: Look, error: Error) {
    var input, c := job.inputPath, Arg(job.inputPath);
    if HashTaken(m, job.inputSha256) then false
    else if Rooted(input) then error == InputAbsolutePath(input)
    else if Nowhere(w, c) then error == InputMissing(input)
    else if Escapes(w, c) then error == InputOutsideRoot(input)
    else if Barred(w, c) || w.canonicalize(c).Err? || !look.Plain? then error == InputUnreadable(input)
    else FileTrouble(m, job, Stored(w.canonicalize(c).value[|w.root|..]), w.hash(look.bytes), error)
  }

  /** What is wrong with a file that was read: its hash, or whose path it has. */
  ghost predicate FileTrouble(m: Manifest, job: JobRecord, stored: string, hash: string, error: Error) {
    if hash != job.inputSha256 then error == InputHashMismatch(stored, job.inputSha256, hash)
    else exists sha256 :: HashAt(m.assets, stored, sha256) && error == InputPathConflict(stored, sha256, hash)
  }

  /** The input as newly registered: the file at the recorded path, in the role `mix`, under
      an id minted from its name. */
  ghost predicate InputRegistered(w: World, m: Manifest, r: Request, look: Look, a: Asset)
    requires r.JobRequest?
  {
    && InputFits(w, m, r.job, look)
    && a.path == Stored(w.canonicalize(Arg(r.job.inputPath)).value[|w.root|..])
    && a.sha256 == r.job.inputSha256 && a.size == |look.bytes| && a.role == "mix" && a.addedAt == r.now
    && a.lastVerified == None && a.ext == None
    && exists stem :: StemIs(a.path, stem) && a.id == Mint(SlugOf(stem), AssetIds(m.assets))
  }

  /** The input a job links, and what it adds for it. */
  ghost predicate InputLinked(w: World, m: Manifest, r: Request, look: Look, input: ImportedAsset, added: seq<Asset>)
    requires r.JobRequest?
  {
    if HashTaken(m, r.job.inputSha256) then
      && added == []
      && exists i :: FirstWithHash(m.assets, i, r.job.inputSha256) && input == ImportedAsset(m.assets[i], Existing)
    else
      added == [input.asset] && input.origin == Registered && InputRegistered(w, m, r, look, input.asset)
  }

  lemma OneWithHash(assets: seq<Asset>, i: int, j: int, sha256: string)
    requires FirstWithHash(assets, i, sha256) && FirstWithHash(assets, j, sha256)
    ensures i == j
  {
  }

  lemma KnownInput(w: World, m: Manifest, r: Request, look: Look, input: ImportedAsset, added: seq<Asset>)
    requires r.JobRequest? && HashTaken(m, r.job.inputSha256)
    ensures LinkInput(w, m, r, look).Ok?
    ensures LinkInput(w, m, r, look) == Ok(Linked(input, added)) <==> InputLinked(w, m, r, look, input, added)
  {
    hide FirstWithHash, CanonicalInside;
    FindHashIsFirst(m.assets, r.job.inputSha256);
    var i :| FirstWithHash(m.assets, i, r.job.inputSha256);
    forall j | FirstWithHash(m.assets, j, r.job.inputSha256) ensures j == i {
      OneWithHash(m.assets, i, j, r.job.inputSha256);
    }
  }

  lemma NewInput(w: World, m: Manifest, r: Request, look: Look, input: ImportedAsset, added: seq<Asset>)
    requires r.JobRequest? && !HashTaken(m, r.job.inputSha256)
    ensures LinkInput(w, m, r, look).Ok? <==> InputFits(w, m, r.job, look)
    ensures LinkInput(w, m, r, look) == Ok(Linked(input, added)) <==> InputLinked(w, m, r, look, input, added)
  {
    hide HashTaken, Mint, SlugOf, Stored, FileStem, StemIs, AssetIds, FindPath, PathTaken;
    NotTaken(m, r.job.inputSha256);
    FourWays(w, Arg(r.job.inputPath));
    if CanonicalInside(w, Arg(r.job.inputPath)).Ok? {
      var stored := CanonicalInside(w, Arg(r.job.inputPath)).value.stored;
      FindPathIsFirst(m.assets, stored);
      FileStemIs(stored);
    }
  }

  lemma NotTaken(m: Manifest, sha256: string)
    requires !HashTaken(m, sha256)
    ensures FindHash(m.assets, sha256).None?
  {
  }

  lemma FileRefused(w: World, m: Manifest, r: Request, look: Look, error: Error)
    requires r.JobRequest? && FindHash(m.assets, r.job.inputSha256).None? && !IsAbsolute(r.job.inputPath)
    requires CanonicalInside(w, Arg(r.job.inputPath)).Ok? && look.Plain?
    ensures LinkInput(w, m, r, look) == Err(error) <==>
              FileTrouble(m, r.job, CanonicalInside(w, Arg(r.job.inputPath)).value.stored, w.hash(look.bytes), error)
  {
    hide FindHash, FindPath, IsAbsolute, CanonicalInside, FirstAt, Mint, SlugOf, FileStem, AssetIds;
    PathOnRecord(m.assets, CanonicalInside(w, Arg(r.job.inputPath)).value.stored);
  }

  lemma InputRefused(w: World, m: Manifest, r: Request, look: Look, error: Error)
    requires r.JobRequest? && !HashTaken(m, r.job.inputSha256)
    ensures LinkInput(w, m, r, look) == Err(error) <==> InputTrouble(w, m, r.job, look, error)
  {
    hide HashTaken, FirstAt, Mint, SlugOf, Stored, FileStem, AssetIds, FindPath, FileTrouble;
    NotTaken(m, r.job.inputSha256);
    FourWays(w, Arg(r.job.inputPath));
    if CanonicalInside(w, Arg(r.job.inputPath)).Ok? && !Rooted(r.job.inputPath) && look.Plain? {
      FileRefused(w, m, r, look, error);
    }
  }

  /** The hash of the first asset at a path. */
  ghost predicate HashAt(assets: seq<Asset>, path: string, sha256: string) {
    exists i :: FirstAt(assets, i, path) && assets[i].sha256 == sha256
  }

  /** Who holds a path: the asset found there, if any. */
  lemma PathOnRecord(assets: seq<Asset>, path: string)
    ensures FindPath(assets, path).None? ==> forall i :: !FirstAt(assets, i, path)
    ensures FindPath(assets, path).Some? ==>
              forall sha256 :: HashAt(assets, path, sha256) <==> FindPath(assets, path).value.sha256 == sha256
  {
    FindPathIsFirst(assets, path);
    TakenIsFirst(assets, path);
    forall i, j | FirstAt(assets, i, path) && FirstAt(assets, j, path) ensures i == j {
      OneFirst(assets, i, j, path);
    }
  }

  /** The input links if and only if it can be; what it then links, and why it does not. */
  lemma InputLinksIff(w: World, m: Manifest, r: Request, look: Look, input: ImportedAsset, added: seq<Asset>, error: Error)
    requires r.JobRequest?
    ensures LinkInput(w, m, r, look).Ok? <==> InputLinkable(w, m, r.job, look)
    ensures LinkInput(w, m, r, look) == Ok(Linked(input, added)) <==> InputLinked(w, m, r, look, input, added)
    ensures LinkInput(w, m, r, look) == Err(error) <==> InputTrouble(w, m, r.job, look, error)
  {
    hide LinkInput, InputFits, InputLinked;
    if HashTaken(m, r.job.inputSha256) {
      KnownInput(w, m, r, look, input, added);
    } else {
      NewInput(w, m, r, look, input, added);
      InputRefused(w, m, r, look, error);
    }
  }

  /** What the lock holder looks at for the input: the file the recorded path leads to. */
  lemma InputLookIs(w: World, file: Option<Bytes>, m: Manifest, r: Request, files: Files)
    requires Load(w, file) == Ok(m) && r.JobRequest? && !JobTaken(m, r.sha256) && !HashTaken(m, r.job.inputSha256)
    requires var c := Arg(r.job.inputPath);
             !Rooted(r.job.inputPath) && w.canonicalize(c).Ok? && w.root <= w.canonicalize(c).value
    ensures InputLook(w, file, r, files) == LookAt(w, files, At(w.canonicalize(Arg(r.job.inputPath)).value))
  {
    hide Load, LookAt;
    FindJobIsFirst(m.derivations, r.sha256);
    FindHashIsFirst(m.assets, r.job.inputSha256);
  }

  // ---------------------------------------------------------------- stems that clash

  /** The hash a stem's path has on record when the stem's turn comes: that of the first asset
      there, else that of the first stem before it. */
  ghost predicate OnRecord(assets: seq<Asset>, stems: seq<PreStem>, k: int, sha256: string)
    requires 0 <= k < |stems|
  {
    || HashAt(assets, stems[k].rel, sha256)
    || (!PathTaken(assets, stems[k].rel) && exists j :: FirstStemAt(stems, j, k, stems[k].rel) && stems[j].hash == sha256)
  }

  ghost predicate FirstStemAt(stems: seq<PreStem>, j: int, k: int, path: string)
    requires k <= |stems|
  {
    0 <= j < k && stems[j].rel == path && forall i :: 0 <= i < j ==> stems[i].rel != path
  }

  ghost predicate Clashes(assets: seq<Asset>, stems: seq<PreStem>, k: int)
    requires 0 <= k < |stems|
  {
    exists sha256 :: OnRecord(assets, stems, k, sha256) && sha256 != stems[k].hash
  }

  /** The first stem that clashes, and with what. */
  ghost predicate FirstClash(assets: seq<Asset>, stems: seq<PreStem>, k: int, error: Error) {
    && 0 <= k < |stems| && (forall j :: 0 <= j < k ==> !Clashes(assets, stems, j))
    && exists sha256 :: OnRecord(assets, stems, k, sha256) && sha256 != stems[k].hash
                        && error == StemPathConflict(stems[k].rel, sha256, stems[k].hash)
  }

  lemma SamePathKept(before: seq<Asset>, after: seq<Asset>, stems: seq<PreStem>, k: int, sha256: string)
    requires 0 < k < |stems| && Settled(before, after, stems[0]) && stems[k].rel == stems[0].rel
    ensures OnRecord(before, stems, k, sha256) <==> OnRecord(after, stems[1..], k - 1, sha256)
  {
    var rest, path := stems[1..], stems[k].rel;
    assert rest[k - 1] == stems[k];
    TakenIsFirst(before, path);
    TakenIsFirst(after, path);
    var i :| FirstAt(after, i, path) && after[i].sha256 == stems[0].hash;
    forall n | FirstAt(after, n, path) ensures n == i { OneFirst(after, n, i, path); }
    if !PathTaken(before, path) {
      assert FirstStemAt(stems, 0, k, path);
    } else {
      assert after == before;
    }
  }

  lemma OtherPathKept(before: seq<Asset>, after: seq<Asset>, stems: seq<PreStem>, k: int, sha256: string)
    requires 0 < k < |stems| && Settled(before, after, stems[0]) && stems[k].rel != stems[0].rel
    ensures OnRecord(before, stems, k, sha256) <==> OnRecord(after, stems[1..], k - 1, sha256)
  {
    var rest, path := stems[1..], stems[k].rel;
    assert rest[k - 1] == stems[k] && forall i :: 0 <= i < |rest| ==> rest[i] == stems[i + 1];
    TakenIsFirst(before, path);
    TakenIsFirst(after, path);
    if after != before {
      forall i ensures FirstAt(before, i, path) <==> FirstAt(after, i, path) {
        if i < |before| { FirstInLonger(before, after[|before|], i, path); }
      }
      assert forall i :: FirstAt(before, i, path) ==> after[i] == before[i];
    }
    if j :| FirstStemAt(stems, j, k, path) && stems[j].hash == sha256 {
      assert FirstStemAt(rest, j - 1, k - 1, path) && rest[j - 1] == stems[j];
    }
    if j :| FirstStemAt(rest, j, k - 1, path) && rest[j].hash == sha256 {
      assert FirstStemAt(stems, j + 1, k, path) && stems[j + 1] == rest[j];
    }
  }

  /** Once a stem is linked, what is on record for the later ones stays. */
  lemma OnRecordKept(before: seq<Asset>, after: seq<Asset>, stems: seq<PreStem>, k: int, sha256: string)
    requires 0 < k < |stems| && Settled(before, after, stems[0])
    ensures OnRecord(before, stems, k, sha256) <==> OnRecord(after, stems[1..], k - 1, sha256)
  {
    hide OnRecord, Settled;
    if stems[k].rel == stems[0].rel {
      SamePathKept(before, after, stems, k, sha256);
    } else {
      OtherPathKept(before, after, stems, k, sha256);
    }
  }

  lemma TakenIsFirst(assets: seq<Asset>, path: string)
    ensures PathTaken(assets, path) <==> exists i :: FirstAt(assets, i, path)
  {
    FindPathIsFirst(assets, path);
    if i :| FirstAt(assets, i, path) { assert assets[i] in assets; }
  }

  /** A stem has been linked: reused where it agrees, or appended. */
  ghost predicate Settled(before: seq<Asset>, after: seq<Asset>, stem: PreStem) {
    if PathTaken(before, stem.rel) then
      after == before && exists i :: FirstAt(before, i, stem.rel) && before[i].sha256 == stem.hash
    else
      && |after| == |before| + 1 && after == before + [after[|before|]]
      && after[|before|].path == stem.rel && after[|before|].sha256 == stem.hash
  }

  lemma HeadSettled(before: seq<Asset>, after: seq<Asset>, stems: seq<PreStem>)
    requires stems != [] && Settled(before, after, stems[0])
    ensures !Clashes(before, stems, 0)
  {
    hide PathTaken;
    var path := stems[0].rel;
    TakenIsFirst(before, path);
    forall i, j | FirstAt(before, i, path) && FirstAt(before, j, path) ensures i == j { OneFirst(before, i, j, path); }
    forall sha256 | OnRecord(before, stems, 0, sha256) ensures sha256 == stems[0].hash {
      if PathTaken(before, path) {
        var i :| FirstAt(before, i, path) && before[i].sha256 == stems[0].hash;
        var j :| FirstAt(before, j, path) && before[j].sha256 == sha256;
      } else {
        assert forall j :: !FirstStemAt(stems, j, 0, path);
        assert false;
      }
    }
  }

  lemma ClashKept(before: seq<Asset>, after: seq<Asset>, stems: seq<PreStem>, k: int)
    requires 0 < k < |stems| && Settled(before, after, stems[0])
    ensures Clashes(before, stems, k) <==> Clashes(after, stems[1..], k - 1)
  {
    hide OnRecord, Settled;
    forall h ensures OnRecord(before, stems, k, h) <==> OnRecord(after, stems[1..], k - 1, h) {
      OnRecordKept(before, after, stems, k, h);
    }
    var rest, n := stems[1..], k - 1;
    assert rest[n] == stems[k];
    if h :| OnRecord(before, stems, k, h) && h != stems[k].hash { assert OnRecord(after, rest, n, h); }
    if h :| OnRecord(after, rest, n, h) && h != rest[n].hash { assert OnRecord(before, stems, k, h); }
  }

  lemma FirstClashKept(before: seq<Asset>, after: seq<Asset>, stems: seq<PreStem>, k: int, error: Error)
    requires 0 < k < |stems| && Settled(before, after, stems[0])
    ensures FirstClash(before, stems, k, error) <==> FirstClash(after, stems[1..], k - 1, error)
  {
    hide OnRecord, Settled, Clashes;
    var rest := stems[1..];
    assert rest[k - 1] == stems[k];
    forall h ensures OnRecord(before, stems, k, h) <==> OnRecord(after, rest, k - 1, h) {
      OnRecordKept(before, after, stems, k, h);
    }
    HeadSettled(before, after, stems);
    forall j | 0 < j < k ensures Clashes(before, stems, j) <==> Clashes(after, rest, j - 1) {
      ClashKept(before, after, stems, j);
    }
    forall j | 0 <= j < k - 1 && !Clashes(before, stems, j + 1) ensures !Clashes(after, rest, j) {
      ClashKept(before, after, stems, j + 1);
    }
  }

  lemma TailClashes(before: seq<Asset>, after: seq<Asset>, stems: seq<PreStem>, error: Error)
    requires stems != [] && Settled(before, after, stems[0])
    ensures (exists k :: FirstClash(before, stems, k, error)) <==> exists k :: FirstClash(after, stems[1..], k, error)
  {
    hide OnRecord, Settled;
    HeadSettled(before, after, stems);
    if k :| FirstClash(before, stems, k, error) {
      assert k != 0;
      FirstClashKept(before, after, stems, k, error);
    }
    if k :| FirstClash(after, stems[1..], k, error) {
      FirstClashKept(before, after, stems, k + 1, error);
      assert FirstClash(before, stems, k + 1, error);
    }
  }

  lemma HeadClashes(assets: seq<Asset>, i: int, stems: seq<PreStem>, error: Error)
    requires stems != [] && FirstAt(assets, i, stems[0].rel) && assets[i].sha256 != stems[0].hash
    ensures (exists k :: FirstClash(assets, stems, k, error)) <==>
              error == StemPathConflict(stems[0].rel, assets[i].sha256, stems[0].hash)
  {
    var path := stems[0].rel;
    TakenIsFirst(assets, path);
    forall n | FirstAt(assets, n, path) ensures n == i { OneFirst(assets, n, i, path); }
    assert OnRecord(assets, stems, 0, assets[i].sha256) && Clashes(assets, stems, 0);
    if error == StemPathConflict(path, assets[i].sha256, stems[0].hash) {
      assert FirstClash(assets, stems, 0, error);
    }
  }

  /** A refused stem is the first that contradicts what is on record for its path, and the
      refusal says what is on record and what was found. */
  lemma {:induction false} StemsClash(known: seq<Asset>, added: seq<Asset>, done: seq<ImportedAsset>, todo: seq<PreStem>,
                                      now: string, error: Error)
    ensures LinkStems(known, added, done, todo, now) == Err(error) <==>
              exists k :: FirstClash(known + added, todo, k, error)
    decreases |todo|
  {
    hide FirstAt, FirstClash, Settled, FindStem, StemAsset;
    if todo != [] {
      var pre, all := todo[0], known + added;
      match FindStem(known, added, pre.rel)
      case Some(found) =>
        var i := FoundIsFirst(known, added, pre.rel);
        if found.asset.sha256 != pre.hash {
          HeadClashes(all, i, todo, error);
        } else {
          StemsClash(known, added, done + [found], todo[1..], now, error);
          FoundSettles(all, i, pre);
          TailClashes(all, all, todo, error);
        }
      case None =>
        var asset := StemAsset(known, added, pre, now);
        StemsClash(known, added + [asset], done + [ImportedAsset(asset, Registered)], todo[1..], now, error);
        NewSettles(known, added, pre, now);
        assert known + (added + [asset]) == all + [asset];
        TailClashes(all, all + [asset], todo, error);
    } else {
      assert forall k :: !FirstClash(known + added, todo, k, error) by { NoClash(known + added, error); }
    }
  }

  lemma NoClash(assets: seq<Asset>, error: Error)
    ensures forall k :: !FirstClash(assets, [], k, error)
  {
  }

  lemma FoundSettles(assets: seq<Asset>, i: int, pre: PreStem)
    requires FirstAt(assets, i, pre.rel) && assets[i].sha256 == pre.hash
    ensures Settled(assets, assets, pre)
  {
    assert assets[i] in assets;
  }

  lemma NewSettles(known: seq<Asset>, added: seq<Asset>, pre: PreStem, now: string)
    requires FindStem(known, added, pre.rel).None?
    ensures Settled(known + added, known + added + [StemAsset(known, added, pre, now)], pre)
  {
    NoneThere(known, added, pre.rel);
  }

  // ---------------------------------------------------------------- what is recorded

  /** This asset is the stem as newly registered: its file, in the role `stem`, under an id
      minted from its name against all ids taken by then. */
  ghost predicate StemRegistered(known: seq<Asset>, added: seq<Asset>, i: int, pre: PreStem, now: string)
    requires 0 <= i < |added|
  {
    added[i] == Asset(Mint(SlugOf(pre.name), AssetIds(known) + AssetIds(added[..i])), pre.rel, pre.hash, pre.size, "stem", now,
                      None, None)
  }

  /** From the n-th added asset on, each is one of the stems as newly registered, in the
      stems' order. */
  ghost predicate RegisteredInOrder(known: seq<Asset>, added: seq<Asset>, n: nat, stems: seq<PreStem>, now: string,
                                    ks: seq<nat>) {
    && |added| == n + |ks|
    && (forall i :: 0 <= i < |ks| ==> ks[i] < |stems| && StemRegistered(known, added, n + i, stems[ks[i]], now))
    && (forall i, j :: 0 <= i < j < |ks| ==> ks[i] < ks[j])
  }

  /** The assets the stem loop adds are the stems it found nowhere, in order, each exactly as
      hashed. */
  lemma {:induction false} StemsRegister(known: seq<Asset>, added: seq<Asset>, done: seq<ImportedAsset>,
                                         todo: seq<PreStem>, now: string)
    returns (ks: seq<nat>)
    requires LinkStems(known, added, done, todo, now).Ok?
    ensures var links := LinkStems(known, added, done, todo, now).value;
            added <= links.added && RegisteredInOrder(known, links.added, |added|, todo, now, ks)
    decreases |todo|
  {
    hide FindStem, StemRegistered, RegisteredInOrder, StemAsset;
    ks := [];
    if todo != [] {
      var links := LinkStems(known, added, done, todo, now).value;
      match FindStem(known, added, todo[0].rel)
      case Some(found) =>
        var later := StemsRegister(known, added, done + [found], todo[1..], now);
        ks := Later(later);
        OlderRegistered(known, links.added, |added|, todo, now, later);
      case None =>
        var asset := StemAsset(known, added, todo[0], now);
        var later := StemsRegister(known, added + [asset], done + [ImportedAsset(asset, Registered)], todo[1..], now);
        ks := [0] + Later(later);
        HeadRegistered(known, added, links.added, todo[0], now);
        OneMoreRegistered(known, links.added, |added|, todo, now, later);
    } else {
      NoneRegistered(known, added, now);
    }
  }

  lemma NoneRegistered(known: seq<Asset>, added: seq<Asset>, now: string)
    ensures RegisteredInOrder(known, added, |added|, [], now, [])
  {
  }

  lemma OlderRegistered(known: seq<Asset>, all: seq<Asset>, n: nat, stems: seq<PreStem>, now: string, ks: seq<nat>)
    requires stems != [] && RegisteredInOrder(known, all, n, stems[1..], now, ks)
    ensures RegisteredInOrder(known, all, n, stems, now, Later(ks))
  {
    hide StemRegistered;
    assert forall i :: 0 <= i < |ks| ==> stems[1..][ks[i]] == stems[Later(ks)[i]];
  }

  lemma OneMoreRegistered(known: seq<Asset>, all: seq<Asset>, n: nat, stems: seq<PreStem>, now: string, ks: seq<nat>)
    requires stems != [] && RegisteredInOrder(known, all, n + 1, stems[1..], now, ks)
    requires StemRegistered(known, all, n, stems[0], now)
    ensures RegisteredInOrder(known, all, n, stems, now, [0] + Later(ks))
  {
    hide StemRegistered;
    var more := [0] + Later(ks);
    forall i | 0 < i < |more| ensures more[i] < |stems| && StemRegistered(known, all, n + i, stems[more[i]], now) {
      assert StemRegistered(known, all, n + 1 + (i - 1), stems[1..][ks[i - 1]], now);
    }
  }

  function Later(ks: seq<nat>): seq<nat> {
    seq(|ks|, i requires 0 <= i < |ks| => ks[i] + 1)
  }

  lemma HeadRegistered(known: seq<Asset>, added: seq<Asset>, all: seq<Asset>, pre: PreStem, now: string)
    requires added + [StemAsset(known, added, pre, now)] <= all
    ensures StemRegistered(known, all, |added|, pre, now) && added <= all
  {
    assert all[..|added|] == added;
    assert all[|added|] == (added + [StemAsset(known, added, pre, now)])[|added|];
  }

  /** The text of a folder's own name; empty where it has none that is text. */
  ghost predicate FolderText(folder: CPath, text: string) {
    if folder != [] && Utf8(folder[|folder| - 1]) then
      && |text| == |folder[|folder| - 1]|
      && forall i :: 0 <= i < |text| ==> folder[|folder| - 1][i] == Scalar(text[i])
    else text == ""
  }

  lemma FolderNameIs(folder: CPath)
    ensures FolderText(folder, FolderName(folder))
  {
  }

  /** The derivation of an imported job, field by field; its id is minted from the name of
      the job's folder. */
  ghost predicate DerivationRecorded(m: Manifest, r: Request, input: ImportedAsset, stems: seq<ImportedAsset>, d: Derivation)
    requires r.JobRequest?
  {
    && (exists text :: FolderText(r.folder, text) && d.id == Mint(SlugOf(text), DerivationIds(m.derivations)))
    && d.inputs == [input.asset.id]
    && |d.outputs| == |stems| && (forall k :: 0 <= k < |stems| ==> d.outputs[k] == stems[k].asset.id)
    && d.tool == "uncompose" && d.toolVersion == Some(r.job.engineVersion)
    && d.params == Some([Entry("preset", r.job.preset)]) && d.createdAt == r.createdAt
    && d.job == Some(JobRef(r.rel, r.sha256, None)) && d.ext == None
  }

  lemma JobDerivationIs(m: Manifest, r: Request, input: ImportedAsset, stems: seq<ImportedAsset>)
    requires r.JobRequest?
    ensures DerivationRecorded(m, r, input, stems, JobDerivation(m, r, input, stems))
  {
    hide FolderText, FolderName, Mint, SlugOf, DerivationIds;
    FolderNameIs(r.folder);
  }

  /** What an import that goes through writes and reports: the input as linked, the stems it
      had to register, one derivation; nothing else changes. */
  ghost predicate JobRecorded(w: World, m: Manifest, r: Request, look: Look, v: Verdict)
    requires r.JobRequest?
  {
    && v.Put? && v.outcome.Imported?
    && exists first: seq<Asset>, added: seq<Asset>, ks: seq<nat>, d: Derivation ::
         && InputLinked(w, m, r, look, v.outcome.input, first)
         && first <= added && RegisteredInOrder(m.assets, added, |first|, r.stems, r.now, ks)
         && DerivationRecorded(m, r, v.outcome.input, v.outcome.stems, d) && v.outcome.derivation == d.id
         && v.manifest == m.(assets := m.assets + added, derivations := m.derivations + [d])
  }

  /** Why an import that is not a repetition is refused: its input first, then the stems. */
  ghost predicate JobTrouble(w: World, m: Manifest, r: Request, look: Look, error: Error)
    requires r.JobRequest?
  {
    || InputTrouble(w, m, r.job, look, error)
    || exists input: ImportedAsset, first: seq<Asset>, k ::
         InputLinked(w, m, r, look, input, first) && FirstClash(m.assets + first, r.stems, k, error)
  }

  /** The stems contradict neither the manifest, nor the input linked, nor each other. */
  ghost predicate StemsFit(w: World, m: Manifest, r: Request, look: Look)
    requires r.JobRequest?
  {
    forall input: ImportedAsset, first: seq<Asset> ::
      InputLinked(w, m, r, look, input, first) ==> Consistent(m.assets + first, r.stems)
  }

  /** A job import comes out in one of three ways: it was imported already, and the first
      derivation of it is named; it is refused for the first thing wrong; or it is recorded,
      if and only if it is new, its input can be linked and its stems fit. */
  ghost predicate JobComesOut(w: World, m: Manifest, r: Request, look: Look, v: Verdict)
    requires r.JobRequest?
  {
    && (v.Put? <==> !JobTaken(m, r.sha256) && InputLinkable(w, m, r.job, look) && StemsFit(w, m, r, look))
    && if JobTaken(m, r.sha256) then
         exists i :: FirstWithJob(m.derivations, i, r.sha256) && v == Keep(AlreadyImported(m.derivations[i].id))
       else
         || (JobRecorded(w, m, r, look, v) && JobLinked(m, r, v.manifest, v.outcome))
         || (v.Keep? && v.outcome.Refused? && JobTrouble(w, m, r, look, v.outcome.error))
  }

  lemma JobDecides(w: World, m: Manifest, r: Request, look: Look)
    requires r.JobRequest?
    ensures JobComesOut(w, m, r, look, DecideJob(w, m, r, look))
  {
    hide LinkInput, LinkStems, JobDerivation, InputLinked, InputTrouble, InputLinkable, InputRegistered, FirstWithJob,
         FirstClash, RegisteredInOrder, DerivationRecorded, Consistent, JobLinked;
    FindJobIsFirst(m.derivations, r.sha256);
    if FindJob(m.derivations, r.sha256).None? {
      var linked := LinkInput(w, m, r, look);
      var v := DecideJob(w, m, r, look);
      if linked.Err? {
        InputLinksIff(w, m, r, look, ImportedAsset(Asset("", "", "", 0, "", "", None, None), Existing), [], linked.error);
      } else {
        var input, first := linked.value.input, linked.value.added;
        OneInput(w, m, r, look, input, first);
        StemsLinkIff(m.assets, first, [], r.stems, r.now);
        var links := LinkStems(m.assets, first, [], r.stems, r.now);
        if links.Err? {
          StemsClash(m.assets, first, [], r.stems, r.now, links.error);
        } else {
          var ks := StemsRegister(m.assets, first, [], r.stems, r.now);
          JobDerivationIs(m, r, input, links.value.stems);
          JobIsLinked(w, m, r, look);
          assert JobRecorded(w, m, r, look, v);
        }
      }
    }
  }

  lemma OneInput(w: World, m: Manifest, r: Request, look: Look, input: ImportedAsset, first: seq<Asset>)
    requires r.JobRequest? && LinkInput(w, m, r, look) == Ok(Linked(input, first))
    ensures InputLinkable(w, m, r.job, look) && InputLinked(w, m, r, look, input, first)
    ensures StemsFit(w, m, r, look) <==> Consistent(m.assets + first, r.stems)
  {
    hide LinkInput, InputLinked, InputLinkable, InputTrouble, Consistent;
    InputLinksIff(w, m, r, look, input, first, InputMissing(""));
    forall i: ImportedAsset, f: seq<Asset> | InputLinked(w, m, r, look, i, f) ensures i == input && f == first {
      InputLinksIff(w, m, r, look, i, f, InputMissing(""));
    }
  }
}
