/** The assumptions about the world can be met. Here is one world that meets them: a text
    layer that writes every tree as bytes so that no two trees read alike, a hash that
    tells all bytes apart, and path resolution that finds every path where it says. In it
    a held job whose stem was deleted is refused. No theorem depends on this file. */
module Consistency {
  import opened Wrappers
  import opened Json
  import opened Manifests
  import opened CodecLaws
  import opened Paths
  import opened Worlds
  import opened Commands
  import opened Rereading
  import opened Records
  import opened Imports
  import opened Solo
  import opened Reruns

  // ---------------------------------------------------------------- trees as numbers

  function Letters(s: string): seq<nat> {
    seq(|s|, i requires 0 <= i < |s| => s[i] as nat)
  }

  function Text(s: string): seq<nat> {
    [|s|] + Letters(s)
  }

  /** A tree in prefix form: a tag, lengths before contents. */
  function Flat(j: Json): seq<nat>
    decreases j, 1
  {
    match j
    case Null => [0]
    case Bool(b) => [1, if b then 1 else 0]
    case Num(UInt(n)) => [2, n]
    case Num(Negative(n)) => [3, n]
    case Num(Float(bits)) => [4, bits]
    case Str(s) => [5] + Text(s)
    case Arr(items) => [6, |items|] + FlatItems(items)
    case Obj(entries) => [7, |entries|] + FlatEntries(entries)
  }

  function FlatItems(items: seq<Json>): seq<nat>
    decreases items, 0
  {
    if items == [] then [] else Flat(items[0]) + FlatItems(items[1..])
  }

  function FlatEntries(entries: seq<Entry>): seq<nat>
    decreases entries, 0
  {
    if entries == [] then [] else Text(entries[0].key) + Flat(entries[0].value) + FlatEntries(entries[1..])
  }

  lemma TextIsPrefix(s: string, t: string, x: seq<nat>, y: seq<nat>)
    requires Text(s) + x == Text(t) + y
    ensures s == t && x == y
  {
    var a, b := Text(s) + x, Text(t) + y;
    assert |s| == a[0] == b[0] == |t|;
    forall i | 0 <= i < |s| ensures s[i] == t[i] {
      assert a[i + 1] == s[i] as nat && b[i + 1] == t[i] as nat;
    }
    assert x == a[|s| + 1..] && y == b[|t| + 1..];
  }

  lemma TagsAgree(j: Json, k: Json, x: seq<nat>, y: seq<nat>)
    requires Flat(j) + x == Flat(k) + y
    ensures Flat(j)[0] == Flat(k)[0]
  {
    assert (Flat(j) + x)[0] == Flat(j)[0] && (Flat(k) + y)[0] == Flat(k)[0];
  }

  lemma LeafIsPrefix(j: Json, k: Json, x: seq<nat>, y: seq<nat>)
    requires Flat(j) + x == Flat(k) + y && !j.Arr? && !j.Obj?
    ensures j == k && x == y
  {
    hide FlatItems, FlatEntries, Text;
    var a, b := Flat(j) + x, Flat(k) + y;
    TagsAgree(j, k, x, y);
    match j
    case Null => assert x == a[1..] && y == b[1..];
    case Bool(p) => assert a[1] == Flat(j)[1] && b[1] == Flat(k)[1] && x == a[2..] && y == b[2..];
    case Num(_) => assert a[1] == Flat(j)[1] && b[1] == Flat(k)[1] && x == a[2..] && y == b[2..];
    case Str(s) =>
      assert a[1..] == Text(s) + x && b[1..] == Text(k.s) + y;
      TextIsPrefix(s, k.s, x, y);
  }

  /** No tree's form is the start of another's, so what follows is told apart too. */
  lemma {:induction false} FlatIsPrefix(j: Json, k: Json, x: seq<nat>, y: seq<nat>)
    requires Flat(j) + x == Flat(k) + y
    ensures j == k && x == y
    decreases j, 1
  {
    hide FlatItems, FlatEntries, Text;
    var a, b := Flat(j) + x, Flat(k) + y;
    TagsAgree(j, k, x, y);
    match j
    case Arr(items) =>
      assert a[1] == Flat(j)[1] && b[1] == Flat(k)[1];
      assert a[2..] == FlatItems(items) + x && b[2..] == FlatItems(k.items) + y;
      ItemsArePrefix(items, k.items, x, y);
    case Obj(entries) =>
      assert a[1] == Flat(j)[1] && b[1] == Flat(k)[1];
      assert a[2..] == FlatEntries(entries) + x && b[2..] == FlatEntries(k.entries) + y;
      EntriesArePrefix(entries, k.entries, x, y);
    case _ => LeafIsPrefix(j, k, x, y);
  }

  lemma {:induction false} ItemsArePrefix(a: seq<Json>, b: seq<Json>, x: seq<nat>, y: seq<nat>)
    requires |a| == |b| && FlatItems(a) + x == FlatItems(b) + y
    ensures a == b && x == y
    decreases a, 0
  {
    if a != [] {
      assert FlatItems(a) + x == Flat(a[0]) + (FlatItems(a[1..]) + x);
      assert FlatItems(b) + y == Flat(b[0]) + (FlatItems(b[1..]) + y);
      FlatIsPrefix(a[0], b[0], FlatItems(a[1..]) + x, FlatItems(b[1..]) + y);
      ItemsArePrefix(a[1..], b[1..], x, y);
      assert a == [a[0]] + a[1..] && b == [b[0]] + b[1..];
    } else {
      assert FlatItems(a) + x == x && FlatItems(b) + y == y;
    }
  }

  lemma {:induction false} EntriesArePrefix(a: seq<Entry>, b: seq<Entry>, x: seq<nat>, y: seq<nat>)
    requires |a| == |b| && FlatEntries(a) + x == FlatEntries(b) + y
    ensures a == b && x == y
    decreases a, 0
  {
    hide Flat, Text;
    if a != [] {
      var s, t := FlatEntries(a[1..]) + x, FlatEntries(b[1..]) + y;
      assert FlatEntries(a) + x == Text(a[0].key) + (Flat(a[0].value) + s);
      assert FlatEntries(b) + y == Text(b[0].key) + (Flat(b[0].value) + t);
      TextIsPrefix(a[0].key, b[0].key, Flat(a[0].value) + s, Flat(b[0].value) + t);
      FlatIsPrefix(a[0].value, b[0].value, s, t);
      EntriesArePrefix(a[1..], b[1..], x, y);
      assert a == [a[0]] + a[1..] && b == [b[0]] + b[1..];
    } else {
      assert FlatEntries(a) + x == x && FlatEntries(b) + y == y;
    }
  }

  // ---------------------------------------------------------------- numbers as bytes

  /** Each number as that many ones and a zero. */
  function Unary(ns: seq<nat>): Bytes
    decreases |ns|, if ns == [] then 0 else ns[0]
  {
    if ns == [] then []
    else if ns[0] == 0 then [0] + Unary(ns[1..])
    else [1] + Unary([ns[0] - 1] + ns[1..])
  }

  lemma {:induction false} UnaryInjective(a: seq<nat>, b: seq<nat>)
    requires Unary(a) == Unary(b)
    ensures a == b
    decreases |Unary(a)|
  {
    if a == [] || b == [] {
    } else {
      assert Unary(a)[0] == Unary(b)[0];
      if a[0] == 0 {
        assert Unary(a)[1..] == Unary(a[1..]) && Unary(b)[1..] == Unary(b[1..]);
        UnaryInjective(a[1..], b[1..]);
        assert a == [0] + a[1..] && b == [0] + b[1..];
      } else {
        var p, q := [a[0] - 1] + a[1..], [b[0] - 1] + b[1..];
        assert Unary(a)[1..] == Unary(p) && Unary(b)[1..] == Unary(q);
        UnaryInjective(p, q);
        assert p[0] == q[0] && p[1..] == a[1..] && q[1..] == b[1..];
        assert a == [a[0]] + a[1..] && b == [b[0]] + b[1..];
      }
    }
  }

  /** A job record with one stem, `gone`. */
  function HeldTree(): Json {
    JobTree(Null, ["gone"])
  }

  /** One tree has a text of its own, one byte long. */
  function Written(j: Json): Bytes {
    if j == HeldTree() then [7] else Unary(Flat(j))
  }

  lemma WrittenInjective(j: Json, k: Json)
    requires Written(j) == Written(k)
    ensures j == k
  {
    if j != HeldTree() && k != HeldTree() {
      UnaryInjective(Flat(j), Flat(k));
      assert Flat(j) + [] == Flat(k) + [];
      FlatIsPrefix(j, k, [], []);
    } else if j != HeldTree() {
      UnaryIsBits(Flat(j));
    } else {
      UnaryIsBits(Flat(k));
    }
  }

  lemma UnaryIsBits(ns: seq<nat>)
    ensures Unary(ns) != [] ==> Unary(ns)[0] < 2
  {
  }

  // ---------------------------------------------------------------- a world

  ghost predicate WrittenAs(j: Json, b: Bytes) {
    Sane(j, MAX_NESTING) && Written(j) == b
  }

  ghost function Reader(b: Bytes): Option<Json> {
    if exists j :: WrittenAs(j, b) then
      var j :| WrittenAs(j, b);
      Some(j)
    else
      None
  }

  function Hash(b: Bytes): string {
    seq(|b|, i requires 0 <= i < |b| => (b[i] as int) as char)
  }

  const JOB_ARG := "job/job.json"

  function JobPath(): CPath {
    [FromText("job"), FromText("job.json")]
  }

  ghost function Resolver(c: Candidate): Result<CPath, ResolveKind> {
    match c
    case At(path) => if AllValid(path) then Ok(path) else Err(ResolveKind.Missing)
    case Arg(text) => if text == JOB_ARG then Ok(JobPath()) else Err(ResolveKind.Missing)
    case Leaf(_, name) => if name == "gone.wav" then Err(ResolveKind.Missing) else Ok(JobPath())
  }

  ghost function OneWorld(): World {
    World([], b => Hash(b), j => Written(j), b => Reader(b), c => Resolver(c), j => true, n => Some("t"))
  }

  lemma JobPathValid()
    ensures AllValid(JobPath())
  {
    var a, b := FromText("job"), FromText("job.json");
    assert forall i :: 0 <= i < |a| ==> a[i] == Scalar("job"[i]);
    assert forall i :: 0 <= i < |b| ==> b[i] == Scalar("job.json"[i]);
    NoDots(a, 0);
    NoDots(b, 0);
  }

  lemma ReadsBack(j: Json)
    requires Sane(j, MAX_NESTING)
    ensures Reader(Written(j)) == Some(j)
  {
    assert WrittenAs(j, Written(j));
    WrittenInjective(Reader(Written(j)).value, j);
  }

  lemma TextReads(j: Json)
    ensures Sane(j, MAX_NESTING) ==> Reader(Written(j)) == Some(j)
    ensures !Sane(j, MAX_NESTING) ==> Reader(Written(j)) == None
  {
    hide Sane, Written;
    if Sane(j, MAX_NESTING) {
      ReadsBack(j);
    } else {
      forall k | Written(k) == Written(j) ensures k == j {
        WrittenInjective(k, j);
      }
    }
  }

  lemma PathsAreReal()
    ensures RealPaths(OneWorld())
  {
    hide Reader, Written, Hash;
    JobPathValid();
  }

  /** The text layer and the path resolution the theorems ask for do exist. */
  lemma AssumptionsCanBeMet()
    ensures TextLayer(OneWorld()) && RealPaths(OneWorld())
  {
    hide RealPaths, Resolver, Written, Sane, Hash;
    var w := OneWorld();
    PathsAreReal();
    forall j: Json
      ensures Sane(j, MAX_NESTING) ==> w.parse(w.text(j)) == Some(j)
      ensures !Sane(j, MAX_NESTING) ==> w.parse(w.text(j)) == None
    {
      TextReads(j);
    }
  }

  // ---------------------------------------------------------------- a held job, a deleted stem

  /** A manifest that holds the job whose record is the bytes `[7]`. */
  function HeldManifest(): Manifest {
    var d := Derivation("run", [], [], IMPORT_TOOL, None, None, "t", Some(JobRef(JOB_ARG, Hash([7]), None)), None);
    NewManifest("p", "demo", "t").(derivations := [d])
  }

  function HeldFiles(): Files {
    map[JobPath() := Plain([7])]
  }

  lemma HeldManifestLoads()
    ensures Load(OneWorld(), Some(Print(OneWorld(), HeldManifest()))) == Ok(HeldManifest())
  {
    var m := HeldManifest();
    AssumptionsCanBeMet();
    assert Storable(m);
    assert DerivationNests(m.derivations[0], MAX_NESTING - 2);
    assert Nests(m, MAX_NESTING);
    PrintLoads(OneWorld(), m, MAX_NESTING);
  }

  lemma HeldRecordParses()
    ensures BytesYield(OneWorld(), [7], HeldEvidence())
  {
    hide BytesYield, YieldsNone;
    var j := HeldTree();
    JobTreeSane(Null, ["gone"]);
    JobTreeDecodes(Null, ["gone"]);
    ReadsBack(j);
    assert OneWorld().parse([7]) == Some(j);
    EvidenceIs(OneWorld(), JOB_ARG, [7], HeldEvidence(), MalformedJob(JOB_ARG));
  }

  ghost function HeldFile(): Option<Bytes> {
    Some(Print(OneWorld(), HeldManifest()))
  }

  function HeldEvidence(): Evidence {
    JobEvidence(JobWith(Null, ["gone"]), "t")
  }

  lemma JobResolves()
    ensures CanonicalInside(OneWorld(), Arg(JOB_ARG)).Ok?
    ensures CanonicalInside(OneWorld(), Arg(JOB_ARG)).value.path == JobPath()
    ensures LookAt(OneWorld(), HeldFiles(), At(JobPath())) == Plain([7])
  {
    JobPathValid();
  }

  lemma JobIsHeld()
    ensures HeldJob(OneWorld(), Import(JOB_ARG, "t"), HeldFile(), HeldFiles(), [7], HeldEvidence(), "run")
  {
    hide CanonicalInside, LookAt, BytesYield, Load, Print, OneWorld;
    HeldManifestLoads();
    HeldRecordParses();
    JobResolves();
    HeldHash();
    assert JobKnown(HeldManifest(), Hash([7]), "run");
  }

  lemma HeldHash()
    ensures OneWorld().hash([7]) == Hash([7])
  {
  }

  function JobFolder(): CPath {
    [FromText("job")]
  }

  lemma StemGone()
    ensures FolderOfJob(OneWorld(), Import(JOB_ARG, "t"), JobFolder())
    ensures Nowhere(OneWorld(), Leaf(JobFolder(), "gone" + ".wav"))
  {
    JobResolves();
    assert JobPath() == JobFolder() + [FromText("job.json")];
    assert "gone" + ".wav" == "gone.wav";
  }

  /** Here it is: a manifest that holds the job, the record still there byte for byte, its
      one stem deleted, and the second import refused. */
  lemma HeldJobIsRefused()
    ensures HeldJob(OneWorld(), Import(JOB_ARG, "t"), HeldFile(), HeldFiles(), [7], HeldEvidence(), "run")
    ensures Alone(OneWorld(), Import(JOB_ARG, "t"), HeldFile(), HeldFiles())
         == Finish(Refused(StemMissing("gone.wav")), HeldFile())
  {
    hide LookAt, Load, Print, OneWorld, HeldJob, Alone, HeldFile, HeldFiles, FolderOfJob, Nowhere, JobFolder;
    JobIsHeld();
    StemGone();
    DeletedStemRefusesRerun(OneWorld(), Import(JOB_ARG, "t"), HeldFile(), HeldFiles(), [7], HeldEvidence(), "run", JobFolder());
    assert "gone" + ".wav" == "gone.wav";
  }
}
