/** What the program calls out to: hashing, the JSON text layer, path resolution, the
    compare-record validator and the calendar. Each is a function of the world; what the
    proofs need of one stands in a predicate and is required where it is used. */
module Worlds {
  import opened Wrappers
  import opened Json
  import opened Manifests
  import opened Codec
  import opened Paths

  newtype Byte = b: nat | b < 256

  type Bytes = seq<Byte>

  /** A file's bytes; their number is a `u64`. */
  type Content = b: Bytes | |b| < TWO_64

  /** A path handed to the kernel: text joined to the root, a leaf joined to a folder, or
      a component list. */
  datatype Candidate = Arg(text: string) | Leaf(folder: CPath, name: string) | At(path: CPath)

  datatype ResolveKind = Missing | Denied | Outside

  /** What opening one path shows: a readable file, one whose length shows but whose bytes
      do not (permissions, a directory), one that cannot even be inspected, or nothing. */
  datatype Look = Plain(bytes: Content) | Locked(len: U64) | Sealed | Absent

  type Files = map<CPath, Look>

  datatype World = World(
    root: CPath,
    hash: Bytes -> string,
    text: Json -> Bytes,
    parse: Bytes -> Option<Json>,
    canonicalize: Candidate -> Result<CPath, ResolveKind>,
    conforms: Json -> bool,
    rfc3339: nat -> Option<string>)

  /** The text layer. Parsing returns trees it can hold, within its nesting limit; printed
      text parses to the tree printed, and fails only for nesting too deep. */
  ghost predicate TextLayer(w: World) {
    && (forall b: Bytes {:trigger w.parse(b)} :: w.parse(b).Some? ==> Sane(w.parse(b).value, MAX_NESTING))
    && (forall j: Json {:trigger w.text(j)} :: Sane(j, MAX_NESTING) ==> w.parse(w.text(j)) == Some(j))
    && (forall j: Json, n: nat {:trigger w.text(j), Sane(j, n)} :: Sane(j, n) && !Sane(j, MAX_NESTING) ==> w.parse(w.text(j)) == None)
  }

  /** Resolving a resolved path changes nothing: it holds no symlink and no dot component. */
  ghost predicate RealPaths(w: World) {
    && (forall c: Candidate :: w.canonicalize(c).Ok? ==>
          w.canonicalize(At(w.canonicalize(c).value)) == w.canonicalize(c))
    && (forall c: Candidate :: w.canonicalize(c).Ok? ==>
          AllValid(w.canonicalize(c).value))
  }

  /** What a candidate shows in a file system state. */
  function LookAt(w: World, files: Files, c: Candidate): Look {
    match w.canonicalize(c)
    case Ok(p) => if p in files then files[p] else Absent
    case Err(Missing) => Absent
    case Err(_) => Sealed
  }

  datatype Inside = Inside(path: CPath, stored: string)

  /** Resolve and confine: the canonical path with its root-relative stored form. */
  function CanonicalInside(w: World, c: Candidate): (r: Result<Inside, ResolveKind>)
    ensures r.Ok? ==> w.canonicalize(c) == Ok(r.value.path) && w.root <= r.value.path
                      && r.value.stored == Stored(r.value.path[|w.root|..])
    ensures r.Ok? <==> w.canonicalize(c).Ok? && w.root <= w.canonicalize(c).value
    ensures w.canonicalize(c).Ok? && !r.Ok? ==> r == Err(Outside)
    ensures w.canonicalize(c).Err? ==> r == Err(w.canonicalize(c).error)
  {
    match w.canonicalize(c)
    case Err(k) => Err(k)
    case Ok(p) => if w.root <= p then Ok(Inside(p, Stored(p[|w.root|..]))) else Err(Outside)
  }

  /** A path written with a leading slash. */
  predicate Rooted(path: string) {
    |path| > 0 && path[0] == '/'
  }

  /** Nothing is there. */
  ghost predicate Nowhere(w: World, c: Candidate) {
    w.canonicalize(c) == Err(ResolveKind.Missing)
  }

  /** It cannot be resolved. */
  ghost predicate Barred(w: World, c: Candidate) {
    w.canonicalize(c) == Err(ResolveKind.Denied)
  }

  /** It leads out of the project. */
  ghost predicate Escapes(w: World, c: Candidate) {
    || w.canonicalize(c) == Err(ResolveKind.Outside)
    || (w.canonicalize(c).Ok? && !(w.root <= w.canonicalize(c).value))
  }

  /** Where a path leads, four ways and no fifth. */
  lemma FourWays(w: World, c: Candidate)
    ensures CanonicalInside(w, c) == Err(ResolveKind.Missing) <==> Nowhere(w, c)
    ensures CanonicalInside(w, c) == Err(ResolveKind.Denied) <==> Barred(w, c)
    ensures CanonicalInside(w, c) == Err(ResolveKind.Outside) <==> Escapes(w, c)
    ensures CanonicalInside(w, c).Ok? <==> w.canonicalize(c).Ok? && w.root <= w.canonicalize(c).value
  {
  }

  /** What a path shows: a file if it leads to one, whatever that shows; nothing where nothing
      is; and a path that cannot be resolved cannot be inspected either. */
  lemma LookIs(w: World, files: Files, c: Candidate)
    ensures forall p: CPath :: w.canonicalize(c) == Ok(p) && p in files ==> LookAt(w, files, c) == files[p]
    ensures forall p: CPath :: w.canonicalize(c) == Ok(p) && p !in files ==> LookAt(w, files, c).Absent?
    ensures Nowhere(w, c) ==> LookAt(w, files, c).Absent?
    ensures w.canonicalize(c).Err? && !Nowhere(w, c) ==> LookAt(w, files, c).Sealed?
  {
  }

  /** The path `verify` opens for a stored path. */
  function StoredCandidate(w: World, stored: string): Candidate {
    At(w.root + Reopen(stored))
  }

  /** `verify` reopens the file that was resolved, whenever its names below the root are UTF-8. */
  lemma VerifyReopensTheFile(w: World, c: Candidate)
    requires RealPaths(w) && CanonicalInside(w, c).Ok?
    ensures var at := CanonicalInside(w, c).value;
            && (StoredCandidate(w, at.stored) == At(at.path) <==> AllUtf8(at.path[|w.root|..]))
            && (AllUtf8(at.path[|w.root|..]) ==>
                  forall files: Files :: LookAt(w, files, StoredCandidate(w, at.stored)) == LookAt(w, files, c))
  {
    var at := CanonicalInside(w, c).value;
    var inside := at.path[|w.root|..];
    assert at.path == w.root + inside;
    assert AllValid(inside) by {
      assert forall i :: 0 <= i < |inside| ==> inside[i] == at.path[|w.root| + i];
    }
    ReopenUndoesStored(inside);
    assert (w.root + Reopen(at.stored))[|w.root|..] == Reopen(at.stored);
  }

  // ---------------------------------------------------------------- the manifest file

  function Print(w: World, m: Manifest): Bytes {
    w.text(Encode(m))
  }

  /** The strict read of the manifest file, `None` when there is none. */
  function Load(w: World, file: Option<Bytes>): Result<Manifest, LoadError> {
    if file.None? then Err(NotAProject)
    else
      match w.parse(file.value)
      case None => Err(Parse)
      case Some(j) => LoadTree(j)
  }

  lemma LoadNeedsFile(w: World, file: Option<Bytes>)
    requires Load(w, file).Ok?
    ensures file.Some?
  {
  }
}
