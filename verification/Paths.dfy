/** Canonical paths and the stored form a manifest records.

    A component name is a sequence of units: Unicode scalars, and the byte runs that are
    not UTF-8. The stored form is lossy (`to_string_lossy`): an ill-formed run becomes
    U+FFFD. `verify` rebuilds a path by splitting the stored form on `/`. */
module Paths {
  import opened Wrappers

  datatype Unit = Scalar(c: char) | Ill(bytes: seq<nat>)

  type Name = seq<Unit>

  /** The components of a canonical absolute path. */
  type CPath = seq<Name>

  const REPLACEMENT: char := '\U{FFFD}'

  predicate Utf8(n: Name) {
    forall i :: 0 <= i < |n| ==> n[i].Scalar?
  }

  function FromText(s: string): Name {
    seq(|s|, i requires 0 <= i < |s| => Scalar(s[i]))
  }

  function Lossy(n: Name): string {
    seq(|n|, i requires 0 <= i < |n| => if n[i].Scalar? then n[i].c else REPLACEMENT)
  }

  /** A name the kernel can give a directory entry in a canonical path. */
  predicate ValidName(n: Name) {
    n != [] && Scalar('/') !in n && n != FromText(".") && n != FromText("..")
  }

  ghost predicate AllUtf8(p: CPath) {
    forall i :: 0 <= i < |p| ==> Utf8(p[i])
  }

  ghost predicate AllValid(p: CPath) {
    forall i :: 0 <= i < |p| ==> ValidName(p[i])
  }

  function JoinWith(parts: seq<string>, sep: string): string {
    if parts == [] then ""
    else if |parts| == 1 then parts[0]
    else parts[0] + sep + JoinWith(parts[1..], sep)
  }

  /** `str::split`: one part more than there are separators. */
  function Split(s: string, sep: char): (parts: seq<string>)
    ensures |parts| > 0
  {
    if s == [] then [""]
    else
      var rest := Split(s[1..], sep);
      if s[0] == sep then [""] + rest else [[s[0]] + rest[0]] + rest[1..]
  }

  function LossyAll(p: CPath): seq<string> {
    seq(|p|, i requires 0 <= i < |p| => Lossy(p[i]))
  }

  /** The forward-slash form of a path below the root. */
  function Stored(inside: CPath): string {
    JoinWith(LossyAll(inside), "/")
  }

  function NamesOf(parts: seq<string>): CPath {
    if parts == [] then [] else (if parts[0] == "" then [] else [FromText(parts[0])]) + NamesOf(parts[1..])
  }

  /** The components `verify` rebuilds from a stored path; pushing an empty part adds none. */
  function Reopen(stored: string): CPath {
    NamesOf(Split(stored, '/'))
  }

  // ---------------------------------------------------------------- laws

  lemma {:induction false} SplitPart(part: string, rest: string, sep: char)
    requires sep !in part
    ensures Split(part, sep) == [part]
    ensures Split(part + [sep] + rest, sep) == [part] + Split(rest, sep)
  {
    if part == [] {
      assert (part + [sep] + rest)[1..] == rest;
    } else {
      SplitPart(part[1..], rest, sep);
      assert (part + [sep] + rest)[1..] == part[1..] + [sep] + rest;
      assert [part[0]] + part[1..] == part;
      assert ([part[1..]] + Split(rest, sep))[1..] == Split(rest, sep);
    }
  }

  lemma {:induction false} SplitUndoesJoin(parts: seq<string>, sep: char)
    requires parts != [] && forall i :: 0 <= i < |parts| ==> sep !in parts[i]
    ensures Split(JoinWith(parts, [sep]), sep) == parts
  {
    if |parts| == 1 {
      SplitPart(parts[0], "", sep);
    } else {
      SplitUndoesJoin(parts[1..], sep);
      SplitPart(parts[0], JoinWith(parts[1..], [sep]), sep);
    }
  }

  lemma {:induction false} NamesOfAll(parts: seq<string>)
    requires forall i :: 0 <= i < |parts| ==> parts[i] != ""
    ensures |NamesOf(parts)| == |parts|
    ensures forall i :: 0 <= i < |parts| ==> NamesOf(parts)[i] == FromText(parts[i])
  {
    if parts != [] {
      NamesOfAll(parts[1..]);
      assert forall i :: 1 <= i < |parts| ==> parts[i] == parts[1..][i - 1];
    }
  }

  lemma LossyText(n: Name)
    requires ValidName(n)
    ensures Lossy(n) != "" && '/' !in Lossy(n)
    ensures FromText(Lossy(n)) == n <==> Utf8(n)
  {
    if FromText(Lossy(n)) == n {
      forall i | 0 <= i < |n| ensures n[i].Scalar? {
        assert FromText(Lossy(n))[i].Scalar?;
      }
    }
  }

  /** Splitting what was stored gives the path back, component by component, exactly when
      every component name is UTF-8. */
  lemma ReopenUndoesStored(inside: CPath)
    requires AllValid(inside)
    ensures Reopen(Stored(inside)) == inside <==> AllUtf8(inside)
    ensures |Reopen(Stored(inside))| == |inside|
  {
    if inside == [] {
      assert Split("", '/') == [""];
      assert NamesOf([""]) == NamesOf([]);
    } else {
      var parts := LossyAll(inside);
      forall i | 0 <= i < |inside|
        ensures parts[i] != "" && '/' !in parts[i] && (FromText(parts[i]) == inside[i] <==> Utf8(inside[i]))
      {
        LossyText(inside[i]);
      }
      SplitUndoesJoin(parts, '/');
      NamesOfAll(parts);
    }
  }

  lemma StoredParts(a: CPath)
    requires AllValid(a)
    ensures Split(Stored(a), '/') == if a == [] then [""] else LossyAll(a)
  {
    if a != [] {
      forall i | 0 <= i < |a| ensures '/' !in LossyAll(a)[i] {
        LossyText(a[i]);
      }
      SplitUndoesJoin(LossyAll(a), '/');
    }
  }

  lemma NoEmptyPart(a: CPath)
    requires AllValid(a)
    ensures LossyAll(a) != [""]
    ensures LossyAll(a) == [] <==> a == []
  {
    if a != [] {
      LossyText(a[0]);
      assert LossyAll(a)[0] == Lossy(a[0]);
    }
  }

  lemma NoDots(n: Name, k: nat)
    requires k < |n| && n[k] != Scalar('.')
    ensures n != FromText(".") && n != FromText("..")
  {
    assert forall i :: 0 <= i < 1 ==> FromText(".")[i] == Scalar('.');
    assert forall i :: 0 <= i < 2 ==> FromText("..")[i] == Scalar('.');
  }

  /** Two files have one stored form if and only if their names read alike, one by one. */
  lemma StoredAlike(a: CPath, b: CPath)
    requires AllValid(a) && AllValid(b)
    ensures Stored(a) == Stored(b) <==> LossyAll(a) == LossyAll(b)
  {
    StoredParts(a);
    StoredParts(b);
    NoEmptyPart(a);
    NoEmptyPart(b);
  }

  /** A unit that stands for itself in text, and is not what ill-formed bytes become. */
  predicate Telling(u: Unit) {
    u.Scalar? && u.c != REPLACEMENT
  }

  ghost predicate AllTelling(p: CPath) {
    forall i, k :: 0 <= i < |p| && 0 <= k < |p[i]| ==> Telling(p[i][k])
  }

  /** No other file has this one's stored form. */
  ghost predicate OnlyOneStored(a: CPath) {
    forall b: CPath :: AllValid(b) && Stored(b) == Stored(a) ==> b == a
  }

  /** One stored path is one file if and only if no name in it holds ill-formed bytes or a
      U+FFFD: exactly then is per-path dedupe per-file dedupe. */
  lemma StoredInjective(a: CPath)
    requires AllValid(a)
    ensures OnlyOneStored(a) <==> AllTelling(a)
  {
    if AllTelling(a) {
      forall b: CPath | AllValid(b) && Stored(b) == Stored(a) ensures b == a {
        StoredAlike(a, b);
        TellingReadsBack(a, b);
      }
    } else {
      var i, k :| 0 <= i < |a| && 0 <= k < |a[i]| && !Telling(a[i][k]);
      var b := Twin(a, i, k);
    }
  }

  lemma TellingReadsBack(a: CPath, b: CPath)
    requires AllTelling(a) && LossyAll(a) == LossyAll(b)
    ensures a == b
  {
    assert |a| == |LossyAll(a)| == |b|;
    forall i | 0 <= i < |a| ensures a[i] == b[i] {
      assert LossyAll(a)[i] == LossyAll(b)[i];
      assert |Lossy(a[i])| == |Lossy(b[i])|;
      forall k | 0 <= k < |a[i]| ensures a[i][k] == b[i][k] {
        assert Lossy(a[i])[k] == Lossy(b[i])[k];
      }
    }
  }

  /** Ill-formed bytes and U+FFFD, exchanged at one place, give another file with the same
      stored form. */
  lemma Twin(a: CPath, i: nat, k: nat) returns (b: CPath)
    requires AllValid(a) && i < |a| && k < |a[i]| && !Telling(a[i][k])
    ensures AllValid(b) && b != a && Stored(b) == Stored(a)
  {
    var u := if a[i][k].Scalar? then Ill([0xFF]) else Scalar(REPLACEMENT);
    var name := a[i][k := u];
    b := a[i := name];
    assert name[k] == u && u != a[i][k];
    assert b[i] == name;
    NoDots(name, k);
    assert Lossy(name) == Lossy(a[i]);
    assert LossyAll(b) == LossyAll(a);
  }

  /** Below, the two ways a stored path is shared: by two ill-formed names, and by an
      ill-formed name and a perfectly UTF-8 one. */
  lemma StoredPathsCollide()
    ensures var a, b, c := [[Ill([0xFF])]], [[Ill([0xFE])]], [[Scalar(REPLACEMENT)]];
            && AllValid(a) && AllValid(b) && AllValid(c) && AllUtf8(c)
            && a != b && b != c && c != a && Stored(a) == Stored(b) == Stored(c) == "\U{FFFD}"
  {
    var x, y, z := [Ill([0xFF])], [Ill([0xFE])], [Scalar(REPLACEMENT)];
    NoDots(x, 0);
    NoDots(y, 0);
    NoDots(z, 0);
    assert x[0] != y[0] && x[0] != z[0] && y[0] != z[0];
    assert [x][0] == x && [y][0] == y && [z][0] == z;
    assert Lossy(x) == Lossy(y) == Lossy(z) == [REPLACEMENT];
    assert LossyAll([x]) == LossyAll([y]) == LossyAll([z]);
  }

  // ---------------------------------------------------------------- splitting and joining

  lemma {:induction false} JoinAppends(a: seq<string>, b: seq<string>, sep: string)
    requires a != [] && b != []
    ensures JoinWith(a + b, sep) == JoinWith(a, sep) + sep + JoinWith(b, sep)
  {
    if |a| == 1 {
      assert (a + b)[1..] == b;
    } else {
      assert (a + b)[1..] == a[1..] + b;
      JoinAppends(a[1..], b, sep);
    }
  }

  /** Joining: nothing for no part, a single part as it is, and the separator, whole, between
      any two stretches. */
  lemma JoinMeans(part: string, a: seq<string>, b: seq<string>, sep: string)
    ensures JoinWith([], sep) == "" && JoinWith([part], sep) == part
    ensures a != [] && b != [] ==> JoinWith(a + b, sep) == JoinWith(a, sep) + sep + JoinWith(b, sep)
  {
    if a != [] && b != [] { JoinAppends(a, b, sep); }
  }

  lemma JoinLonger(c: char, parts: seq<string>, sep: string)
    requires parts != []
    ensures JoinWith([[c] + parts[0]] + parts[1..], sep) == [c] + JoinWith(parts, sep)
  {
    var longer := [[c] + parts[0]] + parts[1..];
    assert longer[1..] == parts[1..];
    if |parts| > 1 {
      assert [c] + parts[0] + sep + JoinWith(parts[1..], sep) == [c] + (parts[0] + sep + JoinWith(parts[1..], sep));
    }
  }

  /** Splitting: parts without the separator, whose join is the text. */
  lemma {:induction false} JoinUndoesSplit(s: string, sep: char)
    ensures JoinWith(Split(s, sep), [sep]) == s
    ensures forall i :: 0 <= i < |Split(s, sep)| ==> sep !in Split(s, sep)[i]
  {
    if s != [] {
      JoinUndoesSplit(s[1..], sep);
      var rest := Split(s[1..], sep);
      assert [s[0]] + s[1..] == s;
      if s[0] == sep {
        assert ([""] + rest)[1..] == rest;
      } else {
        JoinLonger(s[0], rest, [sep]);
      }
    }
  }

  // ---------------------------------------------------------------- file names

  /** The last component of a path written as text: empty and `.` components do not
      count, and `..` names no file. */
  function FileName(text: string): Option<string> {
    LastPlain(Split(text, '/'))
  }

  function LastPlain(parts: seq<string>): Option<string> {
    if parts == [] then None
    else
      var last := parts[|parts| - 1];
      if last == "" || last == "." then LastPlain(parts[..|parts| - 1])
      else if last == ".." then None
      else Some(last)
  }

  /** The name up to its last dot, unless that dot comes first or there is none. */
  function StemOfName(name: string): string {
    var k := LastDot(name);
    if k <= 0 then name else name[..k]
  }

  function LastDot(name: string): (k: int)
    ensures -1 <= k < |name|
    ensures k >= 0 ==> name[k] == '.'
    ensures forall i :: k < i < |name| ==> name[i] != '.'
  {
    if name == [] then -1
    else if name[|name| - 1] == '.' then |name| - 1
    else LastDot(name[..|name| - 1])
  }

  /** `file_stem`, empty where the path names no file. */
  function FileStem(text: string): string {
    match FileName(text)
    case None => ""
    case Some(name) => StemOfName(name)
  }

  function IsAbsolute(text: string): bool {
    |text| > 0 && text[0] == '/'
  }

  /** A component that counts: neither empty nor `.`. */
  predicate PlainPart(part: string) {
    part != "" && part != "."
  }

  ghost predicate LastPlainAt(parts: seq<string>, k: int) {
    0 <= k < |parts| && PlainPart(parts[k]) && forall j :: k < j < |parts| ==> !PlainPart(parts[j])
  }

  /** The last component that counts is this one, and it is no `..`. */
  ghost predicate NamesFile(text: string, name: string) {
    exists k :: LastPlainAt(Split(text, '/'), k) && Split(text, '/')[k] == name && name != ".."
  }

  /** The name up to its last dot: what follows starts with a dot, holds no other and is not
      the whole name; or the name itself, which has no dot but perhaps in front. */
  ghost predicate StemOfFile(name: string, stem: string) {
    exists ext: string ::
      && name == stem + ext
      && (if ext == "" then forall i :: 1 <= i < |name| ==> name[i] != '.'
          else stem != "" && ext[0] == '.' && forall i :: 1 <= i < |ext| ==> ext[i] != '.')
  }

  /** The stem of the file a path written as text names; empty where it names none. */
  ghost predicate StemIs(text: string, stem: string) {
    || (exists name :: NamesFile(text, name) && StemOfFile(name, stem))
    || ((forall name :: !NamesFile(text, name)) && stem == "")
  }

  lemma {:induction false} LastPlainIs(parts: seq<string>)
    ensures LastPlain(parts).Some? ==>
              exists k :: LastPlainAt(parts, k) && LastPlain(parts) == Some(parts[k]) && parts[k] != ".."
    ensures LastPlain(parts).None? ==> forall k :: LastPlainAt(parts, k) ==> parts[k] == ".."
    decreases |parts|
  {
    if parts != [] {
      var n := |parts| - 1;
      var rest := parts[..n];
      if !PlainPart(parts[n]) {
        LastPlainIs(rest);
        assert forall k :: LastPlainAt(parts, k) <==> LastPlainAt(rest, k) by {
          assert forall k :: 0 <= k < n ==> rest[k] == parts[k];
        }
      } else {
        assert LastPlainAt(parts, n);
      }
    }
  }

  lemma StemOfNameIs(name: string)
    ensures StemOfFile(name, StemOfName(name))
  {
    var k := LastDot(name);
    if k > 0 {
      assert name == name[..k] + name[k..];
      assert forall i :: 1 <= i < |name[k..]| ==> name[k..][i] == name[k + i];
    } else {
      assert name == name + "";
    }
  }

  lemma StemOfFileUnique(name: string, s: string, t: string)
    requires StemOfFile(name, s) && StemOfFile(name, t)
    ensures s == t
  {
    var e: string :| name == s + e
      && (if e == "" then forall i :: 1 <= i < |name| ==> name[i] != '.'
          else s != "" && e[0] == '.' && forall i :: 1 <= i < |e| ==> e[i] != '.');
    var f: string :| name == t + f
      && (if f == "" then forall i :: 1 <= i < |name| ==> name[i] != '.'
          else t != "" && f[0] == '.' && forall i :: 1 <= i < |f| ==> f[i] != '.');
    assert e != "" ==> forall i :: |s| < i < |name| ==> name[i] == e[i - |s|];
    assert f != "" ==> forall i :: |t| < i < |name| ==> name[i] == f[i - |t|];
    assert e != "" ==> name[|s|] == e[0];
    assert f != "" ==> name[|t|] == f[0];
    assert s == name[..|s|] && t == name[..|t|];
  }
  lemma OneLastPlain(parts: seq<string>, i: int, k: int)
    requires LastPlainAt(parts, i) && LastPlainAt(parts, k)
    ensures i == k
  {
  }

  lemma NamesFileUnique(text: string, a: string, b: string)
    requires NamesFile(text, a) && NamesFile(text, b)
    ensures a == b
  {
    var parts := Split(text, '/');
    var i :| LastPlainAt(parts, i) && parts[i] == a && a != "..";
    var k :| LastPlainAt(parts, k) && parts[k] == b && b != "..";
    OneLastPlain(parts, i, k);
  }

  /** `file_stem`, said without it. */
  lemma FileStemIs(text: string)
    ensures forall stem :: StemIs(text, stem) <==> stem == FileStem(text)
  {
    hide StemOfFile, NamesFile;
    FileNameIs(text);
    if FileName(text).Some? {
      StemOfNameIs(FileName(text).value);
      forall stem | StemIs(text, stem) ensures stem == FileStem(text) {
        var name :| NamesFile(text, name) && StemOfFile(name, stem);
        NamesFileUnique(text, name, FileName(text).value);
        StemOfFileUnique(name, stem, FileStem(text));
      }
    }
  }

  lemma FileNameIs(text: string)
    ensures FileName(text).Some? ==> NamesFile(text, FileName(text).value)
    ensures FileName(text).None? ==> forall name :: !NamesFile(text, name)
  {
    var parts := Split(text, '/');
    LastPlainIs(parts);
    if FileName(text).None? {
      forall name ensures !NamesFile(text, name) {
        if k :| LastPlainAt(parts, k) && parts[k] == name && name != ".." { assert false; }
      }
    }
  }
}
