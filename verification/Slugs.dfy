/** Slugs and the ids minted from them.

    A slug is `[a-z0-9][a-z0-9._-]*`. `SlugOf` and `Mint` say what `slugify` and
    `mint_id_with` compute; the methods beside them run the loops the program runs. */
module Slugs {

  predicate IsSlugStart(c: char) {
    'a' <= c <= 'z' || '0' <= c <= '9'
  }

  predicate IsSlugChar(c: char) {
    IsSlugStart(c) || c == '.' || c == '_' || c == '-'
  }

  predicate ValidSlug(s: string) {
    |s| > 0 && IsSlugStart(s[0]) && forall i :: 1 <= i < |s| ==> IsSlugChar(s[i])
  }

  function AsciiLower(c: char): char {
    if 'A' <= c <= 'Z' then (c as int + 32) as char else c
  }

  function SlugChar(c: char): char {
    var lc := AsciiLower(c);
    if IsSlugChar(lc) then lc else '-'
  }

  function Sanitize(s: string): string {
    seq(|s|, i requires 0 <= i < |s| => SlugChar(s[i]))
  }

  function TrimStart(s: string): (t: string)
    ensures t != [] ==> IsSlugStart(t[0])
  {
    if s == [] || IsSlugStart(s[0]) then s else TrimStart(s[1..])
  }

  function TrimEnd(s: string): (t: string)
    ensures t != [] ==> t[|t| - 1] != '-'
    ensures t <= s
    ensures s != [] && s[0] != '-' ==> t != []
  {
    if s == [] || s[|s| - 1] != '-' then s else TrimEnd(s[..|s| - 1])
  }

  const FALLBACK := "asset"

  function SlugOf(stem: string): string {
    var t := TrimEnd(TrimStart(Sanitize(stem)));
    if t == [] then FALLBACK else t
  }

  /** The program's push loop, followed by the two trims. */
  method Slugify(stem: string) returns (slug: string)
    ensures slug == SlugOf(stem)
  {
    var out := "";
    for i := 0 to |stem|
      invariant out == Sanitize(stem[..i])
    {
      var lc := AsciiLower(stem[i]);
      out := out + [if IsSlugChar(lc) then lc else '-'];
    }
    assert stem[..|stem|] == stem;
    var trimmed := TrimEnd(TrimStart(out));
    if trimmed == [] {
      slug := FALLBACK;
    } else {
      slug := trimmed;
    }
  }

  ghost predicate SlugChars(s: string) {
    forall i :: 0 <= i < |s| ==> IsSlugChar(s[i])
  }

  lemma SanitizedChars(s: string)
    ensures SlugChars(Sanitize(s))
  {
    forall i | 0 <= i < |s| ensures IsSlugChar(Sanitize(s)[i]) {
      assert Sanitize(s)[i] == SlugChar(s[i]);
    }
  }

  lemma {:induction false} TrimStartChars(s: string)
    requires SlugChars(s)
    ensures SlugChars(TrimStart(s))
  {
    if s != [] && !IsSlugStart(s[0]) { TrimStartChars(s[1..]); }
  }

  lemma TrimEndSlug(t: string)
    requires SlugChars(t) && t != [] && IsSlugStart(t[0])
    ensures ValidSlug(TrimEnd(t)) && TrimEnd(t)[|TrimEnd(t)| - 1] != '-'
  {
    var u := TrimEnd(t);
    assert u[0] == t[0];
    forall i | 1 <= i < |u| ensures IsSlugChar(u[i]) {
      assert u[i] == t[i];
    }
  }

  /** Whatever goes in, a slug comes out, and it never ends in `-`. */
  lemma SlugOfIsSlug(stem: string)
    ensures ValidSlug(SlugOf(stem))
    ensures SlugOf(stem)[|SlugOf(stem)| - 1] != '-'
  {
    SanitizedChars(stem);
    TrimStartChars(Sanitize(stem));
    var t := TrimStart(Sanitize(stem));
    if t != [] {
      TrimEndSlug(t);
    } else {
      assert ValidSlug(FALLBACK);
    }
  }

  lemma {:induction false} TrimStartAt(s: string) returns (lo: nat)
    ensures lo <= |s| && TrimStart(s) == s[lo..]
    ensures forall i :: 0 <= i < lo ==> !IsSlugStart(s[i])
    ensures lo < |s| ==> IsSlugStart(s[lo])
  {
    lo := 0;
    if s != [] && !IsSlugStart(s[0]) {
      var rest := TrimStartAt(s[1..]);
      assert forall i :: 1 <= i < |s| ==> s[i] == s[1..][i - 1];
      lo := rest + 1;
    }
  }

  lemma {:induction false} TrimEndAt(s: string)
    ensures forall i :: |TrimEnd(s)| <= i < |s| ==> s[i] == '-'
  {
    if s != [] && s[|s| - 1] == '-' {
      TrimEndAt(s[..|s| - 1]);
      assert forall i :: 0 <= i < |s| - 1 ==> s[i] == s[..|s| - 1][i];
    }
  }

  const LOWER := "abcdefghijklmnopqrstuvwxyz"
  const UPPER := "ABCDEFGHIJKLMNOPQRSTUVWXYZ"
  const DIGITS := "0123456789"

  lemma Alphabets(i: nat)
    ensures i < 26 ==> LOWER[i] as int == 97 + i && UPPER[i] as int == 65 + i
    ensures i < 10 ==> DIGITS[i] as int == 48 + i
  {
  }

  lemma InLower(c: char)
    ensures c in LOWER <==> 97 <= c as int <= 122
  {
    if 97 <= c as int <= 122 {
      Alphabets(c as int - 97);
      assert LOWER[c as int - 97] == c;
    } else if c in LOWER {
      var i :| 0 <= i < |LOWER| && LOWER[i] == c;
      Alphabets(i);
    }
  }

  lemma InUpper(c: char)
    ensures c in UPPER <==> 65 <= c as int <= 90
  {
    if 65 <= c as int <= 90 {
      Alphabets(c as int - 65);
      assert UPPER[c as int - 65] == c;
    } else if c in UPPER {
      var i :| 0 <= i < |UPPER| && UPPER[i] == c;
      Alphabets(i);
    }
  }

  lemma InDigits(c: char)
    ensures c in DIGITS <==> 48 <= c as int <= 57
  {
    if 48 <= c as int <= 57 {
      Alphabets(c as int - 48);
      assert DIGITS[c as int - 48] == c;
    } else if c in DIGITS {
      var i :| 0 <= i < |DIGITS| && DIGITS[i] == c;
      Alphabets(i);
    }
  }

  /** A slug starts with a letter or digit of these and goes on with these, `.`, `_` or `-`. */
  lemma SlugLetters(s: string)
    ensures ValidSlug(s) <==>
              && s != "" && (s[0] in LOWER || s[0] in DIGITS)
              && forall i :: 0 <= i < |s| ==> s[i] in LOWER || s[i] in DIGITS || s[i] in "._-"
  {
    forall i | 0 <= i < |s|
      ensures IsSlugStart(s[i]) <==> s[i] in LOWER || s[i] in DIGITS
      ensures IsSlugChar(s[i]) <==> s[i] in LOWER || s[i] in DIGITS || s[i] in "._-"
    {
      InLower(s[i]);
      InDigits(s[i]);
    }
  }

  /** Character by character: a slug's characters stay, a capital becomes its small letter,
      everything else a hyphen. */
  lemma SlugCharMeans(c: char)
    ensures c in LOWER || c in DIGITS || c in "._-" ==> SlugChar(c) == c
    ensures forall i :: 0 <= i < 26 && c == UPPER[i] ==> SlugChar(c) == LOWER[i]
    ensures c !in LOWER && c !in DIGITS && c !in "._-" && c !in UPPER ==> SlugChar(c) == '-'
  {
    InLower(c);
    InUpper(c);
    InDigits(c);
    forall i | 0 <= i < 26 && c == UPPER[i] ensures SlugChar(c) == LOWER[i] {
      Alphabets(i);
    }
  }

  /** What `slugify` keeps: every character lower-cased, or `-` where no slug may have it;
      then all before the first letter or digit and all closing `-` dropped, and nothing
      else; `asset` if nothing is left. */
  lemma SlugOfIsTheMiddle(stem: string) returns (lo: nat, hi: nat)
    ensures lo <= hi <= |stem|
    ensures forall i :: 0 <= i < lo ==> !IsSlugStart(SlugChar(stem[i]))
    ensures forall i :: hi <= i < |stem| ==> SlugChar(stem[i]) == '-'
    ensures lo == hi ==> SlugOf(stem) == "asset"
    ensures lo < hi ==>
              && IsSlugStart(SlugChar(stem[lo])) && SlugChar(stem[hi - 1]) != '-'
              && SlugOf(stem) == seq(hi - lo, i requires 0 <= i < hi - lo => SlugChar(stem[lo + i]))
  {
    var s := Sanitize(stem);
    lo := TrimStartAt(s);
    var t := TrimStart(s);
    TrimEndAt(t);
    hi := lo + |TrimEnd(t)|;
    assert forall i :: 0 <= i < |stem| ==> s[i] == SlugChar(stem[i]);
    forall i | 0 <= i < lo ensures !IsSlugStart(SlugChar(stem[i])) {
      assert !IsSlugStart(s[i]);
    }
    forall i | hi <= i < |stem| ensures SlugChar(stem[i]) == '-' {
      assert s[i] == t[i - lo];
    }
    if lo < hi {
      assert TrimEnd(t) == t[..hi - lo] == s[lo..hi];
      assert s[hi - 1] == TrimEnd(t)[hi - lo - 1];
    }
  }

  /** `slugify` changes a string exactly when it is not a slug already or ends in `-`. */
  lemma SlugOfFixes(s: string)
    ensures SlugOf(s) == s <==> ValidSlug(s) && s[|s| - 1] != '-'
  {
    if ValidSlug(s) && s[|s| - 1] != '-' {
      assert Sanitize(s) == s;
    } else {
      SlugOfIsSlug(s);
    }
  }

  lemma SlugOfIdempotent(s: string)
    ensures SlugOf(SlugOf(s)) == SlugOf(s)
  {
    SlugOfIsSlug(s);
    SlugOfFixes(SlugOf(s));
  }

  // ---------------------------------------------------------------- minting

  function Digit(d: nat): (c: char)
    requires d < 10
    ensures '0' <= c <= '9'
  {
    (d + 48) as char
  }

  function Decimal(n: nat): (s: string)
    ensures |s| > 0 && forall i :: 0 <= i < |s| ==> '0' <= s[i] <= '9'
  {
    if n < 10 then [Digit(n)] else Decimal(n / 10) + [Digit(n % 10)]
  }

  function DecimalValue(s: string): nat
    requires forall i :: 0 <= i < |s| ==> '0' <= s[i] <= '9'
  {
    if s == [] then 0 else 10 * DecimalValue(s[..|s| - 1]) + (s[|s| - 1] as int - 48)
  }

  lemma {:induction false} DecimalReadsBack(n: nat)
    ensures DecimalValue(Decimal(n)) == n
  {
    if n >= 10 {
      DecimalReadsBack(n / 10);
      assert Decimal(n)[..|Decimal(n)| - 1] == Decimal(n / 10);
    } else {
      assert Decimal(n)[..0] == [];
    }
  }

  /** The n-th alternative to a taken base. */
  function Numbered(base: string, n: nat): string {
    base + "-" + Decimal(n)
  }

  lemma {:induction false} DecimalLeads(n: nat)
    ensures n > 0 ==> Decimal(n)[0] != '0'
  {
    if n >= 10 { DecimalLeads(n / 10); }
  }

  /** The n-th alternative is the base, one hyphen, and the number in plain decimals. */
  lemma NumberedReads(base: string, n: nat)
    ensures |Numbered(base, n)| > |base| + 1 && Numbered(base, n)[..|base|] == base && Numbered(base, n)[|base|] == '-'
    ensures var tail := Numbered(base, n)[|base| + 1..];
            && (forall i :: 0 <= i < |tail| ==> '0' <= tail[i] <= '9')
            && DecimalValue(tail) == n && (n > 0 ==> tail[0] != '0')
  {
    assert Numbered(base, n)[|base| + 1..] == Decimal(n);
    DecimalReadsBack(n);
    DecimalLeads(n);
  }

  lemma NumberedInjective(base: string, m: nat, n: nat)
    requires Numbered(base, m) == Numbered(base, n)
    ensures m == n
  {
    assert Numbered(base, m)[|base| + 1..] == Decimal(m);
    assert Numbered(base, n)[|base| + 1..] == Decimal(n);
    DecimalReadsBack(m);
    DecimalReadsBack(n);
  }

  /** The base and every number below `n` are in use. */
  predicate Crowded(base: string, taken: set<string>, n: nat) {
    base in taken && forall k :: 2 <= k < n ==> Numbered(base, k) in taken
  }

  ghost function NamesBelow(base: string, n: nat): set<string>
    requires n >= 2
  {
    if n == 2 then {base} else NamesBelow(base, n - 1) + {Numbered(base, n - 1)}
  }

  lemma {:induction false} NamesBelowAreMany(base: string, taken: set<string>, n: nat)
    requires n >= 2 && Crowded(base, taken, n)
    ensures NamesBelow(base, n) <= taken
    ensures |NamesBelow(base, n)| == n - 1
    ensures forall s :: s in NamesBelow(base, n) ==> s == base || exists k :: 2 <= k < n && s == Numbered(base, k)
  {
    if n > 2 {
      NamesBelowAreMany(base, taken, n - 1);
      var next := Numbered(base, n - 1);
      if next in NamesBelow(base, n - 1) {
        var k :| 2 <= k < n - 1 && next == Numbered(base, k);
        NumberedInjective(base, k, n - 1);
      }
    }
  }

  lemma {:induction false} SubsetSize<T>(a: set<T>, b: set<T>)
    requires a <= b
    ensures |a| <= |b|
  {
    if a != {} {
      var x :| x in a;
      SubsetSize(a - {x}, b - {x});
    }
  }

  /** Pigeonhole: distinct names fill `taken` one by one, so a crowded base bounds `n`. */
  lemma CrowdedBound(base: string, taken: set<string>, n: nat)
    requires n >= 2 && Crowded(base, taken, n)
    ensures n - 1 <= |taken|
  {
    NamesBelowAreMany(base, taken, n);
    SubsetSize(NamesBelow(base, n), taken);
  }

  /** The least free number from `n` on. */
  function FreeFrom(base: string, taken: set<string>, n: nat): (k: nat)
    requires n >= 2 && Crowded(base, taken, n)
    ensures n <= k <= |taken| + 1
    ensures Numbered(base, k) !in taken
    ensures forall i :: n <= i < k ==> Numbered(base, i) in taken
    decreases |taken| + 1 - n
  {
    CrowdedBound(base, taken, n);
    if Numbered(base, n) !in taken then
      n
    else
      CrowdedBound(base, taken, n + 1);
      FreeFrom(base, taken, n + 1)
  }

  function Mint(base: string, taken: set<string>): string {
    if base !in taken then base else Numbered(base, FreeFrom(base, taken, 2))
  }

  /** The program's counter loop. `last` is the highest value its counter reached:
      with fewer than 2^31 - 1 ids in use it stays inside the 32-bit counter. */
  method MintId(base: string, taken: set<string>) returns (id: string, last: nat)
    ensures id == Mint(base, taken)
    ensures last <= |taken| + 1 || last == 2
    ensures |taken| < 0x7FFF_FFFF ==> last <= 0x7FFF_FFFF
  {
    last := 2;
    if base !in taken {
      return base, last;
    }
    CrowdedBound(base, taken, 2);
    while Numbered(base, last) in taken
      invariant last >= 2 && Crowded(base, taken, last)
      invariant last <= |taken| + 1
      invariant FreeFrom(base, taken, last) == FreeFrom(base, taken, 2)
      decreases |taken| + 1 - last
    {
      CrowdedBound(base, taken, last + 1);
      last := last + 1;
    }
    id := Numbered(base, last);
  }

  /** `k` is the least free number from 2 on. */
  ghost predicate LeastFree(base: string, taken: set<string>, k: nat) {
    k >= 2 && Numbered(base, k) !in taken && forall i :: 2 <= i < k ==> Numbered(base, i) in taken
  }

  /** The id minted is free, and it is the base or the base with the least free number,
      found within `|taken|` tries: no other string meets that description. */
  lemma MintIsLeastFree(base: string, taken: set<string>, id: string)
    ensures Mint(base, taken) !in taken
    ensures base !in taken ==> (id == Mint(base, taken) <==> id == base)
    ensures base in taken ==>
              (id == Mint(base, taken) <==>
               exists k: nat :: k <= |taken| + 1 && LeastFree(base, taken, k) && id == Numbered(base, k))
  {
    if base in taken {
      var f := FreeFrom(base, taken, 2);
      assert LeastFree(base, taken, f);
      forall k: nat | LeastFree(base, taken, k) ensures k == f {
        LeastFreeUnique(base, taken, k, f);
      }
    }
  }

  lemma LeastFreeUnique(base: string, taken: set<string>, j: nat, k: nat)
    requires LeastFree(base, taken, j) && LeastFree(base, taken, k)
    ensures j == k
  {
  }

  lemma MintIsSlug(base: string, taken: set<string>)
    requires ValidSlug(base)
    ensures ValidSlug(Mint(base, taken))
  {
    if base in taken {
      var k := FreeFrom(base, taken, 2);
      var d := Decimal(k);
      forall i | 1 <= i < |Numbered(base, k)|
        ensures IsSlugChar(Numbered(base, k)[i])
      {
        if i > |base| { assert Numbered(base, k)[i] == d[i - |base| - 1]; }
      }
    }
  }
}
