/** String operations of Python's `str` that the matching engine and the
    markdown converter rely on: substring containment, keyword counting,
    `strip()`, `split(sep)`, `sep.join(...)`, `split()` word counting and
    `lower()`. Strings are sequences of Unicode code points, as in Python. */
module Text {

  /** Python's `str.isspace()` for one code point: the characters that
      `strip()`, `split()` and the regular-expression class `\s` treat as
      whitespace. */
  predicate IsSpace(c: char) {
    c == ' ' || c == '\t' || c == '\n' || c == '\r' || c == '\U{0B}' || c == '\U{0C}'
    || ('\U{1C}' <= c <= '\U{1F}') || c == '\U{85}' || c == '\U{A0}' || c == '\U{1680}'
    || ('\U{2000}' <= c <= '\U{200A}') || c == '\U{2028}' || c == '\U{2029}'
    || c == '\U{202F}' || c == '\U{205F}' || c == '\U{3000}'
  }

  predicate AllSpace(s: string) {
    forall i :: 0 <= i < |s| ==> IsSpace(s[i])
  }

  /** `sub` occurs in `s` starting at index `i`. */
  predicate OccursAt(s: string, sub: string, i: nat) {
    i + |sub| <= |s| && s[i..i + |sub|] == sub
  }

  /** Python's `sub in s`. */
  predicate Contains(s: string, sub: string) {
    exists i: nat | i <= |s| - |sub| :: OccursAt(s, sub, i)
  }

  /** Python's `any(k in s for k in kws)`. */
  predicate AnyFound(kws: seq<string>, s: string) {
    exists k :: k in kws && Contains(s, k)
  }

  /** Python's `sum(1 for k in kws if k in s)`: the number of entries of
      `kws` that occur in `s`, each counted once however often it occurs. */
  function CountFound(kws: seq<string>, s: string): (n: nat)
    ensures n <= |kws|
  {
    if kws == [] then 0
    else CountFound(kws[..|kws| - 1], s) + (if Contains(s, kws[|kws| - 1]) then 1 else 0)
  }

  /** The keywords of `kws` that occur in `s`. */
  ghost function FoundSet(kws: seq<string>, s: string): set<string> {
    set k | k in kws && Contains(s, k)
  }

  predicate NoDuplicates<T(==)>(xs: seq<T>) {
    forall i, j :: 0 <= i < j < |xs| ==> xs[i] != xs[j]
  }

  /** At least one keyword counts exactly when some keyword occurs. */
  lemma {:induction false} CountFoundPositive(kws: seq<string>, s: string)
    ensures CountFound(kws, s) >= 1 <==> AnyFound(kws, s)
  {
    if kws != [] {
      var init := kws[..|kws| - 1];
      var last := kws[|kws| - 1];
      CountFoundPositive(init, s);
      assert kws == init + [last];
      if AnyFound(init, s) {
        var k :| k in init && Contains(s, k);
        assert k in kws;
      }
      if AnyFound(kws, s) && !Contains(s, last) {
        var k :| k in kws && Contains(s, k);
        assert k in init;
      }
    }
  }

  /** The count is the number of distinct keywords found: occurrences are
      not counted, only which keywords occur. */
  lemma {:induction false} CountFoundIsDistinctHits(kws: seq<string>, s: string)
    requires NoDuplicates(kws)
    ensures CountFound(kws, s) == |FoundSet(kws, s)|
  {
    if kws != [] {
      var init := kws[..|kws| - 1];
      var last := kws[|kws| - 1];
      assert kws == init + [last];
      assert NoDuplicates(init);
      CountFoundIsDistinctHits(init, s);
      forall j | 0 <= j < |init| ensures init[j] != last {
        assert init[j] == kws[j];
      }
      if Contains(s, last) {
        assert FoundSet(kws, s) == FoundSet(init, s) + {last};
        assert last !in FoundSet(init, s);
      } else {
        assert FoundSet(kws, s) == FoundSet(init, s);
      }
    }
  }

  // ---------------------------------------------------------------------
  // strip()

  /** The length of the whitespace run that `s` starts with. */
  function SpaceRun(s: string): (n: nat)
    ensures n <= |s|
    ensures forall i :: 0 <= i < n ==> IsSpace(s[i])
    ensures n == |s| || !IsSpace(s[n])
  {
    if s != [] && IsSpace(s[0]) then 1 + SpaceRun(s[1..]) else 0
  }

  /** The length of the whitespace run that `s` ends with. */
  function TrailingSpace(s: string): (n: nat)
    ensures n <= |s|
    ensures forall i :: |s| - n <= i < |s| ==> IsSpace(s[i])
    ensures n == |s| || !IsSpace(s[|s| - n - 1])
  {
    if s != [] && IsSpace(s[|s| - 1]) then 1 + TrailingSpace(s[..|s| - 1]) else 0
  }

  /** Python's `s.lstrip()`. */
  function TrimLeft(s: string): string {
    s[SpaceRun(s)..]
  }

  /** Python's `s.rstrip()`. */
  function TrimRight(s: string): string {
    s[..|s| - TrailingSpace(s)]
  }

  /** Python's `s.strip()`: `s` without its leading and trailing whitespace. */
  function Strip(s: string): (r: string)
    ensures r == [] || (!IsSpace(r[0]) && !IsSpace(r[|r| - 1]))
  {
    TrimRight(TrimLeft(s))
  }

  /** `Strip(s)` is the run of `s` between a whitespace prefix and a
      whitespace suffix. */
  lemma StripIsInfix(s: string) returns (lo: nat)
    ensures lo + |Strip(s)| <= |s|
    ensures forall i :: 0 <= i < |Strip(s)| ==> Strip(s)[i] == s[lo + i]
    ensures forall i :: 0 <= i < lo ==> IsSpace(s[i])
    ensures forall i :: lo + |Strip(s)| <= i < |s| ==> IsSpace(s[i])
  {
    lo := SpaceRun(s);
    var t := TrimLeft(s);
    assert forall i :: lo + |Strip(s)| <= i < |s| ==> s[i] == t[i - lo];
  }

  /** A string strips to nothing exactly when it is all whitespace
      (Python's `not s.strip()`). */
  lemma StripEmptyIffAllSpace(s: string)
    ensures Strip(s) == [] <==> AllSpace(s)
  {
    var lo := StripIsInfix(s);
    if Strip(s) != [] {
      assert s[lo] == Strip(s)[0];
      assert !IsSpace(s[lo]);
    }
  }

  // ---------------------------------------------------------------------
  // split(sep) and join

  /** Scans `s` left to right, cutting at each non-overlapping occurrence of
      `sep`; `cur` is the part read since the last cut. */
  function SplitFrom(s: string, sep: string, cur: string): (parts: seq<string>)
    requires sep != []
    ensures |parts| >= 1
    decreases |s|
  {
    if s == [] then [cur]
    else if sep <= s then [cur] + SplitFrom(s[|sep|..], sep, [])
    else SplitFrom(s[1..], sep, cur + [s[0]])
  }

  /** Python's `s.split(sep)` for a non-empty separator. */
  function Split(s: string, sep: string): seq<string>
    requires sep != []
  {
    SplitFrom(s, sep, [])
  }

  /** Python's `sep.join(parts)`. */
  function Join(parts: seq<string>, sep: string): string {
    if parts == [] then []
    else if |parts| == 1 then parts[0]
    else parts[0] + sep + Join(parts[1..], sep)
  }

  /** No part produced by splitting on one character contains it. */
  lemma {:induction false} SplitFromExcludes(s: string, c: char, cur: string)
    requires c !in cur
    ensures forall p :: p in SplitFrom(s, [c], cur) ==> c !in p
    decreases |s|
  {
    if s != [] {
      if [c] <= s {
        SplitFromExcludes(s[1..], c, []);
      } else {
        assert s[0] != c;
        SplitFromExcludes(s[1..], c, cur + [s[0]]);
      }
    }
  }

  lemma SplitExcludes(s: string, c: char)
    ensures forall p :: p in Split(s, [c]) ==> c !in p
  {
    SplitFromExcludes(s, c, []);
  }

  /** Reading a separator-free chunk only extends the current part. */
  lemma {:induction false} SplitFromChunk(chunk: string, rest: string, c: char, cur: string)
    requires c !in chunk
    ensures SplitFrom(chunk + rest, [c], cur) == SplitFrom(rest, [c], cur + chunk)
    decreases |chunk|
  {
    if chunk != [] {
      var s := chunk + rest;
      assert s[0] == chunk[0] && s[0] != c;
      assert !([c] <= s);
      assert s[1..] == chunk[1..] + rest;
      SplitFromChunk(chunk[1..], rest, c, cur + [chunk[0]]);
      assert cur + [chunk[0]] + chunk[1..] == cur + chunk;
    } else {
      assert chunk + rest == rest;
      assert cur + chunk == cur;
    }
  }

  /** Splitting undoes joining, when the separator is one character that no
      part contains (Python: `sep.join(ps).split(sep) == ps` for `ps != []`). */
  lemma {:induction false} SplitJoin(parts: seq<string>, c: char)
    requires parts != []
    requires forall p :: p in parts ==> c !in p
    ensures Split(Join(parts, [c]), [c]) == parts
    decreases |parts|
  {
    if |parts| == 1 {
      SplitFromChunk(parts[0], [], c, []);
      assert parts[0] + [] == parts[0];
    } else {
      var j := Join(parts[1..], [c]);
      assert Join(parts, [c]) == parts[0] + ([c] + j);
      SplitFromChunk(parts[0], [c] + j, c, []);
      assert ([c] + j)[1..] == j;
      SplitJoin(parts[1..], c);
      assert [] + parts[0] == parts[0];
      assert parts == [parts[0]] + parts[1..];
    }
  }

  /** Every character of a part of a split comes from the text (or from
      the part already read). */
  lemma {:induction false} SplitFromChars(s: string, sep: string, cur: string)
    requires sep != []
    ensures forall p, c :: p in SplitFrom(s, sep, cur) && c in p ==> c in cur || c in s
    decreases |s|
  {
    if s != [] {
      if sep <= s {
        SplitFromChars(s[|sep|..], sep, []);
        forall c | c in s[|sep|..] ensures c in s {
          var k :| 0 <= k < |s[|sep|..]| && s[|sep|..][k] == c;
          assert s[|sep| + k] == c;
        }
      } else {
        SplitFromChars(s[1..], sep, cur + [s[0]]);
        forall c | c in s[1..] ensures c in s {
          var k :| 0 <= k < |s[1..]| && s[1..][k] == c;
          assert s[k + 1] == c;
        }
      }
    }
  }

  // ---------------------------------------------------------------------
  // split() word count

  /** Counts maximal runs of non-whitespace; `afterSpace` says whether the
      previous character was whitespace (or there was none). */
  function WordsFrom(s: string, afterSpace: bool): nat
    decreases |s|
  {
    if s == [] then 0
    else if IsSpace(s[0]) then WordsFrom(s[1..], true)
    else (if afterSpace then 1 else 0) + WordsFrom(s[1..], false)
  }

  /** Python's `len(s.split())`. */
  function WordCount(s: string): nat {
    WordsFrom(s, true)
  }

  /** A string has no words exactly when it is all whitespace. */
  lemma {:induction false} NoWordsIffAllSpace(s: string)
    ensures WordCount(s) == 0 <==> AllSpace(s)
    decreases |s|
  {
    if s != [] && IsSpace(s[0]) {
      NoWordsIffAllSpace(s[1..]);
      assert AllSpace(s) <==> AllSpace(s[1..]) by {
        if AllSpace(s[1..]) {
          forall i | 0 <= i < |s| ensures IsSpace(s[i]) {
            if i > 0 { assert s[i] == s[1..][i - 1]; }
          }
        }
      }
    }
  }

  // ---------------------------------------------------------------------
  // lower()

  /** Python's `str.lower()` on one code point, for the Latin capitals A-Z
      and the nine Polish capitals; every other code point is kept. */
  function LowerChar(c: char): char {
    if 'A' <= c <= 'Z' then (c as int + 32) as char
    else if c == 'Ą' then 'ą'
    else if c == 'Ć' then 'ć'
    else if c == 'Ę' then 'ę'
    else if c == 'Ł' then 'ł'
    else if c == 'Ń' then 'ń'
    else if c == 'Ó' then 'ó'
    else if c == 'Ś' then 'ś'
    else if c == 'Ź' then 'ź'
    else if c == 'Ż' then 'ż'
    else c
  }

  /** Python's `s.lower()` for the code points LowerChar maps. */
  function Lower(s: string): (r: string)
    ensures |r| == |s|
    ensures forall i :: 0 <= i < |s| ==> r[i] == LowerChar(s[i])
  {
    seq(|s|, i requires 0 <= i < |s| => LowerChar(s[i]))
  }

  /** Lowering is idempotent: lowering an already-lowered text again
      changes nothing. */
  lemma LowerIdempotent(s: string)
    ensures Lower(Lower(s)) == Lower(s)
  {
  }

  /** `s` is its own lower-case form: no code point of it is one LowerChar
      changes. */
  predicate IsLowered(s: string) {
    forall i :: 0 <= i < |s| ==> LowerChar(s[i]) == s[i]
  }

  /** Every keyword of `kws` is written in lower case. */
  predicate AllLowered(kws: seq<string>) {
    forall k :: k in kws ==> IsLowered(k)
  }

  /** `c` is none of the capitals LowerChar maps. */
  predicate NoCapital(c: char) {
    (c < 'A' || 'Z' < c) && c != 'Ą' && c != 'Ć' && c != 'Ę' && c != 'Ł' && c != 'Ń'
    && c != 'Ó' && c != 'Ś' && c != 'Ź' && c != 'Ż'
  }

  /** No keyword of `kws` contains a capital. */
  predicate NoCapitals(kws: seq<string>) {
    forall j, i :: 0 <= j < |kws| && 0 <= i < |kws[j]| ==> NoCapital(kws[j][i])
  }

  /** Helper: keywords without capitals are written in lower case. */
  lemma NoCapitalsLowered(kws: seq<string>)
    requires NoCapitals(kws)
    ensures AllLowered(kws)
  {
    forall k | k in kws ensures IsLowered(k) {
      var j :| 0 <= j < |kws| && kws[j] == k;
      forall i | 0 <= i < |k| ensures LowerChar(k[i]) == k[i] {
        assert NoCapital(kws[j][i]);
      }
    }
  }

  /** A lower-case text is exactly one that lowering leaves unchanged. */
  lemma LoweredIffFixed(s: string)
    ensures IsLowered(s) <==> Lower(s) == s
  {
    if Lower(s) == s {
      forall i | 0 <= i < |s| ensures LowerChar(s[i]) == s[i] {
        assert Lower(s)[i] == LowerChar(s[i]);
      }
    }
  }

  /** Lowering commutes with taking a slice. */
  lemma LowerSlice(s: string, i: nat, j: nat)
    requires i <= j <= |s|
    ensures Lower(s)[i..j] == Lower(s[i..j])
  {
  }

  /** The piece of `s` at index `i` lower-cases to `k`. */
  predicate LowersToAt(s: string, k: string, i: nat) {
    i + |k| <= |s| && Lower(s[i..i + |k|]) == k
  }

  /** `k in s.lower()` holds exactly when some piece of `s` lower-cases to
      `k`: the test ignores case on the side of the text. */
  lemma ContainsLowerIff(s: string, k: string)
    ensures Contains(Lower(s), k) <==> exists i: nat :: LowersToAt(s, k, i)
  {
    if Contains(Lower(s), k) {
      var i: nat :| i <= |Lower(s)| - |k| && OccursAt(Lower(s), k, i);
      LowerSlice(s, i, i + |k|);
      assert LowersToAt(s, k, i);
    }
    if exists i: nat :: LowersToAt(s, k, i) {
      var i: nat :| LowersToAt(s, k, i);
      LowerSlice(s, i, i + |k|);
      assert OccursAt(Lower(s), k, i);
    }
  }

  /** A lower-case keyword that occurs in the text as written still occurs
      after the text is lowered, so a keyword match against `s.lower()`
      misses no occurrence whatever the text's case. */
  lemma LowerKeepsLoweredHit(s: string, k: string)
    requires IsLowered(k)
    requires Contains(s, k)
    ensures Contains(Lower(s), k)
  {
    var i: nat :| i <= |s| - |k| && OccursAt(s, k, i);
    LoweredIffFixed(k);
    assert LowersToAt(s, k, i);
    ContainsLowerIff(s, k);
  }
}
