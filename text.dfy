/** The JavaScript string operations the clients rely on (`indexOf`, `includes`,
    `startsWith`, `trim`, `toLowerCase`, number formatting), stated over `seq<char>`. */
module Text {

  /** `w` occurs in `s` starting at index `i`. */
  predicate OccursAt(s: string, w: string, i: int) {
    0 <= i && i + |w| <= |s| && s[i..i + |w|] == w
  }

  /** `w[k..]` matches `s` from `from + k` on, compared character by character. */
  predicate MatchesFrom(s: string, w: string, from: nat, k: nat)
    requires from + |w| <= |s|
    decreases |w| - k
  {
    k >= |w| || (s[from + k] == w[k] && MatchesFrom(s, w, from, k + 1))
  }

  /** The character-by-character comparison is the comparison of the window. */
  lemma {:induction false} MatchesFromIff(s: string, w: string, from: nat, k: nat)
    requires from + |w| <= |s| && k <= |w|
    ensures MatchesFrom(s, w, from, k) <==> s[from + k..from + |w|] == w[k..]
    decreases |w| - k
  {
    if k < |w| {
      MatchesFromIff(s, w, from, k + 1);
      assert s[from + k..from + |w|] == [s[from + k]] + s[from + k + 1..from + |w|];
      assert w[k..] == [w[k]] + w[k + 1..];
    }
  }

  /** `s.indexOf(w, from)`: the first occurrence at or after `from`, or -1. */
  function IndexOfFrom(s: string, w: string, from: nat): (r: int)
    requires from <= |s|
    ensures r == -1 || (from <= r && OccursAt(s, w, r))
    decreases |s| - from
  {
    if from + |w| > |s| then -1
    else if MatchesFrom(s, w, from, 0) then
      MatchesFromIff(s, w, from, 0);
      from
    else IndexOfFrom(s, w, from + 1)
  }

  /** No occurrence of `w` lies between `from` and what `IndexOfFrom` finds. */
  lemma {:induction false} IndexOfFromFirst(s: string, w: string, from: nat)
    requires from <= |s|
    ensures forall i :: from <= i && (IndexOfFrom(s, w, from) == -1 || i < IndexOfFrom(s, w, from)) ==>
      !OccursAt(s, w, i)
    decreases |s| - from
  {
    if from + |w| <= |s| && !MatchesFrom(s, w, from, 0) {
      MatchesFromIff(s, w, from, 0);
      IndexOfFromFirst(s, w, from + 1);
    }
  }

  /** `s.indexOf(w)`: the index of the first occurrence of `w` in `s`, or -1 when there is none. */
  function IndexOf(s: string, w: string): (r: int)
    ensures r == -1 || OccursAt(s, w, r)
  {
    IndexOfFrom(s, w, 0)
  }

  /** `indexOf` finds the first occurrence: none lies before it, and -1 means none at all. */
  lemma IndexOfFirst(s: string, w: string)
    ensures forall i :: 0 <= i && (IndexOf(s, w) == -1 || i < IndexOf(s, w)) ==> !OccursAt(s, w, i)
  {
    IndexOfFromFirst(s, w, 0);
  }

  /** An occurrence at `i` with none before it is what `indexOf` returns. */
  lemma IndexOfIs(s: string, w: string, i: nat)
    requires OccursAt(s, w, i)
    requires forall j :: 0 <= j < i ==> !OccursAt(s, w, j)
    ensures IndexOf(s, w) == i
  {
    IndexOfFirst(s, w);
  }

  /** A text without any occurrence of `w` does not contain it. */
  lemma NotContainsIntro(s: string, w: string)
    requires forall i :: 0 <= i ==> !OccursAt(s, w, i)
    ensures !Contains(s, w)
  {
  }

  /** A text that does not contain `w` has no occurrence of it anywhere. */
  lemma NotContainsElim(s: string, w: string)
    requires !Contains(s, w)
    ensures forall i :: !OccursAt(s, w, i)
  {
    IndexOfFirst(s, w);
  }

  /** `s.includes(w)`. */
  predicate Contains(s: string, w: string) {
    IndexOf(s, w) != -1
  }

  /** `s.startsWith(p)`. */
  predicate StartsWith(s: string, p: string) {
    p <= s
  }

  /** The characters `String.prototype.trim` removes: WhiteSpace and LineTerminator of ECMA-262. */
  predicate IsJsWhitespace(c: char) {
    || '\t' <= c <= '\r' || c == ' ' || c == '\U{00A0}' || c == '\U{1680}'
    || '\U{2000}' <= c <= '\U{200A}' || c == '\U{2028}' || c == '\U{2029}' || c == '\U{202F}'
    || c == '\U{205F}' || c == '\U{3000}' || c == '\U{FEFF}'
  }

  /** Neither end of `s` is whitespace. */
  predicate Trimmed(s: string) {
    s == [] || (!IsJsWhitespace(s[0]) && !IsJsWhitespace(s[|s| - 1]))
  }

  /** `s.trimStart()`: `s` without its leading whitespace. */
  function TrimStart(s: string): (r: string)
    ensures |r| <= |s|
    ensures r != [] ==> !IsJsWhitespace(r[0]) && r[|r| - 1] == s[|s| - 1]
  {
    if s != [] && IsJsWhitespace(s[0]) then TrimStart(s[1..]) else s
  }

  /** `s.trimEnd()`: `s` without its trailing whitespace. */
  function TrimEnd(s: string): (r: string)
    ensures |r| <= |s|
    ensures r != [] ==> !IsJsWhitespace(r[|r| - 1]) && r[0] == s[0]
  {
    if s != [] && IsJsWhitespace(s[|s| - 1]) then TrimEnd(s[..|s| - 1]) else s
  }

  /** `s.trim()`: `s` without its leading and trailing whitespace. */
  function Trim(s: string): (r: string)
    ensures Trimmed(r)
    ensures |r| <= |s|
  {
    TrimEnd(TrimStart(s))
  }

  /** `trim` leaves a string that is already trimmed as it is. */
  lemma TrimOfTrimmed(s: string)
    requires Trimmed(s)
    ensures Trim(s) == s
  {
  }

  /** `trimStart` only removes characters. */
  lemma {:induction false} TrimStartIsInside(s: string)
    ensures forall c :: c in TrimStart(s) ==> c in s
  {
    if s != [] && IsJsWhitespace(s[0]) {
      TrimStartIsInside(s[1..]);
    }
  }

  /** `trimEnd` only removes characters. */
  lemma {:induction false} TrimEndIsInside(s: string)
    ensures forall c :: c in TrimEnd(s) ==> c in s
  {
    if s != [] && IsJsWhitespace(s[|s| - 1]) {
      TrimEndIsInside(s[..|s| - 1]);
    }
  }

  /** `trimStart` leaves a string that starts with a visible character as it is. */
  lemma TrimStartKeeps(s: string)
    requires s != [] && !IsJsWhitespace(s[0])
    ensures TrimStart(s) == s
  {
  }

  /** `trimEnd` keeps a prefix of `s` that reaches past every visible character. */
  lemma {:induction false} TrimEndKeeps(s: string, k: nat)
    requires k < |s| && !IsJsWhitespace(s[k])
    ensures k < |TrimEnd(s)| && TrimEnd(s) == s[..|TrimEnd(s)|]
  {
    if IsJsWhitespace(s[|s| - 1]) {
      TrimEndKeeps(s[..|s| - 1], k);
    }
  }

  /** Every character of `w` is whitespace. */
  predicate AllWhitespace(w: string) {
    forall i :: 0 <= i < |w| ==> IsJsWhitespace(w[i])
  }

  /** `trimStart` removes exactly a leading run of whitespace before a visible character. */
  lemma {:induction false} TrimStartSkips(w: string, s: string)
    requires AllWhitespace(w) && s != [] && !IsJsWhitespace(s[0])
    ensures TrimStart(w + s) == s
  {
    if w != [] {
      assert (w + s)[1..] == w[1..] + s;
      TrimStartSkips(w[1..], s);
    }
  }

  /** `trimEnd` removes exactly a trailing run of whitespace after a visible character. */
  lemma {:induction false} TrimEndSkips(s: string, w: string)
    requires AllWhitespace(w) && s != [] && !IsJsWhitespace(s[|s| - 1])
    ensures TrimEnd(s + w) == s
  {
    if w != [] {
      assert (s + w)[..|s + w| - 1] == s + w[..|w| - 1];
      TrimEndSkips(s, w[..|w| - 1]);
    }
  }

  /** `trim` removes exactly the whitespace padding around a trimmed, non-empty text. */
  lemma TrimPadded(w1: string, s: string, w2: string)
    requires AllWhitespace(w1) && AllWhitespace(w2) && s != [] && Trimmed(s)
    ensures Trim(w1 + s + w2) == s
  {
    assert w1 + s + w2 == w1 + (s + w2);
    TrimStartSkips(w1, s + w2);
    TrimEndSkips(s, w2);
  }

  /** Every character of `Trim(s)` comes from `s`. */
  lemma TrimIsInside(s: string)
    ensures forall c :: c in Trim(s) ==> c in s
  {
    TrimStartIsInside(s);
    TrimEndIsInside(TrimStart(s));
  }

  /** ASCII case mapping: the part of `toLowerCase` that the keyword tables depend on. */
  function LowerChar(c: char): char {
    if 'A' <= c <= 'Z' then (c as int + 32) as char else c
  }

  /** `s.toLowerCase()`, lowering A to Z only (see README). */
  function ToLower(s: string): (r: string)
    ensures |r| == |s|
    ensures forall i :: 0 <= i < |s| ==> r[i] == LowerChar(s[i])
  {
    seq(|s|, i requires 0 <= i < |s| => LowerChar(s[i]))
  }

  /** How `Array.prototype.slice` resolves an index into a list of `len`
      elements: a negative index counts from the end, and either kind is
      clamped to the list. */
  function SliceIndex(len: nat, i: int): (r: nat)
    ensures r <= len
    ensures 0 <= i <= len ==> r == i
    ensures i > len ==> r == len
    ensures i < 0 && -i <= len ==> r == len + i
    ensures i < 0 && -i > len ==> r == 0
  {
    if i < 0 then (if len + i > 0 then len + i else 0)
    else if i < len then i else len
  }

  function DecimalDigit(n: nat): (c: char)
    requires n < 10
    ensures '0' <= c <= '9'
  {
    "0123456789"[n]
  }

  /** `String(n)` for a non-negative integer: its decimal digits without leading zeros. */
  function NatToString(n: nat): (r: string)
    ensures 1 <= |r|
    ensures forall i :: 0 <= i < |r| ==> '0' <= r[i] <= '9'
    ensures |r| > 1 ==> r[0] != '0'
    decreases n
  {
    if n < 10 then [DecimalDigit(n)] else NatToString(n / 10) + [DecimalDigit(n % 10)]
  }

  /** `parts.join(sep)`. */
  function Join(parts: seq<string>, sep: string): string {
    if parts == [] then ""
    else if |parts| == 1 then parts[0]
    else parts[0] + sep + Join(parts[1..], sep)
  }

  /** No proper suffix of `w` is also a prefix of it, so two occurrences of `w`
      never overlap. */
  predicate NoSelfOverlap(w: string) {
    forall k :: 0 < k < |w| ==> w[k..] != w[..|w| - k]
  }

  /** `w` cannot occur at `i` when the character at `j`, inside that window, differs. */
  lemma NotOccursAtMismatch(s: string, w: string, i: int, j: int)
    requires 0 <= i <= j < i + |w| && j < |s|
    requires s[j] != w[j - i]
    ensures !OccursAt(s, w, i)
  {
    if i + |w| <= |s| {
      assert s[i..i + |w|][j - i] == s[j];
    }
  }

  /** A text without the first letter of `w` does not contain `w`. */
  lemma LetterAbsent(s: string, w: string)
    requires w != [] && w[0] !in s
    ensures !Contains(s, w)
  {
    forall i | 0 <= i ensures !OccursAt(s, w, i) {
      if i < |s| {
        NotOccursAtMismatch(s, w, i, i);
      }
    }
    NotContainsIntro(s, w);
  }

  /** A word without self-overlap placed after a text that does not contain it is
      found exactly there. */
  lemma IndexOfPlacedWord(x: string, w: string, y: string)
    requires NoSelfOverlap(w) && !Contains(x, w)
    ensures IndexOf(x + w + y, w) == |x|
  {
    var s := x + w + y;
    assert s[|x|..|x| + |w|] == w;
    assert OccursAt(s, w, |x|);
    NotContainsElim(x, w);
    forall i | 0 <= i < |x| ensures !OccursAt(s, w, i) {
      if i + |w| <= |x| {
        assert s[i..i + |w|] == x[i..i + |w|];
        assert !OccursAt(x, w, i);
      } else {
        var k := |x| - i;
        assert s[i..i + |w|][k..] == w[..|w| - k];
        assert w[k..] != w[..|w| - k];
      }
    }
    IndexOfIs(s, w, |x|);
  }
}
