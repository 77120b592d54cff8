/** The string operations the terminal relies on: Python's `str.strip`, `str.split()`
    with no separator, `str.lower`, substring search (`in`), `str.join`, decimal
    rendering of integers, right alignment in a field, and the slices `xs[-n:]`
    and `xs[:n]`. */
module Strings {

  /** Python's `str.isspace` for a single character (the characters that
      `str.strip()` and `str.split()` treat as whitespace). */
  predicate IsSpace(c: char) {
    || c == ' ' || c == '\t' || c == '\n' || c == '\r' || c == '\U{000B}' || c == '\U{000C}'
    || ('\U{001C}' <= c <= '\U{001F}')
    || c == '\U{0085}' || c == '\U{00A0}' || c == '\U{1680}'
    || ('\U{2000}' <= c <= '\U{200A}')
    || c == '\U{2028}' || c == '\U{2029}' || c == '\U{202F}' || c == '\U{205F}' || c == '\U{3000}'
  }

  predicate AllSpace(s: string) {
    forall i :: 0 <= i < |s| ==> IsSpace(s[i])
  }

  lemma AllSpaceCons(c: char, x: string)
    requires IsSpace(c) && AllSpace(x)
    ensures AllSpace([c] + x)
  {
  }

  lemma AllSpaceSnoc(x: string, c: char)
    requires AllSpace(x) && IsSpace(c)
    ensures AllSpace(x + [c])
  {
  }

  /** No whitespace at either end. */
  predicate Trimmed(s: string) {
    s == [] || (!IsSpace(s[0]) && !IsSpace(s[|s| - 1]))
  }

  /** `s.lstrip()`: drops the leading run of whitespace. */
  function StripLeft(s: string): (r: string)
    ensures |r| <= |s| && r == s[|s| - |r|..]
    ensures AllSpace(s[..|s| - |r|])
    ensures r == [] || !IsSpace(r[0])
  {
    if s != [] && IsSpace(s[0]) then
      var r := StripLeft(s[1..]);
      StripLeftStep(s, r);
      r
    else s
  }

  /** Leading whitespace one character longer than that of `s[1..]`. */
  lemma StripLeftStep(s: string, r: string)
    requires s != [] && IsSpace(s[0])
    requires |r| <= |s| - 1 && r == s[1..][|s| - 1 - |r|..] && AllSpace(s[1..][..|s| - 1 - |r|])
    ensures r == s[|s| - |r|..] && AllSpace(s[..|s| - |r|])
  {
    assert s[..|s| - |r|] == [s[0]] + s[1..][..|s| - 1 - |r|];
    AllSpaceCons(s[0], s[1..][..|s| - 1 - |r|]);
  }

  /** `s.rstrip()`: drops the trailing run of whitespace. */
  function StripRight(s: string): (r: string)
    ensures |r| <= |s| && r == s[..|r|]
    ensures AllSpace(s[|r|..])
    ensures r == [] || !IsSpace(r[|r| - 1])
  {
    if s != [] && IsSpace(s[|s| - 1]) then
      var r := StripRight(s[..|s| - 1]);
      assert s[..|r|] == s[..|s| - 1][..|r|];
      assert s[|r|..] == s[..|s| - 1][|r|..] + [s[|s| - 1]];
      AllSpaceSnoc(s[..|s| - 1][|r|..], s[|s| - 1]);
      r
    else s
  }

  /** `r` is what lies between a leading run `s[..a]` and a trailing run of whitespace of `s`. */
  predicate StrippedAt(s: string, r: string, a: int) {
    0 <= a <= |s| - |r| && r == s[a..a + |r|] && AllSpace(s[..a]) && AllSpace(s[a + |r|..])
  }

  /** `s.strip()`: the part of `s` between its leading and trailing whitespace. */
  function Strip(s: string): (r: string)
    ensures Trimmed(r)
    ensures exists a :: StrippedAt(s, r, a)
  {
    var t := StripLeft(s);
    var r := StripRight(t);
    StripParts(s, t, r);
    r
  }

  /** A left-stripped suffix `t` of `s`, then a right-stripped prefix `r` of `t`: `r` is `s` stripped. */
  lemma StripParts(s: string, t: string, r: string)
    requires |t| <= |s| && t == s[|s| - |t|..] && AllSpace(s[..|s| - |t|]) && (t == [] || !IsSpace(t[0]))
    requires |r| <= |t| && r == t[..|r|] && AllSpace(t[|r|..]) && (r == [] || !IsSpace(r[|r| - 1]))
    ensures Trimmed(r) && StrippedAt(s, r, |s| - |t|)
  {
    var a := |s| - |t|;
    assert r == s[a..a + |r|];
    assert s[a + |r|..] == t[|r|..];
    if r != [] {
      assert r[0] == t[0];
    }
  }

  /** A string without whitespace at its ends is its own strip. */
  lemma {:induction false} StripTrimmed(s: string)
    requires Trimmed(s)
    ensures Strip(s) == s
  {
    assert StripLeft(s) == s;
    assert StripRight(s) == s;
  }

  /** Stripping twice is stripping once. */
  lemma StripIdempotent(s: string)
    ensures Strip(Strip(s)) == Strip(s)
  {
    StripTrimmed(Strip(s));
  }

  /** A string strips to the empty string exactly when it is empty or all whitespace. */
  lemma StripEmpty(s: string)
    ensures Strip(s) == [] <==> AllSpace(s)
  {
    var r := Strip(s);
    var a :| StrippedAt(s, r, a);
    if r == [] {
      forall i | 0 <= i < |s| ensures IsSpace(s[i]) {
        if i < a { assert s[..a][i] == s[i]; } else { assert s[a..][i - a] == s[i]; }
      }
    } else {
      assert s[a] == r[0];
    }
  }

  /** Python's `str.lower` on one character; only ASCII letters are mapped. */
  function LowerChar(c: char): char {
    if 'A' <= c <= 'Z' then (c as int - 'A' as int + 'a' as int) as char else c
  }

  function Lower(s: string): (r: string)
    ensures |r| == |s| && forall i :: 0 <= i < |s| ==> r[i] == LowerChar(s[i])
  {
    if s == [] then [] else [LowerChar(s[0])] + Lower(s[1..])
  }

  /** Python's `sub in s`: `sub` occurs in `s` as a contiguous substring. */
  ghost predicate Occurs(sub: string, s: string) {
    exists i :: OccursAt(sub, s, i)
  }

  /** `sub` occurs in `s` starting at index `i`. */
  predicate OccursAt(sub: string, s: string, i: int) {
    0 <= i <= |s| - |sub| && s[i..i + |sub|] == sub
  }

  /** A search for `sub` that tries each start position of `s` in turn. */
  function Contains(s: string, sub: string): (b: bool)
    ensures b <==> Occurs(sub, s)
    decreases |s|
  {
    if |s| < |sub| then
      false
    else if s[..|sub|] == sub then
      assert OccursAt(sub, s, 0);
      true
    else
      var b := Contains(s[1..], sub);
      assert b ==> Occurs(sub, s) by {
        if b {
          var i :| OccursAt(sub, s[1..], i);
          assert s[i + 1..i + 1 + |sub|] == sub;
          assert OccursAt(sub, s, i + 1);
        }
      }
      assert Occurs(sub, s) ==> b by {
        if Occurs(sub, s) {
          var i :| OccursAt(sub, s, i);
          assert i != 0;
          assert s[1..][i - 1..i - 1 + |sub|] == sub;
          assert OccursAt(sub, s[1..], i - 1);
        }
      }
      b
  }

  /** `sep.join(xs)`. */
  function Join(xs: seq<string>, sep: string): string {
    if |xs| == 0 then ""
    else if |xs| == 1 then xs[0]
    else Join(xs[..|xs| - 1], sep) + sep + xs[|xs| - 1]
  }

  /** Every element of `xs` appears, in full, inside `sep.join(xs)`. */
  lemma {:induction false} JoinContainsEach(xs: seq<string>, sep: string, k: nat)
    requires k < |xs|
    ensures Occurs(xs[k], Join(xs, sep))
  {
    var j := Join(xs, sep);
    if |xs| == 1 {
      assert OccursAt(xs[k], j, 0);
    } else if k == |xs| - 1 {
      assert j[|j| - |xs[k]|..|j|] == xs[k];
      assert OccursAt(xs[k], j, |j| - |xs[k]|);
    } else {
      var p := Join(xs[..|xs| - 1], sep);
      JoinContainsEach(xs[..|xs| - 1], sep, k);
      var i :| OccursAt(xs[..|xs| - 1][k], p, i);
      assert j[i..i + |xs[k]|] == p[i..i + |xs[k]|];
      assert OccursAt(xs[k], j, i);
    }
  }

  /** A non-empty join ends with its last element. */
  lemma JoinEndsWithLast(xs: seq<string>, sep: string)
    requires |xs| > 0
    ensures var j := Join(xs, sep); |xs[|xs| - 1]| <= |j| && j[|j| - |xs[|xs| - 1]|..] == xs[|xs| - 1]
  {
  }

  /** Length of the leading run of non-whitespace characters. */
  function WordLength(s: string): (n: nat)
    ensures n <= |s|
    ensures forall i :: 0 <= i < n ==> !IsSpace(s[i])
    ensures n < |s| ==> IsSpace(s[n])
  {
    if s == [] || IsSpace(s[0]) then 0 else 1 + WordLength(s[1..])
  }

  /** `s.split()`: the maximal runs of non-whitespace characters, in order. */
  function Words(s: string): seq<string>
    decreases |s|
  {
    var t := StripLeft(s);
    if t == [] then []
    else
      var n := WordLength(t);
      [t[..n]] + Words(t[n..])
  }

  /** The words of a split are non-empty and hold no whitespace. */
  lemma {:induction false} WordsAreWhitespaceFree(s: string)
    ensures forall w :: w in Words(s) ==> w != [] && forall i :: 0 <= i < |w| ==> !IsSpace(w[i])
    decreases |s|
  {
    var t := StripLeft(s);
    if t != [] {
      var n := WordLength(t);
      var w := t[..n];
      assert w != [] && forall i :: 0 <= i < |w| ==> !IsSpace(w[i]) by {
        assert n > 0;
        assert forall i :: 0 <= i < |w| ==> w[i] == t[i];
      }
      WordsAreWhitespaceFree(t[n..]);
      assert Words(s) == [w] + Words(t[n..]);
      forall x | x in Words(s) ensures x != [] && forall i :: 0 <= i < |x| ==> !IsSpace(x[i]) {
        if x != w {
          assert x in Words(t[n..]);
        }
      }
    }
  }

  /** A string with no whitespace at all splits into itself alone. */
  lemma WordsOfWord(s: string)
    requires s != [] && forall i :: 0 <= i < |s| ==> !IsSpace(s[i])
    ensures Words(s) == [s]
  {
    calc {
      Words(s);
    == { WordsUnfold(s); WordLengthAll(s); }
      [s[..|s|]] + Words(s[|s|..]);
    == { assert s[..|s|] == s && s[|s|..] == []; }
      [s] + Words([]);
    }
  }

  lemma {:induction false} WordLengthAll(s: string)
    requires forall i :: 0 <= i < |s| ==> !IsSpace(s[i])
    ensures WordLength(s) == |s|
  {
    if s != [] {
      WordLengthAll(s[1..]);
    }
  }

  /** A word, a run of whitespace and a non-empty word without whitespace split into two words. */
  lemma WordsOfTwo(w: string, gap: string, v: string)
    requires w != [] && forall i :: 0 <= i < |w| ==> !IsSpace(w[i])
    requires v != [] && forall i :: 0 <= i < |v| ==> !IsSpace(v[i])
    requires gap != [] && AllSpace(gap)
    ensures Words(w + gap + v) == [w, v]
  {
    calc {
      Words(w + gap + v);
    == { ConcatAssoc(w, gap, v); }
      Words(w + (gap + v));
    == { WordsAfterWord(w, gap + v); }
      [w] + Words(gap + v);
    == { WordsAfterSpace(gap, v); }
      [w] + [v];
    }
  }

  /** A word, whitespace, and a second word ending the text or followed by whitespace:
      those two words start the split. */
  lemma WordsOfTwoThen(w: string, gap: string, v: string, tail: string)
    requires w != [] && forall i :: 0 <= i < |w| ==> !IsSpace(w[i])
    requires gap != [] && AllSpace(gap)
    requires v != [] && forall i :: 0 <= i < |v| ==> !IsSpace(v[i])
    requires tail == [] || IsSpace(tail[0])
    ensures var ws := Words(w + gap + v + tail); |ws| >= 2 && ws[0] == w && ws[1] == v && ws[2..] == Words(tail)
  {
    calc {
      Words(w + gap + v + tail);
    == { ConcatAssoc4(w, gap, v, tail); }
      Words(w + (gap + (v + tail)));
    == { assert (v + tail)[0] == v[0]; WordsAfterWordSpace(w, gap, v + tail); }
      [w] + Words(v + tail);
    == { WordsOfWordThen(v, tail); }
      [w] + ([v] + Words(tail));
    }
    TwoHeads(Words(w + gap + v + tail), w, v, Words(tail));
  }

  /** A word, then whitespace, then text starting with a non-whitespace character. */
  lemma WordsAfterWordSpace(w: string, gap: string, rest: string)
    requires w != [] && forall i :: 0 <= i < |w| ==> !IsSpace(w[i])
    requires gap != [] && AllSpace(gap)
    requires rest != [] && !IsSpace(rest[0])
    ensures Words(w + (gap + rest)) == [w] + Words(rest)
  {
    assert (gap + rest)[0] == gap[0];
    WordsAfterWord(w, gap + rest);
    WordsSkipSpace(gap + rest);
    StripLeftSpace(gap, rest);
  }

  /** A word followed by nothing or by whitespace is the first word of the split. */
  lemma WordsOfWordThen(v: string, tail: string)
    requires v != [] && forall i :: 0 <= i < |v| ==> !IsSpace(v[i])
    requires tail == [] || IsSpace(tail[0])
    ensures Words(v + tail) == [v] + Words(tail)
  {
    if tail == [] {
      assert v + tail == v;
      WordsOfWord(v);
    } else {
      WordsAfterWord(v, tail);
    }
  }

  /** A word followed by whitespace is the first word of the split. */
  lemma WordsAfterWord(w: string, rest: string)
    requires w != [] && forall i :: 0 <= i < |w| ==> !IsSpace(w[i])
    requires rest != [] && IsSpace(rest[0])
    ensures Words(w + rest) == [w] + Words(rest)
  {
    WordLengthPrefix(w, rest);
    WordsUnfold(w + rest);
    ConcatParts(w, rest);
  }

  lemma ConcatAssoc(a: string, b: string, c: string)
    ensures a + b + c == a + (b + c)
  {
  }

  lemma TwoHeads(ws: seq<string>, a: string, b: string, rest: seq<string>)
    requires ws == [a] + ([b] + rest)
    ensures |ws| >= 2 && ws[0] == a && ws[1] == b && ws[2..] == rest
  {
  }

  lemma ConcatAssoc4(a: string, b: string, c: string, d: string)
    ensures a + b + c + d == a + (b + (c + d))
  {
  }

  lemma PrefixOfConcat(p: string, a: string, b: string)
    requires p <= a
    ensures p <= a + b
  {
    assert (a + b)[..|p|] == a[..|p|];
  }

  lemma ConcatParts(a: string, b: string)
    ensures (a + b)[..|a|] == a && (a + b)[|a|..] == b
  {
  }

  /** Whitespace followed by a single word splits into that word. */
  lemma WordsAfterSpace(gap: string, v: string)
    requires v != [] && forall i :: 0 <= i < |v| ==> !IsSpace(v[i])
    requires AllSpace(gap)
    ensures Words(gap + v) == [v]
  {
    WordsSkipSpace(gap + v);
    StripLeftSpace(gap, v);
    WordsOfWord(v);
  }

  /** Splitting a string that starts with a word takes that word first. */
  lemma WordsUnfold(s: string)
    requires s != [] && !IsSpace(s[0])
    ensures Words(s) == [s[..WordLength(s)]] + Words(s[WordLength(s)..])
  {
    assert StripLeft(s) == s;
  }

  /** Leading whitespace does not change the split. */
  lemma WordsSkipSpace(s: string)
    ensures Words(s) == Words(StripLeft(s))
  {
    var t := StripLeft(s);
    assert StripLeft(t) == t by {
      if t != [] { assert !IsSpace(t[0]); }
    }
  }

  lemma {:induction false} WordLengthPrefix(w: string, rest: string)
    requires forall i :: 0 <= i < |w| ==> !IsSpace(w[i])
    requires rest != [] && IsSpace(rest[0])
    ensures WordLength(w + rest) == |w|
  {
    if w != [] {
      assert (w + rest)[1..] == w[1..] + rest;
      WordLengthPrefix(w[1..], rest);
    } else {
      assert w + rest == rest;
    }
  }

  lemma {:induction false} StripLeftSpace(gap: string, v: string)
    requires AllSpace(gap)
    requires v != [] && !IsSpace(v[0])
    ensures StripLeft(gap + v) == v
  {
    if gap == [] {
      assert gap + v == v;
    } else {
      assert (gap + v)[1..] == gap[1..] + v;
      StripLeftSpace(gap[1..], v);
    }
  }

  function DigitChar(d: nat): char
    requires d < 10
  {
    ('0' as int + d) as char
  }

  /** `str(n)` for a natural number: its decimal digits, most significant first. */
  function NatToString(n: nat): (s: string)
    ensures |s| >= 1 && forall i :: 0 <= i < |s| ==> '0' <= s[i] <= '9'
    ensures s[0] == '0' ==> n == 0
  {
    if n < 10 then [DigitChar(n)] else NatToString(n / 10) + [DigitChar(n % 10)]
  }

  /** The value of a string of decimal digits. */
  function DigitsValue(s: string): nat
    requires forall i :: 0 <= i < |s| ==> '0' <= s[i] <= '9'
  {
    if s == [] then 0 else 10 * DigitsValue(s[..|s| - 1]) + (s[|s| - 1] as int - '0' as int)
  }

  /** Decimal rendering loses nothing: reading the digits back gives the number. */
  lemma {:induction false} NatToStringRoundTrip(n: nat)
    ensures DigitsValue(NatToString(n)) == n
  {
    if n >= 10 {
      var s := NatToString(n);
      assert s[..|s| - 1] == NatToString(n / 10);
      NatToStringRoundTrip(n / 10);
    }
  }

  /** Python's `f"{s:>w}"`: `s` right-aligned in a field of width `w`, padded with spaces. */
  function PadLeft(s: string, w: nat): (r: string)
    ensures |r| == if |s| < w then w else |s|
    ensures r[|r| - |s|..] == s
    ensures forall i :: 0 <= i < |r| - |s| ==> r[i] == ' '
  {
    if |s| < w then seq(w - |s|, _ => ' ') + s else s
  }

  /** Python's `xs[-n:]` for a positive `n`: the last `n` elements, or all of them when
      there are fewer. (`xs[-0:]` would be the whole list.) */
  function LastN<T>(xs: seq<T>, n: nat): (r: seq<T>)
    requires n > 0
    ensures |r| == if |xs| < n then |xs| else n
    ensures forall i :: 0 <= i < |r| ==> r[i] == xs[|xs| - |r| + i]
  {
    if |xs| <= n then xs else xs[|xs| - n..]
  }

  /** Python's `xs[:n]`: the first `n` elements, or all of them when there are fewer. */
  function Take<T>(xs: seq<T>, n: nat): (r: seq<T>)
    ensures |r| == if |xs| < n then |xs| else n
    ensures r <= xs
  {
    if |xs| <= n then xs else xs[..n]
  }
}
