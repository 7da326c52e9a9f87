/** The JavaScript string built-ins the portrait tool relies on, written out
    on `seq<char>`: first-occurrence search and removal (`String.replace` with
    a string pattern), `substring`, ASCII `toLowerCase`, removal of the
    characters of a regular-expression class, `split`/`join` on one
    character, and the decimal rendering of integers inside template literals. */
module Text {

  datatype Option<T> = None | Some(value: T)

  /** `pat` occurs in `s` starting at index `j`. */
  predicate OccursAt(s: string, pat: string, j: nat) {
    j + |pat| <= |s| && s[j..j + |pat|] == pat
  }

  /** `s.indexOf(pat, from)`: the first index at or after `from` where `pat`
      occurs, or -1. */
  function IndexOfFrom(s: string, pat: string, from: nat): (r: int)
    ensures r == -1 || (from <= r && OccursAt(s, pat, r))
    ensures r == -1 ==> forall j: nat :: from <= j ==> !OccursAt(s, pat, j)
    ensures r >= 0 ==> forall j: nat :: from <= j < r ==> !OccursAt(s, pat, j)
    decreases |s| + 1 - from
  {
    if from + |pat| > |s| then -1
    else if s[from..from + |pat|] == pat then from
    else IndexOfFrom(s, pat, from + 1)
  }

  function IndexOf(s: string, pat: string): int {
    IndexOfFrom(s, pat, 0)
  }

  /** `s.replace(pat, "")` for a string pattern: only the first occurrence is
      removed, wherever it stands; without an occurrence `s` is unchanged. */
  function RemoveFirst(s: string, pat: string): (r: string)
    ensures IndexOf(s, pat) < 0 ==> r == s
    ensures IndexOf(s, pat) >= 0 ==> |r| == |s| - |pat| && IndexOf(s, pat) <= |r|
    ensures IndexOf(s, pat) >= 0 ==>
      s == r[..IndexOf(s, pat)] + pat + r[IndexOf(s, pat)..]
  {
    var i := IndexOf(s, pat);
    if i < 0 then s
    else
      var r := s[..i] + s[i + |pat|..];
      assert r[..i] == s[..i] && r[i..] == s[i + |pat|..];
      assert s == s[..i] + s[i..i + |pat|] + s[i + |pat|..];
      r
  }

  /** Removing a leading `pat` gives back what followed it. */
  lemma {:induction false} RemoveFirstOfPrefixed(pat: string, x: string)
    ensures RemoveFirst(pat + x, pat) == x
  {
    var s := pat + x;
    assert s[0..|pat|] == pat;
    assert OccursAt(s, pat, 0);
    assert IndexOf(s, pat) == 0;
    assert s[|pat|..] == x;
  }

  /** Removing a non-empty pattern from the empty string leaves it empty. */
  lemma {:induction false} RemoveFirstOfEmpty(pat: string)
    requires pat != []
    ensures RemoveFirst([], pat) == []
  {
  }

  /** `s.substring(start)`: the characters from `start` on, or "" when `start`
      lies beyond the end. */
  function SubstringFrom(s: string, start: nat): (r: string)
    ensures start <= |s| ==> s == s[..start] + r
    ensures start > |s| ==> r == []
  {
    if start <= |s| then s[start..] else []
  }

  // ---------------------------------------------------------------------
  // Character classes

  predicate IsUpper(c: char) {
    'A' <= c <= 'Z'
  }

  predicate IsParen(c: char) {
    c == '(' || c == ')'
  }

  /** ASCII `toLowerCase` of one character. */
  function LowerChar(c: char): (r: char)
    ensures !IsUpper(r)
    ensures !IsUpper(c) ==> r == c
    ensures IsUpper(c) ==> 'a' <= r <= 'z' && r as int - 'a' as int == c as int - 'A' as int
    ensures IsParen(r) <==> IsParen(c)
    ensures r == ' ' <==> c == ' '
  {
    if IsUpper(c) then (c as int - 'A' as int + 'a' as int) as char else c
  }

  /** `s.toLowerCase()`, on ASCII letters. */
  function Lower(s: string): (r: string)
    ensures |r| == |s|
    ensures forall i :: 0 <= i < |s| ==> r[i] == LowerChar(s[i])
    decreases |s|
  {
    if s == [] then [] else [LowerChar(s[0])] + Lower(s[1..])
  }

  /** How often `c` occurs in `s`. */
  function Count(s: string, c: char): nat
    decreases |s|
  {
    if s == [] then 0 else (if s[0] == c then 1 else 0) + Count(s[1..], c)
  }

  lemma {:induction false} CountConcat(a: string, b: string, c: char)
    ensures Count(a + b, c) == Count(a, c) + Count(b, c)
    decreases |a|
  {
    if a == [] {
      assert a + b == b;
    } else {
      assert (a + b)[1..] == a[1..] + b;
      CountConcat(a[1..], b, c);
    }
  }

  /** A character that does not occur is counted zero times. */
  lemma {:induction false} CountAbsent(s: string, c: char)
    requires forall i :: 0 <= i < |s| ==> s[i] != c
    ensures Count(s, c) == 0
    decreases |s|
  {
    if s != [] {
      CountAbsent(s[1..], c);
    }
  }

  /** `s.replace(/[\(\)]/g, "")`: every parenthesis dropped. */
  function StripParens(s: string): (r: string)
    ensures forall i :: 0 <= i < |r| ==> !IsParen(r[i])
    decreases |s|
  {
    if s == [] then []
    else if IsParen(s[0]) then StripParens(s[1..])
    else [s[0]] + StripParens(s[1..])
  }

  /** `StripParens` keeps every other character as often as it occurred. */
  lemma {:induction false} StripParensCounts(s: string, c: char)
    requires !IsParen(c)
    ensures Count(StripParens(s), c) == Count(s, c)
    decreases |s|
  {
    if s != [] {
      StripParensCounts(s[1..], c);
      if !IsParen(s[0]) {
        assert ([s[0]] + StripParens(s[1..]))[1..] == StripParens(s[1..]);
      }
    }
  }

  /** A string without parentheses is its own `StripParens`. */
  lemma {:induction false} StripParensOfClean(s: string)
    requires forall i :: 0 <= i < |s| ==> !IsParen(s[i])
    ensures StripParens(s) == s
    decreases |s|
  {
    if s != [] {
      assert !IsParen(s[0]);
      StripParensOfClean(s[1..]);
    }
  }

  lemma {:induction false} LowerConcat(a: string, b: string)
    ensures Lower(a + b) == Lower(a) + Lower(b)
  {
    var l, r := Lower(a + b), Lower(a) + Lower(b);
    assert |l| == |r|;
    forall i | 0 <= i < |l| ensures l[i] == r[i] {
      if i < |a| { assert (a + b)[i] == a[i]; } else { assert (a + b)[i] == b[i - |a|]; }
    }
  }

  /** Every `a` replaced by `b`. */
  function ReplaceChar(s: string, a: char, b: char): (r: string)
    ensures |r| == |s|
    ensures forall i :: 0 <= i < |s| ==> r[i] == (if s[i] == a then b else s[i])
    decreases |s|
  {
    if s == [] then [] else [if s[0] == a then b else s[0]] + ReplaceChar(s[1..], a, b)
  }

  lemma {:induction false} ReplaceCharConcat(a: string, b: string, x: char, y: char)
    ensures ReplaceChar(a + b, x, y) == ReplaceChar(a, x, y) + ReplaceChar(b, x, y)
  {
    var l, r := ReplaceChar(a + b, x, y), ReplaceChar(a, x, y) + ReplaceChar(b, x, y);
    assert |l| == |r|;
    forall i | 0 <= i < |l| ensures l[i] == r[i] {
      if i < |a| { assert (a + b)[i] == a[i]; } else { assert (a + b)[i] == b[i - |a|]; }
    }
  }

  /** `s.split(sep)` for a one-character separator: the maximal
      separator-free pieces, empty ones included (so `"".split(" ")` is
      `[""]`). */
  function Split(s: string, sep: char): (parts: seq<string>)
    ensures |parts| >= 1
    ensures forall k :: 0 <= k < |parts| ==> sep !in parts[k]
    decreases |s|
  {
    if s == [] then [[]]
    else
      var rest := Split(s[1..], sep);
      if s[0] == sep then [[]] + rest
      else [[s[0]] + rest[0]] + rest[1..]
  }

  /** `parts.join(sep)` for a one-character separator. */
  function Join(parts: seq<string>, sep: char): string
    decreases |parts|
  {
    if |parts| == 0 then []
    else if |parts| == 1 then parts[0]
    else parts[0] + [sep] + Join(parts[1..], sep)
  }

  lemma {:induction false} JoinConsHead(c: char, p: string, q: seq<string>, sep: char)
    ensures Join([[c] + p] + q, sep) == [c] + Join([p] + q, sep)
  {
    var l, m := [[c] + p] + q, [p] + q;
    if |q| > 0 {
      assert l[1..] == q && m[1..] == q;
    }
  }

  /** Splitting on `sep` and joining with `rep` replaces every `sep` by `rep`. */
  lemma {:induction false} JoinSplit(s: string, sep: char, rep: char)
    ensures Join(Split(s, sep), rep) == ReplaceChar(s, sep, rep)
    decreases |s|
  {
    if s != [] {
      var rest := Split(s[1..], sep);
      JoinSplit(s[1..], sep, rep);
      if s[0] == sep {
        var l := [[]] + rest;
        assert l[1..] == rest;
        assert Join(l, rep) == [] + [rep] + Join(rest, rep);
      } else {
        assert rest == [rest[0]] + rest[1..];
        JoinConsHead(s[0], rest[0], rest[1..], rep);
      }
      assert ReplaceChar(s, sep, rep) == [if s[0] == sep then rep else s[0]] + ReplaceChar(s[1..], sep, rep);
    }
  }

  /** Joining the pieces of a split with the same separator restores the string. */
  lemma {:induction false} SplitJoinRoundTrip(s: string, sep: char)
    ensures Join(Split(s, sep), sep) == s
  {
    JoinSplit(s, sep, sep);
    assert ReplaceChar(s, sep, sep) == s;
  }

  // ---------------------------------------------------------------------
  // Integers in template literals

  predicate IsDigit(c: char) {
    '0' <= c <= '9'
  }

  function DigitChar(d: nat): (c: char)
    requires d < 10
    ensures IsDigit(c) && c as int - '0' as int == d
  {
    ('0' as int + d) as char
  }

  /** The decimal digits of `n`, most significant first, without leading zeros. */
  function NatToString(n: nat): (r: string)
    ensures |r| >= 1
    ensures forall i :: 0 <= i < |r| ==> IsDigit(r[i])
    ensures |r| > 1 ==> r[0] != '0'
    decreases n
  {
    if n < 10 then [DigitChar(n)] else NatToString(n / 10) + [DigitChar(n % 10)]
  }

  /** How `${x}` renders an integer-valued number. */
  function IntToString(x: int): (r: string)
    ensures |r| >= 1
    ensures forall i :: 0 <= i < |r| ==> IsDigit(r[i]) || (i == 0 && r[i] == '-')
  {
    if x < 0 then "-" + NatToString(-x) else NatToString(x)
  }

  /** The value of a string of decimal digits. */
  function ParseNat(s: string): nat
    requires forall i :: 0 <= i < |s| ==> IsDigit(s[i])
    decreases |s|
  {
    if s == [] then 0
    else
      assert IsDigit(s[|s| - 1]);
      ParseNat(s[..|s| - 1]) * 10 + (s[|s| - 1] as int - '0' as int)
  }

  /** The value of an optionally negative decimal numeral. */
  function ParseInt(s: string): int
    requires |s| >= 1
    requires forall i :: 0 <= i < |s| ==> IsDigit(s[i]) || (i == 0 && s[i] == '-')
  {
    if s[0] == '-' then -(ParseNat(s[1..]) as int) else ParseNat(s)
  }

  lemma {:induction false} NatToStringRoundTrip(n: nat)
    ensures ParseNat(NatToString(n)) == n
    decreases n
  {
    if n >= 10 {
      var p := NatToString(n / 10);
      var s := p + [DigitChar(n % 10)];
      assert s[..|s| - 1] == p;
      NatToStringRoundTrip(n / 10);
    }
  }

  /** Decimal rendering loses nothing: the numeral reads back as the number. */
  lemma {:induction false} IntToStringRoundTrip(x: int)
    ensures ParseInt(IntToString(x)) == x
  {
    if x < 0 {
      var s := IntToString(x);
      assert s[1..] == NatToString(-x);
      NatToStringRoundTrip(-x);
    } else {
      NatToStringRoundTrip(x);
    }
  }

  /** Distinct numbers render as distinct numerals. */
  lemma {:induction false} NatToStringInjective(m: nat, n: nat)
    requires m != n
    ensures NatToString(m) != NatToString(n)
  {
    NatToStringRoundTrip(m);
    NatToStringRoundTrip(n);
  }

  // ---------------------------------------------------------------------
  // Text built piece by piece

  lemma {:induction false} ConcatAssoc(a: string, b: string, c: string)
    ensures a + (b + c) == a + b + c
  {
  }

  /** The texts `f(xs[0])`, `f(xs[1])`, ... one after another. */
  function ConcatMap<T>(f: T -> string, xs: seq<T>): string
    decreases |xs|
  {
    if xs == [] then [] else ConcatMap(f, xs[..|xs| - 1]) + f(xs[|xs| - 1])
  }

  /** The text of a concatenation is the concatenation of the texts. */
  lemma {:induction false} ConcatMapAppend<T>(f: T -> string, xs: seq<T>, ys: seq<T>)
    ensures ConcatMap(f, xs + ys) == ConcatMap(f, xs) + ConcatMap(f, ys)
    decreases |ys|
  {
    if ys == [] {
      assert xs + ys == xs;
    } else {
      var zs, init := xs + ys, ys[..|ys| - 1];
      assert zs[..|zs| - 1] == xs + init;
      assert zs[|zs| - 1] == ys[|ys| - 1];
      ConcatMapAppend(f, xs, init);
    }
  }

  /** Appending one element appends its text. */
  lemma {:induction false} ConcatMapPush<T>(f: T -> string, xs: seq<T>, x: T)
    ensures ConcatMap(f, xs + [x]) == ConcatMap(f, xs) + f(x)
  {
    assert (xs + [x])[..|xs|] == xs;
  }

  /** The text of a sequence splits around any one element. */
  lemma {:induction false} ConcatMapSplitAt<T>(f: T -> string, xs: seq<T>, k: nat)
    requires k < |xs|
    ensures ConcatMap(f, xs) == ConcatMap(f, xs[..k]) + f(xs[k]) + ConcatMap(f, xs[k + 1..])
  {
    assert xs[..k + 1] + xs[k + 1..] == xs;
    ConcatMapAppend(f, xs[..k + 1], xs[k + 1..]);
    assert xs[..k + 1][..k] == xs[..k];
  }
}
