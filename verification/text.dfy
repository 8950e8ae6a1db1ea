/** The handful of Python string operations the core relies on, over
    `string = seq<char>`: `str.strip()`, `str.lower()`, the `in` substring
    test, `str.join`, `str(int)` and slicing to a prefix. */
module Text {

  /** The characters for which Python's `str.isspace()` holds; a `\s` in a
      `str` regular expression matches the same set. */
  predicate IsSpace(c: char) {
    || c == ' '
    || ('\t' <= c <= '\r')
    || ('\U{1C}' <= c <= '\U{1F}')
    || c == '\U{85}' || c == '\U{A0}' || c == '\U{1680}'
    || ('\U{2000}' <= c <= '\U{200A}')
    || c == '\U{2028}' || c == '\U{2029}' || c == '\U{202F}'
    || c == '\U{205F}' || c == '\U{3000}'
  }

  predicate AllSpace(s: string) {
    forall i :: 0 <= i < |s| ==> IsSpace(s[i])
  }

  /** The number of leading whitespace characters of `s`. */
  function LeadingSpaces(s: string): (n: nat)
    ensures n <= |s| && AllSpace(s[..n])
    ensures n < |s| ==> !IsSpace(s[n])
  {
    if s == [] || !IsSpace(s[0]) then 0
    else
      var n := LeadingSpaces(s[1..]);
      assert s[..n + 1] == [s[0]] + s[1..][..n];
      n + 1
  }

  /** The index where the trailing whitespace of `s` begins. */
  function TrailingStart(s: string): (m: nat)
    ensures m <= |s| && AllSpace(s[m..])
    ensures 0 < m ==> !IsSpace(s[m - 1])
  {
    if s == [] || !IsSpace(s[|s| - 1]) then |s|
    else
      var m := TrailingStart(s[..|s| - 1]);
      assert s[m..] == s[..|s| - 1][m..] + [s[|s| - 1]];
      m
  }

  /** `r` is the piece of `s` starting at `a`, and everything around it is
      whitespace. */
  predicate StrippedAt(s: string, r: string, a: int) {
    && 0 <= a <= |s| - |r|
    && r == s[a..a + |r|]
    && AllSpace(s[..a])
    && AllSpace(s[a + |r|..])
  }

  /** Python's `str.strip()` with no argument: the longest infix of `s` that
      neither starts nor ends with whitespace, or "" when `s` is all
      whitespace. */
  function Strip(s: string): (r: string)
    ensures r == [] || (!IsSpace(r[0]) && !IsSpace(r[|r| - 1]))
    ensures exists a :: StrippedAt(s, r, a)
    ensures r == [] <==> AllSpace(s)
  {
    var n := LeadingSpaces(s);
    var m := TrailingStart(s[n..]);
    StripFacts(s, n, m);
    s[n..n + m]
  }

  lemma StripFacts(s: string, n: nat, m: nat)
    requires n == LeadingSpaces(s) && m == TrailingStart(s[n..])
    ensures StrippedAt(s, s[n..n + m], n)
    ensures m == 0 <==> AllSpace(s)
  {
    StripAround(s, n, m);
    if m == 0 {
      AllSpaceConcat(s[..n], s[n..]);
      assert s == s[..n] + s[n..];
    } else {
      StripLastKept(s, n, m);
    }
  }

  lemma StripAround(s: string, n: nat, m: nat)
    requires n == LeadingSpaces(s) && m == TrailingStart(s[n..])
    ensures StrippedAt(s, s[n..n + m], n)
  {
    assert s[n..][m..] == s[n + m..];
  }

  lemma StripLastKept(s: string, n: nat, m: nat)
    requires n == LeadingSpaces(s) && m == TrailingStart(s[n..]) && m > 0
    ensures !IsSpace(s[n + m - 1])
  {
    assert s[n..][m - 1] == s[n + m - 1];
  }

  lemma AllSpaceConcat(x: string, y: string)
    requires AllSpace(x) && AllSpace(y)
    ensures AllSpace(x + y)
  {
    forall i | 0 <= i < |x + y| ensures IsSpace((x + y)[i]) {
      if i < |x| { assert (x + y)[i] == x[i]; } else { assert (x + y)[i] == y[i - |x|]; }
    }
  }

  /** Stripping whitespace padding around a word that neither starts nor
      ends with whitespace gives back the word. */
  lemma StripOfPadded(pre: string, w: string, post: string)
    requires AllSpace(pre) && AllSpace(post)
    requires |w| > 0 && !IsSpace(w[0]) && !IsSpace(w[|w| - 1])
    ensures Strip(pre + w + post) == w
  {
    var s := pre + w + post;
    assert s == pre + (w + post);
    LeadingOfPadded(pre, w + post);
    assert s[|pre|..] == w + post;
    TrailingOfPadded(w, post);
    assert s[|pre|..|pre| + |w|] == w;
  }

  lemma {:induction false} LeadingOfPadded(pre: string, t: string)
    requires AllSpace(pre) && t != [] && !IsSpace(t[0])
    ensures LeadingSpaces(pre + t) == |pre|
    decreases |pre|
  {
    var s := pre + t;
    if pre == [] {
      assert s == t;
    } else {
      assert s[0] == pre[0] && IsSpace(s[0]);
      assert s[1..] == pre[1..] + t;
      assert AllSpace(pre[1..]) by {
        forall i | 0 <= i < |pre[1..]| ensures IsSpace(pre[1..][i]) {
          assert pre[1..][i] == pre[i + 1];
        }
      }
      LeadingOfPadded(pre[1..], t);
      assert LeadingSpaces(s) == LeadingSpaces(s[1..]) + 1;
    }
  }

  lemma {:induction false} TrailingOfPadded(t: string, post: string)
    requires AllSpace(post) && t != [] && !IsSpace(t[|t| - 1])
    ensures TrailingStart(t + post) == |t|
    decreases |post|
  {
    if post == [] {
      assert t + post == t;
    } else {
      var s := t + post;
      assert s[..|s| - 1] == t + post[..|post| - 1];
      assert s[|s| - 1] == post[|post| - 1];
      TrailingOfPadded(t, post[..|post| - 1]);
    }
  }

  /** Python's `if text and text.strip()` is false exactly for these. */
  predicate IsBlank(s: string) {
    Strip(s) == []
  }

  /** Python's `str.lower()` on the ASCII letters; other characters are kept. */
  function LowerChar(c: char): char {
    if 'A' <= c <= 'Z' then (c as int + 32) as char else c
  }

  function Lower(s: string): (r: string)
    ensures |r| == |s|
    ensures forall i :: 0 <= i < |s| ==> r[i] == LowerChar(s[i])
  {
    seq(|s|, i requires 0 <= i < |s| => LowerChar(s[i]))
  }

  /** Text already in lower case is left alone. */
  lemma LowerOfLowercase(s: string)
    requires forall i :: 0 <= i < |s| ==> 'a' <= s[i] <= 'z'
    ensures Lower(s) == s
  {
  }

  /** `sub` occurs in `s` starting at index `i`. */
  predicate IsInfixAt(s: string, sub: string, i: int) {
    0 <= i && i + |sub| <= |s| && s[i..i + |sub|] == sub
  }

  /** Python's `sub in s` for two strings. */
  predicate Contains(s: string, sub: string) {
    exists i | 0 <= i <= |s| - |sub| :: IsInfixAt(s, sub, i)
  }

  lemma InfixOfConcat(a: string, b: string, c: string)
    ensures IsInfixAt(a + b + c, b, |a|)
    ensures Contains(a + b + c, b)
  {
    assert (a + b + c)[|a|..|a| + |b|] == b;
    assert IsInfixAt(a + b + c, b, |a|);
  }

  /** The concatenation of `pieces`, as an f-string lays out its parts. */
  function Concat(pieces: seq<string>): string
  {
    if pieces == [] then "" else pieces[0] + Concat(pieces[1..])
  }

  lemma {:induction false} ConcatAppend(a: seq<string>, b: seq<string>)
    ensures Concat(a + b) == Concat(a) + Concat(b)
    decreases |a|
  {
    if a == [] {
      assert a + b == b;
    } else {
      assert (a + b)[1..] == a[1..] + b;
      ConcatAppend(a[1..], b);
    }
  }

  /** Every piece of a concatenation occurs in it. */
  lemma PieceInConcat(pieces: seq<string>, k: int)
    requires 0 <= k < |pieces|
    ensures Contains(Concat(pieces), pieces[k])
  {
    var before, rest := pieces[..k], pieces[k..];
    assert pieces == before + rest;
    ConcatAppend(before, rest);
    ConcatFirst(rest);
    assert rest[0] == pieces[k];
    assert Concat(pieces) == Concat(before) + rest[0] + Concat(rest[1..]);
    InfixOfConcat(Concat(before), rest[0], Concat(rest[1..]));
  }

  /** The three variable parts of a nine-piece prompt (the third, fifth and
      seventh pieces) occur in it. */
  lemma PiecesInConcat9(a: string, b: string, c: string, d: string, e: string, f: string, g: string,
                        h: string, i: string)
    ensures var p := Concat([a, b, c, d, e, f, g, h, i]);
      Contains(p, c) && Contains(p, e) && Contains(p, g)
  {
    var pieces := [a, b, c, d, e, f, g, h, i];
    PieceInConcat(pieces, 2);
    PieceInConcat(pieces, 4);
    PieceInConcat(pieces, 6);
  }

  /** The four variable parts of an eleven-piece prompt (the third, fifth,
      seventh and ninth pieces) occur in it. */
  lemma PiecesInConcat11(a: string, b: string, c: string, d: string, e: string, f: string, g: string,
                         h: string, i: string, j: string, k: string)
    ensures var p := Concat([a, b, c, d, e, f, g, h, i, j, k]);
      Contains(p, c) && Contains(p, e) && Contains(p, g) && Contains(p, i)
  {
    var pieces := [a, b, c, d, e, f, g, h, i, j, k];
    PieceInConcat(pieces, 2);
    PieceInConcat(pieces, 4);
    PieceInConcat(pieces, 6);
    PieceInConcat(pieces, 8);
  }

  /** For strings of one length, containment is equality. */
  lemma ContainsSameLength(s: string, sub: string)
    requires |s| == |sub|
    ensures Contains(s, sub) <==> s == sub
  {
    if s == sub { assert IsInfixAt(s, sub, 0); }
  }

  lemma ConcatFirst(pieces: seq<string>)
    requires pieces != []
    ensures Concat(pieces) == pieces[0] + Concat(pieces[1..])
  {
  }

  /** Python's `sep.join(parts)`. */
  function Join(parts: seq<string>, sep: string): string
    decreases |parts|
  {
    if |parts| == 0 then ""
    else if |parts| == 1 then parts[0]
    else parts[0] + sep + Join(parts[1..], sep)
  }

  /** Appending a part to a non-empty join adds one separator and the part. */
  lemma {:induction false} JoinSnoc(parts: seq<string>, x: string, sep: string)
    requires |parts| > 0
    ensures Join(parts + [x], sep) == Join(parts, sep) + sep + x
    decreases |parts|
  {
    if |parts| == 1 {
      assert parts + [x] == [parts[0], x];
      assert (parts + [x])[1..] == [x];
    } else {
      assert (parts + [x])[1..] == parts[1..] + [x];
      JoinSnoc(parts[1..], x, sep);
    }
  }

  /** A join of parts whose first part is non-empty starts with that part's
      first character. */
  lemma JoinHead(parts: seq<string>, sep: string)
    requires |parts| > 0 && |parts[0]| > 0
    ensures |Join(parts, sep)| > 0 && Join(parts, sep)[0] == parts[0][0]
  {
  }

  predicate IsDigit(c: char) {
    '0' <= c <= '9'
  }

  function DigitChar(d: int): char
    requires 0 <= d < 10
  {
    ('0' as int + d) as char
  }

  /** Python's `str(n)` for a natural number (as in an f-string). */
  function NatToString(n: nat): (r: string)
    ensures |r| >= 1
    ensures forall i :: 0 <= i < |r| ==> IsDigit(r[i])
    decreases n
  {
    if n < 10 then [DigitChar(n)] else NatToString(n / 10) + [DigitChar(n % 10)]
  }

  /** The value of a string of decimal digits, most significant first. */
  function DigitsValue(s: string): int
  {
    if s == [] then 0 else DigitsValue(s[..|s| - 1]) * 10 + (s[|s| - 1] as int - '0' as int)
  }

  /** Reading back the decimal rendering gives the number again. */
  lemma {:induction false} NatToStringRoundTrip(n: nat)
    ensures DigitsValue(NatToString(n)) == n
    decreases n
  {
    if n >= 10 {
      var s := NatToString(n);
      assert s[..|s| - 1] == NatToString(n / 10);
      NatToStringRoundTrip(n / 10);
    }
  }

  /** Python's `s[:n]`, for strings and lists alike. */
  function Prefix<T>(s: seq<T>, n: nat): (r: seq<T>)
    ensures |r| == if |s| <= n then |s| else n
    ensures r == s[..|r|]
  {
    if |s| <= n then s else s[..n]
  }
}
