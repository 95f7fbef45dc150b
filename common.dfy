/** Option and Result, used for Python's None and for raised exceptions. */
module Base {
  datatype Option<+T> = None | Some(value: T)

  datatype Result<+T, +E> = Ok(value: T) | Err(error: E)

  /** Regrouping a concatenation of three pieces. */
  lemma AppendAssoc<T>(a: seq<T>, b: seq<T>, c: seq<T>)
    ensures (a + b) + c == a + (b + c)
  {
  }
}

/**
 * The handful of Python `str` built-ins the server relies on, with
 * Python's semantics: `strip()`, `strip(chars)`, `split()`,
 * `split('\n')[0]`, slicing `s[:n]`, `endswith` and `str(int)`.
 */
module PyStr {

  /** Python's `str.isspace()` for one character. */
  predicate IsSpace(c: char) {
    c == ' ' || '\t' <= c <= '\r' || '\U{1C}' <= c <= '\U{1F}' || c == '\U{85}' || c == '\U{A0}'
    || c == '\U{1680}' || '\U{2000}' <= c <= '\U{200A}' || c == '\U{2028}' || c == '\U{2029}'
    || c == '\U{202F}' || c == '\U{205F}' || c == '\U{3000}'
  }

  predicate AllIn(s: string, cs: char -> bool) {
    forall i :: 0 <= i < |s| ==> cs(s[i])
  }

  predicate NoneIn(s: string, cs: char -> bool) {
    forall i :: 0 <= i < |s| ==> !cs(s[i])
  }

  /** `a` occurs in `s` as a contiguous piece. */
  predicate IsInfix(a: string, s: string) {
    exists i, j :: 0 <= i <= j <= |s| && s[i..j] == a
  }

  /** `s` is `base` with `x` inserted at one position. */
  predicate InsertedInto(x: string, base: string, s: string) {
    exists k :: 0 <= k <= |base| && s == base[..k] + x + base[k..]
  }

  lemma {:induction false} InfixAt(a: string, p: string, q: string)
    ensures IsInfix(a, p + a + q)
  {
    var s := p + a + q;
    assert s[|p|..|p| + |a|] == a;
  }

  lemma {:induction false} InfixSelf(a: string)
    ensures IsInfix(a, a)
  {
    assert a[0..|a|] == a;
  }

  lemma {:induction false} PrefixIsInfix(s: string, n: nat)
    requires n <= |s|
    ensures IsInfix(s[..n], s)
  {
    assert s[0..n] == s[..n];
  }

  /** A character absent from `s` is absent from every infix of it. */
  lemma {:induction false} InfixLacks(a: string, s: string, c: char)
    requires IsInfix(a, s) && c !in s
    ensures c !in a
  {
    var i, j :| 0 <= i <= j <= |s| && s[i..j] == a;
    forall t | 0 <= t < |a| ensures a[t] != c {
      assert a[t] == s[i + t];
    }
  }

  /** An infix of `s` is an infix of anything `s` is extended to on the left. */
  lemma {:induction false} InfixExtendLeft(a: string, p: string, s: string)
    requires IsInfix(a, s)
    ensures IsInfix(a, p + s)
  {
    var i, j :| 0 <= i <= j <= |s| && s[i..j] == a;
    assert (p + s)[|p| + i..|p| + j] == a;
  }

  /** An infix of `s` is an infix of anything `s` is extended to on the right. */
  lemma {:induction false} InfixExtendRight(a: string, s: string, q: string)
    requires IsInfix(a, s)
    ensures IsInfix(a, s + q)
  {
    var i, j :| 0 <= i <= j <= |s| && s[i..j] == a;
    assert (s + q)[i..j] == a;
  }

  lemma {:induction false} InsertedAt(x: string, p: string, q: string)
    ensures InsertedInto(x, p + q, p + x + q)
  {
    var base := p + q;
    assert base[..|p|] == p && base[|p|..] == q;
  }

  lemma {:induction false} InsertedBetween(x: string, p: string, a: string, r: string)
    ensures InsertedInto(x, p + (a + r), p + (a + x + r))
  {
    InsertedAt(x, p + a, r);
    assert p + (a + r) == p + a + r;
    assert p + (a + x + r) == p + a + x + r;
  }

  lemma {:induction false} InsertedDeep(x: string, p: string, a: string, b: string, r: string)
    ensures InsertedInto(x, p + (a + (b + r)), p + (a + (b + (x + r))))
  {
    InsertedAt(x, p + a + b, r);
    assert p + (a + (b + r)) == p + a + b + r;
    assert p + (a + (b + (x + r))) == p + a + b + x + r;
  }

  /** Python's `s.lstrip(chars)`. */
  function TrimStart(s: string, cs: char -> bool): (r: string)
    ensures |r| <= |s| && r == s[|s| - |r|..]
    decreases |s|
  {
    if s != [] && cs(s[0]) then TrimStart(s[1..], cs) else s
  }

  /** `lstrip` removes only characters of the class, and stops at the first other one. */
  lemma {:induction false} TrimStartFacts(s: string, cs: char -> bool)
    ensures var r := TrimStart(s, cs);
      (r == [] || !cs(r[0])) && forall k :: 0 <= k < |s| - |r| ==> cs(s[k])
    decreases |s|
  {
    if s != [] && cs(s[0]) {
      TrimStartFacts(s[1..], cs);
      var r := TrimStart(s, cs);
      forall k | 0 <= k < |s| - |r| ensures cs(s[k]) {
        if k > 0 {
          assert s[k] == s[1..][k - 1];
        }
      }
    }
  }

  /** Python's `s.rstrip(chars)`. */
  function TrimEnd(s: string, cs: char -> bool): (r: string)
    ensures |r| <= |s| && r == s[..|r|]
    decreases |s|
  {
    if s != [] && cs(s[|s| - 1]) then TrimEnd(s[..|s| - 1], cs) else s
  }

  /** `rstrip` removes only characters of the class, and stops at the last other one. */
  lemma {:induction false} TrimEndFacts(s: string, cs: char -> bool)
    ensures var r := TrimEnd(s, cs);
      (r == [] || !cs(r[|r| - 1])) && forall k :: |r| <= k < |s| ==> cs(s[k])
    decreases |s|
  {
    if s != [] && cs(s[|s| - 1]) {
      var u := s[..|s| - 1];
      TrimEndFacts(u, cs);
      var r := TrimEnd(s, cs);
      forall k | |r| <= k < |s| ensures cs(s[k]) {
        if k < |s| - 1 {
          assert s[k] == u[k];
        }
      }
    }
  }

  /** Neither end of `s` is in the class `cs`. */
  predicate BareEnds(s: string, cs: char -> bool) {
    s == [] || (!cs(s[0]) && !cs(s[|s| - 1]))
  }

  /** Python's `s.strip(chars)`; `s.strip()` is `Strip(s, IsSpace)`. */
  function Strip(s: string, cs: char -> bool): string {
    TrimEnd(TrimStart(s, cs), cs)
  }

  /**
   * `strip` keeps a contiguous piece of the string whose ends are outside
   * the class, and keeps nothing iff every character is in the class.
   */
  lemma {:induction false} StripShape(s: string, cs: char -> bool)
    ensures IsInfix(Strip(s, cs), s)
    ensures BareEnds(Strip(s, cs), cs)
    ensures Strip(s, cs) == [] <==> AllIn(s, cs)
  {
    StripIsInfix(s, cs);
    StripBare(s, cs);
    StripEmpty(s, cs);
  }

  lemma StripIsInfix(s: string, cs: char -> bool)
    ensures IsInfix(Strip(s, cs), s)
  {
    var t := TrimStart(s, cs);
    var r := TrimEnd(t, cs);
    var i := |s| - |t|;
    assert t == s[i..] && r == t[..|r|];
    assert s[i..i + |r|] == t[..|r|];
    assert 0 <= i <= i + |r| <= |s| && s[i..i + |r|] == r;
  }

  lemma StripBare(s: string, cs: char -> bool)
    ensures BareEnds(Strip(s, cs), cs)
  {
    var t := TrimStart(s, cs);
    var r := TrimEnd(t, cs);
    TrimStartFacts(s, cs);
    TrimEndFacts(t, cs);
    if r != [] {
      assert r[0] == t[0];
    }
  }

  lemma StripEmpty(s: string, cs: char -> bool)
    ensures Strip(s, cs) == [] <==> AllIn(s, cs)
  {
    var t := TrimStart(s, cs);
    var r := TrimEnd(t, cs);
    TrimStartFacts(s, cs);
    TrimEndFacts(t, cs);
    var i := |s| - |t|;
    if r == [] {
      assert t == [];
    } else {
      assert s[i] == t[0] == r[0];
    }
  }

  lemma {:induction false} TrimStartAfterPad(w: string, s: string, cs: char -> bool)
    requires AllIn(w, cs)
    requires s == [] || !cs(s[0])
    ensures TrimStart(w + s, cs) == s
    decreases |w|
  {
    if w != [] {
      assert (w + s)[1..] == w[1..] + s;
      TrimStartAfterPad(w[1..], s, cs);
    }
  }

  lemma {:induction false} TrimEndBeforePad(s: string, w: string, cs: char -> bool)
    requires AllIn(w, cs)
    requires s == [] || !cs(s[|s| - 1])
    ensures TrimEnd(s + w, cs) == s
    decreases |w|
  {
    if w == [] {
      assert s + w == s;
    } else {
      var u := w[..|w| - 1];
      assert (s + w)[..|s + w| - 1] == s + u;
      assert cs(w[|w| - 1]);
      assert AllIn(u, cs) by {
        forall k | 0 <= k < |u| ensures cs(u[k]) { assert u[k] == w[k]; }
      }
      TrimEndBeforePad(s, u, cs);
    }
  }

  /** Trimming the end never reaches into a front part that ends in a kept character. */
  lemma {:induction false} TrimEndKeepsFront(front: string, rest: string, cs: char -> bool)
    requires front != [] && !cs(front[|front| - 1])
    ensures var r := TrimEnd(front + rest, cs);
      |front| <= |r| && r == front + rest[..|r| - |front|]
  {
    var t := front + rest;
    var r := TrimEnd(t, cs);
    TrimEndFacts(t, cs);
    assert t[|front| - 1] == front[|front| - 1];
    assert |front| <= |r|;
    assert r == t[..|r|];
    assert t[..|r|] == front + rest[..|r| - |front|];
  }

  /** Stripping a string padded on both sides by stripped characters gives back the core. */
  lemma {:induction false} StripPadded(w1: string, s: string, w2: string, cs: char -> bool)
    requires AllIn(w1, cs) && AllIn(w2, cs)
    requires s == [] || (!cs(s[0]) && !cs(s[|s| - 1]))
    ensures Strip(w1 + s + w2, cs) == s
  {
    if s == [] {
      assert AllIn(w1 + s + w2, cs);
      StripShape(w1 + s + w2, cs);
    } else {
      assert w1 + s + w2 == w1 + (s + w2);
      TrimStartAfterPad(w1, s + w2, cs);
      TrimEndBeforePad(s, w2, cs);
    }
  }

  lemma {:induction false} StripTrailing(s: string, w: string, cs: char -> bool)
    requires AllIn(w, cs)
    requires s == [] || (!cs(s[0]) && !cs(s[|s| - 1]))
    ensures Strip(s + w, cs) == s
  {
    assert AllIn([], cs);
    StripPadded([], s, w, cs);
    assert [] + s + w == s + w;
  }

  /** A string that is `core` followed only by stripped characters strips to `core`. */
  lemma {:induction false} StripBlankTail(s: string, core: string, cs: char -> bool)
    requires |core| <= |s| && s[..|core|] == core
    requires AllIn(s[|core|..], cs)
    requires BareEnds(core, cs)
    ensures Strip(s, cs) == core
  {
    assert s == core + s[|core|..];
    StripTrailing(core, s[|core|..], cs);
  }

  /** Python's `s.split('\n')[0]`: everything before the first line feed. */
  function FirstLine(s: string): string {
    if s == [] then []
    else if s[0] == '\n' then []
    else [s[0]] + FirstLine(s[1..])
  }

  /** The first line is a prefix without a line break, ended by one or by the end of `s`. */
  lemma {:induction false} FirstLineFacts(s: string)
    ensures var r := FirstLine(s);
      |r| <= |s| && r == s[..|r|] && '\n' !in r && (|r| < |s| ==> s[|r|] == '\n')
  {
    if s != [] && s[0] != '\n' {
      FirstLineFacts(s[1..]);
    }
  }

  lemma {:induction false} FirstLineOf(p: string, s: string)
    requires '\n' !in p
    requires s == [] || s[0] == '\n'
    ensures FirstLine(p + s) == p
  {
    if p != [] {
      assert (p + s)[1..] == p[1..] + s;
      FirstLineOf(p[1..], s);
    }
  }

  lemma {:induction false} FirstLineAfter(p: string, s: string)
    requires '\n' !in p
    ensures FirstLine(p + s) == p + FirstLine(s)
  {
    if p != [] {
      var ps := p + s;
      assert ps[0] == p[0] && p[0] != '\n';
      assert ps[1..] == p[1..] + s;
      assert FirstLine(ps) == [p[0]] + FirstLine(ps[1..]);
      assert '\n' !in p[1..] by {
        forall t | 0 <= t < |p[1..]| ensures p[1..][t] != '\n' { assert p[1..][t] == p[t + 1]; }
      }
      FirstLineAfter(p[1..], s);
      assert [p[0]] + (p[1..] + FirstLine(s)) == p + FirstLine(s);
    } else {
      assert p + s == s && p + FirstLine(s) == FirstLine(s);
    }
  }

  /** The longest prefix of `s` holding no whitespace. */
  function Token(s: string): (r: string)
    ensures |r| <= |s| && r == s[..|r|]
    ensures NoneIn(r, IsSpace)
    ensures |r| < |s| ==> IsSpace(s[|r|])
  {
    if s == [] || IsSpace(s[0]) then [] else [s[0]] + Token(s[1..])
  }

  /** A word of `split()`: non-empty and free of whitespace. */
  predicate IsWord(w: string) {
    w != [] && NoneIn(w, IsSpace)
  }

  /** Python's `s.split()`: the maximal runs of non-whitespace characters. */
  function Words(s: string): seq<string>
    decreases |s|
  {
    var t := TrimStart(s, IsSpace);
    if t == [] then []
    else
      var w := Token(t);
      assert w != [] by { TrimStartFacts(s, IsSpace); }
      [w] + Words(t[|w|..])
  }

  /** Every piece `split()` returns is a word. */
  lemma {:induction false} WordsAreWords(s: string)
    ensures forall i :: 0 <= i < |Words(s)| ==> IsWord(Words(s)[i])
    decreases |s|
  {
    var t := TrimStart(s, IsSpace);
    if t != [] {
      TrimStartFacts(s, IsSpace);
      var w := Token(t);
      var rest := t[|w|..];
      WordsAreWords(rest);
      assert Words(s) == [w] + Words(rest);
    }
  }

  /** `Join(sep, xs)` is Python's `sep.join(xs)`. */
  function Join(sep: string, xs: seq<string>): string {
    if xs == [] then "" else if |xs| == 1 then xs[0] else xs[0] + sep + Join(sep, xs[1..])
  }

  /** A word with no whitespace in it is a single token. */
  lemma {:induction false} TokenOf(w: string, s: string)
    requires NoneIn(w, IsSpace)
    requires s == [] || IsSpace(s[0])
    ensures Token(w + s) == w
  {
    if w != [] {
      assert (w + s)[1..] == w[1..] + s;
      TokenOf(w[1..], s);
    }
  }

  /** Splitting skips leading whitespace. */
  lemma {:induction false} WordsAfterSpace(x: string)
    ensures Words(" " + x) == Words(x)
  {
    assert (" " + x)[1..] == x;
  }

  /** A whitespace-free word followed by whitespace or nothing is the first word. */
  lemma {:induction false} WordsCons(w: string, rest: string)
    requires IsWord(w)
    requires rest == [] || IsSpace(rest[0])
    ensures Words(w + rest) == [w] + Words(rest)
  {
    var s := w + rest;
    assert TrimStart(s, IsSpace) == s by {
      assert s[0] == w[0];
    }
    TokenOf(w, rest);
    assert s[|w|..] == rest;
  }

  lemma {:induction false} WordsOfShortJoin(ws: seq<string>)
    requires |ws| <= 1
    requires forall i :: 0 <= i < |ws| ==> IsWord(ws[i])
    ensures Words(Join(" ", ws)) == ws
  {
    if ws != [] {
      var w := ws[0];
      assert Join(" ", ws) == w + "";
      WordsCons(w, "");
      assert Words("") == [];
      assert ws == [w];
    }
  }

  /** Splitting a joined list of two or more words peels off the first word. */
  lemma {:induction false} WordsOfJoinStep(ws: seq<string>)
    requires |ws| >= 2 && IsWord(ws[0])
    ensures Words(Join(" ", ws)) == [ws[0]] + Words(Join(" ", ws[1..]))
  {
    var joined := Join(" ", ws[1..]);
    assert Join(" ", ws) == ws[0] + (" " + joined);
    assert (" " + joined)[0] == ' ';
    WordsCons(ws[0], " " + joined);
    WordsAfterSpace(joined);
  }

  /**
   * Joining whitespace-free words with single blanks and splitting
   * the result again gives back the words.
   */
  lemma {:induction false} WordsOfJoin(ws: seq<string>)
    requires forall i :: 0 <= i < |ws| ==> IsWord(ws[i])
    ensures Words(Join(" ", ws)) == ws
  {
    if |ws| <= 1 {
      WordsOfShortJoin(ws);
    } else {
      WordsOfJoinStep(ws);
      TailWords(ws);
      WordsOfJoin(ws[1..]);
      HeadTail(ws);
    }
  }

  lemma TailWords(ws: seq<string>)
    requires ws != [] && forall i :: 0 <= i < |ws| ==> IsWord(ws[i])
    ensures forall i :: 0 <= i < |ws[1..]| ==> IsWord(ws[1..][i])
  {
    forall i | 0 <= i < |ws[1..]| ensures IsWord(ws[1..][i]) {
      assert ws[1..][i] == ws[i + 1];
    }
  }

  lemma HeadTail<T>(ws: seq<T>)
    requires ws != []
    ensures ws == [ws[0]] + ws[1..]
  {
  }

  lemma {:induction false} InfixTrans(a: string, b: string, c: string)
    requires IsInfix(a, b) && IsInfix(b, c)
    ensures IsInfix(a, c)
  {
    var i, j :| 0 <= i <= j <= |b| && b[i..j] == a;
    var k, l :| 0 <= k <= l <= |c| && c[k..l] == b;
    assert c[k + i..k + j] == a by {
      forall t | 0 <= t < j - i
        ensures c[k + i..k + j][t] == a[t]
      {
        assert a[t] == b[i + t] == c[k + i + t];
      }
    }
  }

  /** Every item of a joined list occurs in the joined string. */
  lemma {:induction false} JoinHasItem(sep: string, xs: seq<string>, n: nat)
    requires n < |xs|
    ensures IsInfix(xs[n], Join(sep, xs))
  {
    if |xs| == 1 {
      InfixAt(xs[0], "", "");
      assert "" + xs[0] + "" == xs[0];
    } else if n == 0 {
      InfixAt(xs[0], "", sep + Join(sep, xs[1..]));
      assert "" + xs[0] + (sep + Join(sep, xs[1..])) == Join(sep, xs);
    } else {
      JoinHasItem(sep, xs[1..], n - 1);
      InfixAt(Join(sep, xs[1..]), xs[0] + sep, "");
      assert xs[0] + sep + Join(sep, xs[1..]) + "" == Join(sep, xs);
      InfixTrans(xs[n], Join(sep, xs[1..]), Join(sep, xs));
    }
  }

  /** Python's `s[:n]`. */
  function Take(s: string, n: nat): (r: string)
    ensures |r| == if |s| < n then |s| else n
    ensures r == s[..|r|]
  {
    if |s| <= n then s else s[..n]
  }

  /** Python's `s.startswith(prefix)`. */
  predicate StartsWith(s: string, prefix: string) {
    |prefix| <= |s| && s[..|prefix|] == prefix
  }

  lemma StartsWithAppend(p: string, q: string)
    ensures StartsWith(p + q, p)
  {
    assert (p + q)[..|p|] == p;
  }

  /** Python's `s.endswith(suffix)`. */
  predicate EndsWith(s: string, suffix: string) {
    |suffix| <= |s| && s[|s| - |suffix|..] == suffix
  }

  function DigitChar(d: nat): char
    requires d < 10
  {
    "0123456789"[d]
  }

  function DigitValue(c: char): nat {
    if '0' <= c <= '9' then (c as int - '0' as int) as nat else 0
  }

  /** Python's `str(n)` for a non-negative integer. */
  function NatToDecimal(n: nat): (r: string)
    ensures r != [] && forall i :: 0 <= i < |r| ==> '0' <= r[i] <= '9'
  {
    if n < 10 then [DigitChar(n)] else NatToDecimal(n / 10) + [DigitChar(n % 10)]
  }

  /** Python's `str(i)` for any integer. */
  function IntToDecimal(i: int): string {
    if i < 0 then "-" + NatToDecimal(-i) else NatToDecimal(i)
  }

  /** The value of a string of decimal digits, as `int(s)` reads it. */
  function DecimalValue(s: string): nat {
    if s == [] then 0 else 10 * DecimalValue(s[..|s| - 1]) + DigitValue(s[|s| - 1])
  }

  /** `int(str(n)) == n`: the rendering loses nothing. */
  lemma {:induction false} DecimalRoundTrip(n: nat)
    ensures DecimalValue(NatToDecimal(n)) == n
  {
    if n >= 10 {
      var r := NatToDecimal(n);
      assert r[..|r| - 1] == NatToDecimal(n / 10);
      DecimalRoundTrip(n / 10);
    }
  }

  lemma {:induction false} DecimalInjective(m: nat, n: nat)
    requires NatToDecimal(m) == NatToDecimal(n)
    ensures m == n
  {
    DecimalRoundTrip(m);
    DecimalRoundTrip(n);
  }

  /** `str(i)` opens with a minus sign exactly for a negative integer. */
  lemma DecimalSign(i: int)
    ensures IntToDecimal(i) != [] && (IntToDecimal(i)[0] == '-' <==> i < 0)
  {
    if i >= 0 {
      assert '0' <= NatToDecimal(i)[0] <= '9';
    }
  }

  /** `str(i)` tells every integer apart, the sign included. */
  lemma IntToDecimalInjective(i: int, j: int)
    requires IntToDecimal(i) == IntToDecimal(j)
    ensures i == j
  {
    var r := IntToDecimal(i);
    DecimalSign(i);
    DecimalSign(j);
    if i < 0 && j < 0 {
      assert NatToDecimal(-i) == r[1..] == NatToDecimal(-j);
      DecimalInjective(-i, -j);
    } else if i >= 0 && j >= 0 {
      DecimalInjective(i, j);
    } else {
      // a sign against a digit
      assert false;
    }
  }
}
