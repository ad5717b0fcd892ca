/**
 * String helpers shared by the scripts: decimal digits, Python's integer
 * printing and padding, removal of a character, whitespace tokenising and
 * newline-terminated lines.
 */
module Text {

  // ---------------------------------------------------------------------
  // Digits and decimal numbers

  predicate IsDigit(c: char) { '0' <= c <= '9' }

  predicate AllDigits(s: string) { forall i :: 0 <= i < |s| ==> IsDigit(s[i]) }

  function DigitChar(d: nat): (c: char)
    requires d < 10
    ensures IsDigit(c) && c as int - '0' as int == d
  {
    ('0' as int + d) as char
  }

  function DigitValue(c: char): (d: nat)
    requires IsDigit(c)
    ensures d < 10 && DigitChar(d) == c
  {
    c as int - '0' as int
  }

  /** The value of a string of decimal digits, as Python's int() reads it. */
  function DigitsValue(s: string): nat
    requires AllDigits(s)
  {
    if s == [] then 0 else DigitsValue(s[..|s| - 1]) * 10 + DigitValue(s[|s| - 1])
  }

  /** Python's str(n) for a non-negative integer: no sign, no leading zero. */
  function Decimal(n: nat): (r: string)
    ensures |r| >= 1 && AllDigits(r)
    ensures DigitsValue(r) == n
    ensures (n < 10) == (|r| == 1)
    ensures r[0] == '0' ==> n == 0
    decreases n
  {
    if n < 10 then [DigitChar(n)]
    else
      var prefix := Decimal(n / 10);
      var r := prefix + [DigitChar(n % 10)];
      assert r[..|r| - 1] == prefix;
      r
  }

  lemma DecimalInjective(m: nat, n: nat)
    requires Decimal(m) == Decimal(n)
    ensures m == n
  {
  }

  function Pow10(k: nat): nat
  {
    if k == 0 then 1 else 10 * Pow10(k - 1)
  }

  /** A number below 10^k takes at most k digits. */
  lemma {:induction false} DecimalWidth(n: nat, k: nat)
    requires 1 <= k && n < Pow10(k)
    ensures |Decimal(n)| <= k
  {
    if n >= 10 {
      assert k != 1;
      assert n / 10 < Pow10(k - 1);
      DecimalWidth(n / 10, k - 1);
    }
  }

  // ---------------------------------------------------------------------
  // Padding

  function Repeat(c: char, n: nat): (r: string)
    ensures |r| == n && forall i :: 0 <= i < n ==> r[i] == c
  {
    seq(n, _ => c)
  }

  /** Pads s on the right with c up to width w; a longer s is kept whole. */
  function PadRight(s: string, w: nat, c: char): (r: string)
    ensures |r| == if |s| < w then w else |s|
    ensures r[..|s|] == s
    ensures forall i :: |s| <= i < |r| ==> r[i] == c
  {
    if |s| < w then s + Repeat(c, w - |s|) else s
  }

  lemma {:induction false} LeadingZeros(k: nat, s: string)
    requires AllDigits(s)
    ensures AllDigits(Repeat('0', k) + s)
    ensures DigitsValue(Repeat('0', k) + s) == DigitsValue(s)
    decreases |s|
  {
    var z := Repeat('0', k);
    if s == [] {
      assert z + s == z;
      ZerosValue(k);
    } else {
      var init := s[..|s| - 1];
      LeadingZeros(k, init);
      assert (z + s)[..|z + s| - 1] == z + init;
    }
  }

  lemma {:induction false} ZerosValue(k: nat)
    ensures DigitsValue(Repeat('0', k)) == 0
  {
    if k > 0 {
      assert Repeat('0', k)[..k - 1] == Repeat('0', k - 1);
      ZerosValue(k - 1);
    }
  }

  lemma {:induction false} DigitsValueBound(s: string)
    requires AllDigits(s)
    ensures DigitsValue(s) < Pow10(|s|)
  {
    if s != [] {
      DigitsValueBound(s[..|s| - 1]);
    }
  }

  /** Two digit strings of the same length and value are equal. */
  lemma {:induction false} SameDigits(a: string, b: string)
    requires AllDigits(a) && AllDigits(b) && |a| == |b|
    requires DigitsValue(a) == DigitsValue(b)
    ensures a == b
  {
    if a != [] {
      var n := |a|;
      assert DigitValue(a[n - 1]) == DigitsValue(a) % 10;
      assert DigitValue(b[n - 1]) == DigitsValue(b) % 10;
      SameDigits(a[..n - 1], b[..n - 1]);
      assert a == a[..n - 1] + [a[n - 1]];
      assert b == b[..n - 1] + [b[n - 1]];
    }
  }

  /** Python's "%0*d" (and the %Y, %m, %d fields of strftime): zero padded to width w. */
  function ZeroPad(n: nat, w: nat): (r: string)
    ensures AllDigits(r) && DigitsValue(r) == n
    ensures |r| == if |Decimal(n)| < w then w else |Decimal(n)|
  {
    var d := Decimal(n);
    if |d| < w then LeadingZeros(w - |d|, d); Repeat('0', w - |d|) + d else d
  }

  lemma ZeroPadWidth(n: nat, w: nat)
    requires 1 <= w && n < Pow10(w)
    ensures |ZeroPad(n, w)| == w
  {
    DecimalWidth(n, w);
  }

  /** A field of w digits is its own value printed with zero padding to width w. */
  lemma ZeroPadOfDigits(s: string)
    requires |s| >= 1 && AllDigits(s)
    ensures ZeroPad(DigitsValue(s), |s|) == s
  {
    DigitsValueBound(s);
    ZeroPadWidth(DigitsValue(s), |s|);
    SameDigits(ZeroPad(DigitsValue(s), |s|), s);
  }

  // ---------------------------------------------------------------------
  // Taking a prefix, removing a character

  /** Python's s[:n]. */
  function Take(s: string, n: nat): (r: string)
    ensures |r| == if |s| < n then |s| else n
    ensures r == s[..|r|]
  {
    if |s| < n then s else s[..n]
  }

  /** Python's s.replace(c, ""): every occurrence of c removed, the rest kept in order. */
  function RemoveAll(s: string, c: char): (r: string)
    ensures c !in r
    ensures |r| <= |s|
    ensures c !in s ==> r == s
    ensures forall x :: x in r ==> x in s
  {
    if s == [] then []
    else (if s[0] == c then [] else [s[0]]) + RemoveAll(s[1..], c)
  }

  lemma {:induction false} RemoveAllAppend(a: string, b: string, c: char)
    ensures RemoveAll(a + b, c) == RemoveAll(a, c) + RemoveAll(b, c)
  {
    if a != [] {
      assert (a + b)[1..] == a[1..] + b;
      RemoveAllAppend(a[1..], b, c);
    } else {
      assert a + b == b;
    }
  }

  lemma {:induction false} RemoveAllRepeat(n: nat, c: char)
    ensures RemoveAll(Repeat(c, n), c) == []
  {
    if n > 0 {
      assert Repeat(c, n)[1..] == Repeat(c, n - 1);
      RemoveAllRepeat(n - 1, c);
    }
  }

  /** Removing the padding character undoes right padding with it. */
  lemma {:induction false} PadRightRemove(s: string, w: nat, c: char)
    requires c !in s
    ensures RemoveAll(PadRight(s, w, c), c) == s
  {
    if |s| < w {
      assert PadRight(s, w, c) == s + Repeat(c, w - |s|);
      RemoveAllAppend(s, Repeat(c, w - |s|), c);
      RemoveAllRepeat(w - |s|, c);
    }
  }

  // ---------------------------------------------------------------------
  // Splitting into tokens

  /** Python's str.split() with no argument: the separator characters. */
  const PY_WHITESPACE: set<char> :=
    {' ', '\t', '\n', '\r', 11 as char, 12 as char, 28 as char, 29 as char, 30 as char, 31 as char}

  predicate NoneIn(s: string, blank: set<char>)
  {
    forall i :: 0 <= i < |s| ==> s[i] !in blank
  }

  lemma NoneInAppend(a: string, b: string, blank: set<char>)
    requires NoneIn(a, blank) && NoneIn(b, blank)
    ensures NoneIn(a + b, blank)
  {
    forall i | 0 <= i < |a + b| ensures (a + b)[i] !in blank {
      if i >= |a| { assert (a + b)[i] == b[i - |a|]; }
    }
  }

  lemma PadRightNoneIn(s: string, w: nat, c: char, blank: set<char>)
    requires NoneIn(s, blank) && c !in blank
    ensures NoneIn(PadRight(s, w, c), blank)
  {
    var r := PadRight(s, w, c);
    forall i | 0 <= i < |r| ensures r[i] !in blank {
      if i < |s| { assert r[i] == r[..|s|][i]; }
    }
  }

  /** A string starting with a character that is not a separator has a first token. */
  lemma TokensNonEmpty(s: string, blank: set<char>)
    requires s != [] && s[0] !in blank
    ensures Tokens(s, blank) != []
  {
  }

  /** Number of leading characters of s that are not in blank. */
  function RunLength(s: string, blank: set<char>): (n: nat)
    ensures n <= |s|
    ensures NoneIn(s[..n], blank)
    ensures n < |s| ==> s[n] in blank
  {
    if s == [] || s[0] in blank then 0 else 1 + RunLength(s[1..], blank)
  }

  /**
   * The maximal runs of characters not in blank, in order; runs of blank
   * characters, leading and trailing ones included, only separate.
   */
  function Tokens(s: string, blank: set<char>): (r: seq<string>)
    ensures forall k :: 0 <= k < |r| ==> r[k] != [] && NoneIn(r[k], blank)
    decreases |s|
  {
    if s == [] then []
    else if s[0] in blank then Tokens(s[1..], blank)
    else
      var n := RunLength(s, blank);
      [s[..n]] + Tokens(s[n..], blank)
  }

  lemma {:induction false} RunLengthPrefix(w: string, rest: string, blank: set<char>)
    requires NoneIn(w, blank)
    requires rest == [] || rest[0] in blank
    ensures RunLength(w + rest, blank) == |w|
  {
    if w != [] {
      assert (w + rest)[1..] == w[1..] + rest;
      RunLengthPrefix(w[1..], rest, blank);
    } else {
      assert w + rest == rest;
    }
  }

  /** A word followed by a separator (or by nothing) is the next token. */
  lemma TokensWord(w: string, rest: string, blank: set<char>)
    requires w != [] && NoneIn(w, blank)
    requires rest == [] || rest[0] in blank
    ensures Tokens(w + rest, blank) == [w] + Tokens(rest, blank)
  {
    RunLengthPrefix(w, rest, blank);
    var s := w + rest;
    assert s[0] == w[0];
    assert s[..|w|] == w;
    assert s[|w|..] == rest;
  }

  lemma TokensSkip(c: char, rest: string, blank: set<char>)
    requires c in blank
    ensures Tokens([c] + rest, blank) == Tokens(rest, blank)
  {
    assert ([c] + rest)[1..] == rest;
  }

  // ---------------------------------------------------------------------
  // Words joined by a space, lines terminated by a newline

  /** The words joined by single spaces (Python's " ".join). */
  function Unwords(ws: seq<string>): string
  {
    if ws == [] then "" else if |ws| == 1 then ws[0] else ws[0] + " " + Unwords(ws[1..])
  }

  /** Splitting words joined by a space gives back the words. */
  lemma {:induction false} TokensUnwords(ws: seq<string>, blank: set<char>)
    requires ' ' in blank
    requires forall k :: 0 <= k < |ws| ==> ws[k] != [] && NoneIn(ws[k], blank)
    ensures Tokens(Unwords(ws), blank) == ws
  {
    if |ws| == 1 {
      TokensWord(ws[0], "", blank);
      assert ws[0] + "" == ws[0];
    } else if |ws| > 1 {
      var tail := Unwords(ws[1..]);
      assert ws[0] + " " + tail == ws[0] + ([' '] + tail);
      TokensWord(ws[0], [' '] + tail, blank);
      TokensSkip(' ', tail, blank);
      TokensUnwords(ws[1..], blank);
      assert ws == [ws[0]] + ws[1..];
    }
  }

  /** The lines, each followed by a newline: what a sequence of f.write(line + "\n") leaves in a file. */
  function Unlines(ls: seq<string>): string
  {
    if ls == [] then "" else ls[0] + "\n" + Unlines(ls[1..])
  }

  lemma {:induction false} UnlinesAppend(a: seq<string>, b: seq<string>)
    ensures Unlines(a + b) == Unlines(a) + Unlines(b)
  {
    if a == [] {
      assert a + b == b;
    } else {
      assert (a + b)[0] == a[0];
      assert (a + b)[1..] == a[1..] + b;
      UnlinesAppend(a[1..], b);
    }
  }

  /** Appending one line to the text appends it to the sequence of lines. */
  lemma UnlinesSnoc(a: seq<string>, line: string)
    ensures Unlines(a + [line]) == Unlines(a) + line + "\n"
  {
    UnlinesAppend(a, [line]);
    assert Unlines([line]) == line + "\n" + Unlines([]);
  }

  /** Splitting at line breaks gives back the lines, when no line is empty or holds a break. */
  lemma {:induction false} TokensUnlines(ls: seq<string>, breaks: set<char>)
    requires '\n' in breaks
    requires forall k :: 0 <= k < |ls| ==> ls[k] != [] && NoneIn(ls[k], breaks)
    ensures Tokens(Unlines(ls), breaks) == ls
  {
    if ls != [] {
      var tail := Unlines(ls[1..]);
      assert ls[0] + "\n" + tail == ls[0] + (['\n'] + tail);
      TokensWord(ls[0], ['\n'] + tail, breaks);
      TokensSkip('\n', tail, breaks);
      TokensUnlines(ls[1..], breaks);
      assert ls == [ls[0]] + ls[1..];
    }
  }

  // ---------------------------------------------------------------------
  // Searching a sequence

  /** The first index of x in xs, or |xs| when x does not occur (Python's list.index without the exception). */
  function Find<T(==)>(xs: seq<T>, x: T): (i: nat)
    ensures i <= |xs|
    ensures i < |xs| ==> xs[i] == x
    ensures forall j :: 0 <= j < i ==> xs[j] != x
    ensures (i == |xs|) == (x !in xs)
  {
    if xs == [] then 0 else if xs[0] == x then 0 else 1 + Find(xs[1..], x)
  }

  /** An index holding x with no x before it is the one Find gives. */
  lemma FindAt<T>(xs: seq<T>, x: T, i: nat)
    requires i < |xs| && xs[i] == x
    requires forall j :: 0 <= j < i ==> xs[j] != x
    ensures Find(xs, x) == i
  {
  }
}
