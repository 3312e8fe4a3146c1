/** String helpers standing in for the Python `str` methods the core uses:
    `upper()`, `split(sep)` and `'%d' %` formatting. Strings are sequences of
    characters; only ASCII letters have a case mapping here. */
module Text {
  import opened Wrappers

  /** `c.upper()` restricted to ASCII: 'a'..'z' map to 'A'..'Z', every other
      character is unchanged. */
  function UpperChar(c: char): (u: char)
    ensures 'a' <= c <= 'z' ==> u as int == c as int - 32
    ensures !('a' <= c <= 'z') ==> u == c
    ensures !('a' <= u <= 'z')
  {
    if 'a' <= c <= 'z' then (c as int - 32) as char else c
  }

  /** `s.upper()`, character by character. */
  function Upper(s: string): string {
    seq(|s|, i requires 0 <= i < |s| => UpperChar(s[i]))
  }

  /** Upper-casing twice is upper-casing once. */
  lemma UpperIdempotent(s: string)
    ensures Upper(Upper(s)) == Upper(s)
  {
    var u := Upper(s);
    assert forall i :: 0 <= i < |u| ==> UpperChar(u[i]) == u[i];
  }

  /** True when `s` starts with `prefix`. */
  predicate StartsWith(s: string, prefix: string) {
    |prefix| <= |s| && s[..|prefix|] == prefix
  }

  /** The pieces of `s` between non-overlapping occurrences of `sep`, scanned
      left to right, as Python's `s.split(sep)` returns them; `cur` is the
      piece collected so far. */
  function SplitFrom(s: string, sep: string, cur: string): (parts: seq<string>)
    requires |sep| > 0
    ensures |parts| >= 1
    decreases |s|
  {
    if s == [] then [cur]
    else if StartsWith(s, sep) then [cur] + SplitFrom(s[|sep|..], sep, [])
    else SplitFrom(s[1..], sep, cur + [s[0]])
  }

  /** `s.split(sep)` for a non-empty separator: never empty, and `''.split(sep)`
      is `['']`. */
  function Split(s: string, sep: string): (parts: seq<string>)
    requires |sep| > 0
    ensures |parts| >= 1
  {
    SplitFrom(s, sep, [])
  }

  /** `sep.join(parts)`. */
  function Join(parts: seq<string>, sep: string): string {
    if parts == [] then []
    else if |parts| == 1 then parts[0]
    else parts[0] + sep + Join(parts[1..], sep)
  }

  lemma {:induction false} JoinSplitFrom(s: string, sep: string, cur: string)
    requires |sep| > 0
    ensures Join(SplitFrom(s, sep, cur), sep) == cur + s
    decreases |s|
  {
    if s == [] {
    } else if StartsWith(s, sep) {
      var rest := SplitFrom(s[|sep|..], sep, []);
      JoinSplitFrom(s[|sep|..], sep, []);
      assert s == sep + s[|sep|..];
      assert [cur] + rest != [] && ([cur] + rest)[1..] == rest;
    } else {
      JoinSplitFrom(s[1..], sep, cur + [s[0]]);
      assert cur + [s[0]] + s[1..] == cur + s;
    }
  }

  /** Splitting loses nothing: joining the pieces with the separator gives
      back the original string. */
  lemma SplitJoinRoundTrip(s: string, sep: string)
    requires |sep| > 0
    ensures Join(Split(s, sep), sep) == s
  {
    JoinSplitFrom(s, sep, []);
  }

  /** `last` is the text of `whole` after its last `c`, or all of it when
      it holds no `c`. */
  predicate AfterLast(whole: string, last: string, c: char) {
    && c !in last
    && |last| <= |whole| && whole[|whole| - |last|..] == last
    && (|last| < |whole| ==> whole[|whole| - |last| - 1] == c)
  }

  /** The last piece of `s.split(c)`. */
  function LastPiece(s: string, c: char, cur: string): string {
    var parts := SplitFrom(s, [c], cur);
    parts[|parts| - 1]
  }

  /** With a one-character separator, the last piece is the text after the
      last separator. */
  lemma {:induction false} SplitFromLast(s: string, c: char, cur: string)
    requires c !in cur
    ensures AfterLast(cur + s, LastPiece(s, c, cur), c)
    decreases |s|
  {
    if s == [] {
      assert cur + s == cur;
      assert SplitFrom(s, [c], cur) == [cur];
    } else {
      var t := s[1..];
      assert s == [s[0]] + t;
      if StartsWith(s, [c]) {
        SplitFromLast(t, c, []);
        assert [] + t == t;
        LastAfterSeparator(cur, c, t);
      } else {
        SplitFromLast(t, c, cur + [s[0]]);
        LastAfterOther(cur, s[0], t, c);
      }
    }
  }

  /** A separator closes the current piece: the last piece is the last
      piece of what follows it. */
  lemma LastAfterSeparator(cur: string, c: char, t: string)
    requires AfterLast(t, LastPiece(t, c, []), c)
    ensures AfterLast(cur + ([c] + t), LastPiece([c] + t, c, cur), c)
  {
    var s := [c] + t;
    assert StartsWith(s, [c]) && s[1..] == t;
    var rest := SplitFrom(t, [c], []);
    assert SplitFrom(s, [c], cur) == [cur] + rest;
    var last := LastPiece(t, c, []);
    assert LastPiece(s, c, cur) == last;
    var pre := cur + [c];
    assert cur + s == pre + t;
    SuffixAfter(pre, t, |last|);
  }

  /** Any other character extends the current piece. */
  lemma LastAfterOther(cur: string, x: char, t: string, c: char)
    requires x != c
    requires AfterLast(cur + [x] + t, LastPiece(t, c, cur + [x]), c)
    ensures AfterLast(cur + ([x] + t), LastPiece([x] + t, c, cur), c)
  {
    var s := [x] + t;
    assert !StartsWith(s, [c]) && s[1..] == t && s[0] == x;
    assert SplitFrom(s, [c], cur) == SplitFrom(t, [c], cur + [x]);
    assert cur + [x] + t == cur + s;
  }

  /** The last `k` characters of `pre + t`, and the one before them. */
  lemma SuffixAfter(pre: string, t: string, k: nat)
    requires k <= |t| && |pre| > 0
    ensures (pre + t)[|pre + t| - k..] == t[|t| - k..]
    ensures k < |t| ==> (pre + t)[|pre + t| - k - 1] == t[|t| - k - 1]
    ensures k == |t| ==> (pre + t)[|pre + t| - k - 1] == pre[|pre| - 1]
  {
  }

  /** The decimal digits of `n`, most significant first (`'%d' % n`). */
  function NatToString(n: nat): (s: string)
    ensures |s| >= 1
    ensures forall i :: 0 <= i < |s| ==> '0' <= s[i] <= '9'
    decreases n
  {
    if n < 10 then [DigitChar(n)] else NatToString(n / 10) + [DigitChar(n % 10)]
  }

  function DigitChar(d: nat): (c: char)
    requires d < 10
    ensures '0' <= c <= '9' && c as int - '0' as int == d
  {
    ('0' as int + d) as char
  }

  /** Reads a string of decimal digits back as a number. */
  function DigitsValue(s: string): nat
    requires forall i :: 0 <= i < |s| ==> '0' <= s[i] <= '9'
  {
    if s == [] then 0 else DigitsValue(s[..|s| - 1]) * 10 + (s[|s| - 1] as int - '0' as int)
  }

  /** `'%d' % n` loses nothing: its digits read back as `n`. */
  lemma {:induction false} NatToStringRoundTrip(n: nat)
    ensures DigitsValue(NatToString(n)) == n
    decreases n
  {
    var s := NatToString(n);
    if n >= 10 {
      NatToStringRoundTrip(n / 10);
      assert s[..|s| - 1] == NatToString(n / 10);
    }
  }

  /** `'%d' % i` for any integer: a minus sign before the digits of `|i|`. */
  function IntToString(i: int): (s: string)
    ensures |s| >= 1
    ensures (s[0] == '-') <==> i < 0
  {
    if i < 0 then "-" + NatToString(-i) else NatToString(i)
  }

  predicate AllDigits(s: string) {
    forall i :: 0 <= i < |s| ==> '0' <= s[i] <= '9'
  }

  /** `s` without the zeros it ends with. */
  function TrimZeros(s: string): (t: string)
    ensures t <= s
    ensures forall i :: |t| <= i < |s| ==> s[i] == '0'
    ensures t == [] || t[|t| - 1] != '0'
  {
    if s != [] && s[|s| - 1] == '0' then TrimZeros(s[..|s| - 1]) else s
  }

  /** `re.sub(r'\.0*$', '', s)`: a final point followed only by zeros is
      dropped together with those zeros; any other string is unchanged. */
  function DropPointZeros(s: string): string {
    var u := TrimZeros(s);
    if u != [] && u[|u| - 1] == '.' then u[..|u| - 1] else s
  }

  /** `x + "." + zeros` loses exactly its point and zeros. */
  lemma {:induction false} PointZerosDropped(x: string, zeros: string)
    requires forall i :: 0 <= i < |zeros| ==> zeros[i] == '0'
    ensures DropPointZeros(x + "." + zeros) == x
    decreases |zeros|
  {
    var s := x + "." + zeros;
    if zeros == [] {
      assert TrimZeros(s) == s;
      assert s[..|s| - 1] == x;
    } else {
      assert s[..|s| - 1] == x + "." + zeros[..|zeros| - 1];
      PointZerosDropped(x, zeros[..|zeros| - 1]);
    }
  }

  /** Python's `int(s)` on ASCII text: an optional sign, then one or more
      decimal digits; anything else is a ValueError (None here). */
  function ParseInt(s: string): (r: Option<int>)
    ensures r.Some? <==> (s != [] && AllDigits(s)) || (|s| >= 2 && s[0] in "+-" && AllDigits(s[1..]))
  {
    if s != [] && (s[0] == '-' || s[0] == '+') then
      if |s| >= 2 && AllDigits(s[1..]) then
        var n: int := DigitsValue(s[1..]);
        Some(if s[0] == '-' then -n else n)
      else None
    else if s != [] && AllDigits(s) then Some(DigitsValue(s))
    else None
  }

  /** `int('%d' % i) == i`: the decimal text of any integer parses back to it. */
  lemma IntToStringParses(i: int)
    ensures ParseInt(IntToString(i)) == Some(i)
  {
    if i < 0 {
      NegativeParses(-i);
      assert IntToString(i) == "-" + NatToString(-i);
    } else {
      DigitsParse(NatToString(i));
      NatToStringRoundTrip(i);
    }
  }

  lemma DigitsParse(s: string)
    requires s != [] && AllDigits(s)
    ensures ParseInt(s) == Some(DigitsValue(s))
  {
    assert '0' <= s[0] <= '9';
  }

  lemma NegativeParses(n: nat)
    requires n > 0
    ensures ParseInt("-" + NatToString(n)) == Some(0 - n)
  {
    var s := "-" + NatToString(n);
    assert s[1..] == NatToString(n);
    NatToStringRoundTrip(n);
  }
}
