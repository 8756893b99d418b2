/** The JavaScript built-ins the portfolio code relies on, on Dafny strings:
    Array.prototype.join, String.prototype.split with a one-character
    separator, String.prototype.trim, and the decimal text of a number. */
module JsString {

  /** Number of occurrences of `c` in `s`. */
  function Count(s: string, c: char): nat
  {
    if s == [] then 0 else (if s[0] == c then 1 else 0) + Count(s[1..], c)
  }

  /** Array.prototype.join: the elements separated by `sep`; `[]` joins to "". */
  function Join(xs: seq<string>, sep: string): (r: string)
    ensures xs == [] ==> r == ""
    ensures xs != [] ==> xs[0] <= r
    decreases |xs|
  {
    if |xs| == 0 then ""
    else if |xs| == 1 then xs[0]
    else xs[0] + sep + Join(xs[1..], sep)
  }

  /** String.prototype.split(c) for a one-character separator: the maximal
      separator-free pieces, left to right. There is always one piece more
      than there are separators, so "" splits to [""]. */
  function Split(s: string, c: char): (r: seq<string>)
    ensures |r| == Count(s, c) + 1
    ensures forall k :: 0 <= k < |r| ==> c !in r[k]
  {
    if s == [] then [""]
    else
      var rest := Split(s[1..], c);
      if s[0] == c then [""] + rest
      else [[s[0]] + rest[0]] + rest[1..]
  }

  /** The characters String.prototype.trim removes: the WhiteSpace and
      LineTerminator code points of ECMAScript (sections 12.2 and 12.3 of
      ECMA-262), the Unicode Zs category spelled out. */
  predicate IsJsWhitespace(ch: char)
  {
    || ch == '\t' || ch == '\n' || ch == '\U{000B}' || ch == '\U{000C}' || ch == '\r'
    || ch == ' ' || ch == '\U{00A0}' || ch == '\U{1680}'
    || ('\U{2000}' <= ch <= '\U{200A}')
    || ch == '\U{2028}' || ch == '\U{2029}' || ch == '\U{202F}' || ch == '\U{205F}'
    || ch == '\U{3000}' || ch == '\U{FEFF}'
  }

  /** Neither end of `s` is whitespace. */
  predicate Trimmed(s: string)
  {
    s == [] || (!IsJsWhitespace(s[0]) && !IsJsWhitespace(s[|s| - 1]))
  }

  /** Drops the maximal whitespace prefix. */
  function TrimStart(s: string): (r: string)
    ensures |r| <= |s| && r == s[|s| - |r|..]
    ensures r == [] || !IsJsWhitespace(r[0])
    ensures forall k :: 0 <= k < |s| - |r| ==> IsJsWhitespace(s[k])
  {
    if s != [] && IsJsWhitespace(s[0]) then TrimStart(s[1..]) else s
  }

  /** Drops the maximal whitespace suffix. */
  function TrimEnd(s: string): (r: string)
    ensures |r| <= |s| && r == s[..|r|]
    ensures r == [] || !IsJsWhitespace(r[|r| - 1])
    ensures forall k :: |r| <= k < |s| ==> IsJsWhitespace(s[k])
  {
    if s != [] && IsJsWhitespace(s[|s| - 1]) then TrimEnd(s[..|s| - 1]) else s
  }

  /** String.prototype.trim: `s` without its leading and trailing whitespace;
      what remains is the contiguous stretch s[i..j] between them. */
  function Trim(s: string): (r: string)
    ensures Trimmed(r)
    ensures exists i, j :: 0 <= i <= j <= |s| && r == s[i..j]
                           && (forall k :: 0 <= k < i ==> IsJsWhitespace(s[k]))
                           && (forall k :: j <= k < |s| ==> IsJsWhitespace(s[k]))
  {
    var t := TrimStart(s);
    var r := TrimEnd(t);
    assert r == s[|s| - |t|..|s| - |t| + |r|];
    r
  }

  /** Trimming text that already has no whitespace at its ends changes nothing. */
  lemma TrimTrimmed(s: string)
    requires Trimmed(s)
    ensures Trim(s) == s
  {
    assert TrimStart(s) == s;
  }

  /** A space in front of trimmed text is all that trimming removes. */
  lemma TrimLeadingSpace(s: string)
    requires Trimmed(s)
    ensures Trim(" " + s) == s
  {
    assert (" " + s)[1..] == s;
    assert TrimStart(" " + s) == TrimStart(s) == s;
  }

  /** Joining the pieces of a split with the separator gives the text back. */
  lemma {:induction false} JoinSplit(s: string, c: char)
    ensures Join(Split(s, c), [c]) == s
  {
    if s != [] {
      JoinSplit(s[1..], c);
      var rest := Split(s[1..], c);
      if s[0] == c {
        assert Split(s, c) == [""] + rest;
        assert ([""] + rest)[1..] == rest;
      } else {
        var r := Split(s, c);
        assert r == [[s[0]] + rest[0]] + rest[1..];
        if |rest| == 1 {
          assert Join(rest, [c]) == rest[0];
        } else {
          assert r[1..] == rest[1..];
          assert Join(rest, [c]) == rest[0] + [c] + Join(rest[1..], [c]);
        }
        assert s == [s[0]] + s[1..];
      }
    }
  }

  /** Splitting `t + rest` where `t` has no separator: `t` is glued to the
      front of the first piece of `rest`. */
  lemma {:induction false} SplitPrefix(t: string, rest: string, c: char)
    requires c !in t
    ensures Split(t + rest, c) == [t + Split(rest, c)[0]] + Split(rest, c)[1..]
    decreases |t|
  {
    if t == [] {
      assert t + rest == rest;
      var r := Split(rest, c);
      assert t + r[0] == r[0];
      assert [r[0]] + r[1..] == r;
    } else {
      assert (t + rest)[1..] == t[1..] + rest;
      SplitPrefix(t[1..], rest, c);
      assert [t[0]] + (t[1..] + Split(rest, c)[0]) == t + Split(rest, c)[0];
    }
  }

  /** Splitting at a separator placed right after a separator-free `t`. */
  lemma SplitAtSeparator(t: string, rest: string, c: char)
    requires c !in t
    ensures Split(t + [c] + rest, c) == [t] + Split(rest, c)
  {
    assert t + [c] + rest == t + ([c] + rest);
    SplitPrefix(t, [c] + rest, c);
    assert ([c] + rest)[1..] == rest;
    assert Split([c] + rest, c) == [""] + Split(rest, c);
    assert t + "" == t;
    assert ([""] + Split(rest, c))[1..] == Split(rest, c);
  }

  /** Split undoes Join when no element contains the separator. */
  lemma {:induction false} SplitJoin(xs: seq<string>, c: char)
    requires xs != []
    requires forall k :: 0 <= k < |xs| ==> c !in xs[k]
    ensures Split(Join(xs, [c]), c) == xs
    decreases |xs|
  {
    if |xs| == 1 {
      assert xs[0] + [] == xs[0];
      SplitPrefix(xs[0], [], c);
    } else {
      SplitJoin(xs[1..], c);
      SplitAtSeparator(xs[0], Join(xs[1..], [c]), c);
      assert [xs[0]] + xs[1..] == xs;
    }
  }

  /** The decimal digit character for 0..9. */
  function DigitChar(d: nat): (ch: char)
    requires d < 10
    ensures '0' <= ch <= '9'
  {
    ['0', '1', '2', '3', '4', '5', '6', '7', '8', '9'][d]
  }

  /** The value of a decimal digit character. */
  function DigitValue(ch: char): (d: nat)
    requires '0' <= ch <= '9'
    ensures d < 10 && DigitChar(d) == ch
  {
    if ch == '0' then 0 else if ch == '1' then 1 else if ch == '2' then 2
    else if ch == '3' then 3 else if ch == '4' then 4 else if ch == '5' then 5
    else if ch == '6' then 6 else if ch == '7' then 7 else if ch == '8' then 8 else 9
  }

  predicate AllDigits(s: string)
  {
    forall k :: 0 <= k < |s| ==> '0' <= s[k] <= '9'
  }

  /** The number a string of decimal digits denotes (leading zeros allowed). */
  function DecimalValue(s: string): nat
    requires AllDigits(s)
    decreases |s|
  {
    if s == [] then 0 else 10 * DecimalValue(s[..|s| - 1]) + DigitValue(s[|s| - 1])
  }

  /** String(n) for a non-negative integer: decimal digits, no leading zero. */
  function NatToString(n: nat): (r: string)
    ensures r != [] && AllDigits(r)
    ensures DecimalValue(r) == n
    ensures |r| > 1 ==> r[0] != '0'
  {
    if n < 10 then [DigitChar(n)]
    else
      var r := NatToString(n / 10) + [DigitChar(n % 10)];
      assert r[..|r| - 1] == NatToString(n / 10);
      r
  }

  /** Two numbers print the same exactly when they are equal. */
  lemma NatToStringInjective(m: nat, n: nat)
    ensures NatToString(m) == NatToString(n) <==> m == n
  {
  }
}
