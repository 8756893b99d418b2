/** A JavaScript template literal `s0${e0}s1${e1}...sn` evaluates to the
    text s0 + e0 + s1 + e1 + ... + sn: its literal parts interleaved with the
    values of its substitutions. Every piece of markup and of stylesheet the
    generator produces is such a literal, so the facts proved here once
    (where each substitution lands, in which order, and when the
    substitutions can be read back) serve all of them. */
module TemplateLiteral {
  import opened JsString

  datatype Option<T> = None | Some(value: T)

  /** The text of a template literal with literal `parts` and substituted
      `holes`. It begins with its first part. */
  function Fill(parts: seq<string>, holes: seq<string>): (r: string)
    requires |parts| == |holes| + 1
    ensures parts[0] <= r
    decreases |holes|
  {
    if holes == [] then parts[0] else parts[0] + holes[0] + Fill(parts[1..], holes[1..])
  }

  /** `x` occurs in `s` as a contiguous stretch. */
  predicate Contains(s: string, x: string)
  {
    exists i | 0 <= i <= |s| :: x <= s[i..]
  }

  /** Where the substitution `holes[k]` begins in Fill(parts, holes). */
  function HoleStart(parts: seq<string>, holes: seq<string>, k: nat): nat
    requires |parts| == |holes| + 1 && k < |holes|
    decreases k
  {
    if k == 0 then |parts[0]|
    else |parts[0]| + |holes[0]| + HoleStart(parts[1..], holes[1..], k - 1)
  }

  /** `x` occurs in `r` at position `o`, right after `a` and right before `b`. */
  predicate Placed(r: string, o: nat, a: string, x: string, b: string)
  {
    && |a| <= o && o + |x| + |b| <= |r|
    && r[o - |a|..o] == a
    && r[o..o + |x|] == x
    && r[o + |x|..o + |x| + |b|] == b
  }

  /** What is placed in a suffix r[d..] is placed in r, shifted by d. */
  lemma PlacedInSuffix(r: string, d: nat, o: nat, a: string, x: string, b: string)
    requires d <= |r| && Placed(r[d..], o, a, x, b)
    ensures Placed(r, d + o, a, x, b)
  {
    var t := r[d..];
    SliceOfSuffix(r, d, o - |a|, o);
    SliceOfSuffix(r, d, o, o + |x|);
    SliceOfSuffix(r, d, o + |x|, o + |x| + |b|);
  }

  /** Each substitution appears verbatim at HoleStart, with the literal part
      that precedes it in the template right before it and the literal part
      that follows it right after it. */
  lemma {:induction false} HoleAt(parts: seq<string>, holes: seq<string>, k: nat)
    requires |parts| == |holes| + 1 && k < |holes|
    ensures Placed(Fill(parts, holes), HoleStart(parts, holes, k), parts[k], holes[k], parts[k + 1])
    decreases k
  {
    var r := Fill(parts, holes);
    var ps, hs := parts[1..], holes[1..];
    var tail := Fill(ps, hs);
    var d := |parts[0]| + |holes[0]|;
    assert r == parts[0] + holes[0] + tail;
    assert r[d..] == tail;
    if k == 0 {
      assert ps[0] == parts[1];
      assert parts[1] <= tail;
      assert r[..|parts[0]|] == parts[0];
      assert r[|parts[0]|..d] == holes[0];
      assert r[d..d + |parts[1]|] == tail[..|parts[1]|];
    } else {
      HoleAt(ps, hs, k - 1);
      assert ps[k - 1] == parts[k] && ps[k] == parts[k + 1] && hs[k - 1] == holes[k];
      assert HoleStart(parts, holes, k) == d + HoleStart(ps, hs, k - 1);
      PlacedInSuffix(r, d, HoleStart(ps, hs, k - 1), parts[k], holes[k], parts[k + 1]);
    }
  }

  /** A slice of a suffix is a slice of the whole text, shifted. */
  lemma SliceOfSuffix(r: string, d: nat, a: nat, b: nat)
    requires d <= |r| && a <= b <= |r| - d
    ensures r[d + a..d + b] == r[d..][a..b]
  {
  }

  /** Each substitution occurs together with the literal parts around it. */
  lemma HoleInContext(parts: seq<string>, holes: seq<string>, k: nat)
    requires |parts| == |holes| + 1 && k < |holes|
    ensures Contains(Fill(parts, holes), parts[k] + holes[k] + parts[k + 1])
  {
    HoleAt(parts, holes, k);
    var r := Fill(parts, holes);
    var o := HoleStart(parts, holes, k);
    var i, e := o - |parts[k]|, o + |holes[k]|;
    var f := e + |parts[k + 1]|;
    assert r[i..o] == parts[k];
    assert r[o..e] == holes[k];
    assert r[e..f] == parts[k + 1];
    Adjacent(r, i, o, e, f);
  }

  /** Three adjacent stretches of a text occur together. */
  lemma Adjacent(r: string, i: nat, o: nat, e: nat, f: nat)
    requires i <= o <= e <= f <= |r|
    ensures Contains(r, r[i..o] + r[o..e] + r[e..f])
  {
    assert r[i..o] + r[o..e] + r[e..f] == r[i..f];
    assert r[i..f] <= r[i..];
  }

  /** Substitutions come out in template order: hole i and the literal part
      after it end before hole j (i < j) begins. */
  lemma {:induction false} HolesInOrder(parts: seq<string>, holes: seq<string>, i: nat, j: nat)
    requires |parts| == |holes| + 1 && i < j < |holes|
    ensures HoleStart(parts, holes, i) + |holes[i]| + |parts[i + 1]| <= HoleStart(parts, holes, j)
    decreases j
  {
    if i > 0 {
      HolesInOrder(parts[1..], holes[1..], i - 1, j - 1);
    } else if j > 1 {
      HolesInOrder(parts[1..], holes[1..], 0, j - 1);
    }
  }

  /** Every contiguous stretch of the template, parts[i..j+1] with the
      holes between them, occurs in the text. */
  lemma {:induction false} StretchOccurs(parts: seq<string>, holes: seq<string>, i: nat, j: nat)
    requires |parts| == |holes| + 1 && i <= j <= |holes|
    ensures Contains(Fill(parts, holes), Fill(parts[i..j + 1], holes[i..j]))
    decreases i
  {
    var r := Fill(parts, holes);
    if i == 0 {
      StretchIsPrefix(parts, holes, j);
      assert r[0..] == r;
    } else {
      StretchOccurs(parts[1..], holes[1..], i - 1, j - 1);
      assert parts[1..][i - 1..j] == parts[i..j + 1];
      assert holes[1..][i - 1..j - 1] == holes[i..j];
      var tail := Fill(parts[1..], holes[1..]);
      var d := |parts[0]| + |holes[0]|;
      assert r == parts[0] + holes[0] + tail;
      var n :| 0 <= n <= |tail| && Fill(parts[i..j + 1], holes[i..j]) <= tail[n..];
      assert r[d + n..] == tail[n..];
    }
  }

  /** The first j holes with their parts are a prefix of the text. */
  lemma {:induction false} StretchIsPrefix(parts: seq<string>, holes: seq<string>, j: nat)
    requires |parts| == |holes| + 1 && j <= |holes|
    ensures Fill(parts[..j + 1], holes[..j]) <= Fill(parts, holes)
    decreases j
  {
    if j == 0 {
      assert parts[..1] == [parts[0]];
    } else {
      StretchIsPrefix(parts[1..], holes[1..], j - 1);
      assert parts[..j + 1][1..] == parts[1..][..j];
      assert holes[..j][1..] == holes[1..][..j - 1];
    }
  }

  /** Occurrence is transitive and survives trimming the occurring text:
      if s contains a + x + b, it contains any end of a, then x, then any
      start of b. */
  lemma ContainsInner(s: string, a: string, x: string, b: string, a': string, b': string)
    requires Contains(s, a + x + b)
    requires |a'| <= |a| && a[|a| - |a'|..] == a' && b' <= b
    ensures Contains(s, a' + x + b')
  {
    var i :| 0 <= i <= |s| && a + x + b <= s[i..];
    var j := i + |a| - |a'|;
    assert (a + x + b)[|a| - |a'|..|a| + |x| + |b'|] == a' + x + b';
    assert s[j..][..|a' + x + b'|] == a' + x + b';
  }

  /** `s` ends with `x`. */
  predicate EndsWith(s: string, x: string)
  {
    |x| <= |s| && s[|s| - |x|..] == x
  }

  /** A concatenation ends with its last part. */
  lemma EndsWithLast(u: string, v: string, w: string)
    ensures EndsWith(u + w, w) && EndsWith(u + v + w, w)
  {
    assert (u + w)[|u|..] == w;
    assert (u + v + w)[|u + v|..] == w;
  }

  /** A concatenation starts with its first part. */
  lemma StartsWithFirst(u: string, v: string, w: string)
    ensures u <= u + v && u <= u + v + w
  {
    assert (u + v)[..|u|] == u;
    assert (u + v + w)[..|u|] == u;
  }

  /** Occurrence is transitive. */
  lemma ContainsTrans(s: string, x: string, y: string)
    requires Contains(s, x) && Contains(x, y)
    ensures Contains(s, y)
  {
    var i :| 0 <= i <= |s| && x <= s[i..];
    var j :| 0 <= j <= |x| && y <= x[j..];
    assert x == s[i..i + |x|];
    assert y == x[j..j + |y|];
    assert x[j..j + |y|] == s[i + j..i + j + |y|];
    assert y <= s[i + j..];
  }

  /** Two consecutive substitutions occur with the literal part between
      them and the parts around them. */
  lemma TwoHolesInContext(parts: seq<string>, holes: seq<string>, k: nat)
    requires |parts| == |holes| + 1 && k + 1 < |holes|
    ensures Contains(Fill(parts, holes),
                     parts[k] + (holes[k] + parts[k + 1] + holes[k + 1]) + parts[k + 2])
  {
    StretchOccurs(parts, holes, k, k + 2);
    var a, x, b, y, c := parts[k], holes[k], parts[k + 1], holes[k + 1], parts[k + 2];
    assert parts[k..k + 3] == [a, b, c] && holes[k..k + 2] == [x, y];
    FillTwo(a, x, b, y, c);
  }

  lemma FillTwo(a: string, x: string, b: string, y: string, c: string)
    ensures Fill([a, b, c], [x, y]) == a + (x + b + y) + c
  {
    assert [a, b, c][1..] == [b, c] && [x, y][1..] == [y];
    assert [b, c][1..] == [c] && [y][1..] == [];
    assert Fill([c], []) == c;
    assert Fill([b, c], [y]) == b + y + c;
    assert Fill([a, b, c], [x, y]) == a + x + (b + y + c);
  }

  /** Three consecutive substitutions occur with the literal parts between
      them and the parts around them. */
  lemma ThreeHolesInContext(parts: seq<string>, holes: seq<string>, k: nat)
    requires |parts| == |holes| + 1 && k + 2 < |holes|
    ensures Contains(Fill(parts, holes),
                     parts[k] + (holes[k] + parts[k + 1] + holes[k + 1] + parts[k + 2] + holes[k + 2])
                     + parts[k + 3])
  {
    StretchOccurs(parts, holes, k, k + 3);
    var a, x, b, y, c, z, d := parts[k], holes[k], parts[k + 1], holes[k + 1], parts[k + 2], holes[k + 2], parts[k + 3];
    assert parts[k..k + 4] == [a, b, c, d] && holes[k..k + 3] == [x, y, z];
    FillThree(a, x, b, y, c, z, d);
  }

  lemma FillThree(a: string, x: string, b: string, y: string, c: string, z: string, d: string)
    ensures Fill([a, b, c, d], [x, y, z]) == a + (x + b + y + c + z) + d
  {
    assert [a, b, c, d][1..] == [b, c, d] && [x, y, z][1..] == [y, z];
    FillTwo(b, y, c, z, d);
  }

  /** A substitution occurs between the end `a'` of the literal part before
      it and the start `b'` of the literal part after it. */
  lemma HoleBetween(parts: seq<string>, holes: seq<string>, k: nat, a': string, b': string)
    requires |parts| == |holes| + 1 && k < |holes|
    requires EndsWith(parts[k], a') && b' <= parts[k + 1]
    ensures Contains(Fill(parts, holes), a' + holes[k] + b')
  {
    HoleInContext(parts, holes, k);
    ContainsInner(Fill(parts, holes), parts[k], holes[k], parts[k + 1], a', b');
  }

  /** Two consecutive substitutions, with the literal part `m` between
      them, occur between the end of the part before and the start of the
      part after. */
  lemma TwoHolesBetween(parts: seq<string>, holes: seq<string>, k: nat, a': string, m: string, b': string)
    requires |parts| == |holes| + 1 && k + 1 < |holes|
    requires EndsWith(parts[k], a') && parts[k + 1] == m && b' <= parts[k + 2]
    ensures Contains(Fill(parts, holes), a' + (holes[k] + m + holes[k + 1]) + b')
  {
    TwoHolesInContext(parts, holes, k);
    ContainsInner(Fill(parts, holes), parts[k], holes[k] + m + holes[k + 1], parts[k + 2], a', b');
  }

  /** The same for three consecutive substitutions, with `m` and `n`
      between them. */
  lemma ThreeHolesBetween(parts: seq<string>, holes: seq<string>, k: nat,
                          a': string, m: string, n: string, b': string)
    requires |parts| == |holes| + 1 && k + 2 < |holes|
    requires EndsWith(parts[k], a') && parts[k + 1] == m && parts[k + 2] == n && b' <= parts[k + 3]
    ensures Contains(Fill(parts, holes), a' + (holes[k] + m + holes[k + 1] + n + holes[k + 2]) + b')
  {
    ThreeHolesInContext(parts, holes, k);
    ContainsInner(Fill(parts, holes), parts[k], holes[k] + m + holes[k + 1] + n + holes[k + 2],
                  parts[k + 3], a', b');
  }

  /** `x` occurs in `s` starting at position `i`. */
  predicate OccursAt(s: string, x: string, i: nat)
  {
    i + |x| <= |s| && s[i..i + |x|] == x
  }

  /** Where element k begins in a join. */
  function JoinPos(ys: seq<string>, sep: string, k: nat): nat
    requires k < |ys|
  {
    HoleStart(JoinParts(sep, |ys|), ys, k)
  }

  /** A join holds every element at its position, and the elements follow
      one another in input order, each one, then the separator, ending
      before the next one begins. */
  lemma JoinBlocks(ys: seq<string>, sep: string)
    ensures forall k :: 0 <= k < |ys| ==> OccursAt(Join(ys, sep), ys[k], JoinPos(ys, sep, k))
    ensures forall i, j :: 0 <= i < j < |ys| ==> JoinPos(ys, sep, i) + |ys[i]| + |sep| <= JoinPos(ys, sep, j)
  {
    var ps := JoinParts(sep, |ys|);
    JoinIsFill(ys, sep);
    forall k | 0 <= k < |ys| ensures OccursAt(Join(ys, sep), ys[k], JoinPos(ys, sep, k)) {
      HoleAt(ps, ys, k);
    }
    forall i, j | 0 <= i < j < |ys| ensures JoinPos(ys, sep, i) + |ys[i]| + |sep| <= JoinPos(ys, sep, j) {
      HolesInOrder(ps, ys, i, j);
      assert ps[i + 1] == sep;
    }
  }

  /** Every element of a join occurs in it. */
  lemma JoinHoldsElements(ys: seq<string>, sep: string, k: nat)
    requires k < |ys|
    ensures Contains(Join(ys, sep), ys[k])
  {
    JoinBlocks(ys, sep);
    var r, o := Join(ys, sep), JoinPos(ys, sep, k);
    assert OccursAt(r, ys[k], o);
    assert ys[k] <= r[o..];
  }

  /** The first position of `c` in `s`, or |s| when there is none. */
  function FirstIndex(s: string, c: char): (i: nat)
    ensures i <= |s| && c !in s[..i] && (i < |s| ==> s[i] == c)
  {
    if s == [] then 0
    else if s[0] == c then 0
    else
      var i := 1 + FirstIndex(s[1..], c);
      assert s[..i] == [s[0]] + s[1..][..i - 1];
      i
  }

  /** Reads the substitutions back out of a text, taking each one to run up
      to the first character of the literal part that follows it. Whatever it
      returns fills the template to exactly that text. */
  function Unfill(parts: seq<string>, s: string): (r: Option<seq<string>>)
    requires |parts| >= 1
    ensures r.Some? ==> |r.value| + 1 == |parts| && Fill(parts, r.value) == s
    decreases |parts|
  {
    if |parts| == 1 then (if s == parts[0] then Some([]) else None)
    else if parts[1] == [] || !(parts[0] <= s) then None
    else
      var rest := s[|parts[0]|..];
      var i := FirstIndex(rest, parts[1][0]);
      if i == |rest| then None
      else
        match Unfill(parts[1..], rest[i..])
        case None => None
        case Some(hs) =>
          var holes := [rest[..i]] + hs;
          assert holes[1..] == hs;
          assert s == parts[0] + rest[..i] + rest[i..];
          Some(holes)
  }

  /** Substitution k does not contain the first character of the literal
      part that follows it, and that part is non-empty. */
  predicate DelimitedAt(parts: seq<string>, holes: seq<string>, k: nat)
    requires |parts| == |holes| + 1 && k < |holes|
  {
    parts[k + 1] != [] && parts[k + 1][0] !in holes[k]
  }

  /** Every substitution is delimited by the literal part that follows it. */
  predicate Delimited(parts: seq<string>, holes: seq<string>)
    requires |parts| == |holes| + 1
  {
    forall k :: 0 <= k < |holes| ==> DelimitedAt(parts, holes, k)
  }

  /** Round trip: delimited substitutions are read back exactly. */
  lemma {:induction false} UnfillFill(parts: seq<string>, holes: seq<string>)
    requires |parts| == |holes| + 1 && Delimited(parts, holes)
    ensures Unfill(parts, Fill(parts, holes)) == Some(holes)
    decreases |holes|
  {
    if holes != [] {
      var s := Fill(parts, holes);
      var tail := Fill(parts[1..], holes[1..]);
      assert s == parts[0] + (holes[0] + tail);
      var rest := s[|parts[0]|..];
      assert rest == holes[0] + tail;
      assert DelimitedAt(parts, holes, 0);
      var c := parts[1][0];
      assert parts[1..][0] == parts[1] && parts[1] <= tail;
      assert tail[0] == c;
      assert rest[..|holes[0]|] == holes[0];
      FirstIsAfter(rest, c, |holes[0]|);
      assert rest[|holes[0]|..] == tail;
      DelimitedTail(parts, holes);
      UnfillFill(parts[1..], holes[1..]);
      assert parts[0] <= s && parts[1] != [];
      assert FirstIndex(rest, c) == |holes[0]|;
      assert Unfill(parts[1..], rest[|holes[0]|..]) == Some(holes[1..]);
      assert [holes[0]] + holes[1..] == holes;
    }
  }

  /** Dropping the first part and the first substitution keeps a template
      delimited. */
  lemma DelimitedTail(parts: seq<string>, holes: seq<string>)
    requires |parts| == |holes| + 1 && holes != [] && Delimited(parts, holes)
    ensures Delimited(parts[1..], holes[1..])
  {
    var ps, hs := parts[1..], holes[1..];
    forall k | 0 <= k < |hs| ensures DelimitedAt(ps, hs, k) {
      assert DelimitedAt(parts, holes, k + 1);
      assert ps[k + 1] == parts[k + 2] && hs[k] == holes[k + 1];
    }
  }

  lemma FirstIsAfter(s: string, c: char, n: nat)
    requires n < |s| && s[n] == c && c !in s[..n]
    ensures FirstIndex(s, c) == n
  {
  }

  /** A template fills injectively over delimited substitutions: different
      values give different texts. */
  lemma FillInjective(parts: seq<string>, h1: seq<string>, h2: seq<string>)
    requires |parts| == |h1| + 1 == |h2| + 1
    requires Delimited(parts, h1) && Delimited(parts, h2)
    ensures Fill(parts, h1) == Fill(parts, h2) <==> h1 == h2
  {
    UnfillFill(parts, h1);
    UnfillFill(parts, h2);
  }

  /** The parts of the template a join of n elements amounts to: an empty
      part at each end and the separator between consecutive elements. */
  function JoinParts(sep: string, n: nat): (ps: seq<string>)
    ensures |ps| == n + 1
  {
    if n == 0 then [""] else [""] + seq(n - 1, _ => sep) + [""]
  }

  /** Array.prototype.join is a template literal whose holes are the
      elements: a join of elements wrapped in nothing. */
  lemma JoinIsFill(ys: seq<string>, sep: string)
    ensures Join(ys, sep) == Fill(JoinParts(sep, |ys|), ys)
  {
    TagListIsFill("", "", sep, ys);
    var ws := Wrap("", "", ys);
    forall k | 0 <= k < |ys| ensures ws[k] == ys[k] {
      assert "" + ys[k] + "" == ys[k];
    }
    assert ws == ys;
    var ps, ts := JoinParts(sep, |ys|), TagListParts("", "", sep, |ys|);
    forall k | 0 <= k < |ps| ensures ps[k] == ts[k] {
      assert "" + sep + "" == sep;
    }
    assert ps == ts;
  }

  /** Putting text in front of the first literal part puts it in front of
      the whole text. */
  lemma FillFrontPart(a: string, parts: seq<string>, holes: seq<string>)
    requires |parts| == |holes| + 1
    ensures Fill([a + parts[0]] + parts[1..], holes) == a + Fill(parts, holes)
  {
    var ps := [a + parts[0]] + parts[1..];
    assert ps[1..] == parts[1..];
    if holes != [] {
      assert Fill(ps, holes) == a + parts[0] + holes[0] + Fill(parts[1..], holes[1..]);
    }
  }

  /** Each element between an opening and a closing text:
      xs.map(x => `${open}${x}${close}`). */
  function Wrap(open: string, close: string, xs: seq<string>): (ys: seq<string>)
    ensures |ys| == |xs|
    ensures forall k :: 0 <= k < |xs| ==> ys[k] == open + xs[k] + close
  {
    seq(|xs|, k requires 0 <= k < |xs| => open + xs[k] + close)
  }

  /** The parts of the single template that a join of n wrapped elements
      amounts to: the opening text, then closing + separator + opening
      between elements, then the closing text. */
  function TagListParts(open: string, close: string, sep: string, n: nat): (ps: seq<string>)
    ensures |ps| == n + 1
  {
    if n == 0 then [""] else [open] + seq(n - 1, _ => close + sep + open) + [close]
  }

  /** Past its opening part, the template of n wrapped elements is the
      closing text and separator, then the template of n - 1 elements. */
  lemma TagListPartsTail(open: string, close: string, sep: string, n: nat)
    requires n > 1
    ensures var ps, ps' := TagListParts(open, close, sep, n), TagListParts(open, close, sep, n - 1);
            ps[1..] == [close + sep + ps'[0]] + ps'[1..]
  {
    var ps, ps' := TagListParts(open, close, sep, n), TagListParts(open, close, sep, n - 1);
    var mid := close + sep + open;
    assert ps == [open] + seq(n - 1, _ => mid) + [close];
    assert ps' == [open] + seq(n - 2, _ => mid) + [close];
    assert ps[1..] == seq(n - 1, _ => mid) + [close];
    assert seq(n - 1, _ => mid) == [mid] + seq(n - 2, _ => mid);
    assert ps'[1..] == seq(n - 2, _ => mid) + [close];
  }

  /** A join of wrapped elements is one template literal over the elements. */
  lemma {:induction false} TagListIsFill(open: string, close: string, sep: string, xs: seq<string>)
    ensures Join(Wrap(open, close, xs), sep) == Fill(TagListParts(open, close, sep, |xs|), xs)
    decreases |xs|
  {
    var ws := Wrap(open, close, xs);
    var ps := TagListParts(open, close, sep, |xs|);
    if |xs| == 1 {
      assert ps == [open, close];
      assert Fill(ps, xs) == open + xs[0] + Fill(ps[1..], []);
    } else if |xs| > 1 {
      TagListIsFill(open, close, sep, xs[1..]);
      assert Wrap(open, close, xs[1..]) == ws[1..];
      var ps' := TagListParts(open, close, sep, |xs| - 1);
      TagListPartsTail(open, close, sep, |xs|);
      FillFrontPart(close + sep, ps', xs[1..]);
      assert Fill(ps, xs) == open + xs[0] + Fill(ps[1..], xs[1..]);
    }
  }

  /** When the closing text starts with a character no element contains, a
      join of wrapped elements reads back to exactly the elements: one per
      element, in order. */
  lemma TagListReadBack(open: string, close: string, sep: string, xs: seq<string>)
    requires close != [] && forall k :: 0 <= k < |xs| ==> close[0] !in xs[k]
    ensures Unfill(TagListParts(open, close, sep, |xs|), Join(Wrap(open, close, xs), sep)) == Some(xs)
  {
    TagListIsFill(open, close, sep, xs);
    var ps := TagListParts(open, close, sep, |xs|);
    assert Delimited(ps, xs) by {
      forall k | 0 <= k < |xs| ensures DelimitedAt(ps, xs, k) {
        if k + 1 < |xs| {
          assert ps[k + 1] == close + sep + open;
        } else {
          assert ps[k + 1] == close;
        }
      }
    }
    UnfillFill(ps, xs);
  }
}
