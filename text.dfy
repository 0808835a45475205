/** The string operations the core relies on: `includes`, `toLowerCase` and `join`. */
module Text {

  /** ASCII lower-casing of one character. */
  function LowerChar(c: char): char {
    if IsUpper(c) then (c as int + 32) as char else c
  }

  predicate IsUpper(c: char) {
    'A' <= c <= 'Z'
  }

  /** `toLowerCase` on ASCII text: no upper-case letter is left, every upper-case letter
      becomes its lower-case partner (32 code points on), and everything else is kept. */
  function ToLower(s: string): (r: string)
    ensures |r| == |s|
    ensures forall i :: 0 <= i < |r| ==> !IsUpper(r[i])
    ensures forall i :: 0 <= i < |s| && IsUpper(s[i]) ==> r[i] as int == s[i] as int + ('a' as int - 'A' as int)
    ensures forall i :: 0 <= i < |s| && !IsUpper(s[i]) ==> r[i] == s[i]
  {
    seq(|s|, i requires 0 <= i < |s| => LowerChar(s[i]))
  }

  /** Lower-casing twice is lower-casing once. */
  lemma ToLowerIdempotent(s: string)
    ensures ToLower(ToLower(s)) == ToLower(s)
  {
    var once := ToLower(s);
    assert forall i :: 0 <= i < |once| ==> ToLower(once)[i] == once[i];
  }

  /** Text without upper-case letters is its own lower-casing. */
  lemma ToLowerKeepsLower(s: string)
    requires forall i :: 0 <= i < |s| ==> !IsUpper(s[i])
    ensures ToLower(s) == s
  {
    assert forall i :: 0 <= i < |s| ==> ToLower(s)[i] == s[i];
  }

  /** `sub` occurs in `s` at position `i`. */
  predicate OccursAt(s: string, sub: string, i: int) {
    0 <= i && i + |sub| <= |s| && s[i..i + |sub|] == sub
  }

  /** `s.includes(sub)`, computed by scanning; its contract is the textbook definition. */
  function Contains(s: string, sub: string): (b: bool)
    ensures b <==> exists i :: OccursAt(s, sub, i)
  {
    if |s| < |sub| then
      assert forall i :: !OccursAt(s, sub, i);
      false
    else if s[..|sub|] == sub then
      assert OccursAt(s, sub, 0);
      true
    else
      var b := Contains(s[1..], sub);
      assert b ==> exists i :: OccursAt(s, sub, i) by {
        if b {
          var i :| OccursAt(s[1..], sub, i);
          assert s[i + 1..i + 1 + |sub|] == s[1..][i..i + |sub|];
          assert OccursAt(s, sub, i + 1);
        }
      }
      assert (exists i :: OccursAt(s, sub, i)) ==> b by {
        if exists i :: OccursAt(s, sub, i) {
          var i :| OccursAt(s, sub, i);
          assert i != 0;
          assert s[1..][i - 1..i - 1 + |sub|] == s[i..i + |sub|];
          assert OccursAt(s[1..], sub, i - 1);
        }
      }
      b
  }

  /** A pattern whose first character never occurs in `s` does not occur in `s`. */
  lemma NotContainsFirst(s: string, sub: string)
    requires |sub| > 0
    requires forall k :: 0 <= k < |s| ==> s[k] != sub[0]
    ensures !Contains(s, sub)
  {
    assert forall i :: OccursAt(s, sub, i) ==> s[i..i + |sub|][0] == s[i];
  }

  /** `s` is `a`, then `mid`, then `b`, so `mid` occurs in `s` right after `a`. */
  lemma InfixOccurs(a: string, mid: string, b: string)
    ensures OccursAt(a + mid + b, mid, |a|)
    ensures Contains(a + mid + b, mid)
  {
    assert (a + mid + b)[|a|..|a| + |mid|] == mid;
    assert OccursAt(a + mid + b, mid, |a|);
  }

  /** An occurrence in `a` is one in `a + b`. */
  lemma ContainsPrefix(a: string, b: string, sub: string)
    requires Contains(a, sub)
    ensures Contains(a + b, sub)
  {
    var i :| OccursAt(a, sub, i);
    assert (a + b)[i..i + |sub|] == a[i..i + |sub|];
    assert OccursAt(a + b, sub, i);
  }

  /** An occurrence in `b` is one in `a + b`. */
  lemma ContainsSuffix(a: string, b: string, sub: string)
    requires Contains(b, sub)
    ensures Contains(a + b, sub)
  {
    var i :| OccursAt(b, sub, i);
    assert (a + b)[|a| + i..|a| + i + |sub|] == b[i..i + |sub|];
    assert OccursAt(a + b, sub, |a| + i);
  }

  lemma ContainsItself(s: string)
    ensures Contains(s, s)
  {
    assert s[0..|s|] == s;
    assert OccursAt(s, s, 0);
  }

  /** Occurrence is transitive: what occurs in a part occurs in the whole. */
  lemma ContainsTransitive(a: string, b: string, c: string)
    requires Contains(a, b) && Contains(b, c)
    ensures Contains(a, c)
  {
    var i :| OccursAt(a, b, i);
    var j :| OccursAt(b, c, j);
    assert forall m :: 0 <= m < |b| ==> a[i + m] == a[i..i + |b|][m] == b[m];
    assert forall k :: 0 <= k < |c| ==> a[i + j..i + j + |c|][k] == b[j + k] == c[k];
    assert OccursAt(a, c, i + j);
  }

  /** `xs.join(sep)`. */
  function Join(xs: seq<string>, sep: string): string {
    if |xs| == 0 then ""
    else if |xs| == 1 then xs[0]
    else xs[0] + sep + Join(xs[1..], sep)
  }

  /** Where the `i`-th element starts in `Join(xs, sep)`: after every earlier element and its
      separator. */
  function Offset(xs: seq<string>, sep: string, i: nat): nat
    requires i <= |xs|
  {
    if i == 0 then 0 else |xs[0]| + |sep| + Offset(xs[1..], sep, i - 1)
  }

  /** An occurrence in `a` stays where it is in `a + b`. */
  lemma OccursBefore(a: string, b: string, sub: string, i: int)
    requires OccursAt(a, sub, i)
    ensures OccursAt(a + b, sub, i)
  {
    assert (a + b)[i..i + |sub|] == a[i..i + |sub|];
  }

  /** An occurrence in `b` moves right by `|a|` in `a + b`. */
  lemma OccursAfter(a: string, b: string, sub: string, i: int)
    requires OccursAt(b, sub, i)
    ensures OccursAt(a + b, sub, |a| + i)
  {
    assert (a + b)[|a| + i..|a| + i + |sub|] == b[i..i + |sub|];
  }

  /** `Join` keeps the elements in order: element `i` sits at `Offset(xs, sep, i)`, and a
      separator follows every element but the last. */
  lemma {:induction false} JoinAt(xs: seq<string>, sep: string, i: nat)
    requires i < |xs|
    ensures OccursAt(Join(xs, sep), xs[i], Offset(xs, sep, i))
    ensures i + 1 < |xs| ==> OccursAt(Join(xs, sep), sep, Offset(xs, sep, i) + |xs[i]|)
  {
    if |xs| == 1 {
      assert xs[0][0..|xs[0]|] == xs[0];
    } else {
      var rest := Join(xs[1..], sep);
      assert Join(xs, sep) == xs[0] + sep + rest;
      if i == 0 {
        assert xs[0][0..|xs[0]|] == xs[0];
        OccursBefore(xs[0], sep + rest, xs[0], 0);
        assert xs[0] + sep + rest == xs[0] + (sep + rest);
        InfixOccurs(xs[0], sep, rest);
      } else {
        JoinAt(xs[1..], sep, i - 1);
        assert xs[1..][i - 1] == xs[i];
        OccursAfter(xs[0] + sep, rest, xs[i], Offset(xs[1..], sep, i - 1));
        if i + 1 < |xs| {
          OccursAfter(xs[0] + sep, rest, sep, Offset(xs[1..], sep, i - 1) + |xs[i]|);
        }
      }
    }
  }

  /** Every element of `xs` can be found in `xs.join(sep)`. */
  lemma JoinMentions(xs: seq<string>, sep: string)
    ensures forall x :: x in xs ==> Contains(Join(xs, sep), x)
  {
    forall x | x in xs
      ensures Contains(Join(xs, sep), x)
    {
      var k :| 0 <= k < |xs| && xs[k] == x;
      JoinAt(xs, sep, k);
      assert OccursAt(Join(xs, sep), x, Offset(xs, sep, k));
    }
  }

  /** What occurs in a joined list occurs wherever that joined list occurs. */
  lemma JoinedWithin(whole: string, xs: seq<string>, sep: string, x: string)
    requires Contains(whole, Join(xs, sep)) && x in xs
    ensures Contains(whole, x)
  {
    JoinMentions(xs, sep);
    ContainsTransitive(whole, Join(xs, sep), x);
  }
}
