/**
 Finding and inserting text: what String.indexOf and slice-and-splice do to the places
 where a pattern occurs.
 */
module Text {

  /** Pattern `p` occurs in `s` at `i`. */
  predicate At(s: string, p: string, i: nat) { i + |p| <= |s| && s[i..i + |p|] == p }

  function IndexFrom(s: string, p: string, from: nat): (r: int)
    ensures r == -1 ==> forall i: nat :: from <= i ==> !At(s, p, i)
    ensures r != -1 ==> from <= r && At(s, p, r) && forall i: nat :: from <= i < r ==> !At(s, p, i)
    decreases |s| - from
  {
    if |s| < from then -1
    else if At(s, p, from) then from
    else if |s| == from then -1
    else IndexFrom(s, p, from + 1)
  }

  /** String.indexOf. */
  function IndexOf(s: string, p: string): int { IndexFrom(s, p, 0) }

  /** String.includes. */
  predicate Includes(s: string, p: string) { IndexOf(s, p) != -1 }

  ghost predicate OccursOnce(s: string, p: string) {
    exists i: nat :: At(s, p, i) && forall j: nat :: At(s, p, j) ==> j == i
  }

  function Insert(s: string, at: nat, x: string): string
    requires at <= |s|
  {
    s[..at] + x + s[at..]
  }

  /** One character that differs is enough. */
  lemma Differs(s: string, p: string, i: nat, q: nat)
    requires q < |p| && i + q < |s| && s[i + q] != p[q]
    ensures !At(s, p, i)
  {
    if i + |p| <= |s| {
      assert s[i..i + |p|][q] == s[i + q];
    }
  }

  lemma IndexIs(s: string, p: string, i: nat)
    requires At(s, p, i) && forall j: nat :: j < i ==> !At(s, p, j)
    ensures IndexOf(s, p) == i
  {
  }

  /** Matches that end before the insertion, or begin after it, are where they were. */
  lemma InsertedMatch(s: string, at: nat, x: string, p: string, i: nat)
    requires at <= |s|
    ensures i + |p| <= at ==> (At(Insert(s, at, x), p, i) <==> At(s, p, i))
    ensures at <= i ==> (At(Insert(s, at, x), p, i + |x|) <==> At(s, p, i))
  {
    var t := Insert(s, at, x);
    if i + |p| <= at {
      assert t[i..i + |p|] == s[i..i + |p|];
    }
    if at <= i && i + |p| <= |s| {
      assert t[i + |x|..i + |x| + |p|] == s[i..i + |p|];
    }
  }

  /** No match of `p` in `s` reaches across position `at`. */
  ghost predicate NotCut(s: string, at: nat, p: string) {
    forall i: nat :: At(s, p, i) ==> i + |p| <= at || at <= i
  }

  /** Inserting `x` there neither cuts a match of `p` nor makes one. */
  ghost predicate Clear(s: string, at: nat, x: string, p: string) {
    at <= |s| && NotCut(s, at, p) &&
    forall i: nat :: At(Insert(s, at, x), p, i) ==> i + |p| <= at || at + |x| <= i
  }

  function Shifted(i: nat, at: nat, x: string): nat { if i < at then i else i + |x| }

  lemma ClearMatches(s: string, at: nat, x: string, p: string, i: nat)
    requires Clear(s, at, x, p) && p != ""
    ensures At(s, p, i) ==> At(Insert(s, at, x), p, Shifted(i, at, x))
    ensures At(Insert(s, at, x), p, i) ==>
              exists j: nat :: At(s, p, j) && i == Shifted(j, at, x)
  {
    InsertedMatch(s, at, x, p, i);
    var t := Insert(s, at, x);
    if At(t, p, i) {
      if i + |p| <= at {
        assert At(s, p, i) && i == Shifted(i, at, x);
      } else {
        var j: nat := i - |x|;
        InsertedMatch(s, at, x, p, j);
        assert At(s, p, j) && i == Shifted(j, at, x);
      }
    }
  }

  /** So indexOf finds the same match, moved along with the text around it. */
  lemma ClearIndex(s: string, at: nat, x: string, p: string)
    requires Clear(s, at, x, p) && p != ""
    ensures var i := IndexOf(s, p);
            IndexOf(Insert(s, at, x), p) == if i == -1 then -1 else Shifted(i, at, x)
  {
    var t := Insert(s, at, x);
    forall i: nat
      ensures At(s, p, i) ==> At(t, p, Shifted(i, at, x))
      ensures At(t, p, i) ==> exists j: nat :: At(s, p, j) && i == Shifted(j, at, x)
    {
      ClearMatches(s, at, x, p, i);
    }
    var i := IndexOf(s, p);
    if i != -1 {
      IndexIs(t, p, Shifted(i, at, x));
    }
  }

  lemma ClearOnce(s: string, at: nat, x: string, p: string)
    requires Clear(s, at, x, p) && p != "" && OccursOnce(s, p)
    ensures OccursOnce(Insert(s, at, x), p)
  {
    var i: nat :| At(s, p, i) && forall j: nat :: At(s, p, j) ==> j == i;
    ClearMatches(s, at, x, p, i);
    forall j: nat | At(Insert(s, at, x), p, j) ensures j == Shifted(i, at, x) {
      ClearMatches(s, at, x, p, j);
    }
  }

  /** Two insertions at different places can be made in either order. */
  lemma InsertCommutes(s: string, a: nat, x: string, b: nat, y: string)
    requires a <= b <= |s|
    ensures Insert(Insert(s, b, y), a, x) == Insert(Insert(s, a, x), b + |x|, y)
  {
    assert Insert(s, b, y)[a..] == s[a..b] + y + s[b..];
    assert Insert(s, a, x)[b + |x|..] == s[b..];
    assert Insert(s, a, x)[..b + |x|] == s[..a] + x + s[a..b];
  }

  /**
   A pattern without a line break cannot begin before text that begins with one and
   reach into it, so only the offsets inside the text matter.
   */
  ghost predicate StartsNowhere(x: string, p: string) {
    forall o :: 1 <= o < |x| ==> Mismatch(x, o, p)
  }

  /** Within `x` itself, `p` laid at offset `o` already disagrees. */
  ghost predicate Mismatch(x: string, o: nat, p: string) {
    exists q :: Unlike(x, o, p, q)
  }

  predicate Unlike(x: string, o: nat, p: string, q: int) {
    0 <= q < |p| && o + q < |x| && x[o + q] != p[q]
  }

  lemma ClearFrom(s: string, at: nat, x: string, p: string)
    requires at <= |s| && NotCut(s, at, p)
    requires x != "" && x[0] == '\n' && '\n' !in p && StartsNowhere(x, p)
    ensures Clear(s, at, x, p)
  {
    var t := Insert(s, at, x);
    forall i: nat ensures At(t, p, i) ==> i + |p| <= at || at + |x| <= i {
      if i <= at < i + |p| {
        Differs(t, p, i, at - i);
      } else if at < i < at + |x| {
        var o := i - at;
        assert Mismatch(x, o, p);
        var q :| Unlike(x, o, p, q);
        assert t[i + q] == x[o + q];
        Differs(t, p, i, q);
      }
    }
  }
}
