/** Sources with any number of old blocks of either kind: the device-owner patch forgets them all. */
module MainApplicationBlocks {
  import opened Text
  import opened Markers
  import opened MainApplication
  import opened MainApplicationRuns

  function Concat(us: seq<string>): string {
    if us == [] then "" else us[0] + Concat(us[1..])
  }

  /** The texts `us` with a block of `bs` between each two of them. */
  function With(us: seq<string>, bs: seq<string>): string
    requires |us| == |bs| + 1
  {
    if bs == [] then us[0] else us[0] + bs[0] + With(us[1..], bs[1..])
  }

  ghost predicate Blocks(e: Expression, bs: seq<string>) { forall i :: 0 <= i < |bs| ==> OldBlock(e, bs[i]) }

  /** One expression takes all its blocks out of a text that has no other head. */
  lemma {:induction false} StripsAll(e: Expression, indent: nat, us: seq<string>, bs: seq<string>)
    requires |us| == |bs| + 1 && Indented(e.head, indent) && Blocks(e, bs) && Absent(Concat(us), e.head)
    ensures Strip(e, With(us, bs)) == Concat(us)
    decreases |us|
  {
    hide Indented, OldBlock, Strip, At;
    var y := Concat(us);
    assert y == us[0] + Concat(us[1..]);
    assert y[..|us[0]|] == us[0] && y[|us[0]|..] == Concat(us[1..]);
    PartAbsent(y, |us[0]|, e.head);
    if bs == [] {
      assert us[1..] == [] && y == us[0];
      NoHeadNoStrip(e, indent, us[0]);
    } else {
      StripsAll(e, indent, us[1..], bs[1..]);
      StripRemoves(e, indent, us[0], bs[0], With(us[1..], bs[1..]));
    }
  }

  // ---------------------------------------------------------------- registering beside the blocks

  /** Where text `k` begins. */
  function Offset(us: seq<string>, bs: seq<string>, k: nat): nat
    requires |us| == |bs| + 1 && k < |us|
  {
    if k == 0 then 0 else |us[0]| + |bs[0]| + Offset(us[1..], bs[1..], k - 1)
  }

  function OffsetIn(us: seq<string>, k: nat): nat
    requires k < |us|
  {
    if k == 0 then 0 else |us[0]| + OffsetIn(us[1..], k - 1)
  }

  /** The first packages anchor of the text with its blocks is the first one without them, whole in text `k`. */
  ghost predicate Locates(us: seq<string>, bs: seq<string>, k: nat, o: nat)
    requires |us| == |bs| + 1
  {
    && k < |us| && o + |PACKAGES| <= |us[k]|
    && IndexOf(With(us, bs), PACKAGES) == Offset(us, bs, k) + o
    && IndexOf(Concat(us), PACKAGES) == OffsetIn(us, k) + o
  }

  ghost predicate Located(us: seq<string>, bs: seq<string>)
    requires |us| == |bs| + 1
  {
    exists k: nat, o: nat :: Locates(us, bs, k, o)
  }

  lemma InsertFirst(a: string, b: string, at: nat, x: string)
    requires at <= |a|
    ensures Insert(a + b, at, x) == Insert(a, at, x) + b
  {
    assert (a + b)[..at] == a[..at] && (a + b)[at..] == a[at..] + b;
  }

  lemma InsertSecond(a: string, b: string, at: nat, x: string)
    requires at <= |b|
    ensures Insert(a + b, |a| + at, x) == a + Insert(b, at, x)
  {
    assert (a + b)[..|a| + at] == a + b[..at] && (a + b)[|a| + at..] == b[at..];
  }

  lemma {:induction false} InsertWith(us: seq<string>, bs: seq<string>, k: nat, at: nat, x: string)
    requires |us| == |bs| + 1 && k < |us| && at <= |us[k]|
    ensures Offset(us, bs, k) + at <= |With(us, bs)|
    ensures With(us[k := Insert(us[k], at, x)], bs) == Insert(With(us, bs), Offset(us, bs, k) + at, x)
    decreases |us|
  {
    hide Insert;
    var us' := us[k := Insert(us[k], at, x)];
    if bs == [] {
    } else if k == 0 {
      var rest := With(us[1..], bs[1..]);
      assert us'[1..] == us[1..];
      assert With(us, bs) == us[0] + (bs[0] + rest);
      InsertFirst(us[0], bs[0] + rest, at, x);
      assert Insert(us[0], at, x) + (bs[0] + rest) == Insert(us[0], at, x) + bs[0] + rest;
    } else {
      InsertWith(us[1..], bs[1..], k - 1, at, x);
      assert us'[1..] == us[1..][k - 1 := Insert(us[k], at, x)];
      InsertSecond(us[0] + bs[0], With(us[1..], bs[1..]), Offset(us[1..], bs[1..], k - 1) + at, x);
    }
  }

  lemma {:induction false} InsertConcat(us: seq<string>, k: nat, at: nat, x: string)
    requires k < |us| && at <= |us[k]|
    ensures OffsetIn(us, k) + at <= |Concat(us)|
    ensures Concat(us[k := Insert(us[k], at, x)]) == Insert(Concat(us), OffsetIn(us, k) + at, x)
    decreases |us|
  {
    hide Insert;
    var us' := us[k := Insert(us[k], at, x)];
    if k == 0 {
      assert us'[1..] == us[1..];
      InsertFirst(us[0], Concat(us[1..]), at, x);
    } else {
      InsertConcat(us[1..], k - 1, at, x);
      assert us'[1..] == us[1..][k - 1 := Insert(us[k], at, x)];
      InsertSecond(us[0], Concat(us[1..]), OffsetIn(us[1..], k - 1) + at, x);
    }
  }

  /** Registering beside the blocks is registering in the text without them. */
  lemma RegistersBeside(us: seq<string>, bs: seq<string>, x: string) returns (us': seq<string>)
    requires |us| == |bs| + 1 && Located(us, bs)
    ensures |us'| == |us| && Includes(With(us, bs), PACKAGES) && Includes(Concat(us), PACKAGES)
    ensures With(us', bs) == Insert(With(us, bs), After(With(us, bs), PACKAGES), x)
    ensures Concat(us') == Insert(Concat(us), After(Concat(us), PACKAGES), x)
  {
    hide Insert, IndexFrom, PACKAGES, With, Concat;
    var k: nat, o: nat :| Locates(us, bs, k, o);
    us' := us[k := Insert(us[k], o + |PACKAGES|, x)];
    InsertWith(us, bs, k, o + |PACKAGES|, x);
    InsertConcat(us, k, o + |PACKAGES|, x);
  }

  // ---------------------------------------------------------------- the patch

  /**
   `us` with current blocks between them, which without those is `vs` with legacy blocks between
   them, which without those is bare. Neither kind hides the packages anchor.
   */
  ghost predicate Layered(us: seq<string>, bs: seq<string>, vs: seq<string>, ls: seq<string>) {
    && |us| == |bs| + 1 && |vs| == |ls| + 1
    && Blocks(CURRENT, bs) && Blocks(LEGACY, ls)
    && Concat(us) == With(vs, ls) && Absent(Concat(us), BEGIN) && Bare(Concat(vs))
    && Located(us, bs) && Located(vs, ls)
  }

  /** Both expressions together take out every block. */
  lemma StripsBoth(us: seq<string>, bs: seq<string>, vs: seq<string>, ls: seq<string>)
    requires |us| == |bs| + 1 && |vs| == |ls| + 1 && Blocks(CURRENT, bs) && Blocks(LEGACY, ls)
    requires Concat(us) == With(vs, ls) && Absent(Concat(us), BEGIN) && Bare(Concat(vs))
    ensures Strip(LEGACY, Strip(CURRENT, With(us, bs))) == Concat(vs)
  {
    hide Strip, Indented, Concat, With, BEGIN, HEADER, IndexFrom;
    HeadsAreIndented();
    StripsAll(CURRENT, 4, us, bs);
    StripsAll(LEGACY, 0, vs, ls);
  }

  lemma LineKeepsAbsent(p: Plugin, s: string)
    requires Includes(s, PACKAGES) && Absent(s, BEGIN)
    ensures Absent(Insert(s, After(s, PACKAGES), RegistrationLine(p)), BEGIN)
  {
    hide Insert, IndexFrom, Registration, RegistrationLine, PACKAGES, BEGIN;
    CommentsApart(p);
    RegistrationClear(p, s, BEGIN);
    ClearAbsent(s, After(s, PACKAGES), RegistrationLine(p), BEGIN);
  }

  /**
   However many old blocks of whatever body a source holds, the device-owner patch gives what it
   gives for the bare text, as long as the blocks decide nothing about the registration.
   */
  lemma PatchForgetsBlocks(us: seq<string>, bs: seq<string>, vs: seq<string>, ls: seq<string>, block: string)
    requires Layered(us, bs, vs, ls)
    requires Includes(With(us, bs), Registration(DeviceOwner)) <==> Includes(Concat(vs), Registration(DeviceOwner))
    ensures Patch(DeviceOwner, With(us, bs), block) == Patch(DeviceOwner, Concat(vs), block)
  {
    hide Strip, Insert, IndexFrom, With, Concat, Located, Blocks, Registration, RegistrationLine, PACKAGES, CREATE, BEGIN,
         HEADER, CURRENT, LEGACY, Absent;
    var t, y, x := With(us, bs), Concat(vs), RegistrationLine(DeviceOwner);
    PatchBare(y, block);
    if Includes(y, Registration(DeviceOwner)) {
      StripsBoth(us, bs, vs, ls);
    } else {
      var us' := RegistersBeside(us, bs, x);
      var vs' := RegistersBeside(vs, ls, x);
      LineKeepsAbsent(DeviceOwner, Concat(us));
      StripsBoth(us', bs, vs', ls);
    }
  }

  /** So a prebuild that begins with the device-owner plugin cannot tell the two apart. */
  lemma PrebuildForgetsBlocks(us: seq<string>, bs: seq<string>, vs: seq<string>, ls: seq<string>, plugins: seq<Plugin>,
                              block: string)
    requires Layered(us, bs, vs, ls)
    requires Includes(With(us, bs), Registration(DeviceOwner)) <==> Includes(Concat(vs), Registration(DeviceOwner))
    ensures Prebuild([DeviceOwner] + plugins, With(us, bs), block) == Prebuild([DeviceOwner] + plugins, Concat(vs), block)
  {
    hide Patch, With, Concat, Layered, Includes, Registration;
    PatchForgetsBlocks(us, bs, vs, ls, block);
    assert ([DeviceOwner] + plugins)[0] == DeviceOwner && ([DeviceOwner] + plugins)[1..] == plugins;
  }
}
