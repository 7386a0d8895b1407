/**
 What any number of prebuild runs, in any order, make of MainApplication.kt.

 A source is described by its bare text, which carries no block, and possibly by the block
 an older build left in it.
 */
module MainApplicationRuns {
  import opened Text
  import opened Markers
  import opened MainApplication

  function Other(p: Plugin): Plugin { if p == DeviceOwner then GpsCapture else DeviceOwner }

  // ---------------------------------------------------------------- the markers keep apart

  /** Registering `p` after the packages anchor neither cuts a match of `m` nor makes one. */
  ghost predicate Apart(p: Plugin, m: string) {
    m != "" && '\n' !in m && NoOverlap(PACKAGES, m) && StartsNowhere(RegistrationLine(p), m)
  }

  lemma AnchorsApart(p: Plugin)
    ensures Apart(p, PACKAGES) && Apart(p, CREATE)
  {
    AnchorsOnOneLine();
    AnchorsLackBrace();
    PackagesOverlapsNothing(PACKAGES);
    PackagesOverlapsNothing(CREATE);
    RegistrationMissesPackages(p);
    RegistrationMissesOthers(p);
  }

  lemma CommentsApart(p: Plugin)
    ensures Apart(p, BEGIN) && Apart(p, HEADER)
  {
    MarkerPairs();
    AnchorsOnOneLine();
    CommentsLackBrace();
    PackagesOverlapsNothing(BEGIN);
    PackagesOverlapsNothing(HEADER);
    RegistrationMissesBegin(p);
    RegistrationMissesOthers(p);
  }

  lemma RegistrationsApart(p: Plugin)
    ensures Apart(p, Registration(Other(p)))
  {
    RegistrationsOnOneLine(Other(p));
    RegistrationsLackBrace(Other(p));
    PackagesOverlapsNothing(Registration(Other(p)));
    RegistrationsDiffer(p, Other(p));
  }

  /** Injecting `block` after the create anchor leaves every match of `m` alone. */
  ghost predicate BlockApart(block: string, m: string) {
    m != "" && '\n' !in m && NoOverlap(CREATE, m) && StartsNowhere(block, m)
  }

  /** What the theorems need of an injected block: today's has it, whatever else it calls. */
  ghost predicate Good(block: string) {
    MatchedWhole(block) && OneBegin(block) && BlockApart(block, PACKAGES) &&
    forall p :: BlockApart(block, Registration(p))
  }

  ghost predicate MatchedWhole(block: string) {
    block != "" && block[0] == '\n' && At(block, BEGIN, 1) && OldBlock(CURRENT, block)
  }

  ghost predicate OneBegin(block: string) {
    forall o :: 2 <= o < |block| ==> Mismatch(block, o, BEGIN)
  }

  lemma PackagesApartFromBlock()
    ensures BlockApart(BLOCK, PACKAGES)
  {
    AnchorsOnOneLine();
    PackagesUnlikeCreate();
    CreateOverlapsNothing(PACKAGES);
    BlockMissesPackages();
  }

  lemma RegistrationApartFromBlock(p: Plugin)
    ensures BlockApart(BLOCK, Registration(p))
  {
    RegistrationsOnOneLine(p);
    RegistrationUnlikeCreate(p);
    CreateOverlapsNothing(Registration(p));
    BlockMissesRegistration(p);
  }

  lemma DelimitedBegins(begin: string, rest: string)
    requires Indented(begin, 4)
    ensures var x := "\n" + begin + rest;
            x[0] == '\n' && At(x, begin, 1) && Blanks(x, 1) == 4
  {
    var x := "\n" + begin + rest;
    assert x[1..1 + |begin|] == begin;
    assert forall i :: 0 <= i < 4 ==> x[1 + i] == begin[i];
    assert x[5] == begin[4];
    assert Blanks(x, 5) == 0 && Blanks(x, 4) == 1 && Blanks(x, 3) == 2 && Blanks(x, 2) == 3;
  }

  lemma DelimitedBlock(begin: string, body: seq<seq<string>>, end: string)
    requires Indented(begin, 4)
    requires IndexFrom(Delimited(begin, body, end), end, 1 + |begin|) == |Delimited(begin, body, end)| - |end|
    ensures var x := Delimited(begin, body, end);
            x != "" && x[0] == '\n' && At(x, begin, 1) && OldBlock(Marked(begin, end), x)
  {
    hide Lines, Match, Strip, IndexFrom, Indented;
    var x := Delimited(begin, body, end);
    DelimitedBegins(begin, Lines(body) + "\n" + end);
    assert x == "\n" + begin + (Lines(body) + "\n" + end);
    MatchAt(Marked(begin, end), 4, x, 1, |x|);
  }

  lemma ShippedBlockMatches()
    ensures MatchedWhole(BLOCK)
  {
    HeadsAreIndented();
    EndComesLast();
    DelimitedBlock(BEGIN, BODY, END);
  }

  lemma ShippedBlockBeginsOnce()
    ensures OneBegin(BLOCK)
  {
    BeginStartsOnce();
  }

  lemma GoodFromParts(block: string)
    requires MatchedWhole(block) && OneBegin(block) && BlockApart(block, PACKAGES)
    requires BlockApart(block, Registration(DeviceOwner)) && BlockApart(block, Registration(GpsCapture))
    ensures Good(block)
  {
    forall p ensures BlockApart(block, Registration(p)) {
      assert p == DeviceOwner || p == GpsCapture;
    }
  }

  lemma ShippedBlockIsGood()
    ensures Good(BLOCK)
  {
    ShippedBlockMatches();
    ShippedBlockBeginsOnce();
    PackagesApartFromBlock();
    RegistrationApartFromBlock(DeviceOwner);
    RegistrationApartFromBlock(GpsCapture);
    GoodFromParts(BLOCK);
  }

  // ---------------------------------------------------------------- bare sources

  ghost predicate Absent(s: string, m: string) { forall i: nat :: !At(s, m, i) }

  /** Both anchors, and no marker text of ours. */
  ghost predicate Bare(y: string) {
    Includes(y, PACKAGES) && Includes(y, CREATE) && Absent(y, BEGIN) && Absent(y, HEADER)
  }

  function After(s: string, anchor: string): nat
    requires Includes(s, anchor)
    ensures After(s, anchor) <= |s|
  {
    IndexOf(s, anchor) + |anchor|
  }

  /** The bare source with package `p` registered. */
  function Registered(p: Plugin, y: string): string
    requires Includes(y, PACKAGES)
  {
    if Includes(y, Registration(p)) then y else Insert(y, After(y, PACKAGES), RegistrationLine(p))
  }

  /** The bare source with the block after the create anchor. */
  function Anchored(y: string, block: string): string
    requires Includes(y, CREATE)
  {
    Insert(y, After(y, CREATE), block)
  }

  lemma RegistrationClear(p: Plugin, s: string, m: string)
    requires Includes(s, PACKAGES) && Apart(p, m)
    ensures Clear(s, After(s, PACKAGES), RegistrationLine(p), m)
  {
    NotCutAfter(s, IndexOf(s, PACKAGES), PACKAGES, m);
    LineChars(p);
    ClearFrom(s, After(s, PACKAGES), RegistrationLine(p), m);
  }

  lemma ClearAbsent(s: string, at: nat, x: string, m: string)
    requires Clear(s, at, x, m) && m != ""
    ensures Absent(s, m) ==> Absent(Insert(s, at, x), m)
    ensures Includes(Insert(s, at, x), m) <==> Includes(s, m)
  {
    ClearIndex(s, at, x, m);
    if Absent(s, m) {
      forall i: nat ensures !At(Insert(s, at, x), m, i) {
        ClearMatches(s, at, x, m, i);
      }
    }
  }

  lemma RegistrationIncluded(p: Plugin, s: string)
    requires Includes(s, PACKAGES)
    ensures Includes(Insert(s, After(s, PACKAGES), RegistrationLine(p)), Registration(p))
  {
    var at, x, r := After(s, PACKAGES), RegistrationLine(p), Registration(p);
    LineChars(p);
    var t := Insert(s, at, x);
    assert t[at + 15..at + 15 + |r|] == x[15..];
    assert At(t, r, at + 15);
  }

  /** A registration line after the packages anchor keeps a bare source bare. */
  lemma InsertedIsBare(p: Plugin, y: string)
    requires Bare(y)
    ensures Bare(Insert(y, After(y, PACKAGES), RegistrationLine(p)))
  {
    var at, x := After(y, PACKAGES), RegistrationLine(p);
    AnchorsApart(p);
    CommentsApart(p);
    RegistrationClear(p, y, PACKAGES);
    RegistrationClear(p, y, CREATE);
    RegistrationClear(p, y, BEGIN);
    RegistrationClear(p, y, HEADER);
    ClearAbsent(y, at, x, PACKAGES);
    ClearAbsent(y, at, x, CREATE);
    ClearAbsent(y, at, x, BEGIN);
    ClearAbsent(y, at, x, HEADER);
  }

  /** Registering keeps a bare source bare, and touches no other registration. */
  lemma RegisteredIsBare(p: Plugin, y: string)
    requires Bare(y)
    ensures Bare(Registered(p, y)) && Includes(Registered(p, y), Registration(p))
    ensures Includes(Registered(p, y), Registration(Other(p))) <==> Includes(y, Registration(Other(p)))
  {
    if !Includes(y, Registration(p)) {
      var at, x := After(y, PACKAGES), RegistrationLine(p);
      InsertedIsBare(p, y);
      RegistrationsApart(p);
      RegistrationClear(p, y, Registration(Other(p)));
      ClearAbsent(y, at, x, Registration(Other(p)));
      RegistrationIncluded(p, y);
    }
  }

  // ---------------------------------------------------------------- sources with an old block

  /** With `x` at `at` the first `anchor` is still the first, moved along with its text and whole. */
  ghost predicate Found(y: string, at: nat, x: string, anchor: string) {
    at <= |y| && Includes(y, anchor) && (After(y, anchor) <= at || at <= IndexOf(y, anchor)) &&
    IndexOf(Insert(y, at, x), anchor) == Shifted(IndexOf(y, anchor), at, x)
  }

  ghost predicate Kept(y: string, at: nat, x: string, m: string) {
    at <= |y| && (Includes(Insert(y, at, x), m) <==> Includes(y, m))
  }

  /**
   The bare source `y` with an older build's block `b` at `at`, whatever its body. The block
   contains and splits neither the packages anchor nor a registration.
   */
  ghost predicate Old(e: Expression, y: string, at: nat, b: string) {
    (e == CURRENT || e == LEGACY) && Bare(y) && OldBlock(e, b) && Found(y, at, b, PACKAGES) &&
    Kept(y, at, b, Registration(DeviceOwner)) && Kept(y, at, b, Registration(GpsCapture)) &&
    (e == LEGACY ==> Absent(Insert(y, at, b), BEGIN))
  }

  /** Splicing after an anchor is the same with a block elsewhere in the text as without it. */
  lemma SplicePastBlock(y: string, at: nat, b: string, anchor: string, x: string) returns (at': nat)
    requires anchor != "" && Found(y, at, b, anchor)
    ensures at' == if at < After(y, anchor) then at else at + |x|
    ensures var t, y' := Insert(y, at, b), Insert(y, After(y, anchor), x);
            && Includes(t, anchor) && at' <= |y'|
            && Insert(t, After(t, anchor), x) == Insert(y', at', b)
  {
    var a := After(y, anchor);
    if a <= at {
      InsertCommutes(y, a, x, at, b);
      at' := at + |x|;
    } else {
      InsertCommutes(y, at, b, a, x);
      at' := at;
    }
  }

  lemma StaysFound(y: string, at: nat, b: string, anchor: string, x: string, at': nat)
    requires anchor != "" && Found(y, at, b, anchor)
    requires at' == if at < After(y, anchor) then at else at + |x|
    requires var y' := Insert(y, After(y, anchor), x);
             at' <= |y'| && Insert(Insert(y, at, b), After(Insert(y, at, b), anchor), x) == Insert(y', at', b)
    ensures Found(Insert(y, After(y, anchor), x), at', b, anchor)
  {
    FirstStaysFirst(y, anchor, x);
    FirstStaysFirst(Insert(y, at, b), anchor, x);
  }

  lemma FirstStaysFirst(s: string, anchor: string, x: string)
    requires Includes(s, anchor) && anchor != ""
    ensures IndexOf(Insert(s, After(s, anchor), x), anchor) == IndexOf(s, anchor)
  {
    var i, at := IndexOf(s, anchor), After(s, anchor);
    forall j: nat | j <= i ensures At(Insert(s, at, x), anchor, j) <==> At(s, anchor, j) {
      InsertedMatch(s, at, x, anchor, j);
    }
    IndexIs(Insert(s, at, x), anchor, i);
  }

  lemma AnchorsNotEmpty()
    ensures PACKAGES != "" && CREATE != ""
  {
  }

  /** Registering in a source with a block is registering in the bare source. */
  lemma RegisterOld(e: Expression, y: string, at: nat, b: string, p: Plugin) returns (at': nat)
    requires Old(e, y, at, b)
    ensures at' == if Includes(y, Registration(p)) || at < After(y, PACKAGES) then at
                   else at + |RegistrationLine(p)|
    ensures Old(e, Registered(p, y), at', b)
    ensures Register(p, Insert(y, at, b)) == Some(Insert(Registered(p, y), at', b))
  {
    hide Insert, At, IndexFrom, OldBlock, Bare, Absent, PACKAGES, BEGIN, Registration, RegistrationLine, CURRENT, LEGACY;
    if Includes(y, Registration(p)) {
      at' := at;
    } else {
      AnchorsNotEmpty();
      at' := SplicePastBlock(y, at, b, PACKAGES, RegistrationLine(p));
      StaysFound(y, at, b, PACKAGES, RegistrationLine(p), at');
      RegisteredIsBare(p, y);
      RegistrationKept(y, at, b, p);
      if e == LEGACY {
        var t := Insert(y, at, b);
        CommentsApart(p);
        RegistrationClear(p, t, BEGIN);
        ClearAbsent(t, After(t, PACKAGES), RegistrationLine(p), BEGIN);
      }
    }
  }

  lemma RegistrationKept(y: string, at: nat, b: string, p: Plugin)
    requires Found(y, at, b, PACKAGES) && Kept(y, at, b, Registration(Other(p)))
    ensures var t, x := Insert(y, at, b), RegistrationLine(p);
            && Includes(t, PACKAGES)
            && Includes(Insert(t, After(t, PACKAGES), x), Registration(p))
            && (Includes(Insert(t, After(t, PACKAGES), x), Registration(Other(p)))
                <==> Includes(Insert(y, After(y, PACKAGES), x), Registration(Other(p))))
  {
    var t, x, r := Insert(y, at, b), RegistrationLine(p), Registration(Other(p));
    RegistrationIncluded(p, t);
    RegistrationsApart(p);
    RegistrationClear(p, t, r);
    RegistrationClear(p, y, r);
    ClearAbsent(t, After(t, PACKAGES), x, r);
    ClearAbsent(y, After(y, PACKAGES), x, r);
  }

  lemma PartAbsent(y: string, at: nat, m: string)
    requires at <= |y| && Absent(y, m)
    ensures Absent(y[..at], m) && Absent(y[at..], m)
  {
    forall i: nat ensures !At(y[..at], m, i) && !At(y[at..], m, i) {
      if i + |m| <= at {
        assert y[..at][i..i + |m|] == y[i..i + |m|];
        assert !At(y, m, i);
      }
      if at + i + |m| <= |y| {
        assert y[at..][i..i + |m|] == y[at + i..at + i + |m|];
        assert !At(y, m, at + i);
      }
    }
  }

  /** An expression takes its own block out again. */
  lemma StripBlock(e: Expression, indent: nat, y: string, at: nat, b: string)
    requires at <= |y| && Indented(e.head, indent) && OldBlock(e, b) && Absent(y, e.head)
    ensures Strip(e, Insert(y, at, b)) == y
  {
    var u, v := y[..at], y[at..];
    PartAbsent(y, at, e.head);
    NoHeadNoStrip(e, indent, v);
    StripRemoves(e, indent, u, b, v);
    assert u + v == y;
  }

  /** The device-owner patch forgets the old block: the outcome is that of the bare source. */
  lemma PatchOld(e: Expression, y: string, at: nat, b: string, block: string)
    requires Old(e, y, at, b)
    ensures Bare(Registered(DeviceOwner, y))
    ensures Patch(DeviceOwner, Insert(y, at, b), block) == Some(Anchored(Registered(DeviceOwner, y), block))
  {
    var at' := RegisterOld(e, y, at, b, DeviceOwner);
    StripStrippable(e, Registered(DeviceOwner, y), at', b);
  }

  lemma PatchBare(y: string, block: string)
    requires Bare(y)
    ensures Bare(Registered(DeviceOwner, y))
    ensures Patch(DeviceOwner, y, block) == Some(Anchored(Registered(DeviceOwner, y), block))
    ensures Patch(GpsCapture, y, block) == Some(Registered(GpsCapture, y))
  {
    RegisteredIsBare(DeviceOwner, y);
    HeadsAreIndented();
    NoHeadNoStrip(CURRENT, 4, Registered(DeviceOwner, y));
    NoHeadNoStrip(LEGACY, 0, Registered(DeviceOwner, y));
  }

  // ---------------------------------------------------------------- patched sources

  lemma BlockClear(y: string, block: string, m: string)
    requires Includes(y, CREATE) && BlockApart(block, m) && block != "" && block[0] == '\n'
    ensures Clear(y, After(y, CREATE), block, m)
  {
    NotCutAfter(y, IndexOf(y, CREATE), CREATE, m);
    ClearFrom(y, After(y, CREATE), block, m);
  }

  lemma BlockFound(y: string, block: string, m: string)
    requires Includes(y, CREATE) && BlockApart(block, m) && block != "" && block[0] == '\n'
    ensures Kept(y, After(y, CREATE), block, m)
    ensures Includes(y, m) ==> Found(y, After(y, CREATE), block, m)
  {
    BlockClear(y, block, m);
    ClearIndex(y, After(y, CREATE), block, m);
    if Includes(y, m) {
      assert At(y, m, IndexOf(y, m));
    }
  }

  /** A source the device-owner plugin has patched is a bare source with an old block. */
  lemma AnchoredIsOld(y: string, block: string)
    requires Bare(y) && Good(block)
    ensures Old(CURRENT, y, After(y, CREATE), block)
  {
    BlockFound(y, block, PACKAGES);
    BlockFound(y, block, Registration(DeviceOwner));
    BlockFound(y, block, Registration(GpsCapture));
  }

  /** The anchors end in different characters. */
  lemma AnchorsEndApart(y: string)
    requires Includes(y, PACKAGES) && Includes(y, CREATE)
    ensures After(y, PACKAGES) != After(y, CREATE)
  {
    LastChar(y, PACKAGES, IndexOf(y, PACKAGES));
    LastChar(y, CREATE, IndexOf(y, CREATE));
    AnchorsEnd();
  }

  lemma LastChar(y: string, m: string, i: nat)
    requires At(y, m, i) && m != ""
    ensures y[i + |m| - 1] == m[|m| - 1]
  {
    assert y[i..i + |m|][|m| - 1] == y[i + |m| - 1];
  }

  lemma AnchorsEnd()
    ensures PACKAGES[|PACKAGES| - 1] != CREATE[|CREATE| - 1]
  {
  }

  /** The place after the create anchor moves with the text when a registration is inserted. */
  lemma CreateMoves(y: string, p: Plugin)
    requires Bare(y) && !Includes(y, Registration(p))
    ensures Bare(Registered(p, y))
    ensures After(Registered(p, y), CREATE) ==
            if After(y, CREATE) < After(y, PACKAGES) then After(y, CREATE)
            else After(y, CREATE) + |RegistrationLine(p)|
  {
    RegisteredIsBare(p, y);
    AnchorsApart(p);
    RegistrationClear(p, y, CREATE);
    ClearIndex(y, After(y, PACKAGES), RegistrationLine(p), CREATE);
    AnchorsEndApart(y);
    assert At(y, CREATE, IndexOf(y, CREATE));
  }

  lemma PatchAnchoredGps(y: string, block: string)
    requires Bare(y) && Good(block)
    ensures Bare(Registered(GpsCapture, y))
    ensures Patch(GpsCapture, Anchored(y, block), block) == Some(Anchored(Registered(GpsCapture, y), block))
  {
    AnchoredIsOld(y, block);
    var at' := RegisterOld(CURRENT, y, After(y, CREATE), block, GpsCapture);
    if !Includes(y, Registration(GpsCapture)) {
      CreateMoves(y, GpsCapture);
    }
  }

  /** Both patches act on an anchored source as registering acts on its bare text. */
  lemma PatchAnchored(y: string, p: Plugin, block: string)
    requires Bare(y) && Good(block)
    ensures Bare(Registered(p, y))
    ensures Patch(p, Anchored(y, block), block) == Some(Anchored(Registered(p, y), block))
  {
    if p == DeviceOwner {
      AnchoredIsOld(y, block);
      PatchOld(CURRENT, y, After(y, CREATE), block, block);
    } else {
      PatchAnchoredGps(y, block);
    }
  }

  // ---------------------------------------------------------------- what an old body may hold

  /** A block either plugin's stripping takes out again, placed where it hides no anchor. */
  ghost predicate Strippable(e: Expression, y: string, at: nat, b: string) {
    (e == CURRENT || e == LEGACY) && Bare(y) && OldBlock(e, b) && Found(y, at, b, PACKAGES) &&
    (e == LEGACY ==> Absent(Insert(y, at, b), BEGIN))
  }

  lemma StripStrippable(e: Expression, y: string, at: nat, b: string)
    requires Strippable(e, y, at, b)
    ensures Strip(LEGACY, Strip(CURRENT, Insert(y, at, b))) == y
  {
    HeadsAreIndented();
    if e == CURRENT {
      StripBlock(CURRENT, 4, y, at, b);
      NoHeadNoStrip(LEGACY, 0, y);
    } else {
      NoHeadNoStrip(CURRENT, 4, Insert(y, at, b));
      StripBlock(LEGACY, 0, y, at, b);
    }
  }

  /** With the registration line inserted the block can still be taken out. */
  lemma StillStrippable(e: Expression, y: string, at: nat, b: string, p: Plugin) returns (at': nat)
    requires Strippable(e, y, at, b)
    ensures var t, x := Insert(y, at, b), RegistrationLine(p);
            var y1 := Insert(y, After(y, PACKAGES), x);
            Strippable(e, y1, at', b) && Includes(t, PACKAGES) && Insert(t, After(t, PACKAGES), x) == Insert(y1, at', b)
  {
    at' := SplicePastBlock(y, at, b, PACKAGES, RegistrationLine(p));
    StaysFound(y, at, b, PACKAGES, RegistrationLine(p), at');
    InsertedIsBare(p, y);
    if e == LEGACY {
      var t := Insert(y, at, b);
      CommentsApart(p);
      RegistrationClear(p, t, BEGIN);
      ClearAbsent(t, After(t, PACKAGES), RegistrationLine(p), BEGIN);
    }
  }

  /** The patch registers by what the text says while the block is still in it. */
  lemma PatchStrippable(e: Expression, y: string, at: nat, b: string, block: string)
    requires Strippable(e, y, at, b)
    ensures var y1 := if Includes(Insert(y, at, b), Registration(DeviceOwner)) then y
                      else Insert(y, After(y, PACKAGES), RegistrationLine(DeviceOwner));
            Bare(y1) && Patch(DeviceOwner, Insert(y, at, b), block) == Some(Anchored(y1, block))
  {
    if Includes(Insert(y, at, b), Registration(DeviceOwner)) {
      StripStrippable(e, y, at, b);
    } else {
      var at' := StillStrippable(e, y, at, b, DeviceOwner);
      StripStrippable(e, Insert(y, After(y, PACKAGES), RegistrationLine(DeviceOwner)), at', b);
    }
  }

  lemma LinesLengthen(y: string, p: Plugin, block: string)
    requires Bare(y)
    ensures var y1 := Insert(y, After(y, PACKAGES), RegistrationLine(p));
            Bare(y1) && Anchored(y1, block) != Anchored(y, block)
  {
    InsertedIsBare(p, y);
    LineChars(p);
    var y1 := Insert(y, After(y, PACKAGES), RegistrationLine(p));
    assert |Anchored(y1, block)| > |Anchored(y, block)|;
  }

  /**
   The patch gives what it gives on the bare source exactly if the old block neither brings
   the registration along nor splits it: the registration is looked for before the block is
   stripped, so one that stood in the block only is lost.
   */
  lemma PatchForgetsExactly(e: Expression, y: string, at: nat, b: string, block: string)
    requires Strippable(e, y, at, b)
    ensures Patch(DeviceOwner, Insert(y, at, b), block) == Patch(DeviceOwner, y, block)
            <==> Kept(y, at, b, Registration(DeviceOwner))
  {
    hide Patch, Anchored, Bare, Found, OldBlock, Includes, Insert, Registration, RegistrationLine, IndexFrom;
    assert Bare(y) && at <= |y| by { StrippablePlace(e, y, at, b); }
    PatchStrippable(e, y, at, b, block);
    PatchBare(y, block);
    LinesLengthen(y, DeviceOwner, block);
  }

  lemma StrippablePlace(e: Expression, y: string, at: nat, b: string)
    requires Strippable(e, y, at, b)
    ensures Bare(y) && at <= |y|
  {
  }

  /** The smallest template: both anchors, a line each. */
  const TEMPLATE := PACKAGES + "\n" + CREATE

  /** A block of an imagined older build that registered the package by itself. */
  const SELF_REGISTERING := Delimited(BEGIN, [[Registration(DeviceOwner)]], END)

  lemma AnchorsWithoutSlash()
    ensures Without(PACKAGES, '/') && Without(CREATE, '/')
  {
  }

  lemma AnchorsWithoutD()
    ensures Without(PACKAGES, 'd') && Without(CREATE, 'd')
  {
  }

  lemma MarkerLetters()
    ensures BEGIN[4] == '/' && HEADER[0] == '/'
    ensures Registration(DeviceOwner)[1] == 'd' && Registration(GpsCapture)[1] == 'd'
  {
  }

  lemma LacksLetter(a: string, b: string, m: string, q: nat)
    requires q < |m| && m[q] != '\n' && Without(a, m[q]) && Without(b, m[q])
    ensures Absent(a + "\n" + b, m)
  {
    var s := a + "\n" + b;
    forall i: nat ensures !At(s, m, i) {
      if i + |m| <= |s| {
        Differs(s, m, i, q);
      }
    }
  }

  lemma TemplateIsBare()
    ensures Bare(TEMPLATE)
    ensures !Includes(TEMPLATE, Registration(DeviceOwner)) && !Includes(TEMPLATE, Registration(GpsCapture))
  {
    hide Absent, Without;
    var y := TEMPLATE;
    AnchorsWithoutSlash();
    AnchorsWithoutD();
    MarkerLetters();
    LacksLetter(PACKAGES, CREATE, BEGIN, 4);
    LacksLetter(PACKAGES, CREATE, HEADER, 0);
    LacksLetter(PACKAGES, CREATE, Registration(DeviceOwner), 1);
    LacksLetter(PACKAGES, CREATE, Registration(GpsCapture), 1);
    AbsentNotIncluded(y, Registration(DeviceOwner));
    AbsentNotIncluded(y, Registration(GpsCapture));
    assert At(y, PACKAGES, 0) && At(y, CREATE, |PACKAGES| + 1);
  }

  lemma AbsentNotIncluded(s: string, m: string)
    requires Absent(s, m)
    ensures !Includes(s, m)
  {
  }

  lemma LoneLine(p: Plugin)
    ensures forall l :: l in [[Registration(p)]] ==> Lacks(Cat(l), '<', '<')
  {
    assert Cat([Registration(p)]) == Registration(p);
    assert Without(Registration(p), '<');
  }

  lemma SelfRegisteringIsOldBlock()
    ensures OldBlock(CURRENT, SELF_REGISTERING)
  {
    hide BEGIN, END, Registration, OldBlock, IndexFrom, At;
    HeadsAreIndented();
    MarkerPairs();
    LoneLine(DeviceOwner);
    EndFoundLast(BEGIN, [[Registration(DeviceOwner)]], END, 7);
    DelimitedBlock(BEGIN, [[Registration(DeviceOwner)]], END);
  }

  lemma SelfRegisteringRegisters(y: string)
    ensures Includes(Insert(y, |y|, SELF_REGISTERING), Registration(DeviceOwner))
  {
    var r := Registration(DeviceOwner);
    var u := y + "\n" + BEGIN + "\n";
    assert Cat([r]) == r && Lines([[r]]) == "\n" + r;
    assert Insert(y, |y|, SELF_REGISTERING) == u + r + "\n" + END;
    assert At(u + r + "\n" + END, r, |u|);
  }

  lemma SelfRegisteringIsStrippable()
    ensures Strippable(CURRENT, TEMPLATE, |TEMPLATE|, SELF_REGISTERING)
  {
    hide OldBlock, Bare, Found, IndexFrom, Insert, Absent;
    TemplateIsBare();
    SelfRegisteringIsOldBlock();
    AnchorsFirst();
    CurrentIsNotLegacy();
  }

  lemma CurrentIsNotLegacy()
    ensures CURRENT != LEGACY
  {
  }

  lemma Appended(y: string, b: string)
    ensures Insert(y, |y|, b) == y + b
  {
  }

  /** For instance: patching this source leaves the package unregistered. */
  lemma SelfRegistrationIsLost(block: string)
    requires Good(block)
    ensures Strippable(CURRENT, TEMPLATE, |TEMPLATE|, SELF_REGISTERING)
    ensures var r := Patch(DeviceOwner, TEMPLATE + SELF_REGISTERING, block);
            r.Some? && !Includes(r.value, Registration(DeviceOwner))
  {
    hide Good, Patch, Bare, Includes, Insert, Strippable, Anchored, Registration;
    var y, b := TEMPLATE, SELF_REGISTERING;
    Appended(y, b);
    TemplateIsBare();
    SelfRegisteringIsStrippable();
    SelfRegisteringRegisters(y);
    PatchStrippable(CURRENT, y, |y|, b, block);
    BlockKeepsUnregistered(y, block);
  }

  lemma AnchorsFirst()
    ensures Found(TEMPLATE, |TEMPLATE|, SELF_REGISTERING, PACKAGES)
  {
    var y, b := TEMPLATE, SELF_REGISTERING;
    assert At(y, PACKAGES, 0) && At(Insert(y, |y|, b), PACKAGES, 0);
    IndexIs(y, PACKAGES, 0);
    IndexIs(Insert(y, |y|, b), PACKAGES, 0);
  }

  lemma BlockKeepsUnregistered(y: string, block: string)
    requires Bare(y) && Good(block) && !Includes(y, Registration(DeviceOwner))
    ensures !Includes(Anchored(y, block), Registration(DeviceOwner))
  {
    BlockFound(y, block, Registration(DeviceOwner));
  }

  // ---------------------------------------------------------------- runs

  function RegisteredAll(plugins: seq<Plugin>, y: string): Option<string> {
    if plugins == [] then Some(y)
    else if !Includes(y, PACKAGES) then None
    else RegisteredAll(plugins[1..], Registered(plugins[0], y))
  }

  lemma {:induction false} RegisteredAllIsBare(plugins: seq<Plugin>, y: string)
    requires Bare(y)
    ensures RegisteredAll(plugins, y).Some? && Bare(RegisteredAll(plugins, y).value)
  {
    if plugins != [] {
      RegisteredIsBare(plugins[0], y);
      RegisteredAllIsBare(plugins[1..], Registered(plugins[0], y));
    }
  }

  /** The bare text after a sequence of plugins. */
  ghost function Settled(plugins: seq<Plugin>, y: string): (r: string)
    requires Bare(y)
    ensures Bare(r)
  {
    RegisteredAllIsBare(plugins, y);
    RegisteredAll(plugins, y).value
  }

  lemma {:induction false} PrebuildAnchored(plugins: seq<Plugin>, y: string, block: string)
    requires Bare(y) && Good(block)
    ensures Prebuild(plugins, Anchored(y, block), block) == Some(Anchored(Settled(plugins, y), block))
    decreases |plugins|
  {
    if plugins != [] {
      PatchAnchored(y, plugins[0], block);
      PrebuildAnchored(plugins[1..], Registered(plugins[0], y), block);
    }
  }

  /**
   Every sequence of prebuild runs that includes the device-owner plugin gives the same
   text from a bare source and from one with any old block in it: the bare text with the
   registrations made, and today's block after the create anchor.
   */
  lemma {:induction false} PrebuildNormalForm(plugins: seq<Plugin>, y: string, block: string)
    requires Good(block) && Bare(y) && DeviceOwner in plugins
    ensures Prebuild(plugins, y, block) == Some(Anchored(Settled(plugins, y), block))
    decreases |plugins|
  {
    PatchBare(y, block);
    if plugins[0] == DeviceOwner {
      PrebuildAnchored(plugins[1..], Registered(DeviceOwner, y), block);
    } else {
      RegisteredIsBare(GpsCapture, y);
      PrebuildNormalForm(plugins[1..], Registered(GpsCapture, y), block);
    }
  }

  lemma {:induction false} PrebuildForgetsOldBlock(plugins: seq<Plugin>, e: Expression, y: string, at: nat, b: string,
                                                   block: string)
    requires Good(block) && Old(e, y, at, b) && DeviceOwner in plugins
    ensures Prebuild(plugins, Insert(y, at, b), block) == Some(Anchored(Settled(plugins, y), block))
    decreases |plugins|
  {
    if plugins[0] == DeviceOwner {
      PatchOld(e, y, at, b, block);
      PrebuildAnchored(plugins[1..], Registered(DeviceOwner, y), block);
    } else {
      var at' := RegisterOld(e, y, at, b, GpsCapture);
      PrebuildForgetsOldBlock(plugins[1..], e, Registered(GpsCapture, y), at', b, block);
    }
  }

  // ---------------------------------------------------------------- stability

  lemma {:induction false} SettledAppend(a: seq<Plugin>, b: seq<Plugin>, y: string)
    requires Bare(y)
    ensures Settled(a + b, y) == Settled(b, Settled(a, y))
    decreases |a|
  {
    if a == [] {
      assert a + b == b;
    } else {
      assert (a + b)[1..] == a[1..] + b;
      RegisteredIsBare(a[0], y);
      SettledAppend(a[1..], b, Registered(a[0], y));
    }
  }

  lemma {:induction false} SettledKeeps(plugins: seq<Plugin>, y: string, p: Plugin)
    requires Bare(y)
    ensures Includes(Settled(plugins, y), Registration(p)) <==> Includes(y, Registration(p)) || p in plugins
    decreases |plugins|
  {
    hide IndexFrom, Registration, RegistrationLine, PACKAGES, Insert;
    if plugins != [] {
      RegisteredIsBare(plugins[0], y);
      SettledKeeps(plugins[1..], Registered(plugins[0], y), p);
    }
  }

  lemma {:induction false} NothingLeft(plugins: seq<Plugin>, y: string)
    requires Bare(y) && forall p :: p in plugins ==> Includes(y, Registration(p))
    ensures Settled(plugins, y) == y
    decreases |plugins|
  {
    if plugins != [] {
      NothingLeft(plugins[1..], y);
    }
  }

  /** Once each of them has run, running any of them again, in any order, changes nothing. */
  lemma PrebuildIsStable(done: seq<Plugin>, again: seq<Plugin>, y: string, block: string)
    requires Good(block) && Bare(y) && DeviceOwner in done && forall p :: p in again ==> p in done
    ensures Prebuild(done + again, y, block) == Prebuild(done, y, block)
  {
    PrebuildNormalForm(done, y, block);
    PrebuildNormalForm(done + again, y, block);
    SettledAppend(done, again, y);
    forall p | p in again ensures Includes(Settled(done, y), Registration(p)) {
      SettledKeeps(done, y, p);
    }
    NothingLeft(again, Settled(done, y));
  }

  /** With both registered, or with the other never run, the rest of a sequence does nothing. */
  lemma SettledAfterFirst(plugins: seq<Plugin>, y: string, p: Plugin)
    requires Bare(y) && Includes(y, Registration(p)) && Other(p) !in plugins
    ensures Settled(plugins, y) == y
  {
    forall q | q in plugins ensures Includes(y, Registration(q)) {
      assert q == p;
    }
    NothingLeft(plugins, y);
  }

  /** With `p` already registered, only whether the other plugin runs matters. */
  lemma {:induction false} SettledByFirst(plugins: seq<Plugin>, y: string, p: Plugin)
    requires Bare(y) && Includes(y, Registration(p)) && Other(p) in plugins
    ensures Settled(plugins, y) == Registered(Other(p), y)
    decreases |plugins|
  {
    if plugins[0] == p {
      SettledByFirst(plugins[1..], y, p);
    } else {
      var both := Registered(plugins[0], y);
      RegisteredIsBare(plugins[0], y);
      forall q | q in plugins[1..] ensures Includes(both, Registration(q)) {
        assert q == p || q == plugins[0];
      }
      NothingLeft(plugins[1..], both);
    }
  }

  lemma SettledShape(plugins: seq<Plugin>, y: string, p: Plugin, q: Plugin)
    requires Bare(y) && plugins != [] && p == plugins[0] && q == Other(p)
    ensures Bare(Registered(p, y))
    ensures Settled(plugins, y) ==
            if q in plugins then Registered(q, Registered(p, y)) else Registered(p, y)
  {
    var y1 := Registered(p, y);
    RegisteredIsBare(p, y);
    assert Settled(plugins, y) == Settled(plugins[1..], y1);
    if q in plugins {
      SettledByFirst(plugins[1..], y1, p);
    } else {
      SettledAfterFirst(plugins[1..], y1, p);
    }
  }

  /** The order of the first runs is all that shows: later repetitions never do. */
  lemma PrebuildSeesFirstRuns(plugins: seq<Plugin>, again: seq<Plugin>, y: string, block: string)
    requires Good(block) && Bare(y) && DeviceOwner in plugins && DeviceOwner in again
    requires plugins[0] == again[0] && (GpsCapture in plugins <==> GpsCapture in again)
    ensures Prebuild(plugins, y, block) == Prebuild(again, y, block)
  {
    PrebuildNormalForm(plugins, y, block);
    PrebuildNormalForm(again, y, block);
    SettledShape(plugins, y, plugins[0], Other(plugins[0]));
    SettledShape(again, y, again[0], Other(again[0]));
  }

  // ---------------------------------------------------------------- exactly once

  lemma OnlyThere(u: string, x: string, v: string, m: string, place: nat, i: nat)
    requires x != "" && x[0] == '\n' && m != "" && '\n' !in m
    requires forall o :: 1 <= o < |x| && o != place ==> Mismatch(x, o, m)
    requires |u| < i + |m| && i < |u| + |x| && i != |u| + place
    ensures !At(u + x + v, m, i)
  {
    var t := u + x + v;
    if i <= |u| {
      if i + |m| <= |t| {
        Differs(t, m, i, |u| - i);
      }
    } else {
      PartMisses(u, x, v, m, i - |u|);
      MismatchIsNoMatch(t, m, i);
    }
  }

  lemma InsertedAt(u: string, x: string, v: string, m: string, place: nat)
    requires At(x, m, place)
    ensures At(u + x + v, m, |u| + place)
  {
    var t, i := u + x + v, |u| + place;
    assert t[i..i + |m|] == x[place..place + |m|];
  }

  lemma OnceAt(y: string, at: nat, x: string, m: string, place: nat, i: nat)
    requires at <= |y| && Absent(y, m) && m != "" && '\n' !in m && x != "" && x[0] == '\n'
    requires forall o :: 1 <= o < |x| && o != place ==> Mismatch(x, o, m)
    ensures At(Insert(y, at, x), m, i) ==> i == at + place
  {
    if i + |m| <= at {
      InsertedMatch(y, at, x, m, i);
    } else if at + |x| <= i {
      InsertedMatch(y, at, x, m, i - |x|);
    } else if i != at + place {
      OnlyThere(y[..at], x, y[at..], m, place, i);
    }
  }

  /** A text inserted where `m` was not, with one match of its own, leaves one match. */
  lemma OnceInserted(y: string, at: nat, x: string, m: string, place: nat)
    requires at <= |y| && Absent(y, m) && m != "" && '\n' !in m
    requires x != "" && x[0] == '\n' && At(x, m, place)
    requires forall o :: 1 <= o < |x| && o != place ==> Mismatch(x, o, m)
    ensures OccursOnce(Insert(y, at, x), m)
  {
    var t := Insert(y, at, x);
    InsertedAt(y[..at], x, y[at..], m, place);
    assert At(t, m, at + place);
    forall i: nat ensures At(t, m, i) ==> i == at + place {
      OnceAt(y, at, x, m, place, i);
    }
  }

  lemma RegistrationOnce(p: Plugin, y: string)
    requires Includes(y, PACKAGES) && !Includes(y, Registration(p))
    ensures OccursOnce(Registered(p, y), Registration(p))
  {
    var x, r := RegistrationLine(p), Registration(p);
    LineChars(p);
    RegistrationsOnOneLine(p);
    forall o | 1 <= o < |x| && o != 15 ensures Mismatch(x, o, r) {
      RegistrationOccursInItsLine(p, o);
    }
    OnceInserted(y, After(y, PACKAGES), x, r, 15);
  }

  lemma BlockOnce(y: string, block: string)
    requires Bare(y) && Good(block)
    ensures OccursOnce(Anchored(y, block), BEGIN)
  {
    MarkerPairs();
    OnceInserted(y, After(y, CREATE), block, BEGIN, 1);
  }

  /** Registering keeps what occurs once. */
  lemma RegisteredKeepsOnce(p: Plugin, y: string)
    requires Bare(y) && OccursOnce(y, Registration(Other(p)))
    ensures OccursOnce(Registered(p, y), Registration(Other(p)))
  {
    RegistrationsOnOneLine(Other(p));
    if !Includes(y, Registration(p)) {
      RegistrationsApart(p);
      RegistrationClear(p, y, Registration(Other(p)));
      ClearOnce(y, After(y, PACKAGES), RegistrationLine(p), Registration(Other(p)));
    }
  }

  lemma AnchoredKeepsOnce(y: string, p: Plugin, block: string)
    requires Bare(y) && Good(block) && OccursOnce(y, Registration(p))
    ensures OccursOnce(Anchored(y, block), Registration(p))
  {
    RegistrationsOnOneLine(p);
    BlockClear(y, block, Registration(p));
    ClearOnce(y, After(y, CREATE), block, Registration(p));
  }

  /** Registering both, in either order, leaves each registration once. */
  lemma BothOnce(y: string, p: Plugin, q: Plugin)
    requires Bare(y) && q == Other(p) && !Includes(y, Registration(p)) && !Includes(y, Registration(q))
    ensures Bare(Registered(p, y)) && Bare(Registered(q, Registered(p, y)))
    ensures OccursOnce(Registered(q, Registered(p, y)), Registration(p))
    ensures OccursOnce(Registered(q, Registered(p, y)), Registration(q))
  {
    var y1 := Registered(p, y);
    RegisteredIsBare(p, y);
    RegistrationOnce(p, y);
    SecondOnce(y1, q);
  }

  lemma SecondOnce(y: string, q: Plugin)
    requires Bare(y) && !Includes(y, Registration(q)) && OccursOnce(y, Registration(Other(q)))
    ensures Bare(Registered(q, y))
    ensures OccursOnce(Registered(q, y), Registration(q))
    ensures OccursOnce(Registered(q, y), Registration(Other(q)))
  {
    RegisteredIsBare(q, y);
    RegistrationOnce(q, y);
    RegisteredKeepsOnce(q, y);
  }

  lemma AnchoredOnce(y: string, block: string)
    requires Bare(y) && Good(block)
    requires OccursOnce(y, Registration(DeviceOwner)) && OccursOnce(y, Registration(GpsCapture))
    ensures OccursOnce(Anchored(y, block), BEGIN)
    ensures OccursOnce(Anchored(y, block), Registration(DeviceOwner))
    ensures OccursOnce(Anchored(y, block), Registration(GpsCapture))
  {
    BlockOnce(y, block);
    AnchoredKeepsOnce(y, DeviceOwner, block);
    AnchoredKeepsOnce(y, GpsCapture, block);
  }

  /**
   From a template that registers neither package, any sequence of runs that includes both
   plugins leaves each registration exactly once and the block exactly once.
   */
  lemma PrebuildOnceEach(plugins: seq<Plugin>, y: string, block: string)
    requires Good(block) && Bare(y)
    requires !Includes(y, Registration(DeviceOwner)) && !Includes(y, Registration(GpsCapture))
    requires DeviceOwner in plugins && GpsCapture in plugins
    ensures Prebuild(plugins, y, block).Some?
    ensures var r := Prebuild(plugins, y, block).value;
            OccursOnce(r, BEGIN) &&
            OccursOnce(r, Registration(DeviceOwner)) && OccursOnce(r, Registration(GpsCapture))
  {
    var p, q := plugins[0], Other(plugins[0]);
    PrebuildNormalForm(plugins, y, block);
    SettledShape(plugins, y, p, q);
    BothOnce(y, p, q);
    AnchoredOnce(Settled(plugins, y), block);
  }
}
