/**
 The texts the two plugins search for and insert, and what can be read off their
 characters: which of them can overlap which.
 */
module Markers {
  import opened Text

  const PACKAGES := "PackageList(this).packages.apply {"
  const CREATE := "ApplicationLifecycleDispatcher" + ".onApplicationCreate(this)"

  datatype Plugin = DeviceOwner | GpsCapture

  function Registration(p: Plugin): string {
    match p
    case DeviceOwner => "add(DeviceOwnerPackage())"
    case GpsCapture => "add(StrawbossGpsPackage())"
  }

  const INDENT := "\n              "

  /** What registering inserts: the call on a line of its own. */
  function RegistrationLine(p: Plugin): string { INDENT + Registration(p) }

  const BEGIN_FRONT := "    // >>> strawboss-always-on-anchor"
  const BEGIN_BACK := " (generated by withDeviceOwner.js) >>>"
  const BEGIN := BEGIN_FRONT + BEGIN_BACK
  const END := "    // <<< strawboss-always-on-anchor <<<"
  /** First line of the block that builds before the delimiters injected, and the call it ends with. */
  const HEADER := "// StrawBoss always-on anchor:"
  const LOG := "android.util.Log.w(\"StrawbossBoot\""

  /** The lines between the markers, each in pieces. */
  const LINE0 := ["    // Start the keep", "-alive PresenceServi", "ce on EVERY process ", "start (cold / headless /"]
  const LINE1 := ["    // post-kill), inde", "pendent of JS + auth", ", and arm the OS-driven", " safety nets, so a"]
  const LINE2 := ["    // device-owner fleet", " phone is never left", " without its FGS anchor."]
  const LINE3 := ["    try {"]
  const LINE4 := ["      if (DeviceOwner", "Policies.isDevice", "Owner(this)) {"]
  const LINE5 := ["        PresenceServ", "ice.start(this)"]
  const LINE6 := ["        WatchdogAlar", "m.schedule(this)"]
  const LINE7 := ["        NightlyAlarm", ".schedule(this)"]
  const LINE8 := ["      }"]
  const LINE9 := ["    } catch (t: Throwable) {"]
  const LINE10 := ["      android.util.", "Log.w(\"StrawbossBoot\"", ", \"onCreate presence", " autostart failed\", t)"]
  const LINE11 := ["    }"]

  const BODY: seq<seq<string>> :=
    [LINE0, LINE1, LINE2, LINE3, LINE4, LINE5, LINE6, LINE7, LINE8, LINE9, LINE10, LINE11]

  function Cat(pieces: seq<string>): string {
    if pieces == [] then "" else pieces[0] + Cat(pieces[1..])
  }

  /** Each line after a line break. */
  function Lines(ls: seq<seq<string>>): string {
    if ls == [] then "" else "\n" + Cat(ls[0]) + Lines(ls[1..])
  }

  function Delimited(begin: string, body: seq<seq<string>>, end: string): string {
    "\n" + begin + Lines(body) + "\n" + end
  }

  /** What the device-owner plugin injects after the create anchor. */
  const BLOCK: string := Delimited(BEGIN, BODY, END)

  // ---------------------------------------------------------------- characters

  predicate Without(s: string, c: char) { forall i :: 0 <= i < |s| ==> s[i] != c }

  lemma WithoutBoth(a: string, b: string, c: char)
    requires Without(a, c) && Without(b, c)
    ensures Without(a + b, c)
  {
  }

  /** From `from` on, a blank is followed by something else. */
  predicate BlanksApart(s: string, from: nat) {
    forall i :: from <= i < |s| && s[i] == ' ' ==> i + 1 < |s| && s[i + 1] != ' '
  }

  /** Four blanks, two slashes, and no two blanks in a row after that. */
  predicate IsComment(s: string) {
    && |s| > 8 && s[0] == ' ' && s[1] == ' ' && s[2] == ' ' && s[3] == ' ' && s[4] == '/'
    && BlanksApart(s, 4)
  }

  lemma FrontIsComment()
    ensures IsComment(BEGIN_FRONT) && BEGIN_FRONT[7] == '>' && BEGIN_FRONT[8] == '>'
  {
  }

  lemma BackIsApart()
    ensures BlanksApart(BEGIN_BACK, 0)
  {
  }

  lemma BeginIsComment()
    ensures IsComment(BEGIN) && BEGIN[7] == '>' && BEGIN[8] == '>'
  {
    hide BEGIN_FRONT, BEGIN_BACK;
    FrontIsComment();
    BackIsApart();
  }

  lemma EndStarts()
    ensures |END| > 8 && END[0] == ' ' && END[1] == ' ' && END[2] == ' ' && END[3] == ' ' && END[4] == '/'
    ensures END[7] == '<' && END[8] == '<'
  {
  }

  lemma EndIsApart()
    ensures BlanksApart(END, 4)
  {
  }

  lemma EndIsComment()
    ensures IsComment(END) && END[7] == '<' && END[8] == '<'
  {
    hide END, BlanksApart;
    EndStarts();
    EndIsApart();
  }

  lemma FrontOnOneLine()
    ensures Without(BEGIN_FRONT, '\n')
  {
  }

  lemma BackOnOneLine()
    ensures Without(BEGIN_BACK, '\n')
  {
  }

  lemma EndOnOneLine()
    ensures Without(END, '\n')
  {
  }

  lemma FrontWithoutP()
    ensures Without(BEGIN_FRONT, 'P')
  {
  }

  lemma BackWithoutP()
    ensures Without(BEGIN_BACK, 'P')
  {
  }

  lemma EndWithoutP()
    ensures Without(END, 'P')
  {
  }

  lemma PackagesOnOneLine()
    ensures Without(PACKAGES, '\n')
  {
  }

  lemma CreateOnOneLine()
    ensures Without(CREATE, '\n')
  {
  }

  lemma HeaderOnOneLine()
    ensures Without(HEADER, '\n')
  {
  }

  // ---------------------------------------------------------------- a registration line

  lemma IndentChars()
    ensures |INDENT| == 15 && INDENT[0] == '\n' && forall i :: 1 <= i < 15 ==> INDENT[i] == ' '
  {
  }

  lemma LineChars(p: Plugin)
    ensures var x, r := RegistrationLine(p), Registration(p);
            && |x| == 15 + |r| && x[0] == '\n' && x[15..] == r
            && (forall i :: 1 <= i < 15 ==> x[i] == ' ')
            && (forall i :: 15 <= i < |x| ==> x[i] == r[i - 15])
  {
    hide INDENT, Registration;
    IndentChars();
  }

  /** What disagrees with the registration, and does not begin with a blank, disagrees with its line. */
  lemma LineMisses(p: Plugin, other: string)
    requires other != "" && other[0] != ' '
    requires forall o :: 0 <= o < |Registration(p)| ==> Mismatch(Registration(p), o, other)
    ensures StartsNowhere(RegistrationLine(p), other)
  {
    var x, r := RegistrationLine(p), Registration(p);
    LineChars(p);
    forall o | 1 <= o < |x| ensures Mismatch(x, o, other) {
      if o < 15 {
        assert Unlike(x, o, other, 0);
      } else {
        assert Mismatch(r, o - 15, other);
        var q :| Unlike(r, o - 15, other, q);
        assert Unlike(x, o, other, q);
      }
    }
  }

  lemma RegistrationMissesPackages(p: Plugin)
    ensures StartsNowhere(RegistrationLine(p), PACKAGES)
  {
    var r := Registration(p);
    forall o | 0 <= o < |r| ensures Mismatch(r, o, PACKAGES) {
      assert Unlike(r, o, PACKAGES, if r[o] == 'P' then 7 else 0);
    }
    LineMisses(p, PACKAGES);
  }

  /** Neither a slash nor a capital A occurs in a registration. */
  lemma RegistrationMissesOthers(p: Plugin)
    ensures StartsNowhere(RegistrationLine(p), CREATE)
    ensures StartsNowhere(RegistrationLine(p), HEADER)
  {
    var r := Registration(p);
    forall o | 0 <= o < |r| ensures Mismatch(r, o, CREATE) && Mismatch(r, o, HEADER) {
      assert Unlike(r, o, CREATE, 0) && Unlike(r, o, HEADER, 0);
    }
    LineMisses(p, CREATE);
    LineMisses(p, HEADER);
  }

  lemma RegistrationWithout(p: Plugin)
    ensures |Registration(p)| > 5
    ensures Without(Registration(p), '/') && Without(Registration(p), ' ')
  {
  }

  lemma RegistrationMissesBegin(p: Plugin)
    ensures StartsNowhere(RegistrationLine(p), BEGIN)
  {
    hide BEGIN, Registration, RegistrationLine, BlanksApart;
    var x, r := RegistrationLine(p), Registration(p);
    LineChars(p);
    RegistrationWithout(p);
    BeginIsComment();
    forall o | 1 <= o < |x|
      ensures Mismatch(x, o, BEGIN)
    {
      if o < 15 {
        BlankBeforeSlash(x, r, o);
      } else {
        assert Unlike(x, o, BEGIN, 0);
      }
    }
  }

  /** Four places after a blank of the indent there is no slash. */
  lemma BlankBeforeSlash(x: string, r: string, o: nat)
    requires |x| == 15 + |r| && 5 < |r| && 1 <= o < 15 && Without(r, '/')
    requires forall i :: 1 <= i < 15 ==> x[i] == ' '
    requires forall i :: 15 <= i < |x| ==> x[i] == r[i - 15]
    ensures Mismatch(x, o, BEGIN)
  {
    hide BEGIN;
    BeginIsComment();
    assert Unlike(x, o, BEGIN, 4);
  }

  /** The two registrations part at their fifth character. */
  lemma RegistrationsDiffer(p: Plugin, other: Plugin)
    requires p != other
    ensures StartsNowhere(RegistrationLine(p), Registration(other))
  {
    var r, t := Registration(p), Registration(other);
    forall o | 0 <= o < |r| ensures Mismatch(r, o, t) {
      assert Unlike(r, o, t, if r[o] != 'a' then 0 else if o == 0 then 4 else 1);
    }
    LineMisses(p, t);
  }

  lemma RegistrationStartsOnce(p: Plugin, i: nat)
    requires 1 <= i < |Registration(p)|
    ensures Mismatch(Registration(p), i, Registration(p))
  {
    var r := Registration(p);
    assert Unlike(r, i, r, if r[i] != 'a' then 0 else 1);
  }

  /** In its own line a registration occurs nowhere but at its end. */
  lemma RegistrationOccursInItsLine(p: Plugin, o: nat)
    requires 1 <= o < |RegistrationLine(p)| && o != 15
    ensures Mismatch(RegistrationLine(p), o, Registration(p))
  {
    var x, r := RegistrationLine(p), Registration(p);
    LineChars(p);
    if o < 15 {
      assert Unlike(x, o, r, 0);
    } else {
      RegistrationStartsOnce(p, o - 15);
      var q :| Unlike(r, o - 15, r, q);
      assert Unlike(x, o, r, q);
    }
  }

  // ---------------------------------------------------------------- ends of the anchors

  /**
   No proper beginning of `p` is an ending of `a`, so a match of `p` cannot reach across
   the end of a match of `a`.
   */
  ghost predicate NoOverlap(a: string, p: string) {
    forall k :: 1 <= k < |p| ==> EndsDiffer(a, p, k)
  }

  ghost predicate EndsDiffer(a: string, p: string, k: nat) {
    exists r :: EndUnlike(a, p, k, r)
  }

  predicate EndUnlike(a: string, p: string, k: nat, r: int) {
    0 <= r < k <= |p| && r < |a| && a[|a| - 1 - r] != p[k - 1 - r]
  }

  lemma NotCutAfter(s: string, i: nat, a: string, p: string)
    requires At(s, a, i) && NoOverlap(a, p)
    ensures NotCut(s, i + |a|, p)
  {
    var at := i + |a|;
    forall j: nat ensures At(s, p, j) ==> j + |p| <= at || at <= j {
      if j < at < j + |p| <= |s| {
        var k := at - j;
        assert EndsDiffer(a, p, k);
        var r :| EndUnlike(a, p, k, r);
        assert s[i..i + |a|][|a| - 1 - r] == s[j + (k - 1 - r)];
        Differs(s, p, j, k - 1 - r);
      }
    }
  }

  predicate LacksBeforeEnd(p: string, c: char) { forall q :: 0 <= q < |p| - 1 ==> p[q] != c }

  /** The packages anchor ends in a brace. */
  lemma PackagesOverlapsNothing(p: string)
    requires LacksBeforeEnd(p, '{')
    ensures NoOverlap(PACKAGES, p)
  {
    forall k | 1 <= k < |p| ensures EndsDiffer(PACKAGES, p, k) {
      assert EndUnlike(PACKAGES, p, k, 0);
    }
  }

  lemma AnchorsLackBrace()
    ensures LacksBeforeEnd(PACKAGES, '{') && LacksBeforeEnd(CREATE, '{')
  {
  }

  lemma RegistrationsLackBrace(p: Plugin)
    ensures LacksBeforeEnd(Registration(p), '{')
  {
  }

  lemma CommentsLackBrace()
    ensures LacksBeforeEnd(BEGIN, '{') && LacksBeforeEnd(HEADER, '{')
  {
  }

  /** Where `p` has a closing parenthesis, what is before it is not the end of the create anchor. */
  predicate UnlikeCreate(p: string) {
    forall q {:trigger p[q]} :: 0 <= q < |p| - 1 && p[q] == ')' ==>
      (q >= 6 && p[q - 6] != 'e') || (q >= 1 && p[q - 1] != 's') || (q >= 2 && p[q - 2] != 'i')
  }

  /** The create anchor ends in `e(this)`. */
  lemma CreateOverlapsNothing(p: string)
    requires UnlikeCreate(p)
    ensures NoOverlap(CREATE, p)
  {
    var a := CREATE;
    assert a[|a| - 1] == ')' && a[|a| - 2] == 's' && a[|a| - 3] == 'i' && a[|a| - 7] == 'e';
    forall k | 1 <= k < |p| ensures EndsDiffer(a, p, k) {
      var q := k - 1;
      var r := if p[q] != ')' then 0 else if q >= 6 && p[q - 6] != 'e' then 6
               else if p[q - 1] != 's' then 1 else 2;
      assert EndUnlike(a, p, k, r);
    }
  }

  lemma PackagesUnlikeCreate()
    ensures UnlikeCreate(PACKAGES)
  {
    forall q | 0 <= q < |PACKAGES| - 1 && PACKAGES[q] == ')' ensures q == 17 - 1 {
    }
    assert PACKAGES[10] == 't';
  }

  lemma RegistrationUnlikeCreate(p: Plugin)
    ensures UnlikeCreate(Registration(p))
  {
    var r := Registration(p);
    forall q | 0 <= q < |r| - 1 && r[q] == ')' ensures r[q - 1] == '(' && q >= 1 {
    }
  }

  // ---------------------------------------------------------------- the block

  /** Two neighbouring characters that do not occur together in a text. */
  predicate Lacks(s: string, c: char, d: char) {
    forall i :: 0 <= i < |s| - 1 ==> s[i] != c || s[i + 1] != d
  }

  /** No angle bracket, no "ck", and nothing at the end that could complete one. */
  predicate Tame(s: string) {
    (forall i :: 0 <= i < |s| ==> s[i] != '<' && s[i] != '>') &&
    Lacks(s, 'c', 'k') && (s != "" ==> s[|s| - 1] != 'c')
  }

  lemma {:induction false} TamePieces(pieces: seq<string>)
    requires forall p :: p in pieces ==> Tame(p)
    ensures Tame(Cat(pieces))
  {
    if pieces != [] {
      TamePieces(pieces[1..]);
      var a, b := pieces[0], Cat(pieces[1..]);
      assert a in pieces;
      assert forall i :: 0 <= i < |a| ==> (a + b)[i] == a[i];
      assert forall i :: |a| <= i < |a + b| ==> (a + b)[i] == b[i - |a|];
    }
  }

  lemma Line0Front()
    ensures Tame(LINE0[0]) && Tame(LINE0[1])
  {
  }

  lemma Line0Back()
    ensures Tame(LINE0[2]) && Tame(LINE0[3])
  {
  }

  lemma Line0IsTame()
    ensures Tame(Cat(LINE0))
  {
    hide Tame;
    Line0Front();
    Line0Back();
    TamePieces(LINE0);
  }

  lemma Line1Front()
    ensures Tame(LINE1[0]) && Tame(LINE1[1])
  {
  }

  lemma Line1Back()
    ensures Tame(LINE1[2]) && Tame(LINE1[3])
  {
  }

  lemma Line1IsTame()
    ensures Tame(Cat(LINE1))
  {
    hide Tame;
    Line1Front();
    Line1Back();
    TamePieces(LINE1);
  }

  lemma Line2Pieces()
    ensures Tame(LINE2[0]) && Tame(LINE2[1]) && Tame(LINE2[2])
  {
  }

  lemma Line2IsTame()
    ensures Tame(Cat(LINE2))
  {
    hide Tame;
    Line2Pieces();
    TamePieces(LINE2);
  }

  lemma Line3IsTame()
    ensures Tame(Cat(LINE3))
  {
    TamePieces(LINE3);
  }

  lemma Line4Pieces()
    ensures Tame(LINE4[0]) && Tame(LINE4[1]) && Tame(LINE4[2])
  {
  }

  lemma Line4IsTame()
    ensures Tame(Cat(LINE4))
  {
    hide Tame;
    Line4Pieces();
    TamePieces(LINE4);
  }

  lemma Line5IsTame()
    ensures Tame(Cat(LINE5))
  {
    TamePieces(LINE5);
  }

  lemma Line6IsTame()
    ensures Tame(Cat(LINE6))
  {
    TamePieces(LINE6);
  }

  lemma Line7IsTame()
    ensures Tame(Cat(LINE7))
  {
    TamePieces(LINE7);
  }

  lemma Line8IsTame()
    ensures Tame(Cat(LINE8))
  {
    TamePieces(LINE8);
  }

  lemma Line9IsTame()
    ensures Tame(Cat(LINE9))
  {
    TamePieces(LINE9);
  }

  lemma Line10Front()
    ensures Tame(LINE10[0]) && Tame(LINE10[1])
  {
  }

  lemma Line10Back()
    ensures Tame(LINE10[2]) && Tame(LINE10[3])
  {
  }

  lemma Line10IsTame()
    ensures Tame(Cat(LINE10))
  {
    hide Tame;
    Line10Front();
    Line10Back();
    TamePieces(LINE10);
  }

  lemma Line11IsTame()
    ensures Tame(Cat(LINE11))
  {
    TamePieces(LINE11);
  }

  lemma BodyIsTame(l: seq<string>)
    requires l in BODY
    ensures Tame(Cat(l))
  {
    hide LINE0, LINE1, LINE2, LINE3, LINE4, LINE5, LINE6, LINE7, LINE8, LINE9, LINE10, LINE11, Tame, Cat;
    Line0IsTame();
    Line1IsTame();
    Line2IsTame();
    Line3IsTame();
    Line4IsTame();
    Line5IsTame();
    Line6IsTame();
    Line7IsTame();
    Line8IsTame();
    Line9IsTame();
    Line10IsTame();
    Line11IsTame();
  }

  predicate Has(p: string, q: nat, c: char, d: char) { q + 1 < |p| && p[q] == c && p[q + 1] == d }

  lemma MismatchIsNoMatch(s: string, p: string, i: nat)
    requires Mismatch(s, i, p)
    ensures !At(s, p, i)
  {
    var q :| Unlike(s, i, p, q);
    Differs(s, p, i, q);
  }

  /** Lines that lack a pair of a pattern's characters disagree with it wherever it is laid. */
  lemma {:induction false} LinesMiss(ls: seq<seq<string>>, tail: string, p: string, q: nat, c: char, d: char, o: nat)
    requires forall l :: l in ls ==> Lacks(Cat(l), c, d)
    requires Has(p, q, c, d) && '\n' !in p
    requires tail != "" && tail[0] == '\n'
    requires o < |Lines(ls)|
    ensures Mismatch(Lines(ls) + tail, o, p)
    decreases |ls|
  {
    var x := Lines(ls) + tail;
    var l, rest := Cat(ls[0]), Lines(ls[1..]) + tail;
    assert x == "\n" + l + rest;
    if x[o] == '\n' {
      assert Unlike(x, o, p, 0);
    } else if |l| < o {
      LinesMiss(ls[1..], tail, p, q, c, d, o - |l| - 1);
      var r :| Unlike(rest, o - |l| - 1, p, r);
      assert Unlike(x, o, p, r);
    } else if o + q < |l| {
      assert Lacks(l, c, d);
      assert x[o + q] == l[o + q - 1] && x[o + q + 1] == l[o + q];
      assert Unlike(x, o, p, if x[o + q] != c then q else q + 1);
    } else {
      assert x[|l| + 1] == '\n';
      assert Unlike(x, o, p, |l| + 1 - o);
    }
  }

  /** What disagrees with a part of a text disagrees with the text. */
  lemma PartMisses(a: string, x: string, b: string, p: string, o: nat)
    requires Mismatch(x, o, p)
    ensures Mismatch(a + x + b, |a| + o, p)
  {
    var r :| Unlike(x, o, p, r);
    assert (a + x + b)[|a| + o + r] == x[o + r];
    assert Unlike(a + x + b, |a| + o, p, r);
  }

  /**
   A pattern that disagrees with the first and the last line wherever it is laid there,
   and has a pair the middle lacks, disagrees with the whole block.
   */
  lemma BlockMisses(begin: string, body: seq<seq<string>>, end: string, p: string, q: nat, c: char, d: char, o: nat)
    requires Has(p, q, c, d) && '\n' !in p
    requires forall l :: l in body ==> Lacks(Cat(l), c, d)
    requires 1 <= o < |Delimited(begin, body, end)|
    requires o < 1 + |begin| ==> Mismatch(begin, o - 1, p)
    requires o >= 2 + |begin| + |Lines(body)| ==> Mismatch(end, o - 2 - |begin| - |Lines(body)|, p)
    ensures Mismatch(Delimited(begin, body, end), o, p)
  {
    var x, middle := Delimited(begin, body, end), Lines(body);
    if o < 1 + |begin| {
      PartMisses("\n", begin, middle + "\n" + end, p, o - 1);
      assert x == "\n" + begin + (middle + "\n" + end);
    } else if o < 1 + |begin| + |middle| {
      LinesMiss(body, "\n" + end, p, q, c, d, o - 1 - |begin|);
      PartMisses("\n" + begin, middle + ("\n" + end), "", p, o - 1 - |begin|);
      assert x == "\n" + begin + (middle + ("\n" + end)) + "";
    } else if o == 1 + |begin| + |middle| {
      assert x[o] == '\n';
      assert Unlike(x, o, p, 0);
    } else {
      PartMisses("\n" + begin + middle + "\n", end, "", p, o - 2 - |begin| - |middle|);
      assert x == "\n" + begin + middle + "\n" + end + "";
    }
  }

  lemma EdgesMissPackages(i: nat)
    ensures i < |BEGIN| ==> Mismatch(BEGIN, i, PACKAGES)
    ensures i < |END| ==> Mismatch(END, i, PACKAGES)
  {
    hide BEGIN_FRONT, BEGIN_BACK, END;
    FrontWithoutP();
    BackWithoutP();
    WithoutBoth(BEGIN_FRONT, BEGIN_BACK, 'P');
    EndWithoutP();
    assert PACKAGES[0] == 'P';
    assert i < |BEGIN| ==> Unlike(BEGIN, i, PACKAGES, 0);
    assert i < |END| ==> Unlike(END, i, PACKAGES, 0);
  }

  predicate LacksAd(s: string) { Lacks(s, 'a', 'd') && s != "" && s[|s| - 1] != 'a' }

  lemma FrontLacksAd()
    ensures LacksAd(BEGIN_FRONT)
  {
  }

  lemma BackLacksAd()
    ensures LacksAd(BEGIN_BACK)
  {
  }

  lemma EndLacksAd()
    ensures LacksAd(END)
  {
  }

  lemma BothLackAd(a: string, b: string)
    requires LacksAd(a) && LacksAd(b)
    ensures LacksAd(a + b)
  {
  }

  lemma EdgesLackAd()
    ensures Lacks(BEGIN, 'a', 'd') && BEGIN[|BEGIN| - 1] != 'a'
    ensures Lacks(END, 'a', 'd') && END[|END| - 1] != 'a'
  {
    hide BEGIN_FRONT, BEGIN_BACK, END;
    FrontLacksAd();
    BackLacksAd();
    BothLackAd(BEGIN_FRONT, BEGIN_BACK);
    EndLacksAd();
  }

  lemma MissedByAd(s: string, p: string, i: nat)
    requires i < |s| && Lacks(s, 'a', 'd') && s[|s| - 1] != 'a'
    requires |p| > 1 && p[0] == 'a' && p[1] == 'd'
    ensures Mismatch(s, i, p)
  {
    assert Unlike(s, i, p, if s[i] != 'a' then 0 else 1);
  }

  lemma BodyLacks()
    ensures forall l :: l in BODY ==> Lacks(Cat(l), 'c', 'k')
    ensures forall l :: l in BODY ==> Lacks(Cat(l), '<', '<') && Lacks(Cat(l), '>', '>')
  {
    forall l | l in BODY ensures Tame(Cat(l)) {
      BodyIsTame(l);
    }
  }

  /** A pattern that disagrees with both edges everywhere, and has the pair the lines lack. */
  lemma MissesEverywhere(begin: string, body: seq<seq<string>>, end: string, p: string, q: nat)
    requires Has(p, q, 'c', 'k') && '\n' !in p
    requires forall l :: l in body ==> Lacks(Cat(l), 'c', 'k')
    requires forall i :: 0 <= i < |begin| ==> Mismatch(begin, i, p)
    requires forall i :: 0 <= i < |end| ==> Mismatch(end, i, p)
    ensures StartsNowhere(Delimited(begin, body, end), p)
  {
    var x := Delimited(begin, body, end);
    forall o | 1 <= o < |x| ensures Mismatch(x, o, p) {
      BlockMisses(begin, body, end, p, q, 'c', 'k', o);
    }
  }

  lemma BlockMissesPackages()
    ensures StartsNowhere(BLOCK, PACKAGES)
  {
    BodyLacks();
    forall i | 0 <= i < |BEGIN| ensures Mismatch(BEGIN, i, PACKAGES) {
      EdgesMissPackages(i);
    }
    forall i | 0 <= i < |END| ensures Mismatch(END, i, PACKAGES) {
      EdgesMissPackages(i);
    }
    MissesEverywhere(BEGIN, BODY, END, PACKAGES, 2);
  }

  lemma BlockMissesRegistration(p: Plugin)
    ensures StartsNowhere(BLOCK, Registration(p))
  {
    var r := Registration(p);
    var q := if p == DeviceOwner then 17 else 18;
    assert r[0] == 'a' && r[1] == 'd' && Has(r, q, 'c', 'k');
    BodyLacks();
    EdgesLackAd();
    forall i | 0 <= i < |BEGIN| ensures Mismatch(BEGIN, i, r) {
      MissedByAd(BEGIN, r, i);
    }
    forall i | 0 <= i < |END| ensures Mismatch(END, i, r) {
      MissedByAd(END, r, i);
    }
    MissesEverywhere(BEGIN, BODY, END, r, q);
  }

  /** A comment line starts once in itself, and not in another that differs in its eighth character. */
  lemma CommentsMiss(s: string, p: string, i: nat)
    requires IsComment(s) && IsComment(p) && i < |s| && (i == 0 ==> s[7] != p[7])
    ensures Mismatch(s, i, p)
  {
    if i == 0 {
      assert Unlike(s, i, p, 7);
    } else if s[i] != ' ' {
      assert Unlike(s, i, p, 0);
    } else if i < 4 {
      assert Unlike(s, i, p, 4 - i);
    } else {
      assert Unlike(s, i, p, 1);
    }
  }

  lemma BeginMissesBegin(i: nat)
    requires 1 <= i < |BEGIN|
    ensures Mismatch(BEGIN, i, BEGIN)
  {
    hide BEGIN, IsComment;
    BeginIsComment();
    CommentsMiss(BEGIN, BEGIN, i);
  }

  lemma EndMissesBegin(i: nat)
    requires i < |END|
    ensures Mismatch(END, i, BEGIN)
  {
    hide BEGIN, END;
    BeginIsComment();
    EndIsComment();
    CommentsMiss(END, BEGIN, i);
  }

  lemma MarkerPairs()
    ensures Has(BEGIN, 7, '>', '>') && '\n' !in BEGIN
    ensures Has(END, 7, '<', '<') && '\n' !in END
  {
    hide BEGIN_FRONT, BEGIN_BACK, END, BlanksApart;
    BeginIsComment();
    EndIsComment();
    FrontOnOneLine();
    BackOnOneLine();
    WithoutBoth(BEGIN_FRONT, BEGIN_BACK, '\n');
    EndOnOneLine();
  }

  lemma AnchorsOnOneLine()
    ensures '\n' !in PACKAGES && '\n' !in CREATE && '\n' !in HEADER
  {
    hide PACKAGES, CREATE, HEADER;
    PackagesOnOneLine();
    CreateOnOneLine();
    HeaderOnOneLine();
  }

  lemma RegistrationsOnOneLine(p: Plugin)
    ensures '\n' !in Registration(p) && Registration(p) != ""
  {
  }

  lemma FirstLineOnly(begin: string, body: seq<seq<string>>, end: string, q: nat)
    requires Has(begin, q, '>', '>') && '\n' !in begin
    requires forall l :: l in body ==> Lacks(Cat(l), '>', '>')
    requires forall i :: 1 <= i < |begin| ==> Mismatch(begin, i, begin)
    requires forall i :: 0 <= i < |end| ==> Mismatch(end, i, begin)
    ensures forall o :: 2 <= o < |Delimited(begin, body, end)| ==> Mismatch(Delimited(begin, body, end), o, begin)
  {
    forall o | 2 <= o < |Delimited(begin, body, end)| ensures Mismatch(Delimited(begin, body, end), o, begin) {
      BlockMisses(begin, body, end, begin, q, '>', '>', o);
    }
  }

  lemma BeginStartsOnce()
    ensures forall o :: 2 <= o < |BLOCK| ==> Mismatch(BLOCK, o, BEGIN)
  {
    BodyLacks();
    MarkerPairs();
    forall i | 1 <= i < |BEGIN| ensures Mismatch(BEGIN, i, BEGIN) {
      BeginMissesBegin(i);
    }
    forall i | 0 <= i < |END| ensures Mismatch(END, i, BEGIN) {
      EndMissesBegin(i);
    }
    FirstLineOnly(BEGIN, BODY, END, 7);
  }

  /** In a block without its bracket pair in the middle, the end marker is found at the end. */
  lemma EndFoundLast(begin: string, body: seq<seq<string>>, end: string, q: nat)
    requires Has(end, q, '<', '<') && '\n' !in end
    requires forall l :: l in body ==> Lacks(Cat(l), '<', '<')
    ensures var x := Delimited(begin, body, end);
            IndexFrom(x, end, 1 + |begin|) == |x| - |end|
  {
    var x, middle := Delimited(begin, body, end), Lines(body);
    var last: nat := |x| - |end|;
    assert At(x, end, last) by {
      assert x[last..last + |end|] == end;
    }
    forall i: nat | 1 + |begin| <= i < last ensures !At(x, end, i) {
      var o := i - 1 - |begin|;
      if o < |middle| {
        LinesMiss(body, "\n" + end, end, q, '<', '<', o);
        PartMisses("\n" + begin, middle + ("\n" + end), "", end, o);
        assert x == "\n" + begin + (middle + ("\n" + end)) + "";
      } else {
        assert x[i] == '\n';
        assert Unlike(x, i, end, 0);
      }
      MismatchIsNoMatch(x, end, i);
    }
  }

  lemma EndComesLast()
    ensures IndexFrom(BLOCK, END, 1 + |BEGIN|) == |BLOCK| - |END|
  {
    BodyLacks();
    MarkerPairs();
    EndFoundLast(BEGIN, BODY, END, 7);
  }
}
