/**
 The two patches of MainApplication.kt: the device-owner plugin registers its package and
 strips and re-inserts its onCreate block, the GPS plugin registers its package. Every
 prebuild runs them again on the text the last one left.
 */
module MainApplication {
  import opened Text
  import opened Markers

  // ---------------------------------------------------------------- the two regular expressions

  datatype Option<T> = None | Some(value: T)

  /**
   `\n[ \t]*head`, then lazily anything up to `end`, or up to `log` and from there to the
   next line that begins with a closing brace.
   */
  datatype Expression = Marked(head: string, end: string) | Braced(head: string, log: string)

  /** The block between today's markers, and the one of builds that had none. */
  const CURRENT := Marked(BEGIN, END)
  const LEGACY := Braced(HEADER, LOG)

  predicate Blank(c: char) { c == ' ' || c == '\t' }

  function Blanks(s: string, i: nat): (n: nat)
    requires i <= |s|
    ensures i + n <= |s|
    ensures forall j :: i <= j < i + n ==> Blank(s[j])
    ensures i + n < |s| ==> !Blank(s[i + n])
    decreases |s| - i
  {
    if i < |s| && Blank(s[i]) then 1 + Blanks(s, i + 1) else 0
  }

  /** The first line from `i` on that begins with a closing brace; the position after it. */
  function ClosingBrace(s: string, i: nat): (r: Option<nat>)
    requires i <= |s|
    ensures r.Some? ==> i < r.value <= |s|
    decreases |s| - i
  {
    if i == |s| then None
    else if s[i] != '\n' then ClosingBrace(s, i + 1)
    else
      var brace := i + 1 + Blanks(s, i + 1);
      if brace < |s| && s[brace] == '}' then Some(brace + 1) else ClosingBrace(s, i + 1)
  }

  /** Where the lazy rest of the expression ends, once its head has ended at `i`. */
  function TailEnd(e: Expression, s: string, i: nat): (r: Option<nat>)
    requires i <= |s|
    ensures r.Some? ==> i <= r.value <= |s|
  {
    match e
    case Marked(_, end) =>
      var j := IndexFrom(s, end, i);
      if j == -1 then None else Some(j + |end|)
    case Braced(_, log) =>
      var j := IndexFrom(s, log, i);
      if j == -1 then None else ClosingBrace(s, j + |log|)
  }

  /** A match at the beginning of `s` with at most `k` blanks before the head, most blanks first. */
  function MatchWithin(e: Expression, s: string, k: nat): (r: Option<nat>)
    requires 1 + k <= |s|
    ensures r.Some? ==> 0 < r.value <= |s|
  {
    var tail := if At(s, e.head, 1 + k) then TailEnd(e, s, 1 + k + |e.head|) else None;
    if tail.Some? then tail
    else if k == 0 then None
    else MatchWithin(e, s, k - 1)
  }

  function Match(e: Expression, s: string): (r: Option<nat>)
    ensures r.Some? ==> 0 < r.value <= |s|
  {
    if s == "" || s[0] != '\n' then None else MatchWithin(e, s, Blanks(s, 1))
  }

  /** String.replace with a global expression and the empty string. */
  function Strip(e: Expression, s: string): string
    decreases |s|
  {
    if s == "" then ""
    else
      match Match(e, s)
      case None => [s[0]] + Strip(e, s[1..])
      case Some(n) => Strip(e, s[n..])
  }

  // ---------------------------------------------------------------- the patches

  /** Splice `x` in after the first occurrence of `anchor`. */
  function InsertAfter(src: string, anchor: string, x: string): Option<string> {
    var i := IndexOf(src, anchor);
    if i == -1 then None else Some(Insert(src, i + |anchor|, x))
  }

  function Register(p: Plugin, src: string): Option<string> {
    if Includes(src, Registration(p)) then Some(src)
    else InsertAfter(src, PACKAGES, RegistrationLine(p))
  }

  function Reanchor(src: string, block: string): Option<string> {
    InsertAfter(Strip(LEGACY, Strip(CURRENT, src)), CREATE, block)
  }

  /**
   One plugin's patch; None when it throws because an anchor is missing. `block` is what
   this version of the device-owner plugin injects.
   */
  function Patch(p: Plugin, src: string, block: string): Option<string> {
    match Register(p, src)
    case None => None
    case Some(registered) => if p == DeviceOwner then Reanchor(registered, block) else Some(registered)
  }

  function Prebuild(plugins: seq<Plugin>, src: string, block: string): Option<string> {
    if plugins == [] then Some(src)
    else
      match Patch(plugins[0], src, block)
      case None => None
      case Some(text) => Prebuild(plugins[1..], text, block)
  }

  /** The generated file, rewritten in place by each prebuild. */
  class SourceFile {
    var text: Option<string>

    constructor (text: Option<string>)
      ensures this.text == text
    {
      this.text := text;
    }

    static method SpliceAfter(src: string, anchor: string, x: string) returns (r: Option<string>)
      ensures r == InsertAfter(src, anchor, x)
    {
      var idx := IndexOf(src, anchor);
      if idx == -1 {
        return None;
      }
      var insertAt := idx + |anchor|;
      r := Some(src[..insertAt] + x + src[insertAt..]);
    }

    /** A missing file is left missing, a missing anchor throws and leaves the file as it was. */
    method PatchMainApplication(p: Plugin, block: string) returns (thrown: bool)
      modifies this
      ensures old(text).None? ==> text.None? && !thrown
      ensures old(text).Some? ==>
                var patched := Patch(p, old(text).value, block);
                thrown == patched.None? && text == if thrown then old(text) else patched
    {
      if text.None? {
        return false;
      }
      var src := text.value;
      if !Includes(src, Registration(p)) {
        var registered := SpliceAfter(src, PACKAGES, RegistrationLine(p));
        if registered.None? {
          return true;
        }
        src := registered.value;
      }
      if p == DeviceOwner {
        src := Strip(CURRENT, src);
        src := Strip(LEGACY, src);
        var anchored := SpliceAfter(src, CREATE, block);
        if anchored.None? {
          return true;
        }
        src := anchored.value;
      }
      text := Some(src);
      thrown := false;
    }
  }

  // ---------------------------------------------------------------- stripping

  /** A head of `indent` blanks and then something else, all on one line. */
  predicate Indented(head: string, indent: nat) {
    indent < |head| && !Blank(head[indent]) && '\n' !in head &&
    forall i :: 0 <= i < indent ==> Blank(head[i])
  }

  lemma HeadsAreIndented()
    ensures Indented(CURRENT.head, 4) && Indented(LEGACY.head, 0)
  {
    MarkerPairs();
  }

  /** Such a head can stand after the blanks of a line in one place only. */
  lemma HeadPlace(head: string, indent: nat, s: string, k: nat)
    requires Indented(head, indent) && s != "" && k <= Blanks(s, 1)
    ensures At(s, head, 1 + k) ==> k + indent == Blanks(s, 1)
  {
    var n := Blanks(s, 1);
    if 1 + k + |head| <= |s| {
      if n < k + indent {
        Differs(s, head, 1 + k, n - k);
      } else if k + indent < n {
        Differs(s, head, 1 + k, indent);
      }
    }
  }

  /** If the head stands at `i` or nowhere, the search finds the rest from there or nothing. */
  lemma {:induction false} SearchFinds(e: Expression, s: string, k: nat, i: nat)
    requires 1 + k <= |s| && forall j: nat :: 1 <= j <= 1 + k && At(s, e.head, j) ==> j == i
    ensures MatchWithin(e, s, k) ==
            if 1 <= i <= 1 + k && At(s, e.head, i) then TailEnd(e, s, i + |e.head|) else None
  {
    if k > 0 {
      SearchFinds(e, s, k - 1, i);
    }
  }

  lemma MatchFinds(e: Expression, s: string, n: nat, i: nat)
    requires s != "" && s[0] == '\n' && n == Blanks(s, 1) && i <= 1 + n
    requires forall j: nat :: 1 <= j <= 1 + n && At(s, e.head, j) ==> j == i
    ensures Match(e, s) == if 1 <= i && At(s, e.head, i) then TailEnd(e, s, i + |e.head|) else None
  {
    SearchFinds(e, s, n, i);
  }

  lemma OnePlace(head: string, indent: nat, s: string, n: nat, i: nat)
    requires Indented(head, indent) && s != "" && n == Blanks(s, 1)
    requires i == if indent <= n then 1 + n - indent else 0
    ensures forall j: nat :: 1 <= j <= 1 + n && At(s, head, j) ==> j == i
  {
    forall j: nat | 1 <= j <= 1 + n ensures At(s, head, j) ==> j == i {
      HeadPlace(head, indent, s, j - 1);
    }
  }

  lemma MatchPlace(e: Expression, indent: nat, s: string)
    requires Indented(e.head, indent) && s != "" && s[0] == '\n'
    ensures var n := Blanks(s, 1);
            Match(e, s) == if indent <= n && At(s, e.head, 1 + n - indent)
                           then TailEnd(e, s, 1 + n - indent + |e.head|) else None
  {
    hide Match, TailEnd, At, Indented;
    var n := Blanks(s, 1);
    var i := if indent <= n then 1 + n - indent else 0;
    OnePlace(e.head, indent, s, n, i);
    MatchFinds(e, s, n, i);
  }

  lemma MatchAt(e: Expression, indent: nat, s: string, i: nat, end: nat)
    requires Indented(e.head, indent) && s != "" && s[0] == '\n' && i + indent == 1 + Blanks(s, 1)
    requires 1 <= i && At(s, e.head, i) && TailEnd(e, s, i + |e.head|) == Some(end)
    ensures Match(e, s) == Some(end)
  {
    hide Match, TailEnd, At, Indented;
    MatchPlace(e, indent, s);
  }

  lemma {:induction false} BlanksAre(s: string, i: nat, n: nat)
    requires i + n <= |s| && forall j :: i <= j < i + n ==> s[j] == ' ' || s[j] == '\t'
    requires i + n < |s| ==> s[i + n] != ' ' && s[i + n] != '\t'
    ensures Blanks(s, i) == n
    decreases n
  {
    if n > 0 {
      BlanksAre(s, i + 1, n - 1);
    }
  }

  /** Where everything is in a line of blanks, a head and more. */
  lemma LinePlaces(pad: string, head: string, rest: string)
    ensures var s := "\n" + pad + head + rest;
            && s[0] == '\n' && At(s, head, 1 + |pad|)
            && (forall j :: 1 <= j <= |pad| ==> s[j] == pad[j - 1])
            && (forall j :: 0 <= j < |head| ==> s[1 + |pad| + j] == head[j])
  {
    var s := "\n" + pad + head + rest;
    assert s[1 + |pad|..1 + |pad| + |head|] == head;
  }

  lemma HeadLooks(head: string, indent: nat)
    requires Indented(head, indent)
    ensures indent < |head| && head[indent] != ' ' && head[indent] != '\t'
    ensures forall j :: 0 <= j < indent ==> head[j] == ' ' || head[j] == '\t'
  {
  }

  lemma IndentCounts(pad: string, head: string, rest: string, indent: nat)
    requires Indented(head, indent) && forall j :: 0 <= j < |pad| ==> pad[j] == ' ' || pad[j] == '\t'
    ensures Blanks("\n" + pad + head + rest, 1) == |pad| + indent
  {
    hide At, Indented, Blanks;
    LinePlaces(pad, head, rest);
    HeadLooks(head, indent);
    var s := "\n" + pad + head + rest;
    forall j | 1 <= j < 1 + |pad| + indent ensures s[j] == ' ' || s[j] == '\t' {
      if |pad| < j {
        assert s[1 + |pad| + (j - 1 - |pad|)] == head[j - 1 - |pad|];
      }
    }
    assert s[1 + |pad| + indent] == head[indent];
    BlanksAre(s, 1, |pad| + indent);
  }

  /** In front of its head an expression takes any mix of spaces and tabs. */
  lemma AnyIndentMatches(e: Expression, indent: nat, pad: string, rest: string)
    requires Indented(e.head, indent) && forall j :: 0 <= j < |pad| ==> pad[j] == ' ' || pad[j] == '\t'
    ensures var s := "\n" + pad + e.head + rest;
            Match(e, s) == TailEnd(e, s, 1 + |pad| + |e.head|)
  {
    hide Match, TailEnd, At, Indented, Blanks;
    LinePlaces(pad, e.head, rest);
    IndentCounts(pad, e.head, rest, indent);
    MatchPlace(e, indent, "\n" + pad + e.head + rest);
  }

  /** And nothing else: a line that begins with any other character is no match. */
  lemma OtherLineFails(e: Expression, indent: nat, c: char, rest: string)
    requires Indented(e.head, indent) && c != ' ' && c != '\t' && c != e.head[indent]
    ensures Match(e, "\n" + [c] + rest) == None
  {
    hide Match, TailEnd, Blanks;
    var s := "\n" + [c] + rest;
    assert s[1] == c;
    BlanksAre(s, 1, 0);
    MatchPlace(e, indent, s);
  }

  /** From `i` on there is a line break, then spaces and tabs only, then a closing brace that ends at `r`. */
  ghost predicate ClosesAt(s: string, i: nat, r: nat) {
    && 1 <= r <= |s| && s[r - 1] == '}'
    && exists p :: i <= p < r - 1 && s[p] == '\n' && forall j :: p < j < r - 1 ==> s[j] == ' ' || s[j] == '\t'
  }

  lemma ClosesLater(s: string, i: nat, r: nat)
    requires i < |s| && ClosesAt(s, i, r)
    ensures ClosesAt(s, i + 1, r) ||
            (s[i] == '\n' && i < r - 1 && forall j :: i < j < r - 1 ==> s[j] == ' ' || s[j] == '\t')
  {
    var p :| i <= p < r - 1 && s[p] == '\n' && forall j :: p < j < r - 1 ==> s[j] == ' ' || s[j] == '\t';
    if p > i {
      assert ClosesAt(s, i + 1, r);
    }
  }

  lemma ClosesHere(s: string, i: nat, r: nat)
    requires i < |s| && s[i] == '\n' && i < r - 1 && r <= |s| && s[r - 1] == '}'
    requires forall j :: i < j < r - 1 ==> s[j] == ' ' || s[j] == '\t'
    ensures r - 1 == i + 1 + Blanks(s, i + 1)
  {
    BlanksAre(s, i + 1, r - 1 - (i + 1));
  }

  /** The legacy expression ends behind the first closing brace that begins its line, if there is one. */
  lemma {:induction false} ClosingBraceExactly(s: string, i: nat)
    requires i <= |s|
    ensures match ClosingBrace(s, i)
            case None => forall r: nat :: !ClosesAt(s, i, r)
            case Some(end) => ClosesAt(s, i, end) && forall r: nat :: ClosesAt(s, i, r) ==> end <= r
    decreases |s| - i
  {
    hide ClosesAt;
    if i == |s| {
      forall r: nat ensures !ClosesAt(s, i, r) {
        NothingCloses(s, r);
      }
    } else {
      ClosingBraceExactly(s, i + 1);
      var brace := i + 1 + Blanks(s, i + 1);
      if s[i] == '\n' && brace < |s| && s[brace] == '}' {
        assert ClosesAt(s, i, brace + 1) by { BraceCloses(s, i, brace); }
      }
      forall r: nat | ClosesAt(s, i, r)
        ensures ClosesAt(s, i + 1, r) || (s[i] == '\n' && r == brace + 1 && brace < |s| && s[brace] == '}')
      {
        ClosesLater(s, i, r);
        if !ClosesAt(s, i + 1, r) {
          ClosesInside(s, i, r);
          ClosesHere(s, i, r);
        }
      }
      forall r: nat | ClosesAt(s, i + 1, r)
        ensures ClosesAt(s, i, r) && (s[i] == '\n' ==> brace < r)
      {
        ClosesSooner(s, i, r);
      }
    }
  }

  lemma ClosesInside(s: string, i: nat, r: nat)
    requires ClosesAt(s, i, r)
    ensures 1 <= r <= |s| && s[r - 1] == '}'
  {
  }

  lemma NothingCloses(s: string, r: nat)
    ensures !ClosesAt(s, |s|, r)
  {
  }

  lemma BraceCloses(s: string, i: nat, brace: nat)
    requires i < |s| && s[i] == '\n' && brace == i + 1 + Blanks(s, i + 1) && brace < |s| && s[brace] == '}'
    ensures ClosesAt(s, i, brace + 1)
  {
    assert i <= i < brace + 1 - 1 && forall j :: i < j < brace ==> Blank(s[j]);
  }

  lemma ClosesSooner(s: string, i: nat, r: nat)
    requires i < |s| && ClosesAt(s, i + 1, r)
    ensures ClosesAt(s, i, r) && i + 1 + Blanks(s, i + 1) < r
  {
    var p :| i + 1 <= p < r - 1 && s[p] == '\n' && forall j :: p < j < r - 1 ==> s[j] == ' ' || s[j] == '\t';
    assert i <= p;
  }

  lemma AtStays(a: string, b: string, p: string, i: nat)
    requires i + |p| <= |a|
    ensures At(a + b, p, i) <==> At(a, p, i)
  {
    assert (a + b)[i..i + |p|] == a[i..i + |p|];
  }

  lemma NoneInTail(s: string, m: string)
    requires s != "" && forall i: nat :: !At(s, m, i)
    ensures forall i: nat :: !At(s[1..], m, i)
  {
    forall i: nat
      ensures !At(s[1..], m, i)
    {
      InsertedMatch(s[1..], 0, s[..1], m, i);
      assert Insert(s[1..], 0, s[..1]) == s;
    }
  }

  lemma {:induction false} NoHeadNoStrip(e: Expression, indent: nat, s: string)
    requires Indented(e.head, indent)
    requires forall i: nat :: !At(s, e.head, i)
    ensures Strip(e, s) == s
    decreases |s|
  {
    if s != "" {
      if s[0] == '\n' {
        MatchPlace(e, indent, s);
      }
      NoneInTail(s, e.head);
      NoHeadNoStrip(e, indent, s[1..]);
    }
  }

  /** A text the expression matches from end to end. */
  predicate OldBlock(e: Expression, b: string) { Match(e, b) == Some(|b|) }

  lemma {:induction false} BlanksStay(b: string, v: string, i: nat)
    requires i <= |b| && i + Blanks(b, i) < |b|
    ensures Blanks(b + v, i) == Blanks(b, i)
    decreases |b| - i
  {
    assert (b + v)[i] == b[i];
    if Blank(b[i]) {
      BlanksStay(b, v, i + 1);
    }
  }

  lemma {:induction false} BraceStays(b: string, v: string, i: nat)
    requires i <= |b| && ClosingBrace(b, i) == Some(|b|)
    ensures ClosingBrace(b + v, i) == Some(|b|)
    decreases |b| - i
  {
    assert (b + v)[i] == b[i];
    if b[i] == '\n' {
      var brace := i + 1 + Blanks(b, i + 1);
      if brace < |b| {
        BlanksStay(b, v, i + 1);
        assert (b + v)[brace] == b[brace];
        if b[brace] != '}' {
          BraceStays(b, v, i + 1);
        }
      } else {
        BraceIsLater(b, i + 1);
      }
    } else {
      BraceStays(b, v, i + 1);
    }
  }

  /** Nothing but blanks to the end leaves no line for a brace. */
  lemma {:induction false} BraceIsLater(b: string, i: nat)
    requires i <= |b| && i + Blanks(b, i) == |b|
    ensures ClosingBrace(b, i).None?
    decreases |b| - i
  {
    if i < |b| {
      BraceIsLater(b, i + 1);
    }
  }

  lemma {:induction false} IndexStays(b: string, v: string, p: string, from: nat)
    requires IndexFrom(b, p, from) != -1
    ensures IndexFrom(b + v, p, from) == IndexFrom(b, p, from)
  {
    forall i: nat ensures i + |p| <= |b| ==> (At(b + v, p, i) <==> At(b, p, i)) {
      InsertedMatch(b, |b|, v, p, i);
      assert Insert(b, |b|, v) == b + v;
    }
  }

  lemma TailStays(e: Expression, b: string, v: string, i: nat)
    requires i <= |b| && TailEnd(e, b, i) == Some(|b|)
    ensures TailEnd(e, b + v, i) == Some(|b|)
  {
    hide At, Blanks, IndexFrom;
    match e
    case Marked(_, end) => IndexStays(b, v, end, i);
    case Braced(_, log) =>
      IndexStays(b, v, log, i);
      BraceStays(b, v, IndexFrom(b, log, i) + |log|);
  }

  lemma OldBlockShape(e: Expression, indent: nat, b: string)
    requires Indented(e.head, indent) && OldBlock(e, b)
    ensures var n := Blanks(b, 1);
            && b != "" && b[0] == '\n'
            && indent <= n && 1 + n < |b| && At(b, e.head, 1 + n - indent)
            && TailEnd(e, b, 1 + n - indent + |e.head|) == Some(|b|)
  {
    hide TailEnd, MatchWithin;
    MatchPlace(e, indent, b);
  }

  /** A block matches itself whatever follows it. */
  lemma OldBlockStays(e: Expression, indent: nat, b: string, v: string)
    requires Indented(e.head, indent) && OldBlock(e, b)
    ensures Match(e, b + v) == Some(|b|)
  {
    hide At, TailEnd, Match;
    OldBlockShape(e, indent, b);
    BlanksStay(b, v, 1);
    var i := 1 + Blanks(b, 1) - indent;
    AtStays(b, v, e.head, i);
    TailStays(e, b, v, i + |e.head|);
    assert (b + v)[0] == '\n';
    MatchAt(e, indent, b + v, i, |b|);
  }

  lemma StripKeeps(e: Expression, c: char, s: string)
    requires Match(e, [c] + s) == None
    ensures Strip(e, [c] + s) == [c] + Strip(e, s)
  {
    assert ([c] + s)[1..] == s;
  }

  /** Stripping leaves what has no head, before a line break, as it is. */
  lemma {:induction false} StripPasses(e: Expression, indent: nat, u: string, w: string)
    requires Indented(e.head, indent) && w != "" && w[0] == '\n'
    requires forall i: nat :: !At(u, e.head, i)
    ensures Strip(e, u + w) == u + Strip(e, w)
    decreases |u|
  {
    hide At, Match, Indented, Strip;
    if u == "" {
      assert u + w == w && u + Strip(e, w) == Strip(e, w);
    } else {
      var tail := u[1..];
      NoneInTail(u, e.head);
      StripPasses(e, indent, tail, w);
      NoMatchBefore(e, indent, u, w);
      assert u + w == [u[0]] + (tail + w);
      StripKeeps(e, u[0], tail + w);
      assert [u[0]] + (tail + Strip(e, w)) == u + Strip(e, w);
    }
  }

  /** Stripping takes the block out of a text that has no other head in front of it. */
  lemma StripRemoves(e: Expression, indent: nat, u: string, b: string, v: string)
    requires Indented(e.head, indent) && OldBlock(e, b)
    requires forall i: nat :: !At(u, e.head, i)
    ensures Strip(e, u + b + v) == u + Strip(e, v)
  {
    hide At, Match, Indented, OldBlock;
    OldBlockShape(e, indent, b);
    OldBlockStays(e, indent, b, v);
    assert (b + v)[|b|..] == v;
    assert Strip(e, b + v) == Strip(e, v);
    StripPasses(e, indent, u, b + v);
    assert u + (b + v) == u + b + v;
  }

  /** No match begins inside `u`: its head would end there, or contain the line break after it. */
  lemma NoMatchBefore(e: Expression, indent: nat, u: string, w: string)
    requires Indented(e.head, indent) && u != "" && w != "" && w[0] == '\n'
    requires forall i: nat :: !At(u, e.head, i)
    ensures Match(e, u + w) == None
  {
    var n := BlanksWithin(u, w);
    if indent <= n {
      NoHeadAcross(e.head, u, w, 1 + n - indent);
    }
    NoHeadNoMatch(e, indent, u + w);
  }

  lemma NoHeadNoMatch(e: Expression, indent: nat, s: string)
    requires Indented(e.head, indent) && s != ""
    requires indent <= Blanks(s, 1) ==> !At(s, e.head, 1 + Blanks(s, 1) - indent)
    ensures Match(e, s) == None
  {
    if s[0] == '\n' {
      MatchPlace(e, indent, s);
    }
  }

  lemma BlanksWithin(u: string, w: string) returns (n: nat)
    requires u != "" && w != "" && w[0] == '\n'
    ensures n == Blanks(u + w, 1) && 1 + n <= |u|
  {
    n := Blanks(u + w, 1);
    assert (u + w)[|u|] == '\n';
  }

  lemma NoHeadAcross(head: string, u: string, w: string, i: nat)
    requires i <= |u| && w != "" && w[0] == '\n' && '\n' !in head && head != ""
    requires forall i: nat :: !At(u, head, i)
    ensures !At(u + w, head, i)
  {
    if i + |head| <= |u| {
      AtStays(u, w, head, i);
    } else if i + |head| <= |u + w| {
      Differs(u + w, head, i, |u| - i);
    }
  }
}
