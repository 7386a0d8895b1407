/**
 The sort of every data table: compareCells and sortRows.

 The locale is a collator and a number formatter. The JavaScript engine's sort is any
 permutation the comparator accepts; AnyEngineAgrees shows that there is only one.
 */
module TableSort {

  datatype Option<T> = None | Some(value: T)

  /** What a column can hold. `Missing` is null or undefined. */
  datatype Cell = Missing | Number(n: real) | Boolean(b: bool) | Text(s: string)

  datatype Direction = Asc | Desc

  datatype Locale = Locale(collate: (string, string) -> int, show: real -> string)

  /** The em-dash that stands for an absent value. */
  const EMPTY := "\U{2014}"

  predicate IsBlank(v: Cell) { v.Missing? || v == Text("") || v == Text(EMPTY) }

  function AsString(loc: Locale, v: Cell): string {
    match v
    case Missing => "null"
    case Number(n) => loc.show(n)
    case Boolean(b) => if b then "true" else "false"
    case Text(s) => s
  }

  function Bit(b: bool): real { if b then 1.0 else 0.0 }

  function CompareFilled(a: Cell, b: Cell, loc: Locale): real {
    if a.Number? && b.Number? then a.n - b.n
    else if a.Boolean? && b.Boolean? then Bit(a.b) - Bit(b.b)
    else loc.collate(AsString(loc, a), AsString(loc, b)) as real
  }

  function CompareCells(a: Cell, b: Cell, dir: Direction, loc: Locale): real {
    if IsBlank(a) && IsBlank(b) then 0.0
    else if IsBlank(a) then 1.0
    else if IsBlank(b) then -1.0
    else if dir == Asc then CompareFilled(a, b, loc) else -CompareFilled(a, b, loc)
  }

  // ---------------------------------------------------------------- compareCells is a total preorder

  ghost predicate Collates(f: (string, string) -> int) {
    && (forall a, b :: f(a, b) < 0 <==> f(b, a) > 0)
    && (forall a, b, c :: f(a, b) <= 0 && f(b, c) <= 0 ==> f(a, c) <= 0)
  }

  datatype Kind = Numbers | Booleans | Texts

  /** Nothing there: no value, the empty text, or the em-dash. */
  predicate NoValue(v: Cell) { v in {Missing, Text(""), Text("\U{2014}")} }

  /** A column of one kind, cells without a value allowed. */
  predicate Fits(v: Cell, kind: Kind) {
    NoValue(v) || match kind case Numbers => v.Number? case Booleans => v.Boolean? case Texts => v.Text?
  }

  lemma CompareSign(a: Cell, b: Cell, kind: Kind, dir: Direction, loc: Locale)
    requires Collates(loc.collate) && Fits(a, kind) && Fits(b, kind)
    ensures CompareCells(a, b, dir, loc) < 0.0 <==> CompareCells(b, a, dir, loc) > 0.0
  {
  }

  lemma FilledTransitive(a: Cell, b: Cell, c: Cell, kind: Kind, loc: Locale)
    requires Collates(loc.collate) && Fits(a, kind) && Fits(b, kind) && Fits(c, kind)
    requires !IsBlank(a) && !IsBlank(b) && !IsBlank(c)
    requires CompareFilled(a, b, loc) <= 0.0 && CompareFilled(b, c, loc) <= 0.0
    ensures CompareFilled(a, c, loc) <= 0.0
  {
    match kind
    case Numbers =>
    case Booleans =>
    case Texts =>
  }

  lemma FilledSign(a: Cell, b: Cell, kind: Kind, loc: Locale)
    requires Collates(loc.collate) && Fits(a, kind) && Fits(b, kind) && !IsBlank(a) && !IsBlank(b)
    ensures CompareFilled(a, b, loc) < 0.0 <==> CompareFilled(b, a, loc) > 0.0
  {
  }

  lemma CompareTransitive(a: Cell, b: Cell, c: Cell, kind: Kind, dir: Direction, loc: Locale)
    requires Collates(loc.collate) && Fits(a, kind) && Fits(b, kind) && Fits(c, kind)
    requires CompareCells(a, b, dir, loc) <= 0.0 && CompareCells(b, c, dir, loc) <= 0.0
    ensures CompareCells(a, c, dir, loc) <= 0.0
  {
    hide CompareFilled, IsBlank;
    if !IsBlank(a) && !IsBlank(b) && !IsBlank(c) {
      if dir == Asc {
        FilledTransitive(a, b, c, kind, loc);
      } else {
        FilledSign(a, b, kind, loc);
        FilledSign(b, c, kind, loc);
        FilledSign(a, c, kind, loc);
        FilledTransitive(c, b, a, kind, loc);
      }
    }
  }

  /** On a column of one kind, for a collator that is a total preorder, compareCells is one too. */
  lemma CompareIsTotalPreorder(a: Cell, b: Cell, c: Cell, kind: Kind, dir: Direction, loc: Locale)
    requires Collates(loc.collate) && Fits(a, kind) && Fits(b, kind) && Fits(c, kind)
    ensures CompareCells(a, b, dir, loc) < 0.0 <==> CompareCells(b, a, dir, loc) > 0.0
    ensures CompareCells(a, b, dir, loc) <= 0.0 && CompareCells(b, c, dir, loc) <= 0.0 ==>
              CompareCells(a, c, dir, loc) <= 0.0
  {
    hide CompareCells;
    CompareSign(a, b, kind, dir, loc);
    if CompareCells(a, b, dir, loc) <= 0.0 && CompareCells(b, c, dir, loc) <= 0.0 {
      CompareTransitive(a, b, c, kind, dir, loc);
    }
  }

  /** With numbers and text in one column it is not: 10 <= "1x" <= 9 under any code-point-like collator. */
  lemma MixedColumnIsCyclic(loc: Locale, dir: Direction)
    requires loc.show(9.0) == "9" && loc.show(10.0) == "10"
    requires loc.collate("10", "1x") < 0 && loc.collate("1x", "9") < 0
    ensures CompareCells(Number(10.0), Text("1x"), Asc, loc) < 0.0
    ensures CompareCells(Text("1x"), Number(9.0), Asc, loc) < 0.0
    ensures CompareCells(Number(10.0), Number(9.0), Asc, loc) > 0.0
  {
  }

  // ---------------------------------------------------------------- rows

  /** A row with its place in the incoming data and its sort value. */
  datatype Decorated<T> = Decorated(row: T, i: nat, v: Cell)

  datatype Plan<!T> = Plan(key: string, dir: Direction, loc: Locale, read: (T, string) -> Cell, tie: Option<string>)

  function Secondary<T>(p: Plan<T>, a: T, b: T): real {
    match p.tie
    case None => 0.0
    case Some(key) =>
      if key == "" || key == p.key then 0.0 else CompareCells(p.read(a, key), p.read(b, key), Asc, p.loc)
  }

  function Order<T>(p: Plan<T>, a: Decorated<T>, b: Decorated<T>): real {
    var primary := CompareCells(a.v, b.v, p.dir, p.loc);
    if primary != 0.0 then primary
    else
      var secondary := Secondary(p, a.row, b.row);
      if secondary != 0.0 then secondary else a.i as real - b.i as real
  }

  predicate Leq<T>(p: Plan<T>, a: Decorated<T>, b: Decorated<T>) { Order(p, a, b) <= 0.0 }

  function Decorate<T>(data: seq<T>, p: Plan<T>): seq<Decorated<T>> {
    seq(|data|, i requires 0 <= i < |data| => Decorated(data[i], i, p.read(data[i], p.key)))
  }

  function Undecorate<T>(d: seq<Decorated<T>>): seq<T> {
    seq(|d|, i requires 0 <= i < |d| => d[i].row)
  }

  function Insert<T>(p: Plan<T>, x: Decorated<T>, s: seq<Decorated<T>>): seq<Decorated<T>> {
    if s == [] then [x] else if Leq(p, x, s[0]) then [x] + s else [s[0]] + Insert(p, x, s[1..])
  }

  function Sorted<T>(p: Plan<T>, s: seq<Decorated<T>>): seq<Decorated<T>> {
    if s == [] then [] else Insert(p, s[0], Sorted(p, s[1..]))
  }

  /** sortRows, for a plan with a key; without one the data comes back as it is. */
  function SortRows<T>(data: seq<T>, p: Plan<T>): seq<T> {
    if p.key == "" then data else Undecorate(Sorted(p, Decorate(data, p)))
  }

  // ---------------------------------------------------------------- the comparator orders the rows

  ghost predicate InOrder<T>(p: Plan<T>, s: seq<Decorated<T>>) {
    forall i, j :: 0 <= i < j < |s| ==> Leq(p, s[i], s[j])
  }

  /** The collator is a total preorder and both columns are of one kind. */
  ghost predicate ColumnsFit<T(!new)>(data: seq<T>, p: Plan<T>, kind: Kind, tieKind: Kind) {
    && Collates(p.loc.collate)
    && (forall row :: row in data ==> Fits(p.read(row, p.key), kind))
    && (forall row :: row in data && p.tie.Some? ==> Fits(p.read(row, p.tie.value), tieKind))
  }

  ghost predicate Sortable<T(!new)>(p: Plan<T>, s: seq<Decorated<T>>, kind: Kind, tieKind: Kind) {
    && Collates(p.loc.collate)
    && (forall x :: x in s ==> Fits(x.v, kind))
    && (forall x :: x in s && p.tie.Some? ==> Fits(p.read(x.row, p.tie.value), tieKind))
    && (forall x, y :: x in s && y in s && x.i == y.i ==> x == y)
  }

  lemma DecoratedSortable<T(!new)>(data: seq<T>, p: Plan<T>, kind: Kind, tieKind: Kind)
    requires ColumnsFit(data, p, kind, tieKind)
    ensures Sortable(p, Decorate(data, p), kind, tieKind)
  {
  }

  ghost predicate TotalOrder<T(!new)>(p: Plan<T>, s: seq<Decorated<T>>) {
    && (forall x, y :: x in s && y in s ==> Leq(p, x, y) || Leq(p, y, x))
    && (forall x, y :: x in s && y in s && Leq(p, x, y) && Leq(p, y, x) ==> x == y)
    && (forall x, y, z :: x in s && y in s && z in s && Leq(p, x, y) && Leq(p, y, z) ==> Leq(p, x, z))
  }

  lemma OrderSign<T(!new)>(p: Plan<T>, s: seq<Decorated<T>>, kind: Kind, tieKind: Kind, x: Decorated<T>, y: Decorated<T>)
    requires Sortable(p, s, kind, tieKind) && x in s && y in s
    ensures Order(p, x, y) < 0.0 <==> Order(p, y, x) > 0.0
    ensures Order(p, x, y) == 0.0 ==> x == y
  {
    hide CompareCells, Fits;
    CompareSign(x.v, y.v, kind, p.dir, p.loc);
    CompareSign(y.v, x.v, kind, p.dir, p.loc);
    SecondarySign(p, s, kind, tieKind, x, y);
    SecondarySign(p, s, kind, tieKind, y, x);
  }

  lemma SecondarySign<T(!new)>(p: Plan<T>, s: seq<Decorated<T>>, kind: Kind, tieKind: Kind, x: Decorated<T>,
                               y: Decorated<T>)
    requires Sortable(p, s, kind, tieKind) && x in s && y in s
    ensures Secondary(p, x.row, y.row) < 0.0 <==> Secondary(p, y.row, x.row) > 0.0
  {
    hide CompareCells, Fits;
    if p.tie.Some? {
      CompareSign(p.read(x.row, p.tie.value), p.read(y.row, p.tie.value), tieKind, Asc, p.loc);
    }
  }

  lemma SecondaryTransitive<T(!new)>(p: Plan<T>, s: seq<Decorated<T>>, kind: Kind, tieKind: Kind, x: Decorated<T>,
                                     y: Decorated<T>, z: Decorated<T>)
    requires Sortable(p, s, kind, tieKind) && x in s && y in s && z in s
    requires Secondary(p, x.row, y.row) <= 0.0 && Secondary(p, y.row, z.row) <= 0.0
    ensures Secondary(p, x.row, z.row) <= 0.0
  {
    hide CompareCells, Fits;
    if p.tie.Some? && p.tie.value != "" && p.tie.value != p.key {
      var k := p.tie.value;
      CompareTransitive(p.read(x.row, k), p.read(y.row, k), p.read(z.row, k), tieKind, Asc, p.loc);
    }
  }

  lemma PrimaryStrict<T(!new)>(p: Plan<T>, s: seq<Decorated<T>>, kind: Kind, tieKind: Kind, x: Decorated<T>,
                               y: Decorated<T>, z: Decorated<T>)
    requires Sortable(p, s, kind, tieKind) && x in s && y in s && z in s
    requires CompareCells(x.v, y.v, p.dir, p.loc) <= 0.0 && CompareCells(y.v, z.v, p.dir, p.loc) <= 0.0
    ensures CompareCells(x.v, z.v, p.dir, p.loc) <= 0.0
    ensures CompareCells(x.v, y.v, p.dir, p.loc) < 0.0 || CompareCells(y.v, z.v, p.dir, p.loc) < 0.0 ==>
              CompareCells(x.v, z.v, p.dir, p.loc) < 0.0
  {
    hide CompareCells, Fits, Collates;
    CompareIsTotalPreorder(x.v, y.v, z.v, kind, p.dir, p.loc);
    CompareIsTotalPreorder(z.v, x.v, y.v, kind, p.dir, p.loc);
    CompareIsTotalPreorder(y.v, z.v, x.v, kind, p.dir, p.loc);
    CompareSign(y.v, x.v, kind, p.dir, p.loc);
    CompareSign(z.v, y.v, kind, p.dir, p.loc);
    CompareSign(x.v, z.v, kind, p.dir, p.loc);
  }

  lemma SecondaryStrict<T(!new)>(p: Plan<T>, s: seq<Decorated<T>>, kind: Kind, tieKind: Kind, x: Decorated<T>,
                                 y: Decorated<T>, z: Decorated<T>)
    requires Sortable(p, s, kind, tieKind) && x in s && y in s && z in s
    requires Secondary(p, x.row, y.row) <= 0.0 && Secondary(p, y.row, z.row) <= 0.0
    ensures Secondary(p, x.row, z.row) <= 0.0
    ensures Secondary(p, x.row, y.row) < 0.0 || Secondary(p, y.row, z.row) < 0.0 ==> Secondary(p, x.row, z.row) < 0.0
  {
    hide Secondary, Sortable;
    SecondaryTransitive(p, s, kind, tieKind, x, y, z);
    SecondarySign(p, s, kind, tieKind, x, z);
    SecondarySign(p, s, kind, tieKind, z, x);
    SecondarySign(p, s, kind, tieKind, y, x);
    SecondarySign(p, s, kind, tieKind, x, y);
    SecondarySign(p, s, kind, tieKind, z, y);
    SecondarySign(p, s, kind, tieKind, y, z);
    if Secondary(p, z.row, x.row) <= 0.0 {
      SecondaryTransitive(p, s, kind, tieKind, z, x, y);
      SecondaryTransitive(p, s, kind, tieKind, y, z, x);
    }
  }

  lemma OrderTransitive<T(!new)>(p: Plan<T>, s: seq<Decorated<T>>, kind: Kind, tieKind: Kind, x: Decorated<T>,
                                 y: Decorated<T>, z: Decorated<T>)
    requires Sortable(p, s, kind, tieKind) && x in s && y in s && z in s
    requires Leq(p, x, y) && Leq(p, y, z)
    ensures Leq(p, x, z)
  {
    hide CompareCells, Secondary, Sortable;
    PrimaryStrict(p, s, kind, tieKind, x, y, z);
    if CompareCells(x.v, y.v, p.dir, p.loc) == 0.0 && CompareCells(y.v, z.v, p.dir, p.loc) == 0.0 {
      SecondaryStrict(p, s, kind, tieKind, x, y, z);
    }
  }

  lemma OrderIsTotal<T(!new)>(p: Plan<T>, s: seq<Decorated<T>>, kind: Kind, tieKind: Kind)
    requires Sortable(p, s, kind, tieKind)
    ensures TotalOrder(p, s)
  {
    hide Order, Sortable;
    forall x, y | x in s && y in s
      ensures Leq(p, x, y) || Leq(p, y, x)
      ensures Leq(p, x, y) && Leq(p, y, x) ==> x == y
    {
      OrderSign(p, s, kind, tieKind, x, y);
      OrderSign(p, s, kind, tieKind, y, x);
    }
    forall x, y, z | x in s && y in s && z in s && Leq(p, x, y) && Leq(p, y, z)
      ensures Leq(p, x, z)
    {
      OrderTransitive(p, s, kind, tieKind, x, y, z);
    }
  }

  // ---------------------------------------------------------------- sorting

  lemma {:induction false} InsertKeeps<T(!new)>(p: Plan<T>, x: Decorated<T>, s: seq<Decorated<T>>)
    ensures multiset(Insert(p, x, s)) == multiset([x] + s)
  {
    hide Leq;
    if s != [] && !Leq(p, x, s[0]) {
      InsertKeeps(p, x, s[1..]);
      assert s == [s[0]] + s[1..];
    }
  }

  lemma InsertMembers<T(!new)>(p: Plan<T>, x: Decorated<T>, s: seq<Decorated<T>>, y: Decorated<T>)
    ensures y in Insert(p, x, s) <==> y == x || y in s
  {
    hide Insert;
    InsertKeeps(p, x, s);
    assert y in Insert(p, x, s) <==> y in multiset(Insert(p, x, s));
    assert y in [x] + s <==> y in multiset([x] + s);
  }

  lemma {:induction false} InsertOrders<T(!new)>(p: Plan<T>, x: Decorated<T>, s: seq<Decorated<T>>, all: seq<Decorated<T>>)
    requires TotalOrder(p, all) && x in all && (forall y :: y in s ==> y in all) && InOrder(p, s)
    ensures InOrder(p, Insert(p, x, s))
  {
    hide Leq;
    if s != [] {
      if Leq(p, x, s[0]) {
        assert forall j :: 0 <= j < |s| ==> Leq(p, x, s[j]);
      } else {
        var rest := Insert(p, x, s[1..]);
        InsertOrders(p, x, s[1..], all);
        forall j | 0 <= j < |rest|
          ensures Leq(p, s[0], rest[j])
        {
          InsertMembers(p, x, s[1..], rest[j]);
        }
      }
    }
  }

  lemma {:induction false} SortKeeps<T(!new)>(p: Plan<T>, s: seq<Decorated<T>>)
    ensures multiset(Sorted(p, s)) == multiset(s)
  {
    hide Insert;
    if s != [] {
      SortKeeps(p, s[1..]);
      InsertKeeps(p, s[0], Sorted(p, s[1..]));
      assert s == [s[0]] + s[1..];
    }
  }

  lemma SameMembers<T>(s: seq<T>, t: seq<T>, x: T)
    requires multiset(s) == multiset(t)
    ensures x in s <==> x in t
  {
    assert x in s <==> x in multiset(s);
    assert x in t <==> x in multiset(t);
  }

  lemma {:induction false} SortOrders<T(!new)>(p: Plan<T>, s: seq<Decorated<T>>, all: seq<Decorated<T>>)
    requires TotalOrder(p, all) && forall x :: x in s ==> x in all
    ensures InOrder(p, Sorted(p, s))
  {
    hide Insert, Leq;
    if s != [] {
      SortOrders(p, s[1..], all);
      forall y | y in Sorted(p, s[1..])
        ensures y in all
      {
        SortKeeps(p, s[1..]);
        SameMembers(Sorted(p, s[1..]), s[1..], y);
      }
      InsertOrders(p, s[0], Sorted(p, s[1..]), all);
    }
  }

  lemma FirstIsLeast<T(!new)>(p: Plan<T>, s: seq<Decorated<T>>, t: seq<Decorated<T>>, all: seq<Decorated<T>>)
    requires TotalOrder(p, all) && (forall x :: x in s ==> x in all)
    requires InOrder(p, s) && InOrder(p, t) && multiset(s) == multiset(t) && s != [] && t != []
    ensures s[0] == t[0]
  {
    hide Leq;
    SameMembers(s, t, s[0]);
    SameMembers(s, t, t[0]);
    assert Leq(p, s[0], t[0]);
    assert Leq(p, t[0], s[0]);
  }

  /** There is one ordered permutation. */
  lemma {:induction false} OrderedIsUnique<T(!new)>(p: Plan<T>, s: seq<Decorated<T>>, t: seq<Decorated<T>>,
                                                    all: seq<Decorated<T>>)
    requires TotalOrder(p, all) && (forall x :: x in s ==> x in all)
    requires InOrder(p, s) && InOrder(p, t) && multiset(s) == multiset(t)
    ensures s == t
  {
    hide Leq;
    if s == [] {
      assert |multiset(t)| == 0;
    } else {
      assert |multiset(t)| == |s|;
      FirstIsLeast(p, s, t, all);
      assert s == [s[0]] + s[1..] && t == [t[0]] + t[1..];
      assert multiset(s[1..]) == multiset(s) - multiset{s[0]};
      assert multiset(t[1..]) == multiset(t) - multiset{t[0]};
      OrderedIsUnique(p, s[1..], t[1..], all);
    }
  }

  lemma SortedIsOrdered<T(!new)>(p: Plan<T>, s: seq<Decorated<T>>)
    requires TotalOrder(p, s)
    ensures InOrder(p, Sorted(p, s)) && multiset(Sorted(p, s)) == multiset(s)
  {
    SortKeeps(p, s);
    SortOrders(p, s, s);
  }

  /**
   Whatever sort the engine runs, if it permutes the decorated rows into an order the
   comparator accepts, then sortRows returns what the model says.
   */
  lemma AnyEngineAgrees<T(!new)>(data: seq<T>, p: Plan<T>, engine: seq<Decorated<T>>, kind: Kind, tieKind: Kind)
    requires p.key != "" && ColumnsFit(data, p, kind, tieKind)
    requires multiset(engine) == multiset(Decorate(data, p)) && InOrder(p, engine)
    ensures Undecorate(engine) == SortRows(data, p)
    ensures InOrder(p, Sorted(p, Decorate(data, p))) && multiset(Sorted(p, Decorate(data, p))) == multiset(Decorate(data, p))
  {
    hide Leq, Sorted, Sortable, ColumnsFit, Undecorate, TotalOrder, InOrder;
    var d := Decorate(data, p);
    DecoratedSortable(data, p, kind, tieKind);
    OrderIsTotal(p, d, kind, tieKind);
    SortedIsOrdered(p, d);
    forall x | x in Sorted(p, d)
      ensures x in d
    {
      SameMembers(Sorted(p, d), d, x);
    }
    OrderedIsUnique(p, Sorted(p, d), engine, d);
  }

  // ---------------------------------------------------------------- the two directions

  /** `a` comes somewhere before `b`. */
  ghost predicate ComesBefore<T>(s: seq<Decorated<T>>, a: Decorated<T>, b: Decorated<T>) {
    exists i, j :: 0 <= i < j < |s| && s[i] == a && s[j] == b
  }

  /** In the sorted rows, position is order. */
  lemma PositionIsOrder<T(!new)>(p: Plan<T>, d: seq<Decorated<T>>, kind: Kind, tieKind: Kind, a: Decorated<T>,
                                 b: Decorated<T>)
    requires Sortable(p, d, kind, tieKind) && a in d && b in d && a != b
    ensures ComesBefore(Sorted(p, d), a, b) <==> Order(p, a, b) < 0.0
  {
    hide Order, Sorted, Sortable, TotalOrder;
    var s := Sorted(p, d);
    OrderIsTotal(p, d, kind, tieKind);
    SortedIsOrdered(p, d);
    SameMembers(s, d, a);
    SameMembers(s, d, b);
    OrderSign(p, d, kind, tieKind, a, b);
    OrderSign(p, d, kind, tieKind, b, a);
    var i :| 0 <= i < |s| && s[i] == a;
    var j :| 0 <= j < |s| && s[j] == b;
    if i < j {
      assert Leq(p, s[i], s[j]);
    } else {
      assert Leq(p, s[j], s[i]);
    }
    if ComesBefore(s, a, b) {
      var k, l :| 0 <= k < l < |s| && s[k] == a && s[l] == b;
      assert Leq(p, s[k], s[l]);
    }
  }

  predicate Tied(a: Cell, b: Cell, loc: Locale) { CompareCells(a, b, Asc, loc) == 0.0 }

  lemma Flipped<T>(p: Plan<T>, a: Decorated<T>, b: Decorated<T>)
    ensures Tied(a.v, b.v, p.loc) ==> Order(p.(dir := Desc), a, b) == Order(p.(dir := Asc), a, b)
    ensures !Tied(a.v, b.v, p.loc) && !IsBlank(a.v) && !IsBlank(b.v) ==>
              Order(p.(dir := Desc), a, b) == -Order(p.(dir := Asc), a, b)
    ensures IsBlank(a.v) && !IsBlank(b.v) ==> Order(p, a, b) > 0.0
  {
    hide CompareFilled, IsBlank;
  }

  /**
   Toggling the arrow: rows that tie keep their order, filled rows that differ swap, and a
   blank comes after every filled row both times.
   */
  lemma DescendingMirrorsAscending<T(!new)>(data: seq<T>, p: Plan<T>, kind: Kind, tieKind: Kind, a: Decorated<T>,
                                            b: Decorated<T>)
    requires ColumnsFit(data, p, kind, tieKind) && a in Decorate(data, p) && b in Decorate(data, p) && a != b
    ensures var d := Decorate(data, p);
            Tied(a.v, b.v, p.loc) ==>
              (ComesBefore(Sorted(p.(dir := Desc), d), a, b) <==> ComesBefore(Sorted(p.(dir := Asc), d), a, b))
    ensures var d := Decorate(data, p);
            !Tied(a.v, b.v, p.loc) && !IsBlank(a.v) && !IsBlank(b.v) ==>
              (ComesBefore(Sorted(p.(dir := Desc), d), a, b) <==> ComesBefore(Sorted(p.(dir := Asc), d), b, a))
    ensures IsBlank(b.v) && !IsBlank(a.v) ==> ComesBefore(Sorted(p, Decorate(data, p)), a, b)
  {
    hide ColumnsFit, Order, Sorted, Tied, IsBlank, ComesBefore, Fits, Collates;
    var d := Decorate(data, p);
    DecoratedSortable(data, p, kind, tieKind);
    var asc, desc := p.(dir := Asc), p.(dir := Desc);
    assert Sortable(asc, d, kind, tieKind) && Sortable(desc, d, kind, tieKind);
    PositionIsOrder(asc, d, kind, tieKind, a, b);
    PositionIsOrder(asc, d, kind, tieKind, b, a);
    PositionIsOrder(desc, d, kind, tieKind, a, b);
    PositionIsOrder(p, d, kind, tieKind, a, b);
    Flipped(p, a, b);
    Flipped(p, b, a);
    OrderSign(asc, d, kind, tieKind, a, b);
    OrderSign(asc, d, kind, tieKind, b, a);
    OrderSign(p, d, kind, tieKind, a, b);
    OrderSign(p, d, kind, tieKind, b, a);
  }

  // ---------------------------------------------------------------- what the reader of the table sees

  /** The smaller number, false before true, the text the collator puts first. */
  predicate Smaller(v: Cell, w: Cell, loc: Locale) {
    || (v.Number? && w.Number? && v.n < w.n)
    || (v.Boolean? && w.Boolean? && !v.b && w.b)
    || (v.Text? && w.Text? && loc.collate(v.s, w.s) < 0)
  }

  /** Values before no value either way; among values the smaller first, or last under Desc. */
  predicate Ahead(v: Cell, w: Cell, dir: Direction, loc: Locale) {
    if NoValue(v) || NoValue(w) then !NoValue(v) && NoValue(w)
    else if dir == Asc then Smaller(v, w, loc)
    else Smaller(w, v, loc)
  }

  /** Row `i` of the data belongs above row `j`: by the column, by the second column upwards, by place. */
  predicate RowAhead<T>(data: seq<T>, p: Plan<T>, i: nat, j: nat)
    requires i < |data| && j < |data|
  {
    var v, w := p.read(data[i], p.key), p.read(data[j], p.key);
    || Ahead(v, w, p.dir, p.loc)
    || (!Ahead(w, v, p.dir, p.loc) &&
        if p.tie.None? || p.tie.value in {"", p.key} then i < j
        else
          var x, y := p.read(data[i], p.tie.value), p.read(data[j], p.tie.value);
          Ahead(x, y, Asc, p.loc) || (!Ahead(y, x, Asc, p.loc) && i < j))
  }

  lemma AheadIsNegative(v: Cell, w: Cell, kind: Kind, dir: Direction, loc: Locale)
    requires Collates(loc.collate) && Fits(v, kind) && Fits(w, kind)
    ensures Ahead(v, w, dir, loc) <==> CompareCells(v, w, dir, loc) < 0.0
    ensures Ahead(w, v, dir, loc) <==> CompareCells(v, w, dir, loc) > 0.0
  {
  }

  lemma OrderIsRowAhead<T(!new)>(data: seq<T>, p: Plan<T>, kind: Kind, tieKind: Kind, i: nat, j: nat)
    requires ColumnsFit(data, p, kind, tieKind) && i < |data| && j < |data|
    ensures var d := Decorate(data, p); RowAhead(data, p, i, j) <==> Order(p, d[i], d[j]) < 0.0
  {
    hide Ahead, CompareCells, Fits, Collates;
    AheadIsNegative(p.read(data[i], p.key), p.read(data[j], p.key), kind, p.dir, p.loc);
    if p.tie.Some? {
      AheadIsNegative(p.read(data[i], p.tie.value), p.read(data[j], p.tie.value), tieKind, Asc, p.loc);
    }
  }

  lemma OnceInData<T>(data: seq<T>, p: Plan<T>, x: Decorated<T>)
    ensures multiset(Decorate(data, p))[x] <= 1
  {
    var d := Decorate(data, p);
    if x in d {
      var i := x.i;
      assert d == d[..i] + [x] + d[i + 1..];
      assert x !in d[..i] && x !in d[i + 1..];
    }
  }

  lemma TwiceCountsTwo<T>(s: seq<T>, k: nat, l: nat)
    requires k < l < |s| && s[k] == s[l]
    ensures 2 <= multiset(s)[s[k]]
  {
    assert s == s[..k] + [s[k]] + s[k + 1..l] + [s[k]] + s[l + 1..];
  }

  /**
   What sortRows returns: every row of the data once, and of any two rows the one that belongs
   above stands above. Without a key the data itself.
   */
  lemma SortRowsExactly<T(!new)>(data: seq<T>, p: Plan<T>, kind: Kind, tieKind: Kind) returns (from: seq<nat>)
    requires ColumnsFit(data, p, kind, tieKind)
    ensures |SortRows(data, p)| == |from| == |data|
    ensures forall k :: 0 <= k < |from| ==> from[k] < |data| && SortRows(data, p)[k] == data[from[k]]
    ensures forall k, l :: 0 <= k < l < |from| ==> from[k] != from[l]
    ensures forall k, l :: 0 <= k < l < |from| && p.key != "" ==> RowAhead(data, p, from[k], from[l])
    ensures p.key == "" ==> SortRows(data, p) == data
  {
    if p.key == "" {
      from := seq(|data|, i => i);
      return;
    }
    var d := Decorate(data, p);
    var s := Sorted(p, d);
    hide Leq, Sorted, Sortable, RowAhead, TotalOrder, ColumnsFit, Order;
    DecoratedSortable(data, p, kind, tieKind);
    OrderIsTotal(p, d, kind, tieKind);
    SortedIsOrdered(p, d);
    assert |s| == |multiset(s)| == |d|;
    forall k | 0 <= k < |s| ensures s[k].i < |d| && s[k] == d[s[k].i] {
      SameMembers(s, d, s[k]);
    }
    from := seq(|s|, k requires 0 <= k < |s| => s[k].i);
    forall k, l | 0 <= k < l < |s|
      ensures from[k] != from[l] && RowAhead(data, p, from[k], from[l])
    {
      OnceInData(data, p, s[k]);
      if s[k] == s[l] {
        TwiceCountsTwo(s, k, l);
      }
      assert Leq(p, s[k], s[l]);
      StrictlyAhead(data, p, kind, tieKind, from[k], from[l]);
    }
  }

  lemma StrictlyAhead<T(!new)>(data: seq<T>, p: Plan<T>, kind: Kind, tieKind: Kind, i: nat, j: nat)
    requires ColumnsFit(data, p, kind, tieKind) && i < |data| && j < |data| && i != j
    requires Leq(p, Decorate(data, p)[i], Decorate(data, p)[j])
    ensures RowAhead(data, p, i, j)
  {
    hide Order, RowAhead, ColumnsFit, Sortable;
    var d := Decorate(data, p);
    DecoratedSortable(data, p, kind, tieKind);
    OrderSign(p, d, kind, tieKind, d[i], d[j]);
    OrderIsRowAhead(data, p, kind, tieKind, i, j);
  }

  /** How a value reads. */
  function Reading(v: Cell, loc: Locale): string
    requires !NoValue(v)
  {
    if v == Boolean(true) then "true" else if v == Boolean(false) then "false"
    else if v.Number? then loc.show(v.n) else v.s
  }

  lemma TwoRows<T>(x: T, y: T, p: Plan<T>)
    requires p.key != ""
    ensures SortRows([x, y], p) ==
            if Order(p, Decorated(x, 0, p.read(x, p.key)), Decorated(y, 1, p.read(y, p.key))) <= 0.0 then [x, y] else [y, x]
  {
    hide Order;
    var a, b := Decorated(x, 0, p.read(x, p.key)), Decorated(y, 1, p.read(y, p.key));
    var d := Decorate([x, y], p);
    assert d == [a, b] && d[1..] == [b] && [b][1..] == [];
    assert Sorted(p, []) == [] && Sorted(p, [b]) == [b] && Insert(p, a, []) == [a];
    assert Undecorate([a, b]) == [x, y] && Undecorate([b, a]) == [y, x];
  }

  /** Two rows whose values are of different kinds are put in the order of how they read. */
  lemma UnlikeRowsByReading<T>(x: T, y: T, p: Plan<T>)
    requires p.key != "" && !NoValue(p.read(x, p.key)) && !NoValue(p.read(y, p.key))
    requires var v, w := p.read(x, p.key), p.read(y, p.key); !(v.Number? && w.Number?) && !(v.Boolean? && w.Boolean?)
    ensures var order := p.loc.collate(Reading(p.read(x, p.key), p.loc), Reading(p.read(y, p.key), p.loc));
            order != 0 ==> SortRows([x, y], p) == if (order < 0) == (p.dir == Asc) then [x, y] else [y, x]
  {
    hide SortRows, Secondary;
    TwoRows(x, y, p);
  }
}
