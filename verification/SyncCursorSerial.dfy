/**
 Pulls one at a time: if nothing but the server moves between the reading and the saving of a
 cursor, the conditions of SyncCursor reduce to what a single pull does with its answer.
 */
module SyncCursorSerial {
  import opened SyncCursor

  /** The rows that were not applied are newer than all that were. */
  ghost predicate NothingSkipped(batch: seq<Item>, done: seq<Item>) {
    forall i :: 0 <= i < |batch| ==> batch[i] in done || MaxOf(done) < batch[i].entry.version
  }

  /** What was committed since the answer lies above what was applied, unless it deletes a row that is not there. */
  ghost predicate NothingLate(s: State, q: Pull)
    requires q.Answered?
  {
    forall id :: Changed(q, s.server, id) && s.server[id].version <= MaxOf(q.done) ==>
      s.server[id].deleted && id !in s.table
  }

  /** The pull has skipped nothing and no write has been overtaken. */
  ghost predicate EndsWell(s: State, q: Pull) {
    q.Answered? && q.done != [] ==>
      NothingSkipped(q.batch, q.done) && NothingLate(s, q) && NoneInFlight(s.pending, s.table, MaxOf(q.done))
  }

  /**
   One pull at a time, no wipe during one, and no optimistic row during one but for a row that
   the server has not heard of; and a pull ends well, or without a trace if a cursor was saved.
   */
  ghost predicate Serial(s: State, e: Event)
    requires Enabled(s, e)
  {
    match e
    case Ask(_) => s.pulls == map[]
    case Wipe => s.pulls == map[]
    case Optimistic(id, _) =>
      || (id !in s.server && id !in s.pending)
      || (s.pulls == map[]
          && (id in s.server ==> Since(s) < s.server[id].version)
          && (id in s.pending ==> Since(s) < s.pending[id].version))
    case Save(p) => EndsWell(s, s.pulls[p])
    case GiveUp(p) => s.saved.Some? || EndsWell(s, s.pulls[p])
    case _ => true
  }

  ghost predicate SerialRun(s: State, run: seq<Event>)
    decreases |run|
  {
    run == [] || (Enabled(s, run[0]) && Serial(s, run[0]) && SerialRun(Step(s, run[0]), run[1..]))
  }

  // ---------------------------------------------------------------- what one pull keeps

  /** The cursor holds here: nothing at or below it is missing or still to commit. */
  ghost predicate Holds(s: State, cursor: nat) {
    Sound(s.server, s.table, cursor) && NoneInFlight(s.pending, s.table, cursor)
  }

  /** What is known of the one pull under way. */
  ghost predicate PullKept(s: State, q: Pull) {
    && Holds(s, q.since)
    && (s.saved.Some? ==> q.since == s.saved.value)
    && (q.Answered? ==> forall i :: 0 <= i < |q.done| ==> Reflected(q.done[i].entry, q.done[i].id, s.table))
    && (s.saved.None? ==> forall id :: id in s.table ==> s.table[id].version <= Reached(q))
  }

  /** The highest version the pull can have put into the table. */
  function Reached(q: Pull): nat {
    if q.Answered? && q.since < MaxOf(q.done) then MaxOf(q.done) else q.since
  }

  ghost predicate SerialKept(s: State) {
    && Ordered(s)
    && (forall p, q :: p in s.pulls && q in s.pulls ==> p == q)
    && (s.pulls == map[] ==> Holds(s, Since(s)))
    && (forall p :: p in s.pulls ==> PullKept(s, s.pulls[p]))
  }

  /** The end of a pull: the cursor holds at the highest version that was applied. */
  lemma EndHolds(s: State, p: PullId)
    requires Ordered(s) && p in s.pulls && s.pulls[p].Answered? && s.pulls[p].done != []
    requires PullKept(s, s.pulls[p]) && EndsWell(s, s.pulls[p])
    ensures Holds(s, MaxOf(s.pulls[p].done))
  {
    hide RowsOrdered, MaxOf, Reflected;
    var q := s.pulls[p];
    assert PullOrdered(s.server, s.next, q);
    assert q.done + [] == q.done;
    MaxOfDone(s.server, s.next, q, []);
    var cursor := MaxOf(q.done);
    forall id | id in s.server && s.server[id].version <= cursor
      ensures Reflected(s.server[id], id, s.table)
    {
      if Changed(q, s.server, id) {
        DeletionReflected(s.server[id], id, s.table);
      } else if q.since < s.server[id].version {
        InsideBatch(s.server, s.next, q, id, cursor);
        var i :| 0 <= i < |q.batch| && q.batch[i] == Item(id, s.server[id]);
        assert q.batch[i] in q.done;
      }
    }
  }

  lemma DeletionReflected(e: Entry, id: Id, t: Table)
    ensures e.deleted && id !in t ==> Reflected(e, id, t)
  {
  }

  lemma HoldsBelow(s: State, high: nat, low: nat)
    requires Holds(s, high) && low <= high
    ensures Holds(s, low)
  {
  }

  // ---------------------------------------------------------------- each step

  lemma ServerStepHolds(s: State, e: Event, cursor: nat)
    requires RowsOrdered(s.server, s.pending, s.next, s.table) && Holds(s, cursor) && cursor < s.next && Enabled(s, e)
    requires e.Stamp? || e.Commit? || e.Rollback?
    ensures Holds(Step(s, e), cursor)
  {
  }

  lemma ServerStepKept(s: State, e: Event)
    requires SerialKept(s) && Enabled(s, e) && (e.Stamp? || e.Commit? || e.Rollback?)
    ensures SerialKept(Step(s, e))
  {
    hide RowsOrdered, PullOrdered, Holds, MaxVersion, Reached;
    var t := Step(s, e);
    StepOrdered(s, e);
    SinceBelow(s);
    if s.pulls == map[] {
      ServerStepHolds(s, e, Since(s));
    }
    forall p | p in t.pulls
      ensures PullKept(t, t.pulls[p])
    {
      AskedBelow(s, p);
      ServerStepHolds(s, e, s.pulls[p].since);
    }
  }

  lemma AskedBelow(s: State, p: PullId)
    requires Ordered(s) && p in s.pulls
    ensures s.pulls[p].since < s.next
  {
    assert PullOrdered(s.server, s.next, s.pulls[p]);
  }

  /** A local row changes that lies, on the server, above the cursor. */
  lemma RowHolds(s: State, t: State, id: Id, cursor: nat)
    requires Holds(s, cursor) && t.server == s.server && t.pending == s.pending
    requires forall x :: x != id ==> (x in t.table <==> x in s.table) && (x in s.table ==> t.table[x] == s.table[x])
    requires id in s.server ==> cursor < s.server[id].version
    requires id in s.pending ==> cursor < s.pending[id].version
    ensures Holds(t, cursor)
  {
  }

  lemma OptimisticKept(s: State, e: Event)
    requires SerialKept(s) && Enabled(s, e) && e.Optimistic? && Serial(s, e)
    ensures SerialKept(Step(s, e))
  {
    hide RowsOrdered, Holds, MaxVersion, MaxOf;
    var t := Step(s, e);
    StepOrdered(s, e);
    if s.pulls == map[] {
      OptimisticLowers(s, e.id, e.count);
      RowHolds(s, t, e.id, Since(s));
      HoldsBelow(t, Since(s), Since(t));
    }
    forall p | p in t.pulls
      ensures PullKept(t, t.pulls[p])
    {
      var q := s.pulls[p];
      RowHolds(s, t, e.id, q.since);
      assert PullOrdered(s.server, s.next, q);
      if q.Answered? {
        forall i | 0 <= i < |q.done|
          ensures Reflected(q.done[i].entry, q.done[i].id, t.table)
        {
          assert q.done[i] in q.batch;
          ItemBelow(s.server, s.next, q, q.done[i]);
        }
      }
    }
  }

  lemma OptimisticLowers(s: State, id: Id, count: nat)
    ensures Since(Step(s, Optimistic(id, count))) <= Since(s)
  {
    hide MaxVersion;
    var t := s.table[id := Local(0, count)];
    MaxBelow(t, MaxVersion(s.table));
  }

  lemma AskKept(s: State, p: PullId)
    requires SerialKept(s) && s.pulls == map[]
    ensures SerialKept(Step(s, Ask(p)))
  {
    hide Ordered, Holds;
    var t := Step(s, Ask(p));
    StepOrdered(s, Ask(p));
    SameHolds(s, t);
    TableBelow(s);
    assert PullKept(t, Asked(Since(s)));
  }

  lemma TableBelow(s: State)
    ensures s.saved.None? ==> forall id :: id in s.table ==> s.table[id].version <= Since(s)
  {
  }

  lemma AnswerKept(s: State, p: PullId, batch: seq<Item>)
    requires SerialKept(s) && Enabled(s, Answer(p, batch))
    ensures SerialKept(Step(s, Answer(p, batch)))
  {
    hide Ordered, Holds, IsBatch, MaxVersion;
    var t := Step(s, Answer(p, batch));
    StepOrdered(s, Answer(p, batch));
    SameHolds(s, t);
    assert PullKept(s, s.pulls[p]);
    assert PullKept(t, t.pulls[p]);
  }

  lemma SameHolds(s: State, t: State)
    requires t.server == s.server && t.pending == s.pending && t.table == s.table
    ensures forall cursor :: Holds(s, cursor) ==> Holds(t, cursor)
  {
  }

  lemma AppliedKept(s: State, p: PullId, item: Item)
    requires SerialKept(s) && Enabled(s, ApplyOne(p, item))
    ensures SerialKept(Step(s, ApplyOne(p, item)))
  {
    hide RowsOrdered, PullsOrdered, Holds, MaxVersion, MaxOf;
    var q, t := s.pulls[p], Step(s, ApplyOne(p, item));
    StepOrdered(s, ApplyOne(p, item));
    OneAbove(s, p, item);
    assert PullKept(s, q);
    RowHolds(s, t, item.id, q.since);
    MaxOfMore(q.done, item);
    forall i | 0 <= i < |t.pulls[p].done|
      ensures Reflected(t.pulls[p].done[i].entry, t.pulls[p].done[i].id, t.table)
    {
      assert i < |q.done| ==> q.done[i].id != item.id;
    }
    assert PullKept(t, t.pulls[p]);
  }

  /** The row of an item lies above the cursor, on the server and still to commit. */
  lemma OneAbove(s: State, p: PullId, item: Item)
    requires Ordered(s) && Enabled(s, ApplyOne(p, item))
    ensures item.id in s.server && s.pulls[p].since < item.entry.version <= s.server[item.id].version
    ensures item.id in s.pending ==> s.pulls[p].since < s.pending[item.id].version
  {
    assert PullOrdered(s.server, s.next, s.pulls[p]);
    ItemBelow(s.server, s.next, s.pulls[p], item);
  }

  lemma MaxOfMore(done: seq<Item>, item: Item)
    ensures MaxOf(done + [item]) == if MaxOf(done) < item.entry.version then item.entry.version else MaxOf(done)
  {
    assert (done + [item])[..|done|] == done;
  }

  lemma EndKept(s: State, e: Event)
    requires SerialKept(s) && Enabled(s, e) && (e.Save? || e.GiveUp?) && Serial(s, e)
    ensures SerialKept(Step(s, e))
  {
    hide Ordered, Holds, MaxVersion, MaxOf, EndsWell;
    var q, t := s.pulls[e.pull], Step(s, e);
    StepOrdered(s, e);
    assert t.pulls == map[] by { OnlyPull(s, e.pull); }
    SameHolds(s, t);
    if q.Answered? && q.done != [] && (e.Save? || s.saved.None?) {
      EndHolds(s, e.pull);
      SavedIs(s, e.pull);
    }
    if t.saved.None? {
      MaxOfNothing(q);
      MaxBelow(s.table, Reached(q));
      HoldsBelow(t, Reached(q), Since(t));
    }
  }

  lemma OnlyPull(s: State, p: PullId)
    requires p in s.pulls && forall x, y :: x in s.pulls && y in s.pulls ==> x == y
    ensures s.pulls - {p} == map[]
  {
  }

  lemma MaxOfNothing(q: Pull)
    ensures q.Answered? && q.done == [] ==> MaxOf(q.done) == 0
  {
  }

  lemma SavedIs(s: State, p: PullId)
    requires Ordered(s) && p in s.pulls && s.pulls[p].Answered? && s.pulls[p].done != []
    requires s.saved.Some? ==> s.pulls[p].since == s.saved.value
    ensures SaveCursor(s.saved, s.pulls[p].done) == Some(MaxOf(s.pulls[p].done))
    ensures Reached(s.pulls[p]) == MaxOf(s.pulls[p].done)
  {
    hide RowsOrdered, MaxOf;
    assert PullOrdered(s.server, s.next, s.pulls[p]);
    assert s.pulls[p].done + [] == s.pulls[p].done;
    MaxOfDone(s.server, s.next, s.pulls[p], []);
  }

  lemma WipeKept(s: State)
    requires SerialKept(s) && s.pulls == map[]
    ensures SerialKept(Step(s, Wipe))
  {
    hide PullsOrdered;
    StepOrdered(s, Wipe);
  }

  lemma StepSerial(s: State, e: Event)
    requires SerialKept(s) && Enabled(s, e) && Serial(s, e)
    ensures SerialKept(Step(s, e))
  {
    hide SerialKept, EndsWell;
    match e
    case Optimistic(_, _) => OptimisticKept(s, e);
    case Ask(p) => AskKept(s, p);
    case Answer(p, batch) => AnswerKept(s, p, batch);
    case ApplyOne(p, item) => AppliedKept(s, p, item);
    case Save(_) => EndKept(s, e);
    case GiveUp(_) => EndKept(s, e);
    case Wipe => WipeKept(s);
    case _ => ServerStepKept(s, e);
  }

  lemma {:induction false} RunSerial(s: State, run: seq<Event>)
    requires SerialKept(s) && SerialRun(s, run)
    ensures ValidRun(s, run) && SerialKept(Run(s, run))
    decreases |run|
  {
    hide SerialKept, Step, Enabled, Serial;
    if run != [] {
      StepSerial(s, run[0]);
      RunSerial(Step(s, run[0]), run[1..]);
    }
  }

  lemma FreshKept()
    ensures SerialKept(FRESH)
  {
  }

  /**
   In every serial run from a fresh install, the cursor the next pull will ask above, saved or
   not, has no server row at or below it that is missing, and none that is still to commit.
   */
  lemma SerialNeverSkips(run: seq<Event>)
    requires SerialRun(FRESH, run)
    ensures ValidRun(FRESH, run)
    ensures var s := Run(FRESH, run);
            && (s.pulls == map[] ==> Holds(s, Since(s)))
            && (s.saved.Some? ==> Holds(s, s.saved.value))
  {
    hide Run, ValidRun, SerialRun, Holds, Ordered, Reached;
    FreshKept();
    RunSerial(FRESH, run);
    var s := Run(FRESH, run);
    if s.pulls != map[] {
      var p :| p in s.pulls;
      assert PullKept(s, s.pulls[p]);
    }
  }
}
