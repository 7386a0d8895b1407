/** The bale_loads repository, the cursor table and a pull from await to await, proved against SyncCursor. */
module SyncCursorRepo {
  import opened SyncCursor

  class BaleLoadsRepo {
    var rows: Table

    constructor ()
      ensures rows == map[]
    {
      rows := map[];
    }

    method Upsert(id: Id, data: Local)
      modifies this
      ensures rows == old(rows)[id := data]
    {
      rows := rows[id := data];
    }

    method Delete(id: Id)
      modifies this
      ensures rows == old(rows) - {id}
    {
      rows := rows - {id};
    }

    /** COALESCE(MAX(server_version), 0) over the whole table. */
    method GetMaxServerVersion() returns (max: nat)
      ensures max == MaxVersion(rows)
    {
      max := 0;
      var left := rows.Keys;
      while left != {}
        invariant left <= rows.Keys
        invariant forall id :: id in rows && id !in left ==> rows[id].version <= max
        invariant max > 0 ==> exists id :: id in rows && rows[id].version == max
        decreases |left|
      {
        var id :| id in left;
        if max < rows[id].version {
          max := rows[id].version;
        }
        left := left - {id};
      }
      MaxIs(rows, max);
    }
  }

  class SyncCursorsRepo {
    var saved: Option<nat>

    constructor ()
      ensures saved == None
    {
      saved := None;
    }

    /** Never moves the cursor back. */
    method Upsert(version: nat)
      modifies this
      ensures saved == Some(if old(saved).Some? && version < old(saved).value then old(saved).value else version)
    {
      if saved.None? || saved.value < version {
        saved := Some(version);
      }
    }
  }

  /** The items whose application does not throw. */
  function Succeeded(items: seq<Item>, fails: set<Item>): seq<Item> {
    if items == [] then []
    else
      var init, last := items[..|items| - 1], items[|items| - 1];
      Succeeded(init, fails) + if last in fails then [] else [last]
  }

  lemma OneMore(t: Table, done: seq<Item>, item: Item)
    ensures ApplyAll(t, done + [item]) == Apply(ApplyAll(t, done), item)
    ensures MaxOf(done + [item]) == if MaxOf(done) < item.entry.version then item.entry.version else MaxOf(done)
  {
    hide Apply;
    assert (done + [item])[..|done|] == done;
  }

  lemma MaxOfNone(done: seq<Item>)
    ensures done == [] ==> MaxOf(done) == 0
  {
  }

  /** What is left of a pull goes on with its first item, or without it. */
  lemma NextItem(s: State, p: PullId, left: seq<Item>)
    requires Underway(s, p, left) && left != []
    ensures Enabled(s, ApplyOne(p, left[0])) && Underway(Step(s, ApplyOne(p, left[0])), p, left[1..])
    ensures Underway(s, p, left[1..])
  {
    var q := s.pulls[p];
    FirstOfRest(q, left);
    assert q.done + [left[0]] + left[1..] == q.done + left;
    var all, fewer := q.done + left, q.done + left[1..];
    forall i | 0 <= i < |fewer|
      ensures fewer[i] == all[if i < |q.done| then i else i + 1]
    {
    }
  }

  /**
   The local variables of one pull. Each method runs from one await to the next; in between the
   table and the cursor belong to everybody.
   */
  class PullCycle {
    const repo: BaleLoadsRepo
    const cursors: SyncCursorsRepo

    var since: nat
    /** Live rows, then tombstones. */
    var left: seq<Item>
    var max: Option<nat>

    constructor (repo: BaleLoadsRepo, cursors: SyncCursorsRepo)
      ensures this.repo == repo && this.cursors == cursors && left == [] && max == None
    {
      this.repo, this.cursors := repo, cursors;
      since, left, max := 0, [], None;
    }

    /** The phone is as the specification has it, and this pull is one of those under way. */
    ghost predicate At(s: State, p: PullId)
      reads this, repo, cursors
    {
      && s.table == repo.rows && s.saved == cursors.saved
      && p in s.pulls && s.pulls[p].since == since
      && (s.pulls[p].Answered? ==>
            Underway(s, p, left) && max == if s.pulls[p].done == [] then None else Some(MaxOf(s.pulls[p].done)))
    }

    method GetLastVersion(ghost s: State, ghost p: PullId)
      requires s.table == repo.rows && s.saved == cursors.saved && p !in s.pulls
      modifies `since
      ensures since == Cursor(cursors.saved, repo.rows)
      ensures At(Step(s, Ask(p)), p)
    {
      if cursors.saved.Some? {
        since := cursors.saved.value;
      } else {
        since := repo.GetMaxServerVersion();
      }
    }

    /** The answer, as the server parts it. */
    method Receive(batch: seq<Item>, updates: seq<Item>, deletions: seq<Item>, ghost s: State, ghost p: PullId)
      requires At(s, p) && Enabled(s, Answer(p, batch)) && IsDone(batch, updates + deletions)
      modifies `left, `max
      ensures left == updates + deletions && At(Step(s, Answer(p, batch)), p)
    {
      left, max := updates + deletions, None;
      assert [] + left == left;
    }

    method ApplyItem(item: Item)
      modifies repo
      ensures repo.rows == Apply(old(repo.rows), item)
    {
      if item.entry.deleted {
        repo.Delete(item.id);
      } else {
        repo.Upsert(item.id, Local(item.entry.version, item.entry.count));
      }
    }

    /** One turn of the loops: a row that cannot be applied is skipped and does not count. */
    method ApplyNext(throws: bool, ghost s: State, ghost p: PullId)
      requires At(s, p) && s.pulls[p].Answered? && left != []
      modifies repo, `left, `max
      ensures left == old(left)[1..]
      ensures throws ==> At(s, p)
      ensures !throws ==> Enabled(s, ApplyOne(p, old(left)[0])) && At(Step(s, ApplyOne(p, old(left)[0])), p)
    {
      hide ApplyAll, MaxOf, Apply, IsDone;
      NextItem(s, p, left);
      var item := left[0];
      left := left[1..];
      if !throws {
        ApplyItem(item);
        OneMore(s.table, s.pulls[p].done, item);
        MaxOfNone(s.pulls[p].done);
        if max.None? || max.value < item.entry.version {
          max := Some(item.entry.version);
        }
      }
    }

    method SaveMax(ghost s: State, ghost p: PullId)
      requires At(s, p) && s.pulls[p].Answered?
      modifies cursors
      ensures Enabled(s, Save(p))
      ensures repo.rows == Step(s, Save(p)).table && cursors.saved == Step(s, Save(p)).saved
    {
      if max.Some? {
        cursors.Upsert(max.value);
      }
    }

    /** The loops and the save, when nothing comes in between: the end of a pull in the specification. */
    method Finish(fails: set<Item>, ghost s: State, ghost p: PullId)
      requires At(s, p) && s.pulls[p].Answered?
      modifies this, repo, cursors
      ensures Underway(s, p, Succeeded(old(left), fails))
      ensures var t := SyncCursor.Finish(s, p, Succeeded(old(left), fails));
              repo.rows == t.table && cursors.saved == t.saved
    {
      hide ApplyAll, MaxOf, Apply, IsDone, Succeeded;
      ghost var all, i, t, done := left, 0, s, s.pulls[p].done;
      assert all[..0] == [] && done + [] == done;
      NothingYet(s.table, fails);
      while left != []
        invariant 0 <= i <= |all| && left == all[i..]
        invariant At(t, p) && t.pulls[p].Answered? && t.saved == s.saved
        invariant t.pulls[p].batch == s.pulls[p].batch
        invariant t.pulls[p].done == done + Succeeded(all[..i], fails)
        invariant t.table == ApplyAll(s.table, Succeeded(all[..i], fails))
        decreases |left|
      {
        var item := left[0];
        TakeOneMore(s.table, all, i, fails);
        ApplyNext(item in fails, t, p);
        if item !in fails {
          t := Step(t, ApplyOne(p, item));
        }
        i := i + 1;
      }
      assert all[..i] == all;
      SaveMax(t, p);
      assert t.pulls[p].done + [] == t.pulls[p].done;
    }
  }

  lemma NothingYet(t: Table, fails: set<Item>)
    ensures Succeeded([], fails) == [] && ApplyAll(t, []) == t
  {
  }

  lemma TakeOneMore(t: Table, all: seq<Item>, i: nat, fails: set<Item>)
    requires i < |all|
    ensures var before, after := Succeeded(all[..i], fails), Succeeded(all[..i + 1], fails);
            && after == before + (if all[i] in fails then [] else [all[i]])
            && ApplyAll(t, after) == if all[i] in fails then ApplyAll(t, before) else Apply(ApplyAll(t, before), all[i])
  {
    hide Apply;
    assert all[..i + 1][..i] == all[..i] && all[..i + 1][i] == all[i];
    var before := Succeeded(all[..i], fails);
    assert before + [] == before;
    OneMore(t, Succeeded(all[..i], fails), all[i]);
  }

  // ---------------------------------------------------------------- the loops are a pull of the specification

  /** The server's partition of a batch into live rows and tombstones. */
  function Where(batch: seq<Item>, deleted: bool): seq<Item> {
    if batch == [] then []
    else
      var last := batch[|batch| - 1];
      Where(batch[..|batch| - 1], deleted) + if last.entry.deleted == deleted then [last] else []
  }

  predicate Ascending(items: seq<Item>) {
    forall i, j :: 0 <= i < j < |items| ==> items[i].entry.version < items[j].entry.version
  }

  ghost predicate From(part: seq<Item>, items: seq<Item>) {
    (forall x :: x in part ==> x in items) && (Ascending(items) ==> Ascending(part))
  }

  lemma {:induction false} WhereIsFrom(batch: seq<Item>, deleted: bool)
    ensures From(Where(batch, deleted), batch)
    ensures forall x :: x in Where(batch, deleted) ==> x.entry.deleted == deleted
  {
    if batch != [] {
      var init, last := batch[..|batch| - 1], batch[|batch| - 1];
      WhereIsFrom(init, deleted);
      PartExtends(Where(init, deleted), batch);
    }
  }

  lemma PartExtends(part: seq<Item>, items: seq<Item>)
    requires items != [] && From(part, items[..|items| - 1])
    ensures From(part, items) && From(part + [items[|items| - 1]], items)
  {
    var init, last := items[..|items| - 1], items[|items| - 1];
    if Ascending(items) {
      assert Ascending(init);
      forall i | 0 <= i < |part|
        ensures part[i].entry.version < last.entry.version
      {
        assert part[i] in init;
        var j :| 0 <= j < |init| && init[j] == part[i];
        assert items[j] == part[i];
      }
    }
  }

  lemma {:induction false} WhereHas(batch: seq<Item>, x: Item)
    requires x in batch
    ensures x in Where(batch, x.entry.deleted)
  {
    var init, last := batch[..|batch| - 1], batch[|batch| - 1];
    if x != last {
      assert x in init;
      WhereHas(init, x);
    }
  }

  /** The two parts of an answer are what there is to apply: every item of it, each once. */
  lemma LoopsAreAPull(server: Server, since: nat, batch: seq<Item>)
    requires IsBatch(server, since, batch)
    ensures IsDone(batch, Where(batch, false) + Where(batch, true))
    ensures forall i :: 0 <= i < |batch| ==> batch[i] in Where(batch, false) + Where(batch, true)
  {
    hide Where;
    var a, b := Where(batch, false), Where(batch, true);
    WhereIsFrom(batch, false);
    WhereIsFrom(batch, true);
    var done := a + b;
    forall i | 0 <= i < |batch|
      ensures batch[i] in done
    {
      WhereHas(batch, batch[i]);
    }
    forall i, j | 0 <= i < j < |done|
      ensures done[i].id != done[j].id
    {
      var x, y := done[i], done[j];
      assert x in batch && y in batch;
      assert x.id == y.id ==> x.entry == y.entry;
      if j < |a| {
        assert a[i].entry.version < a[j].entry.version;
      } else if |a| <= i {
        assert b[i - |a|].entry.version < b[j - |a|].entry.version;
      } else {
        assert x in a && y in b;
      }
    }
  }
}
