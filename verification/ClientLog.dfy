/** The dashboard's log batching, in a production browser. */
module ClientLog {

  const MAX_BATCH: nat := 10

  /** `posted` are the batches handed to the network, `timer` whether a flush is scheduled. */
  datatype State<T> = State(queue: seq<T>, timer: bool, posted: seq<seq<T>>)

  datatype Event<T> = Log(entry: T) | TimerFires

  function Flush<T>(s: State<T>): State<T> {
    if s.queue == [] then s
    else
      var n := if |s.queue| < MAX_BATCH then |s.queue| else MAX_BATCH;
      s.(queue := s.queue[n..], posted := s.posted + [s.queue[..n]])
  }

  function Enqueue<T>(s: State<T>, entry: T): State<T> {
    var t := s.(queue := s.queue + [entry]);
    if |t.queue| >= MAX_BATCH then Flush(t.(timer := false)) else t.(timer := true)
  }

  function Step<T>(s: State<T>, e: Event<T>): State<T> {
    match e
    case Log(entry) => Enqueue(s, entry)
    case TimerFires => if s.timer then Flush(s.(timer := false)) else s
  }

  function Run<T>(run: seq<Event<T>>): State<T> {
    if run == [] then State([], false, []) else Step(Run(run[..|run| - 1]), run[|run| - 1])
  }

  /** Everything logged, in order. */
  function Logged<T>(run: seq<Event<T>>): seq<T> {
    if run == [] then []
    else Logged(run[..|run| - 1]) + if run[|run| - 1].Log? then [run[|run| - 1].entry] else []
  }

  function Concat<T>(batches: seq<seq<T>>): seq<T> {
    if batches == [] then [] else Concat(batches[..|batches| - 1]) + batches[|batches| - 1]
  }

  ghost predicate Orderly<T>(s: State<T>) {
    && |s.queue| < MAX_BATCH
    && (s.timer <==> s.queue != [])
    && (forall i :: 0 <= i < |s.posted| ==> 1 <= |s.posted[i]| <= MAX_BATCH)
  }

  lemma FlushConserves<T>(s: State<T>)
    ensures Concat(Flush(s).posted) + Flush(s).queue == Concat(s.posted) + s.queue
  {
    if s.queue != [] {
      var n := if |s.queue| < MAX_BATCH then |s.queue| else MAX_BATCH;
      assert Flush(s).posted[..|s.posted|] == s.posted;
      assert s.queue[..n] + s.queue[n..] == s.queue;
    }
  }

  lemma StepKeeps<T>(s: State<T>, e: Event<T>)
    requires Orderly(s)
    ensures Orderly(Step(s, e))
  {
  }

  lemma StepConserves<T>(s: State<T>, e: Event<T>)
    ensures var t := Step(s, e);
            Concat(t.posted) + t.queue == Concat(s.posted) + s.queue + if e.Log? then [e.entry] else []
  {
    hide Flush, Concat;
    match e
    case Log(entry) =>
      FlushConserves(s.(queue := s.queue + [entry], timer := false));
      assert Concat(s.posted) + (s.queue + [entry]) == Concat(s.posted) + s.queue + [entry];
    case TimerFires => FlushConserves(s.(timer := false));
  }

  /**
   After any run of log calls and timer ticks, what was logged is what was posted followed by
   the queue, in order; batches hold one to ten entries, the queue fewer than ten, and a flush
   is scheduled exactly when something waits.
   */
  lemma {:induction false} LogIsConserved<T>(run: seq<Event<T>>)
    ensures var s := Run(run); Logged(run) == Concat(s.posted) + s.queue && Orderly(s)
  {
    hide Step, Concat, Orderly;
    if run == [] {
      StartOrderly<T>();
    } else {
      var init, e := run[..|run| - 1], run[|run| - 1];
      LogIsConserved(init);
      StepKeeps(Run(init), e);
      StepConserves(Run(init), e);
    }
  }

  lemma StartOrderly<T>()
    ensures var s := State<T>.State([], false, []); Orderly(s) && Concat(s.posted) + s.queue == []
  {
  }

  /** Log calls only, one for each entry. */
  function Calls<T>(entries: seq<T>): seq<Event<T>> {
    seq(|entries|, i requires 0 <= i < |entries| => Log(entries[i]))
  }

  /**
   Between two timer ticks the queue goes out in tens: after any entries logged in a row every
   whole ten of them is one batch, in order, and the rest waits for the timer.
   */
  lemma {:induction false} TenAtATime<T>(entries: seq<T>)
    ensures var s, n := Run(Calls(entries)), |entries| / 10;
            && |s.posted| == n && (forall i :: 0 <= i < n ==> s.posted[i] == entries[10 * i..10 * i + 10])
            && s.queue == entries[10 * n..] && (s.timer <==> |entries| % 10 != 0)
    decreases |entries|
  {
    hide Enqueue;
    if entries != [] {
      var init, last := entries[..|entries| - 1], entries[|entries| - 1];
      TenAtATime(init);
      assert Calls(entries)[..|entries| - 1] == Calls(init) && Calls(entries)[|entries| - 1] == Log(last);
      assert init + [last] == entries;
      OneMoreCall(init, last, Run(Calls(init)));
    }
  }

  lemma OneMoreCall<T>(entries: seq<T>, last: T, s: State<T>)
    requires var n := |entries| / 10;
             && |s.posted| == n && (forall i :: 0 <= i < n ==> s.posted[i] == entries[10 * i..10 * i + 10])
             && s.queue == entries[10 * n..] && (s.timer <==> |entries| % 10 != 0)
    ensures var all, t := entries + [last], Enqueue(s, last);
            var n := |all| / 10;
            && |t.posted| == n && (forall i :: 0 <= i < n ==> t.posted[i] == all[10 * i..10 * i + 10])
            && t.queue == all[10 * n..] && (t.timer <==> |all| % 10 != 0)
  {
    var all, n := entries + [last], |entries| / 10;
    assert all[10 * n..] == entries[10 * n..] + [last];
    assert forall i :: 0 <= i < n ==> all[10 * i..10 * i + 10] == entries[10 * i..10 * i + 10];
  }

  /** A flush of any queue posts at most ten entries, ten if there are as many, and nothing from an empty one. */
  lemma FlushTakesTen<T>(s: State<T>)
    ensures s.queue == [] ==> Flush(s) == s
    ensures s.queue != [] ==>
              var t := Flush(s);
              && |t.posted| == |s.posted| + 1 && t.posted[..|s.posted|] == s.posted
              && t.posted[|s.posted|] + t.queue == s.queue && |t.posted[|s.posted|]| <= 10
              && (t.queue == [] || |t.posted[|s.posted|]| == 10)
  {
  }

  /** The timer posts whatever waits, as one batch. */
  lemma TimerPostsTheRest<T>(run: seq<Event<T>>)
    ensures var s, t := Run(run), Run(run + [TimerFires]);
            && t.queue == [] && !t.timer
            && t.posted == if s.queue == [] then s.posted else s.posted + [s.queue]
  {
    var s := Run(run);
    assert (run + [TimerFires])[..|run|] == run;
    LogIsConserved(run);
    assert s.queue[..|s.queue|] == s.queue;
  }

  /** The module's queue and timer. */
  class ClientLogger<T> {
    var queue: seq<T>
    var flushTimer: bool
    var posted: seq<seq<T>>

    ghost function View(): State<T>
      reads this
    {
      State(queue, flushTimer, posted)
    }

    constructor ()
      ensures View() == State([], false, [])
    {
      queue, flushTimer, posted := [], false, [];
    }

    method FlushNow()
      modifies this
      ensures View() == Flush(old(View()))
    {
      if queue == [] {
        return;
      }
      var n := if |queue| < MAX_BATCH then |queue| else MAX_BATCH;
      var batch := queue[..n];
      queue := queue[n..];
      posted := posted + [batch];
    }

    method ScheduleFlush()
      modifies this
      ensures View() == old(View()).(timer := true)
    {
      if flushTimer {
        return;
      }
      flushTimer := true;
    }

    method OnTimer()
      requires flushTimer
      modifies this
      ensures View() == Step(old(View()), TimerFires)
    {
      flushTimer := false;
      FlushNow();
    }

    method Enqueue(entry: T)
      modifies this
      ensures View() == Step(old(View()), Log(entry))
    {
      queue := queue + [entry];
      if |queue| >= MAX_BATCH {
        if flushTimer {
          flushTimer := false;
        }
        FlushNow();
        return;
      }
      ScheduleFlush();
    }
  }
}
