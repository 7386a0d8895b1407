/**
 The dashboard's realtime subscription: retries with back-off, gives up after ten, can be
 reconnected by hand. State and Step are the specification; class Provider is the component
 with its refs, proved against it.

 The environment may call back with any status at any time, but only for a channel that has
 not been removed, and runs a timer only if it was not cleared.
 */
module Realtime {

  const MAX_RETRIES: nat := 10
  const FIRST_DELAY: nat := 1000
  const LONGEST_DELAY: nat := 30_000

  datatype Option<T> = None | Some(value: T)

  datatype Status = Connected | Reconnecting | Disconnected

  /** `timer` is the delay of the pending timer, `invalidations` how often all queries were refetched. */
  datatype State = State(
    mounted: bool,
    live: bool,
    timer: Option<nat>,
    retries: nat,
    status: Status,
    invalidations: nat)

  datatype Event = Mount | Unmount | Subscribed | Failed | Closed | TimerFires | Reconnect

  const START := State(false, false, None, 0, Connected, 0)

  function Pow2(n: nat): nat { if n == 0 then 1 else 2 * Pow2(n - 1) }

  function Delay(retries: nat): nat {
    var d := FIRST_DELAY * Pow2(retries);
    if d < LONGEST_DELAY then d else LONGEST_DELAY
  }

  /** What the environment can do: callbacks come from the live channel, a fired timer was pending. */
  predicate Enabled(s: State, e: Event) {
    match e
    case Mount => !s.mounted
    case Unmount => s.mounted
    case Subscribed | Failed | Closed => s.live
    case TimerFires => s.timer.Some?
    case Reconnect => s.mounted
  }

  function Fail(s: State): State {
    if s.retries >= MAX_RETRIES then s.(live := false, status := Disconnected)
    else s.(live := false, status := Reconnecting, timer := Some(Delay(s.retries)), retries := s.retries + 1)
  }

  function Step(s: State, e: Event): State {
    match e
    case Mount => s.(mounted := true, live := true)
    case Unmount => s.(mounted := false, live := false, timer := None)
    case Subscribed =>
      s.(retries := 0, status := Connected,
         invalidations := s.invalidations + if s.retries > 0 then 1 else 0)
    case Failed => Fail(s)
    case Closed => s
    case TimerFires => s.(timer := None, live := true)
    case Reconnect => s.(timer := None, live := true, retries := 0, status := Reconnecting)
  }

  function Run(s: State, run: seq<Event>): State {
    if run == [] then s else Step(Run(s, run[..|run| - 1]), run[|run| - 1])
  }

  predicate ValidRun(s: State, run: seq<Event>) {
    run != [] ==>
      ValidRun(s, run[..|run| - 1]) && Enabled(Run(s, run[..|run| - 1]), run[|run| - 1])
  }

  // ---------------------------------------------------------------- one of three

  predicate GivenUp(s: State) { s.mounted && !s.live && s.timer == None && s.status == Disconnected && s.retries == MAX_RETRIES }

  /** A mounted provider has a live channel, or a pending timer, or has given up: exactly one of them. */
  predicate OneOfThree(s: State) {
    && s.retries <= MAX_RETRIES
    && !(s.live && s.timer.Some?)
    && (s.mounted && !s.live && s.timer.None? ==> GivenUp(s))
    && (!s.mounted ==> !s.live && s.timer.None?)
    && (s.timer.Some? ==> 1 <= s.retries && s.timer.value == Delay(s.retries - 1))
  }

  lemma StepKeepsOneOfThree(s: State, e: Event)
    requires OneOfThree(s) && Enabled(s, e)
    ensures OneOfThree(Step(s, e))
  {
    hide Delay;
  }

  /** In every run. */
  lemma {:induction false} AlwaysOneOfThree(run: seq<Event>)
    requires ValidRun(START, run)
    ensures OneOfThree(Run(START, run))
  {
    hide Step, Enabled;
    if run != [] {
      AlwaysOneOfThree(run[..|run| - 1]);
      StepKeepsOneOfThree(Run(START, run[..|run| - 1]), run[|run| - 1]);
    }
  }

  // ---------------------------------------------------------------- back-off

  lemma DelayGrows(a: nat, b: nat)
    requires a <= b
    ensures FIRST_DELAY <= Delay(a) <= Delay(b) <= LONGEST_DELAY
  {
    Pow2Grows(0, a);
    Pow2Grows(a, b);
  }

  lemma {:induction false} Pow2Grows(a: nat, b: nat)
    requires a <= b
    ensures 1 <= Pow2(a) <= Pow2(b)
  {
    if a < b {
      Pow2Grows(a, b - 1);
    } else if a > 0 {
      Pow2Grows(a - 1, a - 1);
    }
  }

  /** The delays of the timers that a run sets, in order. */
  function Waits(s: State, run: seq<Event>): seq<nat> {
    if run == [] then []
    else
      var before := Run(s, run[..|run| - 1]);
      Waits(s, run[..|run| - 1]) +
      if run[|run| - 1] == Failed && before.retries < MAX_RETRIES then [Delay(before.retries)] else []
  }

  function Sum(s: seq<nat>): nat { if s == [] then 0 else Sum(s[..|s| - 1]) + s[|s| - 1] }

  function Delays(n: nat): (d: seq<nat>)
    ensures |d| == n
  {
    if n == 0 then [] else Delays(n - 1) + [Delay(n - 1)]
  }

  /** Nothing but failures and the timers they set. */
  predicate OnlyFailures(run: seq<Event>) {
    forall i :: 0 <= i < |run| ==> run[i] == Failed || run[i] == TimerFires
  }

  lemma {:induction false} FailuresWait(s: State, run: seq<Event>)
    requires OneOfThree(s) && s.live && s.retries == 0 && s.status != Disconnected
    requires ValidRun(s, run) && OnlyFailures(run)
    ensures var r := Run(s, run);
            && OneOfThree(r) && r.mounted && Waits(s, run) == Delays(r.retries)
            && |run| == 2 * r.retries - (if r.timer.Some? then 1 else 0) + (if GivenUp(r) then 1 else 0)
            && (r.status == Disconnected <==> GivenUp(r))
  {
    hide Delay, Enabled;
    if run != [] {
      var init, e := run[..|run| - 1], run[|run| - 1];
      FailuresWait(s, init);
      assert e == Failed || e == TimerFires;
      assert Enabled(Run(s, init), e);
      FailureStep(Run(s, init), e);
    }
  }

  lemma FailureStep(r: State, e: Event)
    requires OneOfThree(r) && r.mounted && (e == Failed || e == TimerFires) && Enabled(r, e)
    requires r.status == Disconnected <==> GivenUp(r)
    ensures var t := Step(r, e);
            && OneOfThree(t) && t.mounted && !GivenUp(r)
            && (e == TimerFires ==> t.retries == r.retries && r.timer.Some? && t.timer.None? && !GivenUp(t) && t.status == r.status)
            && (e == Failed ==> r.timer.None?)
            && (e == Failed && r.retries < MAX_RETRIES ==> t.retries == r.retries + 1 && t.timer.Some? && t.status == Reconnecting)
            && (e == Failed && r.retries == MAX_RETRIES ==> t.retries == r.retries && GivenUp(t))
  {
    hide Delay;
  }

  lemma NextDelay(n: nat)
    ensures Delays(n + 1) == Delays(n) + [Delay(n)]
    ensures Sum(Delays(n + 1)) == Sum(Delays(n)) + Delay(n)
  {
    hide Delay;
    assert (Delays(n) + [Delay(n)])[..n] == Delays(n);
  }

  lemma SmallDelays()
    ensures Delay(0) == 1000 && Delay(1) == 2000 && Delay(2) == 4000 && Delay(3) == 8000 && Delay(4) == 16_000
    ensures Delay(5) == 30_000
  {
    assert Pow2(1) == 2 && Pow2(2) == 4 && Pow2(3) == 8 && Pow2(4) == 16 && Pow2(5) == 32;
  }

  lemma LongDelay(n: nat)
    requires 5 <= n
    ensures Delay(n) == 30_000
  {
    hide Delay;
    SmallDelays();
    DelayGrows(5, n);
  }

  lemma FiveDelays()
    ensures Delays(5) == [1000, 2000, 4000, 8000, 16_000] && Sum(Delays(5)) == 31_000
  {
    hide Delay;
    SmallDelays();
    assert Delays(0) == [] && Sum(Delays(0)) == 0;
    NextDelay(0);
    NextDelay(1);
    NextDelay(2);
    NextDelay(3);
    NextDelay(4);
  }

  lemma TenDelays()
    ensures Delays(10) == [1000, 2000, 4000, 8000, 16_000, 30_000, 30_000, 30_000, 30_000, 30_000]
    ensures Sum(Delays(10)) == 181_000
  {
    hide Delay, Delays, Sum;
    FiveDelays();
    forall n: nat | 5 <= n < 10
      ensures Delays(n + 1) == Delays(n) + [30_000] && Sum(Delays(n + 1)) == Sum(Delays(n)) + 30_000
    {
      LongDelay(n);
      NextDelay(n);
    }
    assert Delays(5 + 1) == Delays(5) + [30_000];
    assert Delays(6 + 1) == Delays(6) + [30_000];
    assert Delays(7 + 1) == Delays(7) + [30_000];
    assert Delays(8 + 1) == Delays(8) + [30_000];
    assert Delays(9 + 1) == Delays(9) + [30_000];
  }

  /**
   An uninterrupted run of failures sets at most ten timers and then gives up, after ten
   timers and 181 s and no sooner.
   */
  lemma GivesUpAfterTen(s: State, run: seq<Event>)
    requires OneOfThree(s) && s.live && s.retries == 0 && s.status != Disconnected
    requires ValidRun(s, run) && OnlyFailures(run)
    ensures |run| <= 21 && |Waits(s, run)| <= 10
    ensures GivenUp(Run(s, run)) <==> |run| == 21
    ensures GivenUp(Run(s, run)) ==>
              Sum(Waits(s, run)) == 181_000
              && Waits(s, run) == [1000, 2000, 4000, 8000, 16_000, 30_000, 30_000, 30_000, 30_000, 30_000]
  {
    hide Run, Waits, Delays, Delay, ValidRun, Sum;
    FailuresWait(s, run);
    TenDelays();
  }

  // ---------------------------------------------------------------- catching up after an outage

  /** There was a failure, and no subscription or manual reconnect since. */
  predicate FailedSince(run: seq<Event>) {
    run != [] &&
    match run[|run| - 1]
    case Failed => true
    case Subscribed | Reconnect => false
    case _ => FailedSince(run[..|run| - 1])
  }

  lemma {:induction false} RetriesRemember(run: seq<Event>)
    requires ValidRun(START, run)
    ensures Run(START, run).retries > 0 <==> FailedSince(run)
  {
    hide Delay, Enabled;
    if run != [] {
      RetriesRemember(run[..|run| - 1]);
    }
  }

  /**
   A subscription refetches everything exactly when a failure came before it with no
   subscription and no manual reconnect in between.
   */
  lemma InvalidatesAfterFailure(run: seq<Event>)
    requires ValidRun(START, run)
    ensures Step(Run(START, run), Subscribed).invalidations ==
            Run(START, run).invalidations + if FailedSince(run) then 1 else 0
  {
    RetriesRemember(run);
  }

  /** So every subscription that a retry timer brought about refetches everything. */
  lemma AutomaticRetryInvalidates(run: seq<Event>, after: seq<Event>)
    requires ValidRun(START, run + [TimerFires] + after)
    requires forall i :: 0 <= i < |after| ==> after[i] == Closed
    ensures Step(Run(START, run + [TimerFires] + after), Subscribed).invalidations ==
            Run(START, run + [TimerFires] + after).invalidations + 1
  {
    hide Delay, Step;
    InvalidatesAfterFailure(run + [TimerFires] + after);
    TimerMeansFailed(run, after);
  }

  lemma {:induction false} TimerMeansFailed(run: seq<Event>, after: seq<Event>)
    requires ValidRun(START, run + [TimerFires] + after)
    requires forall i :: 0 <= i < |after| ==> after[i] == Closed
    ensures FailedSince(run + [TimerFires] + after)
  {
    hide Delay;
    var all := run + [TimerFires] + after;
    if after == [] {
      assert all[..|all| - 1] == run && all[|all| - 1] == TimerFires;
      AlwaysOneOfThree(run);
      RetriesRemember(run);
    } else {
      assert all[..|all| - 1] == run + [TimerFires] + after[..|after| - 1];
      assert all[|all| - 1] == after[|after| - 1] == Closed;
      TimerMeansFailed(run, after[..|after| - 1]);
    }
  }

  /** Reconnecting by hand after a failure forgets it: the next subscription refetches nothing. */
  lemma ManualReconnectForgets(run: seq<Event>)
    requires ValidRun(START, run) && Run(START, run).mounted
    ensures ValidRun(START, run + [Reconnect, Subscribed])
    ensures Run(START, run + [Reconnect, Subscribed]).invalidations == Run(START, run).invalidations
  {
    hide Delay;
    var two, one := run + [Reconnect, Subscribed], run + [Reconnect];
    assert two[..|two| - 1] == one && one[..|one| - 1] == run;
  }

  // ---------------------------------------------------------------- what the badge says

  /** The failures since the last subscription or manual reconnect. */
  function Failures(run: seq<Event>): nat {
    if run == [] then 0
    else
      match run[|run| - 1]
      case Failed => Failures(run[..|run| - 1]) + 1
      case Subscribed | Reconnect => 0
      case _ => Failures(run[..|run| - 1])
  }

  /** What the last callback or click that concerns the connection was. */
  function Badge(run: seq<Event>): Status {
    if run == [] then Connected
    else
      match run[|run| - 1]
      case Subscribed => Connected
      case Reconnect => Reconnecting
      case Failed => if Failures(run) <= 10 then Reconnecting else Disconnected
      case _ => Badge(run[..|run| - 1])
  }

  /**
   In every run the status tells the history: connected until something fails and from each
   subscription on, disconnected from the eleventh failure in a row, reconnecting otherwise.
   The retry timer that a failure sets waits 1 s, doubled for each failure before it, and 30 s
   at most.
   */
  lemma {:induction false} StatusTellsHistory(run: seq<Event>)
    requires ValidRun(START, run)
    ensures Run(START, run).status == Badge(run)
    ensures Run(START, run).retries == if Failures(run) <= 10 then Failures(run) else 10
    ensures Run(START, run).timer.Some? ==>
              1 <= Failures(run) <= 10 &&
              Run(START, run).timer.value == var d := 1000 * Pow2(Failures(run) - 1); if d <= 30_000 then d else 30_000
  {
    hide Pow2, Enabled;
    if run != [] {
      var init, e := run[..|run| - 1], run[|run| - 1];
      StatusTellsHistory(init);
      AlwaysOneOfThree(init);
      assert Enabled(Run(START, init), e);
      FailureNeedsChannel(Run(START, init), e);
    }
  }

  lemma FailureNeedsChannel(s: State, e: Event)
    requires OneOfThree(s) && Enabled(s, e)
    ensures e == Failed ==> s.live && s.timer.None?
    ensures e == Subscribed ==> s.timer.None?
  {
    hide Delay;
  }

  /**
   A mounted provider can be unmounted at any time, and then nothing of it is left running;
   mounted and unmounted again it is what it was, with a live channel in between. A channel
   that reports itself closed changes nothing.
   */
  lemma UnmountLeavesNothing(s: State)
    requires OneOfThree(s)
    ensures s.mounted ==> Enabled(s, Unmount)
    ensures !Step(s, Unmount).mounted && !Step(s, Unmount).live && Step(s, Unmount).timer.None?
    ensures !s.mounted ==> Enabled(s, Mount) && Step(s, Mount).mounted && Step(s, Mount).live
    ensures !s.mounted ==> Step(Step(s, Mount), Unmount) == s
    ensures Step(s, Unmount).invalidations == s.invalidations && START.invalidations == 0
    ensures Step(s, Closed) == s
  {
  }

  // ---------------------------------------------------------------- the component

  /**
   The provider with its refs, and the two libraries it drives: the channels that are open at
   the server and the timers that will fire. `reconnectTimer` keeps the id of a timer that has
   already fired.
   */
  class Provider {
    var mounted: bool
    var retryCount: nat
    var reconnectTimer: Option<nat>
    var channelRef: Option<nat>
    var status: Status

    var open: set<nat>
    var pending: map<nat, nat>
    var nextId: nat
    var invalidations: nat

    /** Only the channel in the ref is open, and only the timer in the ref can be pending. */
    ghost predicate Valid()
      reads this
    {
      && open == (if channelRef.Some? then {channelRef.value} else {})
      && pending.Keys <= (if reconnectTimer.Some? then {reconnectTimer.value} else {})
      && (channelRef.Some? ==> channelRef.value < nextId)
      && (reconnectTimer.Some? ==> reconnectTimer.value < nextId)
      && OneOfThree(View())
    }

    ghost function View(): State
      reads this
    {
      State(mounted, channelRef.Some?,
            if reconnectTimer.Some? && reconnectTimer.value in pending then Some(pending[reconnectTimer.value]) else None,
            retryCount, status, invalidations)
    }

    constructor ()
      ensures Valid() && View() == START
    {
      mounted, retryCount, reconnectTimer, channelRef, status := false, 0, None, None, Connected;
      open, pending, nextId, invalidations := {}, map[], 0, 0;
    }

    method Subscribe() returns (channel: nat)
      modifies this`open, this`nextId, this`channelRef
      ensures channel == old(nextId) && nextId == old(nextId) + 1
      ensures open == old(open) + {channel} && channelRef == Some(channel)
    {
      channel := nextId;
      nextId := nextId + 1;
      open := open + {channel};
      channelRef := Some(channel);
    }

    method RemoveChannel(channel: nat)
      modifies this`open
      ensures open == old(open) - {channel}
    {
      open := open - {channel};
    }

    method ClearTimer()
      modifies this`pending, this`reconnectTimer
      ensures reconnectTimer == None
      ensures pending == if old(reconnectTimer).Some? then old(pending) - {old(reconnectTimer).value} else old(pending)
    {
      if reconnectTimer.Some? {
        pending := pending - {reconnectTimer.value};
        reconnectTimer := None;
      }
    }

    method CloseChannel()
      modifies this`open, this`channelRef
      ensures channelRef == None
      ensures open == if old(channelRef).Some? then old(open) - {old(channelRef).value} else old(open)
    {
      if channelRef.Some? {
        RemoveChannel(channelRef.value);
        channelRef := None;
      }
    }

    method Mount()
      requires Valid() && Enabled(View(), Event.Mount)
      modifies this
      ensures Valid() && View() == Step(old(View()), Event.Mount)
    {
      mounted := true;
      var channel := Subscribe();
      channelRef := Some(channel);
    }

    method Unmount()
      requires Valid() && Enabled(View(), Event.Unmount)
      modifies this
      ensures Valid() && View() == Step(old(View()), Event.Unmount)
    {
      mounted := false;
      ClearTimer();
      CloseChannel();
    }

    method Reconnect()
      requires Valid() && Enabled(View(), Event.Reconnect)
      modifies this
      ensures Valid() && View() == Step(old(View()), Event.Reconnect)
    {
      ClearTimer();
      CloseChannel();
      retryCount := 0;
      status := Reconnecting;
      var channel := Subscribe();
      channelRef := Some(channel);
    }

    /** The callback that the channel was subscribed with; it is still open. */
    method OnSubscribed(channel: nat)
      requires Valid() && channel in open
      modifies this
      ensures Valid() && View() == Step(old(View()), Subscribed)
    {
      if retryCount > 0 {
        invalidations := invalidations + 1;
      }
      retryCount := 0;
      status := Connected;
    }

    method OnFailure(channel: nat)
      requires Valid() && channel in open
      modifies this
      ensures Valid() && View() == Step(old(View()), Failed)
    {
      hide Delay;
      RemoveChannel(channel);
      channelRef := None;
      if retryCount >= MAX_RETRIES {
        status := Disconnected;
        return;
      }
      status := Reconnecting;
      var delay := Delay(retryCount);
      retryCount := retryCount + 1;
      pending := pending[nextId := delay];
      reconnectTimer := Some(nextId);
      nextId := nextId + 1;
    }

    method OnTimer(id: nat)
      requires Valid() && id in pending
      modifies this
      ensures Valid() && View() == Step(old(View()), TimerFires)
    {
      pending := pending - {id};
      var channel := Subscribe();
      channelRef := Some(channel);
    }
  }
}
