/**
 The presence cadence: when a phone checks in, what colour its dot has, and when the
 dead-man wakes it. Times are milliseconds.
 */
module Presence {

  datatype Option<T> = None | Some(value: T)

  const CHECKIN_GATE: int := 90_000
  const DEADMAN_STALE: int := 240_000
  const DEADMAN_RUN: int := 90_000
  const ONLINE_WINDOW: int := 150_000
  const IDLE_WINDOW: int := 420_000

  datatype Dot = Green | Amber | Red

  function DotAt(age: int): Dot {
    if age < ONLINE_WINDOW then Green else if age < IDLE_WINDOW then Amber else Red
  }

  // ---------------------------------------------------------------- an awake phone

  /** The jittered gate: 0.9 to 1.1 times CHECKIN_GATE, drawn anew each time. */
  predicate IsGate(gate: real) { 0.9 * CHECKIN_GATE as real <= gate <= 1.1 * CHECKIN_GATE as real }

  /** A driver tick at `now` checks in unless the last success is nearer than the gate. */
  predicate ChecksIn(last: Option<int>, now: int, gate: real) {
    last.None? || (now - last.value) as real >= gate
  }

  /** The last successful check-in after the first `n` ticks. */
  function LastCheckin(ticks: seq<int>, gates: seq<real>, n: nat): Option<int>
    requires n <= |ticks| == |gates|
  {
    if n == 0 then None
    else
      var last := LastCheckin(ticks, gates, n - 1);
      if ChecksIn(last, ticks[n - 1], gates[n - 1]) then Some(ticks[n - 1]) else last
  }

  predicate Ticking(ticks: seq<int>, gates: seq<real>) {
    && |ticks| == |gates|
    && (forall i :: 0 < i < |ticks| ==> 55_000 <= ticks[i] - ticks[i - 1] <= 65_000)
    && (forall i :: 0 <= i < |gates| ==> IsGate(gates[i]))
  }

  lemma {:induction false} LastIsEven(ticks: seq<int>, gates: seq<real>, n: nat)
    requires Ticking(ticks, gates) && 0 < n <= |ticks|
    ensures LastCheckin(ticks, gates, n) == Some(ticks[(n - 1) / 2 * 2])
  {
    if n > 1 {
      LastIsEven(ticks, gates, n - 1);
      if n > 2 {
        LastIsEven(ticks, gates, n - 2);
      }
      var last := ticks[(n - 2) / 2 * 2];
      if n % 2 == 0 {
        assert (n - 2) / 2 * 2 == n - 2 && (n - 1) / 2 * 2 == n - 2;
      } else {
        assert (n - 2) / 2 * 2 == n - 3 && (n - 1) / 2 * 2 == n - 1;
      }
    }
  }

  /** Whatever the jitter, exactly every second tick checks in. */
  lemma EverySecondTick(ticks: seq<int>, gates: seq<real>, i: nat)
    requires Ticking(ticks, gates) && i < |ticks|
    ensures ChecksIn(LastCheckin(ticks, gates, i), ticks[i], gates[i]) <==> i % 2 == 0
  {
    if i > 0 {
      LastIsEven(ticks, gates, i);
      if i % 2 == 0 {
        assert (i - 1) / 2 * 2 == i - 2;
      } else {
        assert (i - 1) / 2 * 2 == i - 1;
      }
    }
  }

  /** So the dot of an awake phone is green at every instant. */
  lemma AwakeIsGreen(ticks: seq<int>, gates: seq<real>, i: nat, t: int)
    requires Ticking(ticks, gates) && i < |ticks| && ticks[i] <= t
    requires if i + 1 < |ticks| then t < ticks[i + 1] else t < ticks[i] + 65_000
    ensures var last := LastCheckin(ticks, gates, i + 1);
            last.Some? && 0 <= t - last.value && DotAt(t - last.value) == Green
  {
    LastIsEven(ticks, gates, i + 1);
    if i % 2 == 0 {
      assert i / 2 * 2 == i;
    } else {
      assert i / 2 * 2 == i - 1;
    }
  }

  /** The gate lies between 81 s and 99 s, and a tick exactly one gate after a check-in passes it. */
  lemma GateRange(gate: real, last: int, now: int)
    ensures IsGate(gate) <==> 81_000.0 <= gate <= 99_000.0
    ensures now as real == last as real + gate ==> ChecksIn(Some(last), now, gate)
    ensures now as real < last as real + gate ==> !ChecksIn(Some(last), now, gate)
  {
  }

  // ---------------------------------------------------------------- a sleeping phone

  /** The dead-man's scans, one every DEADMAN_RUN at the latest. */
  predicate Scanning(scans: seq<int>) {
    forall k :: 0 < k < |scans| ==> scans[k - 1] < scans[k] <= scans[k - 1] + DEADMAN_RUN
  }

  predicate Stale(checkin: int, now: int) { checkin < now - DEADMAN_STALE }

  /** Scan `k` is the first to find the check-in stale. */
  ghost predicate Wakes(scans: seq<int>, checkin: int, k: nat) {
    k < |scans| && Stale(checkin, scans[k]) && forall j :: 0 <= j < k ==> !Stale(checkin, scans[j])
  }

  lemma {:induction false} SomeScanWakes(scans: seq<int>, checkin: int, n: nat) returns (k: nat)
    requires n < |scans| && Stale(checkin, scans[n])
    ensures Wakes(scans, checkin, k) && k <= n
  {
    if j: nat :| j < n && Stale(checkin, scans[j]) {
      k := SomeScanWakes(scans, checkin, j);
    } else {
      k := n;
    }
  }

  lemma WakesInTime(scans: seq<int>, checkin: int, k: nat)
    requires Scanning(scans) && scans != [] && scans[0] <= checkin + DEADMAN_STALE && Wakes(scans, checkin, k)
    ensures checkin + DEADMAN_STALE < scans[k] <= checkin + DEADMAN_STALE + DEADMAN_RUN
  {
    if k > 0 {
      assert !Stale(checkin, scans[k - 1]);
    }
  }

  /**
   The phone's successful check-ins: the next one comes by itself, or less than `latency`
   after the scan that found the last one stale.
   */
  ghost predicate Revivable(scans: seq<int>, checkins: seq<int>, latency: int) {
    && Scanning(scans) && scans != []
    && (forall i :: 0 <= i < |checkins| ==> scans[0] <= checkins[i] + DEADMAN_STALE)
    && (forall i, k: nat :: 0 < i < |checkins| && Wakes(scans, checkins[i - 1], k) ==> checkins[i] < scans[k] + latency)
  }

  /** When the dead-man wakes a phone, its dot is amber already, and still. */
  lemma AmberBeforeWake(scans: seq<int>, checkins: seq<int>, i: nat, k: nat, latency: int)
    requires Revivable(scans, checkins, latency) && i < |checkins| && Wakes(scans, checkins[i], k)
    ensures DotAt(scans[k] - checkins[i]) == Amber
  {
    WakesInTime(scans, checkins[i], k);
  }

  /** A phone that every wake revives in at most 90 s is never red between two check-ins. */
  lemma RevivableIsNeverRed(scans: seq<int>, checkins: seq<int>, i: nat, t: int)
    requires Revivable(scans, checkins, 90_001) && 0 < i < |checkins|
    requires checkins[i - 1] <= t < checkins[i]
    requires scans[|scans| - 1] >= t
    ensures DotAt(t - checkins[i - 1]) != Red
  {
    var c := checkins[i - 1];
    if Stale(c, scans[|scans| - 1]) {
      var k := SomeScanWakes(scans, c, |scans| - 1);
      WakesInTime(scans, c, k);
    }
  }

  /**
   Left alone after a check-in at `c` a phone is green for two and a half minutes, amber until
   seven are over, and found stale by the first scan more than four minutes after.
   */
  lemma LeftAlone(scans: seq<int>, c: int, t: int, k: nat)
    ensures DotAt(t - c) == Green <==> t < c + 150_000
    ensures DotAt(t - c) == Red <==> c + 420_000 <= t
    ensures Wakes(scans, c, k) <==>
            k < |scans| && c + 240_000 < scans[k] && forall j :: 0 <= j < k ==> scans[j] <= c + 240_000
  {
  }

  /** One millisecond more, and the dot can turn red first. */
  lemma LatencyIsTight()
    ensures var scans, checkins := [240_000, 330_000, 420_000], [0, 420_001];
            Revivable(scans, checkins, 90_002) && DotAt(420_000 - checkins[0]) == Red
  {
    var scans, checkins := [240_000, 330_000, 420_000], [0, 420_001];
    forall k: nat | Wakes(scans, checkins[0], k)
      ensures k == 1
    {
      assert !Stale(0, scans[0]) && Stale(0, scans[1]);
    }
  }
}
