/**
 The receive-exception storm detector of one port: `err_win`, `err_cnt` and
 `rx_off`, driven by the jiffy of each counted exception.  Time is an unbounded
 monotone clock; `hz` is the accounting window NM32A_ERR_WINDOW.
 */
module Storm {

  const ERR_LIMIT := 200

  datatype Detector = Detector(win: nat, cnt: nat, off: bool)

  /** nm32a_port_activate opens a fresh window. */
  function Activated(now: nat): Detector { Detector(now, 0, false) }

  /** nm32a_rx_exception. */
  function Count(d: Detector, now: nat, hz: nat): Detector {
    var w := if now > d.win + hz then Detector(now, 0, d.off) else d;
    var c := w.(cnt := w.cnt + 1);
    if c.cnt != ERR_LIMIT || c.off then c else c.(off := true)
  }

  /** The detector after exceptions at `times`, activation having been at `start`. */
  function After(start: nat, times: seq<nat>, hz: nat): Detector {
    if times == [] then Activated(start)
    else Count(After(start, times[..|times| - 1], hz), times[|times| - 1], hz)
  }

  /** One more exception; a mute, once set, stays. */
  lemma CountNext(start: nat, times: seq<nat>, now: nat, hz: nat)
    ensures After(start, times + [now], hz) == Count(After(start, times, hz), now, hz)
    ensures After(start, times, hz).off ==> After(start, times + [now], hz).off
  {
    assert (times + [now])[..|times|] == times;
  }

  ghost predicate Chronological(start: nat, times: seq<nat>) {
    && (forall i :: 0 <= i < |times| ==> start <= times[i])
    && (forall i, j :: 0 <= i <= j < |times| ==> times[i] <= times[j])
  }

  /** `count` exceptions from index `i` on lie in one closed interval of `hz` jiffies. */
  ghost predicate Crowded(times: seq<nat>, i: nat, count: nat, hz: nat) {
    count > 0 && i + count <= |times| && times[i + count - 1] <= times[i] + hz
  }

  /** The counted exceptions are the latest ones and share the current window. */
  lemma {:induction false} WindowHoldsCounted(start: nat, times: seq<nat>, hz: nat)
    requires Chronological(start, times)
    ensures var d := After(start, times, hz);
            && d.cnt <= |times|
            && (d.cnt >= ERR_LIMIT ==> d.off)
            && (forall j :: |times| - d.cnt <= j < |times| ==> d.win <= times[j] <= d.win + hz)
            && (times != [] ==> d.win <= times[|times| - 1])
            && (times == [] ==> d.win == start)
  {
    if times != [] {
      WindowHoldsCounted(start, times[..|times| - 1], hz);
    }
  }

  /** A run of exceptions inside one interval restarts the window at most once. */
  lemma {:induction false} CrowdIsCounted(start: nat, times: seq<nat>, m: nat, a: nat, hz: nat)
    requires Chronological(start, times)
    requires m <= |times|
    requires forall j :: m <= j < |times| ==> a <= times[j] <= a + hz
    ensures var d := After(start, times, hz);
            var held := |times| - m;
            d.off || held <= (if d.win < a then d.cnt else ERR_LIMIT - 1 + d.cnt)
    decreases |times|
  {
    if m < |times| {
      CrowdIsCounted(start, times[..|times| - 1], m, a, hz);
      WindowHoldsCounted(start, times[..|times| - 1], hz);
    }
  }

  /** 399 counted exceptions inside any closed interval of HZ jiffies leave the receiver muted. */
  lemma StormIsMuted(start: nat, times: seq<nat>, i: nat, hz: nat)
    requires Chronological(start, times)
    requires Crowded(times, i, 399, hz)
    ensures After(start, times, hz).off
  {
    var upto := times[..i + 399];
    CrowdIsCounted(start, upto, i, times[i], hz);
    WindowHoldsCounted(start, upto, hz);
    StaysMuted(start, upto, times, hz);
  }

  lemma {:induction false} StaysMuted(start: nat, a: seq<nat>, b: seq<nat>, hz: nat)
    requires a <= b
    requires After(start, a, hz).off
    ensures After(start, b, hz).off
    decreases |b|
  {
    if |a| < |b| {
      StaysMuted(start, a, b[..|b| - 1], hz);
    } else {
      assert a == b;
    }
  }

  /** The receiver is never muted without 200 counted exceptions inside one closed interval of HZ jiffies. */
  lemma {:induction false} MutedOnlyByStorm(start: nat, times: seq<nat>, hz: nat)
    requires Chronological(start, times)
    requires After(start, times, hz).off
    ensures exists i: nat :: Crowded(times, i, 200, hz)
  {
    var n := |times| - 1;
    var before := times[..n];
    if After(start, before, hz).off {
      MutedOnlyByStorm(start, before, hz);
      var i: nat :| Crowded(before, i, ERR_LIMIT, hz);
      assert Crowded(times, i, ERR_LIMIT, hz);
    } else {
      WindowHoldsCounted(start, times, hz);
      assert After(start, times, hz).cnt == ERR_LIMIT;
      assert Crowded(times, n + 1 - ERR_LIMIT, ERR_LIMIT, hz);
    }
  }

  function Repeat(t: nat, n: nat): (s: seq<nat>)
    ensures |s| == n && forall i :: 0 <= i < n ==> s[i] == t
  {
    seq(n, _ => t)
  }

  lemma {:induction false} SameWindow(start: nat, prefix: seq<nat>, t: nat, n: nat, hz: nat)
    requires After(start, prefix, hz).win <= t <= After(start, prefix, hz).win + hz
    requires !After(start, prefix, hz).off
    requires After(start, prefix, hz).cnt + n < ERR_LIMIT
    ensures var d := After(start, prefix, hz);
            After(start, prefix + Repeat(t, n), hz) == d.(cnt := d.cnt + n)
  {
    if n == 0 {
      assert prefix + Repeat(t, n) == prefix;
    } else {
      SameWindow(start, prefix, t, n - 1, hz);
      assert (prefix + Repeat(t, n))[..|prefix| + n - 1] == prefix + Repeat(t, n - 1);
    }
  }

  /** 398 do not suffice: 199 at the very end of one window and 199 just after it. */
  lemma OneFewerIsNotMuted(start: nat, hz: nat) returns (times: seq<nat>)
    requires hz >= 1
    ensures Chronological(start, times)
    ensures Crowded(times, 0, 398, hz)
    ensures !After(start, times, hz).off
  {
    var late := start + hz;
    var first := Repeat(late, 199);
    assert [] + first == first;
    SameWindow(start, [], late, 199, hz);
    var reset := first + [late + 1];
    assert reset[..199] == first;
    assert After(start, reset, hz) == Detector(late + 1, 1, false);
    SameWindow(start, reset, late + 1, 198, hz);
    times := reset + Repeat(late + 1, 198);
  }
}
