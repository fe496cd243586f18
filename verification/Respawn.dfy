/** The respawn limiter of a job instance (job_process_catch_runaway, init/job_process.c:1942-1969). */
module Respawn {

  /** respawn limit COUNT INTERVAL; a zero in either place switches the limit off. */
  datatype Limit = Limit(count: nat, interval: nat)

  /** When the current window of respawns began, and how many respawns it has seen. */
  datatype Window = Window(since: int, count: nat)

  predicate Limited(l: Limit) { l.count > 0 && l.interval > 0 }

  /** The call falls into the window that is already open. */
  predicate Continues(l: Limit, w: Window, now: int) { now - w.since < l.interval }

  function Next(l: Limit, w: Window, now: int): Window {
    if !Limited(l) then w
    else if Continues(l, w, now) then Window(w.since, w.count + 1)
    else Window(now, 1)
  }

  /** The respawn is refused. */
  predicate Runaway(l: Limit, w: Window, now: int) {
    Limited(l) && Continues(l, w, now) && w.count + 1 > l.count
  }

  /** The two fields of the job. */
  class Limiter {
    var respawnTime: int
    var respawnCount: nat

    constructor ()
      ensures Now() == Window(0, 0)
    {
      respawnTime, respawnCount := 0, 0;
    }

    function Now(): Window
      reads this
    {
      Window(respawnTime, respawnCount)
    }

    /** job_process_catch_runaway */
    method CatchRunaway(l: Limit, now: int) returns (runaway: bool)
      modifies this
      ensures Now() == Next(l, old(Now()), now)
      ensures runaway == Runaway(l, old(Now()), now)
    {
      if l.count != 0 && l.interval != 0 {
        var elapsed := now - respawnTime;
        if elapsed < l.interval {
          respawnCount := respawnCount + 1;
          if respawnCount > l.count {
            return true;
          }
        } else {
          respawnTime, respawnCount := now, 1;
        }
      }
      return false;
    }
  }

  /** How many respawns asked for at these times are granted at a time between a and b. */
  function Granted(l: Limit, w: Window, calls: seq<int>, a: int, b: int): nat
    decreases |calls|
  {
    if calls == [] then 0
    else
      (if a <= calls[0] <= b && !Runaway(l, w, calls[0]) then 1 else 0)
      + Granted(l, Next(l, w, calls[0]), calls[1..], a, b)
  }

  predicate Sorted(calls: seq<int>) { forall i, j :: 0 <= i < j < |calls| ==> calls[i] <= calls[j] }

  /** How many windows can still be opened up to time b. */
  function Windows(l: Limit, since: int, b: int): nat
    requires Limited(l)
  {
    if b - since < l.interval then 0 else (b - since) / l.interval
  }

  function Room(l: Limit, w: Window): nat { if w.count < l.count then l.count - w.count else 0 }

  lemma MultipleAtLeast(k: int, i: int)
    requires k >= 1 && i > 0
    ensures k * i >= i
  {
    assert k * i == (k - 1) * i + i;
  }

  /** The quotient is the only number that fits. */
  lemma QuotientIs(x: int, i: int, q: int)
    requires i > 0 && q * i <= x < q * i + i
    ensures x / i == q
  {
    var p := x / i;
    assert x == p * i + x % i;
    assert (p - q) * i == p * i - q * i && (q - p) * i == q * i - p * i;
    if p > q { MultipleAtLeast(p - q, i); }
    if q > p { MultipleAtLeast(q - p, i); }
  }

  lemma QuotientOfSum(x: int, i: int)
    requires i > 0
    ensures (x + i) / i == x / i + 1
  {
    var q := x / i;
    assert x == q * i + x % i;
    assert (q + 1) * i == q * i + i;
    QuotientIs(x + i, i, q + 1);
  }

  lemma QuotientMonotone(x: int, y: int, i: int)
    requires i > 0 && y <= x
    ensures y / i <= x / i
  {
    var q, r := x / i, y / i;
    assert x == q * i + x % i && y == r * i + y % i;
    assert (r - q) * i == r * i - q * i;
    if r > q { MultipleAtLeast(r - q, i); }
  }

  lemma QuotientStep(x: int, y: int, i: int)
    requires i > 0 && x >= y + i
    ensures x / i >= y / i + 1
  {
    QuotientMonotone(x, y + i, i);
    QuotientOfSum(y, i);
  }

  lemma WindowOpened(l: Limit, since: int, now: int, b: int)
    requires Limited(l) && now <= b && now - since >= l.interval
    ensures Windows(l, now, b) + 1 <= Windows(l, since, b)
  {
    if b - now >= l.interval {
      QuotientStep(b - since, b - now, l.interval);
    } else {
      QuotientStep(b - since, 0, l.interval);
      assert 0 / l.interval == 0;
    }
  }

  ghost predicate Before(calls: seq<int>, b: int) { forall i :: 0 <= i < |calls| ==> calls[i] <= b }

  /** From here on: what is left of this window, and a full one for each window still to come. */
  lemma {:induction false} GrantedFromWindow(l: Limit, w: Window, calls: seq<int>, a: int, b: int)
    requires Limited(l) && Before(calls, b)
    ensures Granted(l, w, calls, a, b) <= Room(l, w) + l.count * Windows(l, w.since, b)
    decreases |calls|
  {
    if calls == [] {
      assert l.count * Windows(l, w.since, b) >= 0;
    } else {
      var now := calls[0];
      GrantedFromWindow(l, Next(l, w, now), calls[1..], a, b);
      if !Continues(l, w, now) {
        WindowOpened(l, w.since, now, b);
        Scaled(l.count, Windows(l, now, b), Windows(l, w.since, b));
      }
    }
  }

  lemma Scaled(k: nat, m: nat, n: nat)
    requires m + 1 <= n
    ensures k * m + k <= k * n
  {
    assert k * m + k == k * (m + 1);
    assert k * (m + 1) <= k * n;
  }

  /** The calls up to time b; the later ones grant nothing in the span. */
  function Upto(calls: seq<int>, b: int): seq<int>
    decreases |calls|
  {
    if calls == [] || calls[0] > b then [] else [calls[0]] + Upto(calls[1..], b)
  }

  lemma {:induction false} LateCallsIgnored(l: Limit, w: Window, calls: seq<int>, a: int, b: int)
    requires Sorted(calls)
    ensures Before(Upto(calls, b), b) && Granted(l, w, Upto(calls, b), a, b) == Granted(l, w, calls, a, b)
    decreases |calls|
  {
    if calls != [] {
      LateCallsIgnored(l, Next(l, w, calls[0]), calls[1..], a, b);
      if calls[0] > b {
        NothingLate(l, w, calls, a, b);
      } else {
        assert Upto(calls, b)[1..] == Upto(calls[1..], b);
      }
    }
  }

  lemma {:induction false} NothingLate(l: Limit, w: Window, calls: seq<int>, a: int, b: int)
    requires Sorted(calls) && (calls != [] ==> calls[0] > b)
    ensures Granted(l, w, calls, a, b) == 0
    decreases |calls|
  {
    if |calls| > 1 {
      assert calls[0] <= calls[1];
      NothingLate(l, Next(l, w, calls[0]), calls[1..], a, b);
    }
  }

  lemma {:induction false} SpanBound(l: Limit, w: Window, calls: seq<int>, a: int, d: nat)
    requires Limited(l) && Before(calls, a + d)
    ensures Granted(l, w, calls, a, a + d) <= l.count * (d / l.interval + 2)
    decreases |calls|
  {
    var q := d / l.interval;
    assert q >= 0;
    if calls == [] {
      assert l.count * (q + 2) >= 0;
    } else {
      var now, w' := calls[0], Next(l, w, calls[0]);
      if now < a {
        SpanBound(l, w', calls[1..], a, d);
      } else {
        GrantedFromWindow(l, w', calls[1..], a, a + d);
        LastWindows(l, w'.since, a, d);
        var n := Windows(l, w'.since, a + d);
        Scaled(l.count, n, q + 2);
      }
    }
  }

  lemma LastWindows(l: Limit, since: int, a: int, d: nat)
    requires Limited(l) && a - since < l.interval
    ensures Windows(l, since, a + d) <= d / l.interval + 1
  {
    var x := a + d - since;
    if x >= l.interval {
      QuotientMonotone(d + l.interval, x, l.interval);
      QuotientOfSum(d, l.interval);
    }
  }

  /**
   However a job's respawns are spread over time, any span of d seconds sees at
   most limit * (d / interval + 2) of them granted.
   */
  lemma RespawnBound(l: Limit, w: Window, calls: seq<int>, a: int, d: nat)
    requires Limited(l) && Sorted(calls)
    ensures Granted(l, w, calls, a, a + d) <= l.count * (d / l.interval + 2)
    ensures d < l.interval ==> Granted(l, w, calls, a, a + d) <= 2 * l.count
  {
    LateCallsIgnored(l, w, calls, a, a + d);
    SpanBound(l, w, Upto(calls, a + d), a, d);
    if d < l.interval { assert d / l.interval == 0; }
  }

  // ---- The bound is reached ----

  function Repeated(now: int, n: nat): seq<int> { seq(n, _ => now) }

  lemma {:induction false} RepeatedGranted(l: Limit, w: Window, now: int, n: nat, rest: seq<int>, a: int, b: int)
    requires Limited(l) && Continues(l, w, now) && w.count + n <= l.count && a <= now <= b
    ensures Granted(l, w, Repeated(now, n) + rest, a, b) == n + Granted(l, Window(w.since, w.count + n), rest, a, b)
    decreases n
  {
    var calls := Repeated(now, n) + rest;
    if n == 0 {
      assert calls == rest;
    } else {
      assert calls[0] == now && calls[1..] == Repeated(now, n - 1) + rest;
      RepeatedGranted(l, Window(w.since, w.count + 1), now, n - 1, rest, a, b);
    }
  }

  /** A new instance can be granted twice its limit within a single second. */
  lemma BoundReached(l: Limit)
    requires Limited(l) && l.interval >= 2
    ensures var t := l.interval;
            Granted(l, Window(0, 0), Repeated(t - 1, l.count) + Repeated(t, l.count), t - 1, t) == 2 * l.count
  {
    var t := l.interval;
    RepeatedGranted(l, Window(0, 0), t - 1, l.count, Repeated(t, l.count), t - 1, t);
    var w := Window(0, l.count);
    var calls := Repeated(t, l.count);
    assert calls[0] == t && calls[1..] == Repeated(t, l.count - 1) + [];
    RepeatedGranted(l, Window(t, 1), t, l.count - 1, [], t - 1, t);
  }

  // ---- Slow respawns are never refused ----

  /** The window after these calls, for a new instance. */
  function WindowAfter(l: Limit, calls: seq<int>): Window
    decreases |calls|
  {
    if calls == [] then Window(0, 0) else Next(l, WindowAfter(l, calls[..|calls| - 1]), calls[|calls| - 1])
  }

  /** The count is that of the last calls, and all of them fall into the window. */
  lemma {:induction false} WindowSpans(l: Limit, calls: seq<int>)
    requires Limited(l) && Sorted(calls) && (calls != [] ==> calls[0] >= 0)
    ensures var w := WindowAfter(l, calls);
            && w.count <= |calls| && (calls != [] ==> w.count > 0)
            && (forall i :: |calls| - w.count <= i < |calls| ==> w.since <= calls[i] < w.since + l.interval)
            && (forall i :: 0 <= i < |calls| - w.count ==> calls[i] < w.since)
    decreases |calls|
  {
    if calls != [] {
      var n := |calls| - 1;
      var init := calls[..n];
      WindowSpans(l, init);
      assert forall i :: 0 <= i < n ==> init[i] == calls[i] <= calls[n];
      assert calls[0] >= 0 && calls[0] <= calls[n];
    }
  }

  /**
   The n-th call of a new instance is refused if and only if it falls into the window that is
   open and more calls than the limit have, this one included.
   */
  lemma RefusedExactly(l: Limit, calls: seq<int>, now: int)
    requires Limited(l) && Sorted(calls + [now]) && (calls + [now])[0] >= 0
    ensures var since := WindowAfter(l, calls).since;
            Runaway(l, WindowAfter(l, calls), now) <==>
              now < since + l.interval && |calls| >= l.count && calls[|calls| - l.count] >= since
  {
    assert Sorted(calls) by {
      forall i, j | 0 <= i < j < |calls| ensures calls[i] <= calls[j] {
        assert (calls + [now])[i] == calls[i] && (calls + [now])[j] == calls[j];
      }
    }
    assert calls != [] ==> (calls + [now])[0] == calls[0];
    WindowSpans(l, calls);
  }

  /** An instance that never makes limit + 1 calls in a row in less than the interval is never refused one. */
  lemma SlowNeverRefused(l: Limit, calls: seq<int>, n: nat)
    requires Sorted(calls) && n < |calls| && calls[0] >= 0
    requires forall i :: 0 <= i && i + l.count < |calls| ==> calls[i + l.count] >= calls[i] + l.interval
    ensures !Runaway(l, WindowAfter(l, calls[..n]), calls[n])
  {
    if Limited(l) {
      var past := calls[..n];
      assert past + [calls[n]] == calls[..n + 1];
      RefusedExactly(l, past, calls[n]);
      WindowSpans(l, past);
      if n >= l.count { assert calls[n - l.count + l.count] >= calls[n - l.count] + l.interval; }
    }
  }
}
