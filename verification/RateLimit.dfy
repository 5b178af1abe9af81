/** The drainer's rate limiter: a token bucket of burst 1, as `rate.Limiter` keeps it, and
    how many grants fit in a window of time. */
module RateLimit {
  /** Tokens as of time `last`. */
  datatype Limiter = Limiter(tokens: real, last: real)

  /** A new limiter is full. */
  function NewLimiter(now: real): Limiter { Limiter(1.0, now) }

  /** Tokens at `now`, capped by the burst. */
  function Level(rate: real, l: Limiter, now: real): real {
    var t := l.tokens + (now - l.last) * rate;
    if t > 1.0 then 1.0 else t
  }

  /** When a token reserved at `now` may be used. */
  function TimeToAct(rate: real, l: Limiter, now: real): real
    requires rate > 0.0
  {
    var t := Level(rate, l, now) - 1.0;
    if t < 0.0 then now + (-t) / rate else now
  }

  /** The limiter after reserving one token at `now`. */
  function Reserved(rate: real, l: Limiter, now: real): Limiter {
    Limiter(Level(rate, l, now) - 1.0, now)
  }

  /** The limiter's debt runs out exactly at `act`. */
  predicate DebtUntil(rate: real, l: Limiter, act: real) {
    l.tokens == -((act - l.last) * rate)
  }

  /** Apart by at least one token's time. */
  predicate Apart(rate: real, a: real, b: real) { (b - a) * rate >= 1.0 }

  lemma ReserveOwes(rate: real, l: Limiter, now: real)
    requires rate > 0.0
    ensures TimeToAct(rate, l, now) >= now
    ensures DebtUntil(rate, Reserved(rate, l, now), TimeToAct(rate, l, now))
  {
    var t := Level(rate, l, now) - 1.0;
    if t < 0.0 {
      assert ((-t) / rate) * rate == -t;
      assert (-t) / rate >= 0.0;
    }
  }

  /** Successive reservations act at least one token's time apart. */
  lemma ReservationsApart(rate: real, l: Limiter, act: real, now: real)
    requires rate > 0.0 && DebtUntil(rate, l, act)
    ensures Apart(rate, act, TimeToAct(rate, l, now))
  {
    var t := l.tokens + (now - l.last) * rate;
    assert t == (now - act) * rate;
    if t < 1.0 {
      var w := (1.0 - t) / rate;
      assert w * rate == 1.0 - t;
      assert TimeToAct(rate, l, now) == now + w;
      assert (now + w - act) * rate == (now - act) * rate + w * rate;
    }
  }

  /** A limiter whose debt ran out at least one token's time ago grants at once, however long
      that was, and a second token only one token's time later. */
  lemma IdleGrantsOne(rate: real, l: Limiter, act: real, now: real)
    requires rate > 0.0 && DebtUntil(rate, l, act) && Apart(rate, act, now)
    ensures TimeToAct(rate, l, now) == now
    ensures var next := TimeToAct(rate, Reserved(rate, l, now), now); (next - now) * rate == 1.0
  {
    IdleLevel(rate, l, act, now);
    var l' := Reserved(rate, l, now);
    assert l' == Limiter(0.0, now);
    assert (now - now) * rate == 0.0;
    assert Level(rate, l', now) == 0.0;
    assert (1.0 / rate) * rate == 1.0;
  }

  lemma IdleLevel(rate: real, l: Limiter, act: real, now: real)
    requires DebtUntil(rate, l, act) && Apart(rate, act, now)
    ensures Level(rate, l, now) == 1.0
  {
    assert l.tokens + (now - l.last) * rate == (now - act) * rate;
  }

  /** Between, it grants exactly when the missing part of the token has accrued. */
  lemma BusyGrantsLater(rate: real, l: Limiter, act: real, now: real)
    requires rate > 0.0 && DebtUntil(rate, l, act) && !Apart(rate, act, now)
    ensures (TimeToAct(rate, l, now) - act) * rate == 1.0
  {
    var t := (now - act) * rate;
    assert l.tokens + (now - l.last) * rate == t;
    var w := (1.0 - t) / rate;
    assert w * rate == 1.0 - t;
    assert TimeToAct(rate, l, now) == now + w;
    assert (now + w - act) * rate == (now - act) * rate + w * rate;
  }

  ghost predicate Spaced(rate: real, acts: seq<real>) {
    forall i :: 0 < i < |acts| ==> Apart(rate, acts[i - 1], acts[i])
  }

  predicate Within(a: real, x: real, b: real) { a <= x <= b }

  /** How many of `acts` fall in the window from `a` to `b`. */
  function CountIn(acts: seq<real>, a: real, b: real): nat {
    if acts == [] then 0
    else CountIn(acts[..|acts|-1], a, b) + if Within(a, acts[|acts|-1], b) then 1 else 0
  }

  lemma ApartAscends(rate: real, x: real, y: real)
    requires rate > 0.0 && Apart(rate, x, y)
    ensures x < y
  {
    assert (y - x) * rate > 0.0;
  }

  lemma {:induction false} SpacedAscend(rate: real, acts: seq<real>, i: nat)
    requires rate > 0.0 && Spaced(rate, acts) && i < |acts|
    ensures acts[i] <= acts[|acts|-1]
    decreases |acts| - i
  {
    if i + 1 < |acts| {
      ApartAscends(rate, acts[i], acts[i + 1]);
      SpacedAscend(rate, acts, i + 1);
    }
  }

  /** Narrowing a window to where the elements stop keeps the count. */
  lemma {:induction false} Clip(acts: seq<real>, a: real, b: real, y: real)
    requires y <= b && forall x :: x in acts ==> x <= y
    ensures CountIn(acts, a, b) == CountIn(acts, a, y)
  {
    if acts != [] {
      assert acts[|acts|-1] in acts;
      var rest := acts[..|acts|-1];
      forall x | x in rest ensures x <= y { assert x in acts; }
      Clip(rest, a, b, y);
    }
  }

  /** The first element of a window, when there is one, bounds the count. */
  ghost predicate Leads(rate: real, acts: seq<real>, a: real, b: real, first: real) {
    && first in acts && Within(a, first, b)
    && CountIn(acts, a, b) as real <= (b - first) * rate + 1.0
  }

  lemma Accrues(rate: real, length: real)
    requires rate > 0.0 && length >= 0.0
    ensures length * rate >= 0.0
  {
  }

  lemma AccruesInParts(rate: real, a: real, m: real, b: real)
    ensures (b - a) * rate == (m - a) * rate + (b - m) * rate
  {
  }

  lemma WidenBy(rate: real, first: real, y: real, x: real, b: real)
    requires rate > 0.0 && Apart(rate, y, x) && x <= b
    ensures (y - first) * rate + 1.0 <= (b - first) * rate
  {
    AccruesInParts(rate, first, y, b);
    AccruesInParts(rate, y, x, b);
    Accrues(rate, b - x);
  }

  lemma {:induction false} RunInWindow(rate: real, acts: seq<real>, a: real, b: real) returns (first: real)
    requires rate > 0.0 && Spaced(rate, acts) && CountIn(acts, a, b) > 0
    ensures Leads(rate, acts, a, b, first)
  {
    var n := |acts| - 1;
    var x := acts[n];
    if !Within(a, x, b) {
      first := RunInWindow(rate, acts[..n], a, b);
    } else if CountIn(acts[..n], a, b) == 0 {
      first := x;
      Accrues(rate, b - first);
    } else {
      var y := acts[n - 1];
      ApartAscends(rate, y, x);
      forall x | x in acts[..n] ensures x <= y {
        var i :| 0 <= i < n && acts[i] == x;
        SpacedAscend(rate, acts[..n], i);
      }
      Clip(acts[..n], a, b, y);
      first := RunInWindow(rate, acts[..n], a, y);
      WidenBy(rate, first, y, x, b);
    }
  }

  /** All grants of successive worker runs in a window. */
  function TotalIn(runs: seq<seq<real>>, a: real, b: real): nat {
    if runs == [] then 0 else TotalIn(runs[..|runs|-1], a, b) + CountIn(runs[|runs|-1], a, b)
  }

  /** Each run is spaced, and no run reaches past the start of a later one. */
  ghost predicate Successive(rate: real, runs: seq<seq<real>>) {
    && (forall i :: 0 <= i < |runs| ==> Spaced(rate, runs[i]))
    && forall i, j, x, y :: 0 <= i < j < |runs| && x in runs[i] && y in runs[j] ==> x <= y
  }

  lemma {:induction false} ClipRuns(runs: seq<seq<real>>, a: real, b: real, y: real)
    requires y <= b && forall i, x :: 0 <= i < |runs| && x in runs[i] ==> x <= y
    ensures TotalIn(runs, a, b) == TotalIn(runs, a, y)
  {
    if runs != [] {
      var n := |runs| - 1;
      Clip(runs[n], a, b, y);
      ClipRuns(runs[..n], a, b, y);
    }
  }

  lemma {:induction false} RunsInWindow(rate: real, runs: seq<seq<real>>, a: real, b: real)
    requires rate > 0.0 && Successive(rate, runs) && a <= b
    ensures TotalIn(runs, a, b) as real <= (b - a) * rate + |runs| as real
  {
    if runs == [] {
      Accrues(rate, b - a);
    } else {
      var n := |runs| - 1;
      if CountIn(runs[n], a, b) == 0 {
        RunsInWindow(rate, runs[..n], a, b);
      } else {
        var first := RunInWindow(rate, runs[n], a, b);
        ClipRuns(runs[..n], a, b, first);
        RunsInWindow(rate, runs[..n], a, first);
        AccruesInParts(rate, a, first, b);
      }
    }
  }

  /** Whole tokens that accrue in a stretch of time. */
  function Budget(rate: real, length: real): int { (length * rate).Floor }

  /** Rate bound: over `k` successive runs, a window of length `T` holds at most
      floor(R·T) + k grants. */
  lemma RateBound(rate: real, runs: seq<seq<real>>, a: real, length: real)
    requires rate > 0.0 && Successive(rate, runs) && length >= 0.0
    ensures TotalIn(runs, a, a + length) <= Budget(rate, length) + |runs|
  {
    RunsInWindow(rate, runs, a, a + length);
    assert (a + length) - a == length;
  }

  /** Granted operations go ahead at their time to act or up to `lag` after it. */
  ghost predicate WithinLag(acts: seq<real>, woke: seq<real>, lag: real) {
    |acts| == |woke| && forall i :: 0 <= i < |acts| ==> acts[i] <= woke[i] <= acts[i] + lag
  }

  lemma {:induction false} LagWidens(acts: seq<real>, woke: seq<real>, lag: real, a: real, b: real)
    requires WithinLag(acts, woke, lag)
    ensures CountIn(woke, a, b) <= CountIn(acts, a - lag, b)
  {
    if acts != [] { LagWidens(acts[..|acts|-1], woke[..|acts|-1], lag, a, b); }
  }

  lemma {:induction false} LagWidensRuns(acts: seq<seq<real>>, woke: seq<seq<real>>, lag: real, a: real, b: real)
    requires |acts| == |woke| && forall i :: 0 <= i < |acts| ==> WithinLag(acts[i], woke[i], lag)
    ensures TotalIn(woke, a, b) <= TotalIn(acts, a - lag, b)
  {
    if acts != [] {
      var n := |acts| - 1;
      LagWidens(acts[n], woke[n], lag, a, b);
      LagWidensRuns(acts[..n], woke[..n], lag, a, b);
    }
  }

  /** With workers that wake up to `lag` late, the window is that much longer. */
  lemma RateBoundWithLag(rate: real, acts: seq<seq<real>>, woke: seq<seq<real>>, lag: real, a: real, length: real)
    requires rate > 0.0 && Successive(rate, acts) && length >= 0.0 && lag >= 0.0
    requires |acts| == |woke| && forall i :: 0 <= i < |acts| ==> WithinLag(acts[i], woke[i], lag)
    ensures TotalIn(woke, a, a + length) <= Budget(rate, length + lag) + |acts|
  {
    hide Budget;
    LagWidensRuns(acts, woke, lag, a, a + length);
    RateBound(rate, acts, a - lag, length + lag);
    assert (a - lag) + (length + lag) == a + length;
  }

  /** When tokens reserved at the given times, one after the other, may be used. */
  function Acts(rate: real, l: Limiter, nows: seq<real>): seq<real>
    requires rate > 0.0
    decreases |nows|
  {
    if nows == [] then []
    else [TimeToAct(rate, l, nows[0])] + Acts(rate, Reserved(rate, l, nows[0]), nows[1..])
  }

  /** Whenever tokens are reserved, they come due spaced. */
  lemma {:induction false} ActsSpaced(rate: real, l: Limiter, nows: seq<real>)
    requires rate > 0.0
    ensures Spaced(rate, Acts(rate, l, nows))
    decreases |nows|
  {
    hide TimeToAct, Reserved, Apart;
    if nows != [] {
      var l1, rest := Reserved(rate, l, nows[0]), nows[1..];
      ActsSpaced(rate, l1, rest);
      ReserveOwes(rate, l, nows[0]);
      if rest != [] { ReservationsApart(rate, l1, TimeToAct(rate, l, nows[0]), rest[0]); }
    }
  }

  /** The lag term is needed: at one per second, a worker that wakes 0.9 seconds late for its
      second token and then reserves as soon as it is awake passes three operations in 1.1
      seconds. */
  lemma LateWakeExceeds()
    ensures var nows, woke := [0.0, 0.0, 1.9, 2.0], [0.0, 1.9, 2.0, 3.0];
      && WithinLag(Acts(1.0, NewLimiter(0.0), nows), woke, 0.9)
      && (forall i :: 0 < i < 4 ==> woke[i-1] <= nows[i])
      && CountIn(woke, 1.9, 3.0) == 3 && Budget(1.0, 1.1) + 1 == 2
  {
    LateActs();
    var woke := [0.0, 1.9, 2.0, 3.0];
    assert woke[..3] == [0.0, 1.9, 2.0];
    assert [0.0, 1.9, 2.0][..2] == [0.0, 1.9];
    assert [0.0, 1.9][..1] == [0.0];
    assert [0.0][..0] == [];
    assert CountIn([0.0], 1.9, 3.0) == 0;
    assert CountIn([0.0, 1.9], 1.9, 3.0) == 1;
    assert CountIn([0.0, 1.9, 2.0], 1.9, 3.0) == 2;
  }

  /** At one per second, below the cap. */
  lemma UnitReserve(tokens: real, last: real, now: real)
    requires tokens + (now - last) <= 1.0
    ensures TimeToAct(1.0, Limiter(tokens, last), now) == last + 1.0 - tokens
    ensures Reserved(1.0, Limiter(tokens, last), now) == Limiter(tokens + (now - last) - 1.0, now)
  {
  }

  lemma ActsOf(rate: real, l: Limiter, now: real, rest: seq<real>)
    requires rate > 0.0
    ensures Acts(rate, l, [now] + rest) == [TimeToAct(rate, l, now)] + Acts(rate, Reserved(rate, l, now), rest)
  {
    hide TimeToAct, Reserved;
    assert ([now] + rest)[1..] == rest;
  }

  lemma NoActs(rate: real, l: Limiter)
    requires rate > 0.0
    ensures Acts(rate, l, []) == []
  {
  }

  lemma LateActs()
    ensures Acts(1.0, NewLimiter(0.0), [0.0, 0.0, 1.9, 2.0]) == [0.0, 1.0, 2.0, 3.0]
  {
    hide Acts, TimeToAct, Reserved;
    UnitReserve(1.0, 0.0, 0.0);
    UnitReserve(0.0, 0.0, 0.0);
    UnitReserve(-1.0, 0.0, 1.9);
    UnitReserve(-0.1, 1.9, 2.0);
    NoActs(1.0, Reserved(1.0, Limiter(-0.1, 1.9), 2.0));
    ActsOf(1.0, Limiter(-0.1, 1.9), 2.0, []);
    assert [2.0] + [] == [2.0];
    ActsOf(1.0, Limiter(-1.0, 0.0), 1.9, [2.0]);
    assert [1.9] + [2.0] == [1.9, 2.0];
    ActsOf(1.0, Limiter(0.0, 0.0), 0.0, [1.9, 2.0]);
    assert [0.0] + [1.9, 2.0] == [0.0, 1.9, 2.0];
    ActsOf(1.0, NewLimiter(0.0), 0.0, [0.0, 1.9, 2.0]);
    assert [0.0] + [0.0, 1.9, 2.0] == [0.0, 0.0, 1.9, 2.0];
  }
}
