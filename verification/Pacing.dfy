/** The sliding-window request limiter of the IBKR provider.

    A clock reading is never earlier than the one before it, and a sleep lasts at least as long as it
    was asked to.  Everything the guard promises is stated over `grants`, the ghost history of every
    instant it ever recorded, of which the deque `window` is only the recent end. */
module Pacing {

  const WINDOW_SECONDS := 600.0

  /** `time.monotonic()` and `asyncio.sleep`; how far the clock really moves is up to the environment. */
  class Clock {
    var now: real
    ghost var asked: real  // total length of the sleeps asked for so far

    constructor (start: real)
      ensures now == start && asked == 0.0
    {
      now, asked := start, 0.0;
    }

    method Read() returns (t: real)
      modifies this
      ensures old(now) <= now == t && asked == old(asked)
    {
      t := *;
      if t < now { t := now; }
      now := t;
    }

    method Sleep(duration: real)
      modifies this
      ensures old(now) <= now && old(now) + duration <= now && asked == old(asked) + duration
    {
      var t: real := *;
      if t < now { t := now; }
      if t < now + duration { t := now + duration; }
      now, asked := t, asked + duration;
    }
  }

  ghost predicate Ascending(times: seq<real>) {
    forall i, j :: 0 <= i < j < |times| ==> times[i] <= times[j]
  }

  /** What the pacing rules ask of the `k`-th grant: at least `minDelay` after the one before, and more
      than ten minutes after the one `max` places back. */
  ghost predicate OnPace(grants: seq<real>, k: nat, max: nat, minDelay: real)
    requires k < |grants|
  {
    && (k >= 1 ==> grants[k - 1] <= grants[k] && grants[k - 1] + minDelay <= grants[k])
    && (k >= max ==> grants[k - max] + WINDOW_SECONDS < grants[k])
  }

  ghost predicate Paced(grants: seq<real>, max: nat, minDelay: real) {
    forall k :: 0 <= k < |grants| ==> OnPace(grants, k, max, minDelay)
  }

  lemma {:induction false} PacedAscends(grants: seq<real>, max: nat, minDelay: real)
    requires Paced(grants, max, minDelay)
    ensures Ascending(grants)
  {
    if grants != [] {
      var last := |grants| - 1;
      var rest := grants[..last];
      forall k | 0 <= k < |rest| ensures OnPace(rest, k, max, minDelay) {
        assert OnPace(grants, k, max, minDelay);
      }
      PacedAscends(rest, max, minDelay);
      assert OnPace(grants, last, max, minDelay);
    }
  }

  /** How many grants fall in the ten minutes that start at `from`. */
  ghost function CountWithin(grants: seq<real>, from: real): nat {
    if grants == [] then 0
    else
      var last := |grants| - 1;
      CountWithin(grants[..last], from) + (if from <= grants[last] <= from + WINDOW_SECONDS then 1 else 0)
  }

  /** Cutting a history at `m`: the entries after the cut add at most one each, and exactly one each when
      all of them are inside the window; entries before the window add nothing. */
  lemma {:induction false} CountFromCut(grants: seq<real>, from: real, m: nat)
    requires m <= |grants|
    ensures CountWithin(grants, from) <= CountWithin(grants[..m], from) + |grants| - m
    ensures (forall k :: m <= k < |grants| ==> from <= grants[k] <= from + WINDOW_SECONDS)
            ==> CountWithin(grants, from) == CountWithin(grants[..m], from) + |grants| - m
    ensures (forall k :: m <= k < |grants| ==> !(from <= grants[k] <= from + WINDOW_SECONDS))
            ==> CountWithin(grants, from) == CountWithin(grants[..m], from)
  {
    if m < |grants| {
      var rest := grants[..|grants| - 1];
      CountFromCut(rest, from, m);
      assert rest[..m] == grants[..m];
    } else {
      assert grants[..m] == grants;
    }
  }

  /** The documented rule: no ten-minute window, wherever it starts, holds more than `max` requests. */
  lemma {:induction false} AtMostMaxPerWindow(grants: seq<real>, max: nat, minDelay: real, from: real)
    requires max >= 1 && Paced(grants, max, minDelay)
    ensures CountWithin(grants, from) <= max
  {
    var last := |grants| - 1;
    if last < max {
      CountFromCut(grants, from, 0);
    } else if from <= grants[last] <= from + WINDOW_SECONDS {
      PacedAscends(grants, max, minDelay);
      assert OnPace(grants, last, max, minDelay);
      CountFromCut(grants, from, |grants| - max);
      CountFromCut(grants[..|grants| - max], from, 0);
    } else {
      forall k | 0 <= k < last ensures OnPace(grants[..last], k, max, minDelay) {
        assert OnPace(grants, k, max, minDelay);
      }
      AtMostMaxPerWindow(grants[..last], max, minDelay, from);
    }
  }

  /** And `Paced` asks for nothing beyond that rule: an ascending history that obeys it is paced. */
  lemma {:induction false} WindowRuleIsPaced(grants: seq<real>, max: nat)
    requires Ascending(grants)
    requires forall from: real :: CountWithin(grants, from) <= max
    ensures Paced(grants, max, 0.0)
  {
    forall k | 0 <= k < |grants| ensures OnPace(grants, k, max, 0.0) {
      if k >= max && grants[k] <= grants[k - max] + WINDOW_SECONDS {
        CountFromCut(grants[..k + 1], grants[k - max], k - max);
        CountGrows(grants, grants[k - max], k + 1);
      }
    }
  }

  lemma {:induction false} CountGrows(grants: seq<real>, from: real, m: nat)
    requires m <= |grants|
    ensures CountWithin(grants[..m], from) <= CountWithin(grants, from)
  {
    if m < |grants| {
      CountGrows(grants[..|grants| - 1], from, m);
      assert grants[..|grants| - 1][..m] == grants[..m];
    } else {
      assert grants[..m] == grants;
    }
  }

  /** One more grant keeps the pace if it respects the delay and the grant `max` places back is old enough. */
  lemma {:induction false} PaceExtends(grants: seq<real>, max: nat, minDelay: real, stamp: real)
    requires max >= 1 && Paced(grants, max, minDelay)
    requires grants != [] ==> grants[|grants| - 1] <= stamp && grants[|grants| - 1] + minDelay <= stamp
    requires |grants| >= max ==> grants[|grants| - max] + WINDOW_SECONDS < stamp
    ensures Paced(grants + [stamp], max, minDelay)
  {
    forall k | 0 <= k < |grants| + 1 ensures OnPace(grants + [stamp], k, max, minDelay) {
      assert k < |grants| ==> OnPace(grants, k, max, minDelay);
    }
  }

  function AtLeastZero(x: real): (r: real)
    ensures r >= 0.0 && r >= x && (r == 0.0 || r == x)
  {
    if x < 0.0 then 0.0 else x
  }

  class PacingGuard {
    const max: int
    const minDelay: real
    var window: seq<real>
    var lastRequestTime: real
    ghost var grants: seq<real>
    ghost var dropped: nat  // how many of the grants have left the deque

    constructor (maxPer10Min: int := 55, minDelaySeconds: real := 2.0)
      ensures max == maxPer10Min && minDelay == minDelaySeconds
      ensures grants == [] && forall clock: Clock :: Valid(clock)
    {
      max, minDelay := maxPer10Min, minDelaySeconds;
      window, lastRequestTime, grants, dropped := [], 0.0, [], 0;
    }

    ghost predicate Valid(clock: Clock)
      reads this, clock
    {
      && (max >= 1 ==> Paced(grants, max, minDelay))
      && DequeValid(clock)
    }

    ghost predicate DequeValid(clock: Clock)
      reads this, clock
    {
      && (grants != [] ==> max >= 1 && grants[|grants| - 1] <= lastRequestTime <= clock.now)
      && WindowIsRecent(clock)
      && (window != [] ==> |window| <= max + 1)
      && (|window| == max + 1 > 1 ==> window[0] + WINDOW_SECONDS < lastRequestTime)
    }

    /** The deque is the recent end of the history, and whatever fell off it is more than ten minutes old. */
    ghost predicate WindowIsRecent(clock: Clock)
      reads this, clock
    {
      && dropped <= |grants| && window == grants[dropped..]
      && (dropped > 0 ==> grants[dropped - 1] + WINDOW_SECONDS < clock.now)
    }

    /** The request could go out at once: the last one is far enough back, and the `max`-th last one
        has left the ten-minute window. */
    ghost predicate Free(clock: Clock)
      reads this, clock
    {
      && minDelay <= clock.now - lastRequestTime
      && (|grants| < max || (1 <= max && grants[|grants| - max] < clock.now - WINDOW_SECONDS))
    }

    /** What is left of the delay after the last request. */
    ghost function DelayLeft(clock: Clock): real
      reads this, clock
    {
      AtLeastZero(lastRequestTime + minDelay - clock.now)
    }

    /** How long the `max`-th last grant still needs to be a second past its ten minutes, if there are so many. */
    ghost function WindowLeft(clock: Clock): real
      reads this, clock
    {
      if 1 <= max <= |grants| then AtLeastZero(grants[|grants| - max] + 601.0 - clock.now) else 0.0
    }

    /** Returns false where the source raises IndexError: a limit below one makes it look at the head
        of an empty deque. */
    method Wait(clock: Clock) returns (granted: bool)
      requires Valid(clock)
      modifies this, clock
      ensures Valid(clock) && clock.now >= old(clock.now)
      ensures granted <==> max >= 1
      ensures granted ==> |window| <= max + 1
      ensures if granted then IsNewGrant(old(grants), grants, old(clock.now), clock.now)
              else grants == old(grants) && window == old(window)
      ensures old(Free(clock)) && granted ==> clock.asked == old(clock.asked)
      ensures clock.asked - old(clock.asked) <= old(DelayLeft(clock)) + old(WindowLeft(clock))
    {
      HoldMinimumDelay(clock);
      Prune(clock);
      if |window| >= max {
        if window == [] {
          return false;
        }
        AwaitOldest(clock);
      }
      Record(clock);
      granted := true;
    }

    /** Sleeps out what is left of the delay since the last request, if anything is. */
    method HoldMinimumDelay(clock: Clock)
      modifies clock
      ensures old(clock.now) <= clock.now && lastRequestTime + minDelay <= clock.now
      ensures clock.asked - old(clock.asked) <= AtLeastZero(lastRequestTime + minDelay - old(clock.now))
      ensures clock.asked >= old(clock.asked)
    {
      var now := clock.Read();
      var elapsed := now - lastRequestTime;
      if elapsed < minDelay {
        clock.Sleep(minDelay - elapsed);
      }
    }

    /** Sleeps until the oldest entry of a full deque is a second more than ten minutes old. */
    method AwaitOldest(clock: Clock)
      requires window != []
      modifies clock
      ensures old(clock.now) <= clock.now && window[0] + WINDOW_SECONDS + 1.0 <= clock.now
      ensures clock.asked - old(clock.asked) <= AtLeastZero(window[0] + 601.0 - old(clock.now))
    {
      var t := clock.Read();
      var sleepFor := WINDOW_SECONDS - (t - window[0]) + 1.0;
      if sleepFor > 0.0 {
        clock.Sleep(sleepFor);
      }
    }

    /** Drops the entries older than ten minutes, and only those. */
    method Prune(clock: Clock)
      requires Valid(clock)
      modifies this`window, this`dropped, clock
      ensures WindowIsRecent(clock) && old(clock.now) <= clock.now && clock.asked == old(clock.asked)
      ensures |window| <= |old(window)| && |window| <= (if max < 0 then 0 else max)
      ensures forall k :: dropped <= k < |grants| ==> old(clock.now) - WINDOW_SECONDS <= grants[k]
    {
      if max >= 1 { PacedAscends(grants, max, minDelay); }
      var t := clock.Read();
      var cutoff := t - WINDOW_SECONDS;
      while window != [] && window[0] < cutoff
        invariant |window| <= |old(window)| && WindowIsRecent(clock)
        invariant |window| == max + 1 > 1 ==> window[0] < cutoff
        modifies this`window, this`dropped
        decreases |window|
      {
        window, dropped := window[1..], dropped + 1;
      }
    }

    /** Stamps the grant, on the deque and as the last request. */
    method Record(clock: Clock)
      requires max >= 1 && Paced(grants, max, minDelay)
      requires WindowIsRecent(clock) && |window| <= max
      requires grants != [] ==> grants[|grants| - 1] <= clock.now && grants[|grants| - 1] + minDelay <= clock.now
      requires |window| == max ==> window[0] + WINDOW_SECONDS < clock.now
      modifies this, clock
      ensures Valid(clock) && |window| <= max + 1 && clock.asked == old(clock.asked)
      ensures IsNewGrant(old(grants), grants, old(clock.now), clock.now)
    {
      var stamp := clock.Read();
      PacedAscends(grants, max, minDelay);
      PaceExtends(grants, max, minDelay, stamp);
      assert window + [stamp] == (grants + [stamp])[dropped..];
      window, grants := window + [stamp], grants + [stamp];
      lastRequestTime := clock.Read();
    }
  }

  ghost predicate IsNewGrant(before: seq<real>, after: seq<real>, from: real, to: real) {
    |after| == |before| + 1 && after[..|before|] == before && from <= after[|before|] <= to
  }
}
