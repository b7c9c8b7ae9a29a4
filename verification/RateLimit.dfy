/** The sliding-window request limiter. Times are integer nanoseconds and the blend weight is an exact rational. */
module RateLimit {

  /** A key's fixed window and its counts. */
  datatype Bucket = Bucket(windowStart: int, prevCount: nat, currCount: nat)

  type Buckets = map<string, Bucket>

  /** The bucket brought up to date: started afresh after two idle windows, rolled on after one. */
  function Rolled(b: Bucket, window: int, now: int): Bucket {
    if now - b.windowStart >= 2 * window then Bucket(now, 0, 0)
    else if now - b.windowStart >= window then Bucket(b.windowStart + window, b.currCount, 0)
    else b
  }

  function Current(buckets: Buckets, window: int, key: string, now: int): Bucket {
    Rolled(if key in buckets then buckets[key] else Bucket(now, 0, 0), window, now)
  }

  /** How much of the previous window still counts. */
  function Weight(b: Bucket, window: int, now: int): real
    requires window > 0
  {
    1.0 - (now - b.windowStart) as real / window as real
  }

  function Estimate(b: Bucket, window: int, now: int): real
    requires window > 0
  {
    b.prevCount as real * Weight(b, window, now) + b.currCount as real
  }

  predicate Admits(buckets: Buckets, window: int, key: string, limit: int, now: int)
    requires window > 0
  {
    limit <= 0 || Estimate(Current(buckets, window, key, now), window, now) < limit as real
  }

  function Counted(b: Bucket, admitted: bool): Bucket {
    if admitted then b.(currCount := b.currCount + 1) else b
  }

  /** The buckets after a request; without a limit nothing is recorded. */
  function Requested(buckets: Buckets, window: int, key: string, limit: int, now: int): Buckets
    requires window > 0
  {
    if limit <= 0 then buckets
    else buckets[key := Counted(Current(buckets, window, key, now), Admits(buckets, window, key, limit, now))]
  }

  function Swept(buckets: Buckets, window: int, now: int): Buckets {
    map key | key in buckets && buckets[key].windowStart >= now - 2 * window :: buckets[key]
  }

  class Limiter {
    const window: int
    var buckets: Buckets

    constructor (window: int)
      requires window > 0
      ensures this.window == window && buckets == map[]
    {
      this.window := window;
      buckets := map[];
    }

    method Allow(key: string, limit: int, now: int) returns (allowed: bool)
      requires window > 0
      modifies this
      ensures allowed == Admits(old(buckets), window, key, limit, now)
      ensures buckets == Requested(old(buckets), window, key, limit, now)
      ensures limit <= 0 ==> allowed && buckets == old(buckets)
    {
      if limit <= 0 {
        return true;
      }
      var b := if key in buckets then buckets[key] else Bucket(now, 0, 0);
      var elapsed := now - b.windowStart;
      if elapsed >= 2 * window {
        b := Bucket(now, 0, 0);
        elapsed := 0;
      } else if elapsed >= window {
        b := Bucket(b.windowStart + window, b.currCount, 0);
        elapsed := now - b.windowStart;
      }
      var weight := 1.0 - elapsed as real / window as real;
      var estimate := b.prevCount as real * weight + b.currCount as real;
      if estimate >= limit as real {
        buckets := buckets[key := b];
        return false;
      }
      buckets := buckets[key := b.(currCount := b.currCount + 1)];
      return true;
    }

    method Sweep(now: int)
      modifies this
      ensures buckets == Swept(old(buckets), window, now)
      ensures forall key :: key in buckets <==>
                            key in old(buckets) && old(buckets)[key].windowStart >= now - 2 * window
      ensures forall key | key in buckets :: buckets[key] == old(buckets)[key]
    {
      var cutoff := now - 2 * window;
      var keys := buckets.Keys;
      while keys != {}
        invariant keys <= buckets.Keys
        invariant buckets == map key | key in old(buckets)
                  && (key in keys || old(buckets)[key].windowStart >= cutoff) :: old(buckets)[key]
      {
        var key :| key in keys;
        keys := keys - {key};
        if buckets[key].windowStart < cutoff {
          buckets := buckets - {key};
        }
      }
    }
  }

  // ----- traces -----

  datatype Event = Request(key: string, limit: int, now: int) | Sweep(now: int)

  function Next(buckets: Buckets, window: int, ev: Event): Buckets
    requires window > 0
  {
    match ev
    case Request(key, limit, now) => Requested(buckets, window, key, limit, now)
    case Sweep(now) => Swept(buckets, window, now)
  }

  function After(window: int, evs: seq<Event>): Buckets
    requires window > 0
  {
    if evs == [] then map[] else Next(After(window, evs[..|evs| - 1]), window, evs[|evs| - 1])
  }

  predicate InOrder(evs: seq<Event>) {
    forall i, j | 0 <= i < j < |evs| :: evs[i].now <= evs[j].now
  }

  /** Every request for the key comes with this limit. */
  predicate Fixed(evs: seq<Event>, key: string, limit: int) {
    forall i | 0 <= i < |evs| && evs[i].Request? && evs[i].key == key :: evs[i].limit == limit
  }

  /** The times at which requests for a key were let through. */
  function Admissions(window: int, evs: seq<Event>, key: string): seq<int>
    requires window > 0
  {
    if evs == [] then []
    else
      var before, ev := evs[..|evs| - 1], evs[|evs| - 1];
      Admissions(window, before, key)
      + (if ev.Request? && ev.key == key && Admits(After(window, before), window, key, ev.limit, ev.now)
         then [ev.now] else [])
  }

  /** How many of the times lie in the closed interval. */
  function Within(times: seq<int>, from: int, to: int): nat {
    if times == [] then 0
    else Within(times[..|times| - 1], from, to) + (if from <= times[|times| - 1] <= to then 1 else 0)
  }

  lemma {:induction false} WithinAppend(times: seq<int>, t: int, from: int, to: int)
    ensures Within(times + [t], from, to) == Within(times, from, to) + (if from <= t <= to then 1 else 0)
  {
    assert (times + [t])[..|times|] == times;
  }

  lemma {:induction false} WithinGrows(times: seq<int>, from: int, to: int, from': int, to': int)
    requires from' <= from && to <= to'
    ensures Within(times, from, to) <= Within(times, from', to')
  {
    if times != [] {
      WithinGrows(times[..|times| - 1], from, to, from', to');
    }
  }

  lemma {:induction false} WithinSplits(times: seq<int>, from: int, mid: int, to: int)
    requires from <= mid <= to
    ensures Within(times, from, to) == Within(times, from, mid - 1) + Within(times, mid, to)
  {
    if times != [] {
      WithinSplits(times[..|times| - 1], from, mid, to);
    }
  }

  lemma {:induction false} NoneWithin(times: seq<int>, from: int, to: int)
    requires forall i | 0 <= i < |times| :: times[i] < from || times[i] > to
    ensures Within(times, from, to) == 0
  {
    if times != [] {
      NoneWithin(times[..|times| - 1], from, to);
    }
  }

  // ----- the bound -----

  /** The two counters of a bucket count exactly what was let through in its window and in the one before. */
  ghost predicate Counts(b: Bucket, window: int, limit: int, times: seq<int>) {
    && b.currCount == Within(times, b.windowStart, b.windowStart + window - 1) <= limit
    && b.prevCount == Within(times, b.windowStart - window, b.windowStart - 1) <= limit
    && (forall i | 0 <= i < |times| :: times[i] < b.windowStart + window)
  }

  /** What holds of a key's bucket when the last event was at this time. */
  ghost predicate Good(buckets: Buckets, window: int, key: string, limit: int, times: seq<int>, now: int) {
    if key in buckets then
      buckets[key].windowStart <= now && Counts(buckets[key], window, limit, times)
    else forall i | 0 <= i < |times| :: times[i] < now - window
  }

  /** Rolling keeps the counters exact: the window just left becomes the previous one. */
  lemma RolledCounts(b: Bucket, window: int, limit: int, times: seq<int>, now: int)
    requires window > 0 && b.windowStart <= now && Counts(b, window, limit, times)
    ensures var r := Rolled(b, window, now);
            Counts(r, window, limit, times) && 0 <= now - r.windowStart < window
  {
    var r := Rolled(b, window, now);
    if now - b.windowStart >= 2 * window {
      NoneWithin(times, now, now + window - 1);
      NoneWithin(times, now - window, now - 1);
    } else if now - b.windowStart >= window {
      NoneWithin(times, r.windowStart, r.windowStart + window - 1);
    }
  }

  /** The bucket a request finds, whether it was there or not. */
  lemma CurrentIsGood(buckets: Buckets, window: int, key: string, limit: int, times: seq<int>, now: int, later: int)
    requires window > 0 && limit > 0 && now <= later && Good(buckets, window, key, limit, times, now)
    ensures var b := Current(buckets, window, key, later);
            Counts(b, window, limit, times) && 0 <= later - b.windowStart < window
  {
    if key in buckets {
      RolledCounts(buckets[key], window, limit, times, later);
    } else {
      NoneWithin(times, later, later + window - 1);
      NoneWithin(times, later - window, later - 1);
    }
  }

  /** One more admission, in the bucket's own window. */
  lemma CountedCounts(b: Bucket, window: int, limit: int, times: seq<int>, now: int)
    requires window > 0 && Counts(b, window, limit, times) && 0 <= now - b.windowStart < window && b.currCount < limit
    ensures Counts(Counted(b, true), window, limit, times + [now])
  {
    WithinAppend(times, now, b.windowStart, b.windowStart + window - 1);
    WithinAppend(times, now, b.windowStart - window, b.windowStart - 1);
  }

  lemma WeightInRange(b: Bucket, window: int, now: int)
    requires window > 0 && 0 <= now - b.windowStart < window
    ensures 0.0 < Weight(b, window, now) <= 1.0
  {
    var elapsed := (now - b.windowStart) as real;
    assert 0.0 <= elapsed / window as real < 1.0;
  }

  lemma WeightFalls(b: Bucket, window: int, now: int, later: int)
    requires window > 0 && now <= later
    ensures Weight(b, window, later) <= Weight(b, window, now)
  {
    assert ((now - b.windowStart) as real) / window as real <= ((later - b.windowStart) as real) / window as real;
  }

  /** What is left of the limit shrinks by at most the previous window's share. */
  lemma ShareBound(count: nat, limit: int, w: real)
    requires count <= limit && 0.0 <= w <= 1.0
    ensures 0.0 <= count as real * w <= limit as real
  {
    assert count as real * w <= count as real * 1.0;
  }

  lemma ShareFalls(count: nat, w: real, v: real)
    requires w <= v
    ensures count as real * w <= count as real * v
  {
  }

  /** A request is only let through below the limit, since the previous window never weighs less than nothing. */
  lemma AdmittedBelowLimit(b: Bucket, window: int, limit: int, now: int)
    requires window > 0 && 0 <= now - b.windowStart < window && Estimate(b, window, now) < limit as real
    ensures b.currCount < limit
  {
    WeightInRange(b, window, now);
    ShareBound(b.prevCount, b.prevCount, Weight(b, window, now));
  }

  lemma RequestKeepsGood(buckets: Buckets, window: int, key: string, limit: int, times: seq<int>, now: int, later: int)
    requires window > 0 && limit > 0 && now <= later && Good(buckets, window, key, limit, times, now)
    ensures var admitted := Admits(buckets, window, key, limit, later);
            Good(Requested(buckets, window, key, limit, later), window, key, limit,
                 if admitted then times + [later] else times, later)
  {
    var b := Current(buckets, window, key, later);
    CurrentIsGood(buckets, window, key, limit, times, now, later);
    if Admits(buckets, window, key, limit, later) {
      AdmittedBelowLimit(b, window, limit, later);
      CountedCounts(b, window, limit, times, later);
    }
  }

  lemma OtherKeepsGood(buckets: Buckets, window: int, key: string, limit: int, times: seq<int>, now: int, ev: Event)
    requires window > 0 && limit > 0 && now <= ev.now && Good(buckets, window, key, limit, times, now)
    requires ev.Sweep? || ev.key != key
    ensures Good(Next(buckets, window, ev), window, key, limit, times, ev.now)
  {
  }

  lemma {:induction false} EveryTraceIsGood(window: int, evs: seq<Event>, key: string, limit: int)
    requires window > 0 && limit > 0 && InOrder(evs) && Fixed(evs, key, limit) && evs != []
    ensures Good(After(window, evs), window, key, limit, Admissions(window, evs, key), evs[|evs| - 1].now)
  {
    var before, ev := evs[..|evs| - 1], evs[|evs| - 1];
    var now := if before == [] then ev.now else before[|before| - 1].now;
    if before != [] {
      EveryTraceIsGood(window, before, key, limit);
    }
    assert Good(After(window, before), window, key, limit, Admissions(window, before, key), now);
    if ev.Request? && ev.key == key {
      RequestKeepsGood(After(window, before), window, key, limit, Admissions(window, before, key), now, ev.now);
      assert Admissions(window, before, key) + [] == Admissions(window, before, key);
    } else {
      OtherKeepsGood(After(window, before), window, key, limit, Admissions(window, before, key), now, ev);
      assert Admissions(window, before, key) + [] == Admissions(window, before, key);
    }
  }

  /**
   * However requests for all keys and sweeps mix, no interval of one window's length lets through more than twice the
   * limit.
   */
  lemma {:induction false} AtMostTwiceTheLimit(window: int, evs: seq<Event>, key: string, limit: int, t: int)
    requires window > 0 && limit > 0 && InOrder(evs) && Fixed(evs, key, limit)
    ensures Within(Admissions(window, evs, key), t, t + window) <= 2 * limit
  {
    if evs != [] {
      var before, ev := evs[..|evs| - 1], evs[|evs| - 1];
      var times := Admissions(window, evs, key);
      AtMostTwiceTheLimit(window, before, key, limit, t);
      if times != Admissions(window, before, key) && t <= ev.now <= t + window {
        EveryTraceIsGood(window, evs, key, limit);
        LatestInterval(After(window, evs)[key], window, limit, times, t, ev.now);
      } else if times != Admissions(window, before, key) {
        WithinAppend(Admissions(window, before, key), ev.now, t, t + window);
      }
    }
  }

  /** An interval that reaches the bucket's window lies in that window and the one before. */
  lemma LatestInterval(b: Bucket, window: int, limit: int, times: seq<int>, t: int, now: int)
    requires window > 0 && Counts(b, window, limit, times) && b.windowStart <= now < b.windowStart + window
             && now - window <= t
    ensures Within(times, t, t + window) <= 2 * limit
  {
    var s := b.windowStart;
    var end := if t > s then t + window else s + window;
    WithinGrows(times, t, t + window, s - window, end);
    WithinSplits(times, s - window, s, end);
    WithinSplits(times, s, s + window, end);
    NoneWithin(times, s + window, end);
  }

  // ----- the blend -----

  /** Within the window, fewer were let through than the limit, plus one, less what the previous window still weighs. */
  predicate Blended(b: Bucket, window: int, limit: int, now: int)
    requires window > 0
  {
    b.currCount as real < limit as real + 1.0 - b.prevCount as real * Weight(b, window, now)
  }

  lemma BlendedLater(b: Bucket, window: int, limit: int, now: int, later: int)
    requires window > 0 && now <= later && Blended(b, window, limit, now)
    ensures Blended(b, window, limit, later)
  {
    WeightFalls(b, window, now, later);
    ShareFalls(b.prevCount, Weight(b, window, later), Weight(b, window, now));
  }

  /** A bucket that is up to date stays below the blend as time goes on. */
  lemma RolledBlended(b: Bucket, window: int, limit: int, times: seq<int>, now: int, later: int)
    requires window > 0 && b.windowStart <= now <= later && Counts(b, window, limit, times)
    requires Blended(Rolled(b, window, now), window, limit, now)
    ensures Blended(Rolled(b, window, later), window, limit, later)
  {
    var r := Rolled(b, window, later);
    RolledCounts(b, window, limit, times, later);
    if later - b.windowStart < window {
      BlendedLater(b, window, limit, now, later);
    } else {
      EmptyBlended(r, window, limit, later);
    }
  }

  lemma EmptyBlended(b: Bucket, window: int, limit: int, now: int)
    requires window > 0 && b.currCount == 0 && b.prevCount <= limit && 0 <= now - b.windowStart < window
    ensures Blended(b, window, limit, now)
  {
    WeightInRange(b, window, now);
    ShareBound(b.prevCount, limit, Weight(b, window, now));
  }

  /** Letting one more through keeps to the blend, because the estimate was below the limit. */
  lemma AdmittedBlended(b: Bucket, window: int, limit: int, now: int)
    requires window > 0 && Estimate(b, window, now) < limit as real
    ensures Blended(Counted(b, true), window, limit, now)
  {
  }

  ghost predicate KeyBlended(buckets: Buckets, window: int, key: string, limit: int, now: int)
    requires window > 0
  {
    key in buckets ==> Blended(Rolled(buckets[key], window, now), window, limit, now)
  }

  lemma CurrentBlended(buckets: Buckets, window: int, key: string, limit: int, times: seq<int>, now: int, later: int)
    requires window > 0 && limit > 0 && now <= later && Good(buckets, window, key, limit, times, now)
    requires KeyBlended(buckets, window, key, limit, now)
    ensures Blended(Current(buckets, window, key, later), window, limit, later)
  {
    if key in buckets {
      RolledBlended(buckets[key], window, limit, times, now, later);
    } else {
      EmptyBlended(Bucket(later, 0, 0), window, limit, later);
    }
  }

  lemma RequestKeepsBlended(buckets: Buckets, window: int, key: string, limit: int, times: seq<int>, now: int,
                            later: int)
    requires window > 0 && limit > 0 && now <= later && Good(buckets, window, key, limit, times, now)
    requires KeyBlended(buckets, window, key, limit, now)
    ensures var after := Requested(buckets, window, key, limit, later);
            Blended(after[key], window, limit, later) && Rolled(after[key], window, later) == after[key]
            && 0.0 < Weight(after[key], window, later) <= 1.0
  {
    var b := Current(buckets, window, key, later);
    CurrentIsGood(buckets, window, key, limit, times, now, later);
    CurrentBlended(buckets, window, key, limit, times, now, later);
    WeightInRange(b, window, later);
    if Admits(buckets, window, key, limit, later) {
      AdmittedBlended(b, window, limit, later);
    }
  }

  function LastTime(evs: seq<Event>, otherwise: int): int {
    if evs == [] then otherwise else evs[|evs| - 1].now
  }

  /** What the next event of a trace finds. */
  lemma BeforeNext(window: int, evs: seq<Event>, ev: Event, key: string, limit: int)
    requires window > 0 && limit > 0 && InOrder(evs + [ev]) && Fixed(evs + [ev], key, limit)
    ensures InOrder(evs) && Fixed(evs, key, limit) && LastTime(evs, ev.now) <= ev.now
    ensures Good(After(window, evs), window, key, limit, Admissions(window, evs, key), LastTime(evs, ev.now))
    ensures ev.Request? && ev.key == key ==> ev.limit == limit
  {
    var all := evs + [ev];
    assert all[|evs|] == ev;
    forall i | 0 <= i < |evs| ensures all[i] == evs[i] {}
    if evs != [] {
      EveryTraceIsGood(window, evs, key, limit);
    }
  }

  /** One more event of any kind. */
  lemma NextKeepsBlended(window: int, evs: seq<Event>, ev: Event, key: string, limit: int)
    requires window > 0 && limit > 0 && InOrder(evs + [ev]) && Fixed(evs + [ev], key, limit)
    requires KeyBlended(After(window, evs), window, key, limit, LastTime(evs, ev.now))
    ensures KeyBlended(Next(After(window, evs), window, ev), window, key, limit, ev.now)
  {
    var buckets, times, now := After(window, evs), Admissions(window, evs, key), LastTime(evs, ev.now);
    BeforeNext(window, evs, ev, key, limit);
    if ev.Request? && ev.key == key {
      RequestKeepsBlended(buckets, window, key, limit, times, now, ev.now);
    } else if key in buckets {
      RolledBlended(buckets[key], window, limit, times, now, ev.now);
    }
  }

  lemma {:induction false} EveryTraceIsBlended(window: int, evs: seq<Event>, key: string, limit: int)
    requires window > 0 && limit > 0 && InOrder(evs) && Fixed(evs, key, limit)
    ensures KeyBlended(After(window, evs), window, key, limit, LastTime(evs, 0))
  {
    if evs != [] {
      var before, ev := evs[..|evs| - 1], evs[|evs| - 1];
      EveryTraceIsBlended(window, before, key, limit);
      assert evs == before + [ev];
      NextKeepsBlended(window, before, ev, key, limit);
    }
  }

  /**
   * Right after a request: the weight is in (0, 1], and the window's admissions are below limit + 1 - prev * weight.
   */
  lemma RequestIsBlended(window: int, evs: seq<Event>, key: string, limit: int, now: int)
    requires window > 0 && limit > 0 && InOrder(evs + [Request(key, limit, now)])
             && Fixed(evs + [Request(key, limit, now)], key, limit)
    ensures var b := Requested(After(window, evs), window, key, limit, now)[key];
            0.0 < Weight(b, window, now) <= 1.0 && Blended(b, window, limit, now)
  {
    BeforeNext(window, evs, Request(key, limit, now), key, limit);
    EveryTraceIsBlended(window, evs, key, limit);
    RequestKeepsBlended(After(window, evs), window, key, limit, Admissions(window, evs, key), LastTime(evs, now), now);
  }

  // ----- the sliding law -----

  /** The times of a key's requests. */
  function RequestTimes(evs: seq<Event>, key: string): (times: seq<int>) {
    if evs == [] then []
    else
      var ev := evs[|evs| - 1];
      RequestTimes(evs[..|evs| - 1], key) + (if ev.Request? && ev.key == key then [ev.now] else [])
  }

  /**
   * The start of the window in which a request falls, by the requests before it: the first one opens a window, each
   * window is followed by the next, and after a window without any request the next request opens one of its own.
   */
  function WindowStart(window: int, times: seq<int>, now: int): int {
    if times == [] then now
    else
      var last := WindowStart(window, times[..|times| - 1], times[|times| - 1]);
      if now < last + window then last else if now < last + 2 * window then last + window else now
  }

  /** A bucket starts where its last request's window does; without a bucket the next request opens a window. */
  ghost predicate Starts(buckets: Buckets, window: int, key: string, times: seq<int>, now: int) {
    if key in buckets then
      times != [] && buckets[key].windowStart == WindowStart(window, times[..|times| - 1], times[|times| - 1])
    else times == [] || WindowStart(window, times[..|times| - 1], times[|times| - 1]) < now - 2 * window
  }

  lemma CurrentStarts(buckets: Buckets, window: int, key: string, times: seq<int>, now: int, later: int)
    requires window > 0 && now <= later && Starts(buckets, window, key, times, now)
    ensures Current(buckets, window, key, later).windowStart == WindowStart(window, times, later)
  {
  }

  lemma NextStarts(buckets: Buckets, window: int, key: string, limit: int, times: seq<int>, now: int, ev: Event)
    requires window > 0 && limit > 0 && now <= ev.now && Starts(buckets, window, key, times, now)
    requires ev.Request? && ev.key == key ==> ev.limit == limit
    ensures Starts(Next(buckets, window, ev), window, key,
                   if ev.Request? && ev.key == key then times + [ev.now] else times, ev.now)
  {
    if ev.Request? && ev.key == key {
      CurrentStarts(buckets, window, key, times, now, ev.now);
      assert (times + [ev.now])[..|times|] == times;
    }
  }

  lemma {:induction false} EveryTraceStarts(window: int, evs: seq<Event>, key: string, limit: int, now: int)
    requires window > 0 && limit > 0 && InOrder(evs) && Fixed(evs, key, limit) && LastTime(evs, now) <= now
    ensures Starts(After(window, evs), window, key, RequestTimes(evs, key), now)
  {
    if evs != [] {
      var before, ev := evs[..|evs| - 1], evs[|evs| - 1];
      EveryTraceStarts(window, before, key, limit, ev.now);
      NextStarts(After(window, before), window, key, limit, RequestTimes(before, key), ev.now, ev);
      assert RequestTimes(before, key) + [] == RequestTimes(before, key);
    }
  }

  lemma ShareOfWindow(count: nat, elapsed: int, window: int)
    requires window > 0
    ensures count as real * (1.0 - elapsed as real / window as real) * window as real
            == (count * (window - elapsed)) as real
  {
    var share := elapsed as real / window as real;
    assert share * window as real == elapsed as real;
    assert (1.0 - share) * window as real == (window - elapsed) as real;
    assert count as real * ((1.0 - share) * window as real) == count as real * (window - elapsed) as real;
  }

  lemma SameOrder(x: real, y: real, f: real)
    requires f > 0.0
    ensures x < y <==> x * f < y * f
  {
  }

  /** The estimate in whole numbers. */
  lemma EstimateIs(ws: int, p: nat, c: nat, window: int, limit: int, now: int)
    requires window > 0
    ensures Estimate(Bucket(ws, p, c), window, now) < limit as real <==>
            p * (ws + window - now) + c * window < limit * window
  {
    var b := Bucket(ws, p, c);
    var share := p as real * Weight(b, window, now);
    ShareOfWindow(p, now - ws, window);
    SameOrder(Estimate(b, window, now), limit as real, window as real);
    assert Estimate(b, window, now) * window as real == share * window as real + c as real * window as real;
    assert c as real * window as real == (c * window) as real;
    assert limit as real * window as real == (limit * window) as real;
  }

  /** Nothing was let through later than the last event. */
  lemma {:induction false} AdmittedByNow(window: int, evs: seq<Event>, key: string, now: int)
    requires window > 0 && InOrder(evs) && LastTime(evs, now) <= now
    ensures forall i | 0 <= i < |Admissions(window, evs, key)| :: Admissions(window, evs, key)[i] <= now
  {
    if evs != [] {
      var before := evs[..|evs| - 1];
      AdmittedByNow(window, before, key, evs[|evs| - 1].now);
    }
  }

  lemma CountsByNow(b: Bucket, window: int, limit: int, times: seq<int>, now: int)
    requires Counts(b, window, limit, times) && b.windowStart <= now < b.windowStart + window
    requires forall i | 0 <= i < |times| :: times[i] <= now
    ensures b.currCount == Within(times, b.windowStart, now)
  {
    if now < b.windowStart + window - 1 {
      WithinSplits(times, b.windowStart, now + 1, b.windowStart + window - 1);
      NoneWithin(times, now + 1, b.windowStart + window - 1);
    }
  }

  lemma FoundStart(window: int, evs: seq<Event>, key: string, limit: int, now: int)
    requires window > 0 && limit > 0 && InOrder(evs) && Fixed(evs, key, limit) && LastTime(evs, now) <= now
    ensures Current(After(window, evs), window, key, now).windowStart
            == WindowStart(window, RequestTimes(evs, key), now)
  {
    EveryTraceStarts(window, evs, key, limit, now);
    CurrentStarts(After(window, evs), window, key, RequestTimes(evs, key), now, now);
  }

  lemma FoundCounts(window: int, evs: seq<Event>, key: string, limit: int, now: int)
    requires window > 0 && limit > 0 && InOrder(evs) && LastTime(evs, now) <= now
    requires Good(After(window, evs), window, key, limit, Admissions(window, evs, key), LastTime(evs, now))
    ensures var b := Current(After(window, evs), window, key, now);
            && Counts(b, window, limit, Admissions(window, evs, key)) && b.windowStart <= now < b.windowStart + window
            && b.currCount == Within(Admissions(window, evs, key), b.windowStart, now)
  {
    var b := Current(After(window, evs), window, key, now);
    CurrentIsGood(After(window, evs), window, key, limit, Admissions(window, evs, key), LastTime(evs, now), now);
    AdmittedByNow(window, evs, key, now);
    CountsByNow(b, window, limit, Admissions(window, evs, key), now);
  }

  /** What the next request finds: its window, and how many were let through in it and in the one before. */
  lemma FoundBucket(window: int, evs: seq<Event>, key: string, limit: int, now: int)
    requires window > 0 && limit > 0 && InOrder(evs) && Fixed(evs, key, limit) && LastTime(evs, now) <= now
    requires Good(After(window, evs), window, key, limit, Admissions(window, evs, key), LastTime(evs, now))
    ensures var ws := WindowStart(window, RequestTimes(evs, key), now);
            var times := Admissions(window, evs, key);
            && ws <= now < ws + window
            && Current(After(window, evs), window, key, now)
               == Bucket(ws, Within(times, ws - window, ws - 1), Within(times, ws, now))
  {
    FoundStart(window, evs, key, limit, now);
    FoundCounts(window, evs, key, limit, now);
  }

  lemma NextAdmission(window: int, evs: seq<Event>, key: string, limit: int, now: int, ws: int, p: nat, c: nat)
    requires window > 0 && limit > 0 && Current(After(window, evs), window, key, now) == Bucket(ws, p, c)
    ensures Admissions(window, evs + [Request(key, limit, now)], key) == Admissions(window, evs, key)
            + if p * (ws + window - now) + c * window < limit * window then [now] else []
  {
    assert (evs + [Request(key, limit, now)])[..|evs|] == evs;
    EstimateIs(ws, p, c, window, limit, now);
  }

  /**
   * The sliding law, in nothing but times. With the request in the window that starts at ws, p let through in the
   * window before and c in this one so far, it is let through exactly when p, weighed by what is left of the window,
   * and c stay below the limit. So nothing is refused below the blend either.
   */
  lemma AdmittedIffBelowBlend(window: int, evs: seq<Event>, key: string, limit: int, now: int, ws: int, p: nat, c: nat)
    requires window > 0 && limit > 0 && InOrder(evs + [Request(key, limit, now)])
             && Fixed(evs + [Request(key, limit, now)], key, limit)
    requires ws == WindowStart(window, RequestTimes(evs, key), now)
    requires p == Within(Admissions(window, evs, key), ws - window, ws - 1)
             && c == Within(Admissions(window, evs, key), ws, now)
    ensures ws <= now < ws + window
    ensures Admissions(window, evs + [Request(key, limit, now)], key) == Admissions(window, evs, key)
            + if p * (ws + window - now) + c * window < limit * window then [now] else []
  {
    BeforeNext(window, evs, Request(key, limit, now), key, limit);
    FoundBucket(window, evs, key, limit, now);
    NextAdmission(window, evs, key, limit, now, ws, p, c);
  }

  // ----- the bound is met -----

  lemma OneMore(window: int, evs: seq<Event>, key: string, limit: int, now: int)
    requires window > 0 && limit > 0 && Admits(After(window, evs), window, key, limit, now)
    ensures After(window, evs + [Request(key, limit, now)])
            == After(window, evs)[key := Counted(Current(After(window, evs), window, key, now), true)]
    ensures Admissions(window, evs + [Request(key, limit, now)], key) == Admissions(window, evs, key) + [now]
  {
    assert (evs + [Request(key, limit, now)])[..|evs|] == evs;
  }

  lemma Tenth()
    ensures Weight(Bucket(10, 1, 0), 10, 19) == 0.1 == Weight(Bucket(10, 1, 1), 10, 19)
    ensures Weight(Bucket(20, 2, 0), 10, 29) == 0.1 == Weight(Bucket(20, 2, 1), 10, 29)
  {
  }

  function FourRequests(key: string): seq<Event> {
    [Request(key, 2, 0)] + [Request(key, 2, 19)] + [Request(key, 2, 19)] + [Request(key, 2, 29)] + [Request(key, 2, 29)]
  }

  lemma FourAreAdmitted(key: string)
    ensures Admissions(10, FourRequests(key), key) == [0] + [19] + [19] + [29] + [29]
  {
    var e1 := [Request(key, 2, 0)];
    var e2 := e1 + [Request(key, 2, 19)];
    var e3 := e2 + [Request(key, 2, 19)];
    var e4 := e3 + [Request(key, 2, 29)];
    Tenth();
    assert [] + [Request(key, 2, 0)] == e1;
    OneMore(10, [], key, 2, 0);
    assert After(10, e1)[key] == Bucket(0, 0, 1);
    OneMore(10, e1, key, 2, 19);
    assert After(10, e2)[key] == Bucket(10, 1, 1);
    OneMore(10, e2, key, 2, 19);
    assert After(10, e3)[key] == Bucket(10, 1, 2);
    OneMore(10, e3, key, 2, 29);
    assert After(10, e4)[key] == Bucket(20, 2, 1);
    OneMore(10, e4, key, 2, 29);
  }

  /** The bound is met: with a limit of two, four requests pass within one window's length. */
  lemma TwiceTheLimitIsReached(key: string)
    ensures InOrder(FourRequests(key)) && Fixed(FourRequests(key), key, 2)
    ensures Within(Admissions(10, FourRequests(key), key), 19, 29) == 4
  {
    FourAreAdmitted(key);
    WithinAppend([0] + [19] + [19] + [29], 29, 19, 29);
    WithinAppend([0] + [19] + [19], 29, 19, 29);
    WithinAppend([0] + [19], 19, 19, 29);
    WithinAppend([0], 19, 19, 29);
  }

  // ----- eviction -----

  function Unswept(evs: seq<Event>): (requests: seq<Event>) {
    if evs == [] then []
    else Unswept(evs[..|evs| - 1]) + (if evs[|evs| - 1].Sweep? then [] else [evs[|evs| - 1]])
  }

  /** The answers given to the requests of a trace, in order. */
  function Answers(window: int, evs: seq<Event>): seq<bool>
    requires window > 0
  {
    if evs == [] then []
    else
      var before, ev := evs[..|evs| - 1], evs[|evs| - 1];
      Answers(window, before)
      + (if ev.Request? then [Admits(After(window, before), window, ev.key, ev.limit, ev.now)] else [])
  }

  /** Alike but for buckets that the next request would start afresh anyway. */
  ghost predicate Alike(swept: Buckets, kept: Buckets, window: int, now: int) {
    && (forall key | key in swept :: key in kept && kept[key] == swept[key])
    && (forall key | key in kept && key !in swept :: kept[key].windowStart < now - 2 * window)
  }

  lemma AlikeAnswersAlike(swept: Buckets, kept: Buckets, window: int, now: int, ev: Event)
    requires window > 0 && Alike(swept, kept, window, now) && now <= ev.now && ev.Request?
    ensures Current(swept, window, ev.key, ev.now) == Current(kept, window, ev.key, ev.now)
    ensures Admits(swept, window, ev.key, ev.limit, ev.now) == Admits(kept, window, ev.key, ev.limit, ev.now)
    ensures Alike(Next(swept, window, ev), Next(kept, window, ev), window, ev.now)
  {
  }

  lemma {:induction false} SweptStaysAlike(window: int, evs: seq<Event>)
    requires window > 0 && InOrder(evs) && evs != []
    ensures Alike(After(window, evs), After(window, Unswept(evs)), window, evs[|evs| - 1].now)
    ensures Answers(window, evs) == Answers(window, Unswept(evs))
  {
    var before, ev := evs[..|evs| - 1], evs[|evs| - 1];
    var now := if before == [] then ev.now else before[|before| - 1].now;
    if before != [] {
      SweptStaysAlike(window, before);
    }
    if ev.Request? {
      assert Unswept(evs)[..|Unswept(before)|] == Unswept(before);
      AlikeAnswersAlike(After(window, before), After(window, Unswept(before)), window, now, ev);
    } else {
      assert Unswept(evs) == Unswept(before);
    }
  }

  /** Eviction is unobservable: whenever the sweeps run, every request is answered as if none ever did. */
  lemma SweepsAreUnobservable(window: int, evs: seq<Event>)
    requires window > 0 && InOrder(evs)
    ensures Answers(window, evs) == Answers(window, Unswept(evs))
  {
    if evs != [] {
      SweptStaysAlike(window, evs);
    }
  }
}
