/** internal/middleware/ratelimit.go: MultiKeyRateLimiter.  Times are nanoseconds. */
module RateLimiter {

  /** The times later than the cutoff, in order. */
  function After(times: seq<int>, cutoff: int): seq<int> {
    if times == [] then []
    else
      var last := times[|times| - 1];
      After(times[..|times| - 1], cutoff) + if last > cutoff then [last] else []
  }

  function Times(requests: map<string, seq<int>>, key: string): seq<int> {
    if key in requests then requests[key] else []
  }

  class MultiKeyRateLimiter {
    var requests: map<string, seq<int>>
    const limit: int
    const window: int

    constructor (limit: int, window: int)
      ensures this.limit == limit && this.window == window && requests == map[]
    {
      this.limit := limit;
      this.window := window;
      requests := map[];
    }

    /** Prunes the list of the key and, when there is room, adds the call to it. */
    method Allow(key: string, now: int) returns (ok: bool)
      modifies this
      ensures ok <==> |After(Times(old(requests), key), now - window)| < limit
      ensures requests == AfterCall(limit, window, old(requests), Call(key, now))
    {
      var cutoff := now - window;
      var times := Times(requests, key);
      var filtered := [];
      for i := 0 to |times|
        invariant filtered == After(times[..i], cutoff)
      {
        assert times[..i + 1][..i] == times[..i];
        if times[i] > cutoff {
          filtered := filtered + [times[i]];
        }
      }
      assert times[..|times|] == times;
      assert filtered + [] == filtered;
      if |filtered| >= limit {
        requests := requests[key := filtered];
        return false;
      }
      filtered := filtered + [now];
      requests := requests[key := filtered];
      ok := true;
    }
  }

  // ---------------------------------------------------------------- runs

  datatype Call = Call(key: string, now: int)

  predicate Permits(limit: int, window: int, requests: map<string, seq<int>>, c: Call) {
    |After(Times(requests, c.key), c.now - window)| < limit
  }

  function AfterCall(limit: int, window: int, requests: map<string, seq<int>>, c: Call): map<string, seq<int>> {
    var kept := After(Times(requests, c.key), c.now - window);
    requests[c.key := kept + if Permits(limit, window, requests, c) then [c.now] else []]
  }

  /** What the limiter holds after a run of calls. */
  function Held(limit: int, window: int, calls: seq<Call>): map<string, seq<int>> {
    if calls == [] then map[]
    else AfterCall(limit, window, Held(limit, window, calls[..|calls| - 1]), calls[|calls| - 1])
  }

  /** The verdict on the last call of a run. */
  predicate Allowed(limit: int, window: int, calls: seq<Call>)
    requires calls != []
  {
    Permits(limit, window, Held(limit, window, calls[..|calls| - 1]), calls[|calls| - 1])
  }

  /** The full record that the limiter does not keep: when a key's calls were allowed. */
  function Record(limit: int, window: int, calls: seq<Call>, key: string): seq<int> {
    if calls == [] then []
    else
      var last := calls[|calls| - 1];
      Record(limit, window, calls[..|calls| - 1], key)
      + if last.key == key && Allowed(limit, window, calls) then [last.now] else []
  }

  ghost predicate ClockNeverRunsBack(calls: seq<Call>) {
    forall i, j :: 0 <= i < j < |calls| ==> calls[i].now <= calls[j].now
  }

  lemma ClockOfInit(calls: seq<Call>)
    requires ClockNeverRunsBack(calls) && calls != []
    ensures var init, last := calls[..|calls| - 1], calls[|calls| - 1];
            ClockNeverRunsBack(init) && (init != [] ==> init[|init| - 1].now <= last.now)
  {
  }

  /** How many of the times lie in (lo, hi]. */
  function Within(times: seq<int>, lo: int, hi: int): nat {
    if times == [] then 0
    else
      var last := times[|times| - 1];
      Within(times[..|times| - 1], lo, hi) + if lo < last <= hi then 1 else 0
  }

  lemma {:induction false} AfterAppend(xs: seq<int>, ys: seq<int>, cutoff: int)
    ensures After(xs + ys, cutoff) == After(xs, cutoff) + After(ys, cutoff)
    decreases |ys|
  {
    if ys == [] {
      assert xs + ys == xs;
    } else {
      assert (xs + ys)[..|xs + ys| - 1] == xs + ys[..|ys| - 1];
      AfterAppend(xs, ys[..|ys| - 1], cutoff);
    }
  }

  lemma {:induction false} AfterTwice(times: seq<int>, early: int, late: int)
    requires early <= late
    ensures After(After(times, early), late) == After(times, late)
    decreases |times|
  {
    if times != [] {
      var init, last := times[..|times| - 1], times[|times| - 1];
      AfterTwice(init, early, late);
      AfterAppend(After(init, early), if last > early then [last] else [], late);
    }
  }

  ghost predicate AtMost(times: seq<int>, hi: int) {
    forall i :: 0 <= i < |times| ==> times[i] <= hi
  }

  lemma {:induction false} AfterIsWithin(times: seq<int>, lo: int, hi: int)
    requires AtMost(times, hi)
    ensures |After(times, lo)| == Within(times, lo, hi)
    decreases |times|
  {
    if times != [] {
      AfterIsWithin(times[..|times| - 1], lo, hi);
    }
  }

  lemma RecordInit(limit: int, window: int, calls: seq<Call>, key: string)
    requires ClockNeverRunsBack(calls) && calls != []
    ensures AtMost(Record(limit, window, calls[..|calls| - 1], key), calls[|calls| - 1].now)
  {
    if |calls| > 1 {
      RecordBound(limit, window, calls[..|calls| - 1], key);
    }
  }

  lemma {:induction false} RecordBound(limit: int, window: int, calls: seq<Call>, key: string)
    requires ClockNeverRunsBack(calls) && calls != []
    ensures AtMost(Record(limit, window, calls, key), calls[|calls| - 1].now)
    decreases |calls|
  {
    if |calls| > 1 {
      RecordBound(limit, window, calls[..|calls| - 1], key);
    }
  }

  /** What one more call adds to the record of a key. */
  function Added(limit: int, window: int, calls: seq<Call>, key: string): seq<int>
    requires calls != []
  {
    var last := calls[|calls| - 1];
    if last.key == key && Allowed(limit, window, calls) then [last.now] else []
  }

  lemma Step(limit: int, window: int, calls: seq<Call>, key: string)
    requires calls != []
    ensures var init, last := calls[..|calls| - 1], calls[|calls| - 1];
            var held := Times(Held(limit, window, init), key);
            var added := Added(limit, window, calls, key);
            && Record(limit, window, calls, key) == Record(limit, window, init, key) + added
            && Times(Held(limit, window, calls), key)
               == Pruned(held, added, last.key == key, last.now - window)
            && (last.key != key ==> added == [])
  {
  }

  /** Seen from any later moment, the pruned list is as good as the full record. */
  lemma {:induction false} HeldIsEnough(limit: int, window: int, calls: seq<Call>, key: string, cutoff: int)
    requires ClockNeverRunsBack(calls)
    requires calls != [] ==> calls[|calls| - 1].now - window <= cutoff
    ensures After(Times(Held(limit, window, calls), key), cutoff) == After(Record(limit, window, calls, key), cutoff)
    decreases |calls|
  {
    hide After, Held, Record, Times, Added, Pruned, ClockNeverRunsBack;
    if calls == [] {
      NothingHeld(limit, window, key, cutoff);
    } else {
      var init, last := calls[..|calls| - 1], calls[|calls| - 1];
      ClockOfInit(calls);
      HeldIsEnough(limit, window, init, key, cutoff);
      Step(limit, window, calls, key);
      PruneAndAdd(Times(Held(limit, window, init), key), Record(limit, window, init, key),
                  Added(limit, window, calls, key), last.key == key, last.now - window, cutoff);
    }
  }

  lemma NothingHeld(limit: int, window: int, key: string, cutoff: int)
    ensures After(Times(Held(limit, window, []), key), cutoff) == After(Record(limit, window, [], key), cutoff)
  {
  }

  lemma NothingAdded(record: seq<int>)
    ensures record + [] == record
  {
  }

  function Pruned(held: seq<int>, added: seq<int>, same: bool, cutoff: int): seq<int> {
    if same then After(held, cutoff) + added else held
  }

  lemma PruneAndAdd(held: seq<int>, record: seq<int>, added: seq<int>, same: bool, early: int, late: int)
    requires early <= late && After(held, late) == After(record, late) && (!same ==> added == [])
    ensures After(Pruned(held, added, same, early), late) == After(record + added, late)
  {
    hide After;
    if same {
      AfterTwice(held, early, late);
      AfterAppend(After(held, early), added, late);
      AfterAppend(record, added, late);
    } else {
      NothingAdded(record);
    }
  }

  /** The last call of a run is allowed exactly when fewer than `limit` earlier calls for its key were
      allowed in (now - window, now], whatever other keys did. */
  lemma AllowedIff(limit: int, window: int, calls: seq<Call>)
    requires ClockNeverRunsBack(calls) && calls != []
    ensures var init, last := calls[..|calls| - 1], calls[|calls| - 1];
            Allowed(limit, window, calls)
            <==> Within(Record(limit, window, init, last.key), last.now - window, last.now) < limit
  {
    var init, last := calls[..|calls| - 1], calls[|calls| - 1];
    hide After, Held, Record, Within;
    ClockOfInit(calls);
    HeldIsEnough(limit, window, init, last.key, last.now - window);
    RecordInit(limit, window, calls, last.key);
    AfterIsWithin(Record(limit, window, init, last.key), last.now - window, last.now);
  }

  lemma {:induction false} WithinGrows(times: seq<int>, lo: int, hi: int, lo': int, hi': int)
    requires lo' <= lo && AtMost(times, hi')
    ensures Within(times, lo, hi) <= Within(times, lo', hi')
    decreases |times|
  {
    if times != [] {
      WithinGrows(times[..|times| - 1], lo, hi, lo', hi');
    }
  }

  lemma OneMoreFits(limit: int, window: int, calls: seq<Call>, key: string, lo: int)
    requires ClockNeverRunsBack(calls) && calls != [] && calls[|calls| - 1].key == key && Allowed(limit, window, calls)
    requires lo < calls[|calls| - 1].now <= lo + window
    ensures Within(Record(limit, window, calls[..|calls| - 1], key), lo, lo + window) < limit
  {
    hide Record, Allowed, Within;
    var init, last := calls[..|calls| - 1], calls[|calls| - 1];
    AllowedIff(limit, window, calls);
    RecordInit(limit, window, calls, key);
    WithinGrows(Record(limit, window, init, key), lo, lo + window, last.now - window, last.now);
  }

  /** No interval of the length of the window ever holds more than `limit` allowed calls of a key. */
  lemma {:induction false} NeverMoreThanLimit(limit: int, window: int, calls: seq<Call>, key: string, lo: int)
    requires ClockNeverRunsBack(calls)
    ensures Within(Record(limit, window, calls, key), lo, lo + window) <= if limit > 0 then limit else 0
    decreases |calls|
  {
    if calls == [] {
    } else {
      hide Record, Allowed, Held, Within;
      var init, last := calls[..|calls| - 1], calls[|calls| - 1];
      var record := Record(limit, window, init, key);
      ClockOfInit(calls);
      NeverMoreThanLimit(limit, window, init, key, lo);
      Step(limit, window, calls, key);
      if Added(limit, window, calls, key) == [] {
        NothingAdded(record);
      } else {
        WithinSnoc(record, last.now, lo, lo + window);
        if lo < last.now <= lo + window {
          OneMoreFits(limit, window, calls, key, lo);
        }
      }
    }
  }

  lemma WithinSnoc(times: seq<int>, t: int, lo: int, hi: int)
    ensures Within(times + [t], lo, hi) == Within(times, lo, hi) + if lo < t <= hi then 1 else 0
  {
    assert (times + [t])[..|times|] == times;
  }
}
