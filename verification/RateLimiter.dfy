/**
 The sliding-window limiter of logins and password resets (`auth.service.ts`): accepted attempts are
 kept per key in an insertion-ordered map of bounded size, whose first key makes room for a new one.
 */
module RateLimiter {
  import opened FiniteSets

  type Key = string

  type Time = int

  const WINDOW := 15 * 60_000

  const MAX_KEYS := 10_000

  /** The map: its keys in insertion order, and the accepted times kept for each. */
  datatype Attempts = Attempts(order: seq<Key>, times: map<Key, seq<Time>>)

  datatype Call = Call(key: Key, now: Time)

  ghost predicate WellFormed(a: Attempts) {
    && (forall k :: k in a.order <==> k in a.times)
    && (forall i, j :: 0 <= i < j < |a.order| ==> a.order[i] != a.order[j])
  }

  function Recent(times: seq<Time>, now: Time): seq<Time> {
    if times == [] then []
    else (if times[0] > now - WINDOW then [times[0]] else []) + Recent(times[1..], now)
  }

  function Kept(a: Attempts, key: Key): seq<Time> {
    if key in a.times then a.times[key] else []
  }

  /** `Map.set`: a new key goes last, an old one keeps its place. */
  function Set(a: Attempts, key: Key, times: seq<Time>): Attempts {
    Attempts(if key in a.times then a.order else a.order + [key], a.times[key := times])
  }

  function DeleteFirst(a: Attempts): Attempts
    requires a.order != []
  {
    Attempts(a.order[1..], a.times - {a.order[0]})
  }

  predicate Accepts(a: Attempts, c: Call, limit: nat) {
    |Recent(Kept(a, c.key), c.now)| < limit
  }

  /** The map after a call. */
  function After(a: Attempts, c: Call, limit: nat): Attempts {
    if !Accepts(a, c, limit) then a
    else
      var next := Set(a, c.key, Recent(Kept(a, c.key), c.now) + [c.now]);
      if |next.order| > MAX_KEYS then DeleteFirst(next) else next
  }

  class Limiter {
    var attempts: Attempts

    constructor ()
      ensures attempts == Attempts([], map[]) && WellFormed(attempts)
    {
      attempts := Attempts([], map[]);
    }

    /** `checkRate`: a rejected attempt leaves everything as it was. */
    method CheckRate(key: Key, now: Time, limit: nat) returns (accepted: bool)
      requires WellFormed(attempts) && |attempts.order| <= MAX_KEYS
      modifies this
      ensures accepted <==> Accepts(old(attempts), Call(key, now), limit)
      ensures attempts == After(old(attempts), Call(key, now), limit)
      ensures !accepted ==> attempts == old(attempts)
      ensures WellFormed(attempts) && |attempts.order| <= MAX_KEYS
      ensures accepted ==> key in attempts.times
    {
      AfterKeeps(attempts, Call(key, now), limit);
      var recent := Recent(Kept(attempts, key), now);
      if |recent| >= limit {
        return false;
      }
      attempts := Set(attempts, key, recent + [now]);
      if |attempts.order| > MAX_KEYS {
        attempts := DeleteFirst(attempts);
      }
      return true;
    }
  }

  lemma SetKeeps(a: Attempts, key: Key, times: seq<Time>)
    requires WellFormed(a)
    ensures WellFormed(Set(a, key, times))
  {
  }

  lemma DeleteFirstKeeps(a: Attempts)
    requires WellFormed(a) && a.order != []
    ensures WellFormed(DeleteFirst(a))
    ensures forall k :: k in a.times && k != a.order[0] ==>
            k in DeleteFirst(a).times && DeleteFirst(a).times[k] == a.times[k]
  {
    var next := DeleteFirst(a);
    forall k
      ensures k in next.order <==> k in next.times
    {
      if k in next.order {
        var i :| 0 <= i < |next.order| && next.order[i] == k;
        assert a.order[i + 1] == k;
      }
      if k in next.times {
        var i :| 0 <= i < |a.order| && a.order[i] == k;
        assert next.order[i - 1] == k;
      }
    }
  }

  /** After a call the map is within its bound, and an accepted key is in it. */
  lemma AfterKeeps(a: Attempts, c: Call, limit: nat)
    requires WellFormed(a) && |a.order| <= MAX_KEYS
    ensures WellFormed(After(a, c, limit)) && |After(a, c, limit).order| <= MAX_KEYS
    ensures Accepts(a, c, limit) ==> Kept(After(a, c, limit), c.key) == Recent(Kept(a, c.key), c.now) + [c.now]
    ensures Accepts(a, c, limit) ==> c.key in After(a, c, limit).times
    ensures forall k :: k != c.key && k in After(a, c, limit).times ==>
            k in a.times && After(a, c, limit).times[k] == a.times[k]
  {
    var times := Recent(Kept(a, c.key), c.now) + [c.now];
    hide Recent;
    SetKeeps(a, c.key, times);
    var next := Set(a, c.key, times);
    if |next.order| > MAX_KEYS {
      DeleteFirstKeeps(next);
      assert next.order[0] == a.order[0];
      assert a.order[0] in a.order;
    }
  }

  // ----- Runs -----

  ghost function Run(calls: seq<Call>, limits: Key -> nat): Attempts {
    if calls == [] then Attempts([], map[])
    else
      var n := |calls| - 1;
      After(Run(calls[..n], limits), calls[n], limits(calls[n].key))
  }

  /** The times of the key's accepted attempts since it was last evicted. */
  ghost function Accepted(calls: seq<Call>, limits: Key -> nat, key: Key): seq<Time> {
    if calls == [] then []
    else
      var n := |calls| - 1;
      var before := Run(calls[..n], limits);
      var earlier := Accepted(calls[..n], limits, key);
      if calls[n].key == key then
        if Accepts(before, calls[n], limits(key)) then earlier + [calls[n].now] else earlier
      else if key in Run(calls, limits).times then earlier
      else []
  }

  predicate Ordered(calls: seq<Call>) {
    forall i, j :: 0 <= i < j < |calls| ==> calls[i].now <= calls[j].now
  }

  /** The log is in order, not in the future, and any `limit + 1` entries span the window at least. */
  ghost predicate Spaced(log: seq<Time>, limit: nat, now: Time) {
    && (forall i, j :: 0 <= i < j < |log| ==> log[i] <= log[j])
    && (forall i :: 0 <= i < |log| ==> log[i] <= now)
    && (forall i :: 0 <= i < |log| - limit ==> log[i] + WINDOW <= log[i + limit])
    && (limit == 0 ==> log == [])
  }

  /** What is kept of a log: the entries that were still in the window when the last one came. */
  ghost predicate KeptOf(log: seq<Time>, kept: seq<Time>, now: Time) {
    && |kept| <= |log| && kept == log[|log| - |kept|..]
    && forall i :: 0 <= i < |log| - |kept| ==> log[i] <= now - WINDOW
  }

  /** Filtering an ordered list by the window keeps a suffix of it. */
  lemma {:induction false} RecentIsSuffix(times: seq<Time>, now: Time)
    requires forall i, j :: 0 <= i < j < |times| ==> times[i] <= times[j]
    ensures KeptOf(times, Recent(times, now), now)
    ensures forall t :: t in Recent(times, now) ==> t > now - WINDOW
  {
    if times != [] {
      RecentIsSuffix(times[1..], now);
      if times[0] > now - WINDOW {
        AllRecent(times, now);
      } else {
        var kept := Recent(times[1..], now);
        assert Recent(times, now) == kept;
        assert times[1..][|times[1..]| - |kept|..] == times[|times| - |kept|..];
        forall i | 0 <= i < |times| - |kept|
          ensures times[i] <= now - WINDOW
        {
          assert i > 0 ==> times[i] == times[1..][i - 1];
        }
      }
    }
  }

  lemma {:induction false} AllRecent(times: seq<Time>, now: Time)
    requires forall i :: 0 <= i < |times| ==> times[i] > now - WINDOW
    ensures Recent(times, now) == times
  {
    if times != [] {
      AllRecent(times[1..], now);
    }
  }

  lemma KeptOfKept(log: seq<Time>, kept: seq<Time>, recent: seq<Time>, before: Time, now: Time)
    requires KeptOf(log, kept, before) && KeptOf(kept, recent, now) && before <= now
    ensures KeptOf(log, recent, now)
  {
    forall i | 0 <= i < |log| - |recent|
      ensures log[i] <= now - WINDOW
    {
      var d := |log| - |kept|;
      if i >= d {
        assert kept[i - d] == log[i];
      }
    }
  }

  /** An accepted attempt keeps the log spaced: fewer than `limit` entries were in its window. */
  lemma AcceptKeepsSpaced(log: seq<Time>, recent: seq<Time>, limit: nat, before: Time, now: Time)
    requires Spaced(log, limit, before) && before <= now
    requires KeptOf(log, recent, now) && |recent| < limit
    ensures Spaced(log + [now], limit, now) && KeptOf(log + [now], recent + [now], now)
  {
    var all := log + [now];
    forall i | 0 <= i < |all| - limit
      ensures all[i] + WINDOW <= all[i + limit]
    {
      if i + limit < |log| {
        assert log[i] + WINDOW <= log[i + limit];
      } else {
        assert i < |log| - |recent|;
      }
    }
  }

  /** What holds of every key of the map in a run. */
  ghost predicate Sound(calls: seq<Call>, limits: Key -> nat, key: Key, now: Time) {
    var log := Accepted(calls, limits, key);
    Spaced(log, limits(key), now) && KeptOf(log, Kept(Run(calls, limits), key), now)
  }

  lemma {:induction false} RunBounded(calls: seq<Call>, limits: Key -> nat)
    ensures WellFormed(Run(calls, limits)) && |Run(calls, limits).order| <= MAX_KEYS
  {
    if calls != [] {
      var n := |calls| - 1;
      RunBounded(calls[..n], limits);
      AfterKeeps(Run(calls[..n], limits), calls[n], limits(calls[n].key));
    }
  }

  lemma Later(log: seq<Time>, kept: seq<Time>, limit: nat, before: Time, now: Time)
    requires Spaced(log, limit, before) && KeptOf(log, kept, before) && before <= now
    ensures Spaced(log, limit, now) && KeptOf(log, kept, now)
  {
  }

  lemma {:induction false} RunSound(calls: seq<Call>, limits: Key -> nat, key: Key, now: Time)
    requires Ordered(calls) && forall i :: 0 <= i < |calls| ==> calls[i].now <= now
    ensures Sound(calls, limits, key, now)
    decreases |calls|
  {
    if calls != [] {
      var n := |calls| - 1;
      var init, c := calls[..n], calls[n];
      var before := Run(init, limits);
      RunBounded(init, limits);
      RunSound(init, limits, key, c.now);
      AfterKeeps(before, c, limits(c.key));
      var log, kept := Accepted(init, limits, key), Kept(before, key);
      var recent := Recent(kept, c.now);
      assert Spaced(log, limits(key), c.now) && KeptOf(log, kept, c.now);
      if c.key == key && Accepts(before, c, limits(key)) {
        AcceptedSound(log, kept, limits(key), c.now);
        Later(log + [c.now], recent + [c.now], limits(key), c.now, now);
      } else {
        Later(log, kept, limits(key), c.now, now);
        Later([], [], limits(key), c.now, now);
      }
      hide Recent, Spaced, KeptOf, WellFormed, After;
    }
  }

  lemma AcceptedSound(log: seq<Time>, kept: seq<Time>, limit: nat, now: Time)
    requires Spaced(log, limit, now) && KeptOf(log, kept, now) && |Recent(kept, now)| < limit
    ensures Spaced(log + [now], limit, now) && KeptOf(log + [now], Recent(kept, now) + [now], now)
  {
    KeptInOrder(log, kept, limit, now);
    RecentIsSuffix(kept, now);
    KeptOfKept(log, kept, Recent(kept, now), now, now);
    AcceptKeepsSpaced(log, Recent(kept, now), limit, now, now);
  }

  lemma KeptInOrder(log: seq<Time>, kept: seq<Time>, limit: nat, now: Time)
    requires Spaced(log, limit, now) && KeptOf(log, kept, now)
    ensures forall i, j :: 0 <= i < j < |kept| ==> kept[i] <= kept[j]
  {
  }

  /**
   The bound: over every run with a clock that does not go back, no half-open window of fifteen minutes
   holds more than `limit` accepted attempts of a key since its last eviction.
   */
  lemma WindowBound(calls: seq<Call>, limits: Key -> nat, key: Key, start: Time)
    requires Ordered(calls)
    ensures var log := Accepted(calls, limits, key);
            |(set i | 0 <= i < |log| && start <= log[i] < start + WINDOW)| <= limits(key)
  {
    var now := if calls == [] then start else calls[|calls| - 1].now;
    RunSound(calls, limits, key, now);
    SpacedWindow(Accepted(calls, limits, key), limits(key), now, start);
  }

  lemma SpacedWindow(log: seq<Time>, limit: nat, now: Time, start: Time)
    requires Spaced(log, limit, now)
    ensures |(set i | 0 <= i < |log| && start <= log[i] < start + WINDOW)| <= limit
  {
    var inside := set i | 0 <= i < |log| && start <= log[i] < start + WINDOW;
    if inside != {} {
      var first := FirstInside(log, start);
      var few := Range(first, limit);
      assert first + limit < |log| ==> log[first] + WINDOW <= log[first + limit];
      forall i | i in inside
        ensures i in few
      {
        assert i < first + limit;
      }
      SmallerSet(inside, few);
    }
  }

  lemma FirstInside(log: seq<Time>, start: Time) returns (first: nat)
    requires exists i :: 0 <= i < |log| && start <= log[i]
    ensures first < |log| && start <= log[first] && forall i :: 0 <= i < first ==> log[i] < start
  {
    first := 0;
    while log[first] < start
      invariant first < |log| && forall i :: 0 <= i < first ==> log[i] < start
      decreases |log| - first
    {
      first := first + 1;
    }
  }

  ghost function Range(from: int, n: nat): (r: set<int>)
    ensures |r| == n && forall i :: i in r <==> from <= i < from + n
  {
    if n == 0 then {} else Range(from, n - 1) + {from + n - 1}
  }
}
