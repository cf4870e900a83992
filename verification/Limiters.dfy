/** The fixed-window limiter (ratelimit.go), and what it admits over whole runs. */
module Limiters {
  import opened Wrappers
  import opened Bytes

  datatype Window = Window(count: int, reset: int)

  type Windows = map<Text, Window>

  const MAX_TRACKED_KEYS: nat := 10000

  function Pruned(m: Windows, now: int): Windows {
    map k | k in m && now <= m[k].reset :: m[k]
  }

  // The answer to one call, and the table after it.
  function Decide(limit: int, length: nat, m: Windows, key: Text, now: int): (bool, Windows) {
    if key in m && now <= m[key].reset then
      if m[key].count >= limit then (false, m)
      else (true, m[key := Window(m[key].count + 1, m[key].reset)])
    else
      var room := if |m| >= MAX_TRACKED_KEYS then Pruned(m, now) else m;
      if |room| >= MAX_TRACKED_KEYS then (false, room)
      else (true, room[key := Window(1, now + length)])
  }

  class Limiter {
    const limit: int
    const length: nat
    var windows: Windows

    constructor (limit: int, length: nat)
      ensures this.limit == limit && this.length == length && windows == map[]
    {
      this.limit := limit;
      this.length := length;
      windows := map[];
    }

    method Allow(key: Text, now: int) returns (ok: bool)
      modifies this
      ensures (ok, windows) == Decide(limit, length, old(windows), key, now)
      // A call in its key's window counts there, and any other opens one; no open window changes.
      ensures ok && key in old(windows) && now <= old(windows)[key].reset ==>
        key in windows && windows[key] == Window(old(windows)[key].count + 1, old(windows)[key].reset)
      ensures ok && !(key in old(windows) && now <= old(windows)[key].reset) ==>
        key in windows && windows[key] == Window(1, now + length)
      ensures forall k :: k in old(windows) && now <= old(windows)[k].reset && (k != key || !ok) ==>
        k in windows && windows[k] == old(windows)[k]
      ensures forall k :: k in windows && k != key ==> k in old(windows)
    {
      if key in windows && now <= windows[key].reset {
        if windows[key].count >= limit {
          return false;
        }
        windows := windows[key := Window(windows[key].count + 1, windows[key].reset)];
        return true;
      }
      if |windows| >= MAX_TRACKED_KEYS {
        Prune(now);
        if |windows| >= MAX_TRACKED_KEYS {
          return false;
        }
      }
      windows := windows[key := Window(1, now + length)];
      return true;
    }

    // Ranges over the table deleting what has lapsed, in whatever order the map gives.
    method Prune(now: int)
      modifies this
      ensures windows == Pruned(old(windows), now)
    {
      var todo := windows.Keys;
      while todo != {}
        invariant todo <= windows.Keys
        invariant windows.Keys <= old(windows).Keys
        invariant forall k :: k in windows ==> windows[k] == old(windows)[k]
        invariant forall k :: k in old(windows) && k !in todo ==>
          (k in windows <==> now <= old(windows)[k].reset)
      {
        var k :| k in todo;
        todo := todo - {k};
        if now > windows[k].reset {
          windows := windows - {k};
        }
      }
    }
  }

  // ---------- runs ----------

  datatype Call = Call(key: Text, now: int)

  // `admitted` and `starts` record the run: every call let through, and when the latest
  // window of each key opened.
  datatype Run = Run(windows: Windows, admitted: seq<Call>, starts: map<Text, int>)

  function Advance(limit: int, length: nat, r: Run, c: Call): Run {
    var (ok, windows) := Decide(limit, length, r.windows, c.key, c.now);
    if !ok then r.(windows := windows)
    else
      var starts := if c.key in r.windows && c.now <= r.windows[c.key].reset then r.starts
                    else r.starts[c.key := c.now];
      Run(windows, r.admitted + [c], starts)
  }

  function After(limit: int, length: nat, calls: seq<Call>): Run {
    if calls == [] then Run(map[], [], map[])
    else Advance(limit, length, After(limit, length, calls[..|calls| - 1]), calls[|calls| - 1])
  }

  // How many calls for key were admitted at an instant from lo to hi, both included.
  function Count(calls: seq<Call>, key: Text, lo: int, hi: int): nat {
    if calls == [] then 0
    else
      var c := calls[|calls| - 1];
      Count(calls[..|calls| - 1], key, lo, hi) + if c.key == key && lo <= c.now <= hi then 1 else 0
  }

  lemma CountSnoc(calls: seq<Call>, c: Call, key: Text, lo: int, hi: int)
    ensures Count(calls + [c], key, lo, hi)
         == Count(calls, key, lo, hi) + if c.key == key && lo <= c.now <= hi then 1 else 0
  {
    assert (calls + [c])[..|calls|] == calls;
  }

  // Cutting an interval in two, or widening it.
  lemma CountWithin(calls: seq<Call>, key: Text, lo: int, mid: int, hi: int, lo2: int)
    requires lo2 <= lo
    ensures Count(calls, key, lo, hi) <= Count(calls, key, lo2, mid - 1) + Count(calls, key, mid, hi)
  {
    if calls != [] {
      CountWithin(calls[..|calls| - 1], key, lo, mid, hi, lo2);
    }
  }

  lemma CountWiden(calls: seq<Call>, key: Text, lo: int, hi: int, lo2: int, hi2: int)
    requires lo2 <= lo && hi <= hi2
    ensures Count(calls, key, lo, hi) <= Count(calls, key, lo2, hi2)
  {
  }

  lemma CountAbove(calls: seq<Call>, key: Text, lo: int, last: int)
    requires (forall c :: c in calls ==> c.now <= last) && last < lo
    ensures forall hi :: Count(calls, key, lo, hi) == 0
  {
    if calls != [] {
      assert calls[|calls| - 1] in calls;
      assert forall c :: c in calls[..|calls| - 1] ==> c in calls;
      CountAbove(calls[..|calls| - 1], key, lo, last);
    }
  }

  ghost predicate TrackedInv(limit: int, length: nat, r: Run, last: int, key: Text) {
    key in r.windows ==>
      && key in r.starts && r.windows[key].reset == r.starts[key] + length
      && Count(r.admitted, key, r.starts[key], last) == r.windows[key].count
  }

  // The latest window of a key holds at most `limit`, and so does the stretch of one
  // length before it; a key no longer tracked has a window that has lapsed.
  ghost predicate StartInv(limit: int, length: nat, r: Run, last: int, key: Text) {
    if key in r.starts then
      && r.starts[key] <= last
      && Count(r.admitted, key, r.starts[key], last) <= limit
      && Count(r.admitted, key, r.starts[key] + length + 1, last) == 0
      && Count(r.admitted, key, r.starts[key] - length, r.starts[key] - 1) <= limit
      && (key !in r.windows ==> r.starts[key] + length < last)
    else
      key !in r.windows && forall lo, hi :: Count(r.admitted, key, lo, hi) == 0
  }

  ghost predicate Bounded(limit: int, length: nat, r: Run, key: Text) {
    forall a, b :: b <= a + length ==> Count(r.admitted, key, a, b) <= 2 * limit
  }

  ghost predicate RunInv(limit: int, length: nat, r: Run, last: int) {
    && |r.windows| <= MAX_TRACKED_KEYS
    && (forall c :: c in r.admitted ==> c.now <= last)
    && forall key ::
      TrackedInv(limit, length, r, last, key) && StartInv(limit, length, r, last, key) && Bounded(limit, length, r, key)
  }

  lemma CountLater(calls: seq<Call>, key: Text, lo: int, last: int, now: int)
    requires (forall c :: c in calls ==> c.now <= last) && last <= now
    ensures Count(calls, key, lo, now) == Count(calls, key, lo, last)
  {
    if calls != [] {
      assert calls[|calls| - 1] in calls;
      assert forall c :: c in calls[..|calls| - 1] ==> c in calls;
      CountLater(calls[..|calls| - 1], key, lo, last, now);
    }
  }

  // Time may pass, and lapsed windows may go, without a call being admitted.
  lemma LaterInv(limit: int, length: nat, r: Run, last: int, now: int, windows: Windows)
    requires RunInv(limit, length, r, last) && last <= now
    requires windows == r.windows || windows == Pruned(r.windows, now)
    ensures RunInv(limit, length, r.(windows := windows), now)
  {
    var r' := r.(windows := windows);
    assert windows.Keys <= r.windows.Keys;
    SubsetSize(windows.Keys, r.windows.Keys);
    forall key
      ensures TrackedInv(limit, length, r', now, key) && StartInv(limit, length, r', now, key) && Bounded(limit, length, r', key)
    {
      assert TrackedInv(limit, length, r, last, key) && StartInv(limit, length, r, last, key) && Bounded(limit, length, r, key);
      if key in r.starts {
        CountLater(r.admitted, key, r.starts[key], last, now);
        CountLater(r.admitted, key, r.starts[key] + length + 1, last, now);
      }
    }
  }

  // Another key's call changes nothing counted for this one.
  lemma OtherKey(limit: int, length: nat, r: Run, r': Run, c: Call, key: Text)
    requires RunInv(limit, length, r, c.now) && key != c.key
    requires r'.admitted == r.admitted + [c]
    requires key in r'.windows <==> key in r.windows
    requires key in r.windows ==> r'.windows[key] == r.windows[key]
    requires key in r'.starts <==> key in r.starts
    requires key in r.starts ==> r'.starts[key] == r.starts[key]
    ensures TrackedInv(limit, length, r', c.now, key) && StartInv(limit, length, r', c.now, key)
    ensures Bounded(limit, length, r', key)
  {
    assert TrackedInv(limit, length, r, c.now, key) && StartInv(limit, length, r, c.now, key) && Bounded(limit, length, r, key);
    forall lo, hi ensures Count(r'.admitted, key, lo, hi) == Count(r.admitted, key, lo, hi) {
      CountSnoc(r.admitted, c, key, lo, hi);
    }
  }

  // One more call inside the window that is open.
  lemma SameWindow(limit: int, length: nat, r: Run, r': Run, c: Call)
    requires RunInv(limit, length, r, c.now)
    requires c.key in r.windows && c.now <= r.windows[c.key].reset && r.windows[c.key].count < limit
    requires r'.admitted == r.admitted + [c] && r'.starts == r.starts
    requires r'.windows == r.windows[c.key := Window(r.windows[c.key].count + 1, r.windows[c.key].reset)]
    ensures TrackedInv(limit, length, r', c.now, c.key) && StartInv(limit, length, r', c.now, c.key)
    ensures Bounded(limit, length, r', c.key)
  {
    var key, s := c.key, r.starts[c.key];
    assert TrackedInv(limit, length, r, c.now, key) && StartInv(limit, length, r, c.now, key) && Bounded(limit, length, r, key);
    CountSnoc(r.admitted, c, key, s, c.now);
    CountSnoc(r.admitted, c, key, s - length, s - 1);
    CountSnoc(r.admitted, c, key, s + length + 1, c.now);
    forall a, b | b <= a + length ensures Count(r'.admitted, key, a, b) <= 2 * limit {
      CountSnoc(r.admitted, c, key, a, b);
      if a <= c.now <= b {
        WithinTwo(r.admitted, key, a, b, s, c.now, length);
      }
    }
  }

  // An interval of one length that reaches `now` lies in two stretches.
  lemma WithinTwo(calls: seq<Call>, key: Text, a: int, b: int, s: int, now: int, length: nat)
    requires (forall c :: c in calls ==> c.now <= now) && s - length <= a && now <= b
    ensures Count(calls, key, a, b) <= Count(calls, key, s - length, s - 1) + Count(calls, key, s, now)
  {
    CountWithin(calls, key, a, s, b, s - length);
    CountLater(calls, key, s, now, b);
  }

  // A window opening at `now`, the earlier one having lapsed.
  lemma NewWindow(limit: int, length: nat, r: Run, r': Run, c: Call)
    requires RunInv(limit, length, r, c.now) && limit >= 1
    requires c.key in r.starts ==> r.starts[c.key] + length < c.now
    requires r'.admitted == r.admitted + [c] && r'.starts == r.starts[c.key := c.now]
    requires c.key in r'.windows && r'.windows[c.key] == Window(1, c.now + length)
    ensures TrackedInv(limit, length, r', c.now, c.key) && StartInv(limit, length, r', c.now, c.key)
    ensures Bounded(limit, length, r', c.key)
  {
    var key, now := c.key, c.now;
    assert StartInv(limit, length, r, now, key) && Bounded(limit, length, r, key);
    RecentBound(limit, length, r, c);
    CountSnoc(r.admitted, c, key, now, now);
    CountSnoc(r.admitted, c, key, now - length, now - 1);
    CountAbove(r.admitted, key, now + length + 1, now);
    CountSnoc(r.admitted, c, key, now + length + 1, now);
    CountWiden(r.admitted, key, now - length, now - 1, now - length, now);
    forall a, b | b <= a + length ensures Count(r'.admitted, key, a, b) <= 2 * limit {
      CountSnoc(r.admitted, c, key, a, b);
      if a <= now <= b {
        CountWiden(r.admitted, key, a, b, now - length, b);
        CountLater(r.admitted, key, now - length, now, b);
      }
    }
  }

  // Before a new window opens, one length back holds at most one window's worth, and
  // nothing has been admitted at this instant.
  lemma RecentBound(limit: int, length: nat, r: Run, c: Call)
    requires RunInv(limit, length, r, c.now) && limit >= 1
    requires c.key in r.starts ==> r.starts[c.key] + length < c.now
    ensures Count(r.admitted, c.key, c.now - length, c.now) <= limit
    ensures Count(r.admitted, c.key, c.now, c.now) == 0
  {
    assert StartInv(limit, length, r, c.now, c.key);
    if c.key in r.starts {
      var s := r.starts[c.key];
      CountWiden(r.admitted, c.key, c.now - length, c.now, s, c.now);
      CountWiden(r.admitted, c.key, c.now, c.now, s + length + 1, c.now);
    }
  }

  lemma AdvanceKeepsInv(limit: int, length: nat, r: Run, last: int, c: Call)
    requires RunInv(limit, length, r, last) && last <= c.now && limit >= 1
    ensures RunInv(limit, length, Advance(limit, length, r, c), c.now)
  {
    var r' := Advance(limit, length, r, c);
    LaterInv(limit, length, r, last, c.now, r.windows);
    if c.key in r.windows && c.now <= r.windows[c.key].reset {
      if r.windows[c.key].count < limit {
        SameWindow(limit, length, r, r', c);
        OtherKeys(limit, length, r, r', c);
      }
    } else {
      var room := if |r.windows| >= MAX_TRACKED_KEYS then Pruned(r.windows, c.now) else r.windows;
      LaterInv(limit, length, r, last, c.now, room);
      var p := r.(windows := room);
      if |room| < MAX_TRACKED_KEYS {
        assert TrackedInv(limit, length, r, last, c.key) && StartInv(limit, length, r, last, c.key);
        NewWindow(limit, length, p, r', c);
        OtherKeys(limit, length, p, r', c);
      }
    }
  }

  lemma OtherKeys(limit: int, length: nat, r: Run, r': Run, c: Call)
    requires RunInv(limit, length, r, c.now)
    requires TrackedInv(limit, length, r', c.now, c.key) && StartInv(limit, length, r', c.now, c.key)
    requires Bounded(limit, length, r', c.key)
    requires r'.admitted == r.admitted + [c] && |r'.windows| <= MAX_TRACKED_KEYS
    requires c.key in r'.windows && r'.windows == r.windows[c.key := r'.windows[c.key]]
    requires c.key in r'.starts && r'.starts == r.starts[c.key := r'.starts[c.key]]
    ensures RunInv(limit, length, r', c.now)
  {
    forall key | key != c.key
      ensures TrackedInv(limit, length, r', c.now, key) && StartInv(limit, length, r', c.now, key)
      ensures Bounded(limit, length, r', key)
    {
      OtherKey(limit, length, r, r', c, key);
    }
  }

  predicate InOrder(calls: seq<Call>) {
    forall i, j :: 0 <= i < j < |calls| ==> calls[i].now <= calls[j].now
  }

  lemma {:induction false} AfterKeepsInv(limit: int, length: nat, calls: seq<Call>, last: int)
    requires limit >= 1 && InOrder(calls)
    requires forall c :: c in calls ==> c.now <= last
    ensures RunInv(limit, length, After(limit, length, calls), last)
  {
    if calls != [] {
      var c, before := calls[|calls| - 1], calls[..|calls| - 1];
      assert c in calls;
      AfterKeepsInv(limit, length, before, c.now);
      AdvanceKeepsInv(limit, length, After(limit, length, before), c.now, c);
      LaterInv(limit, length, After(limit, length, calls), c.now, last, After(limit, length, calls).windows);
    }
  }

  /** Whatever the calls were, in order of time: no closed interval of one window length
      admits more than twice the limit for a key, and the table never outgrows its cap. */
  lemma AdmitsAtMostTwiceTheLimit(limit: int, length: nat, calls: seq<Call>, key: Text, from: int)
    requires limit >= 1 && InOrder(calls)
    ensures Count(After(limit, length, calls).admitted, key, from, from + length) <= 2 * limit
    ensures |After(limit, length, calls).windows| <= MAX_TRACKED_KEYS
  {
    if calls == [] {
      AfterKeepsInv(limit, length, calls, 0);
    } else {
      AfterKeepsInv(limit, length, calls, calls[|calls| - 1].now);
    }
    assert Bounded(limit, length, After(limit, length, calls), key);
  }

  lemma PruneMakesRoom(m: Windows, k: Text, now: int)
    requires |m| <= MAX_TRACKED_KEYS && k in m && now > m[k].reset
    ensures |Pruned(m, now)| < MAX_TRACKED_KEYS
  {
    assert Pruned(m, now).Keys <= m.Keys - {k};
    SubsetSize(Pruned(m, now).Keys, m.Keys - {k});
  }

  /** A refusal of a tracked key is its own doing: it is inside its window with the budget
      spent. A lapsed window makes its own room, however full the table. */
  lemma TrackedKeysAreNeverCrowdedOut(limit: int, length: nat, m: Windows, key: Text, now: int)
    requires |m| <= MAX_TRACKED_KEYS && key in m
    ensures Decide(limit, length, m, key, now).0 <==> now > m[key].reset || m[key].count < limit
  {
    if now > m[key].reset {
      PruneMakesRoom(m, key, now);
    }
  }

  /** A new key is refused exactly when the table is full of windows still open. */
  lemma NewKeysAreRefusedOnlyInAFlood(limit: int, length: nat, m: Windows, key: Text, now: int)
    requires |m| <= MAX_TRACKED_KEYS && key !in m
    ensures !Decide(limit, length, m, key, now).0
       <==> |m| == 10000 && forall k :: k in m ==> now <= m[k].reset
  {
    if k :| k in m && now > m[k].reset {
      PruneMakesRoom(m, k, now);
    } else {
      assert Pruned(m, now) == m;
    }
  }
}
