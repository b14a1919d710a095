/**
The fixed-window rate limiter. Times are in nanoseconds; the length of a window is a duration, which
wraps like every 64-bit product.
*/
module RateLimit {
  import opened Wrappers
  import opened Int64

  const SECOND := 1_000_000_000

  datatype Entry = Entry(count: int, reset: int)

  type Entries = map<string, Entry>

  datatype Call = Call(key: string, max: int, window: int, now: int)

  predicate Unlimited(c: Call) { c.max <= 0 || c.window <= 0 }

  predicate Opens(es: Entries, c: Call) { c.key !in es || c.now > es[c.key].reset }

  predicate Accepts(es: Entries, c: Call) { Unlimited(c) || Opens(es, c) || es[c.key].count < c.max }

  function Serve(es: Entries, c: Call): Entries {
    if Unlimited(c) then es
    else if Opens(es, c) then es[c.key := Entry(1, c.now + Wrap(c.window * SECOND))]
    else if es[c.key].count < c.max then es[c.key := es[c.key].(count := es[c.key].count + 1)]
    else es
  }

  class RateLimiter {
    var entries: Entries

    constructor ()
      ensures entries == map[]
    {
      entries := map[];
    }

    method RateLimit(key: string, maxReqs: int, windowSeconds: int, now: int) returns (ok: bool)
      modifies this
      ensures ok == Accepts(old(entries), Call(key, maxReqs, windowSeconds, now))
      ensures entries == Serve(old(entries), Call(key, maxReqs, windowSeconds, now))
    {
      if maxReqs <= 0 || windowSeconds <= 0 { return true; }
      if key !in entries || now > entries[key].reset {
        entries := entries[key := Entry(1, now + Wrap(windowSeconds * SECOND))];
        return true;
      }
      var entry := entries[key];
      if entry.count < maxReqs {
        entries := entries[key := entry.(count := entry.count + 1)];
        return true;
      }
      ok := false;
    }
  }

  // ----- Runs -----

  function After(calls: seq<Call>): Entries {
    if calls == [] then map[] else Serve(After(calls[..|calls| - 1]), calls[|calls| - 1])
  }

  // How many calls for the key were accepted at times from lo to hi.
  function Accepted(calls: seq<Call>, key: string, lo: int, hi: int): nat {
    if calls == [] then 0 else
    var before, c := calls[..|calls| - 1], calls[|calls| - 1];
    Accepted(before, key, lo, hi) + (if c.key == key && lo <= c.now <= hi && Accepts(After(before), c) then 1 else 0)
  }

  // Time does not go back.
  predicate Ordered(calls: seq<Call>) { forall i, j :: 0 <= i < j < |calls| ==> calls[i].now <= calls[j].now }

  // The key is always limited in the same way.
  predicate Fixed(calls: seq<Call>, key: string, max: int, window: int) {
    forall i :: 0 <= i < |calls| && calls[i].key == key ==> calls[i].max == max && calls[i].window == window
  }

  // The length of a window, if the duration does not wrap.
  predicate Proper(max: int, window: int) { max > 0 && window > 0 && Fits(window * SECOND) }

  // No call is later.
  predicate Past(calls: seq<Call>, t: int) { forall i :: 0 <= i < |calls| ==> calls[i].now <= t }

  // What the entry remembers: the calls accepted since its window began, and that fewer than a window
  // before that no more than max were accepted either.
  ghost predicate Remembers(calls: seq<Call>, key: string, max: int, length: int) {
    var es := After(calls);
    if key !in es then forall lo, hi :: Accepted(calls, key, lo, hi) == 0
    else
      var start := es[key].reset - length;
      && 1 <= es[key].count <= max
      && (forall lo, hi :: lo > es[key].reset ==> Accepted(calls, key, lo, hi) == 0)
      && (forall hi :: Past(calls, hi) ==> start <= hi && Accepted(calls, key, start, hi) == es[key].count)
      && (forall lo, hi :: lo >= start - length && hi < start ==> Accepted(calls, key, lo, hi) <= max)
  }

  lemma {:induction false} MoreTime(calls: seq<Call>, key: string, lo: int, mid: int, hi: int)
    ensures Accepted(calls, key, lo, hi) <= Accepted(calls, key, lo, mid - 1) + Accepted(calls, key, mid, hi)
    ensures mid >= lo ==> Accepted(calls, key, mid, hi) <= Accepted(calls, key, lo, hi)
  {
    if calls != [] { MoreTime(calls[..|calls| - 1], key, lo, mid, hi); }
  }

  lemma {:induction false} Remembered(calls: seq<Call>, key: string, max: int, window: int)
    requires Ordered(calls) && Fixed(calls, key, max, window) && Proper(max, window)
    ensures Remembers(calls, key, max, window * SECOND)
  {
    if calls != [] {
      var before, c := calls[..|calls| - 1], calls[|calls| - 1];
      Remembered(before, key, max, window);
      assert before + [c] == calls;
      if c.key == key { RememberedCall(before, c, max, window); } else { OtherCall(before, c, key, max, window * SECOND); }
    }
  }

  // The last call, on its own.
  lemma {:induction false} LastCall(before: seq<Call>, c: Call, key: string, lo: int, hi: int)
    ensures var calls := before + [c];
            && After(calls) == Serve(After(before), c)
            && Accepted(calls, key, lo, hi)
               == Accepted(before, key, lo, hi) + (if c.key == key && lo <= c.now <= hi && Accepts(After(before), c) then 1 else 0)
  {
    var calls := before + [c];
    assert calls[..|calls| - 1] == before && calls[|calls| - 1] == c;
  }

  lemma OtherCall(before: seq<Call>, c: Call, key: string, max: int, length: int)
    requires c.key != key && Remembers(before, key, max, length)
    ensures Remembers(before + [c], key, max, length)
  {
    var calls := before + [c];
    LastCall(before, c, key, 0, 0);
    forall lo, hi ensures Accepted(calls, key, lo, hi) == Accepted(before, key, lo, hi) { LastCall(before, c, key, lo, hi); }
    forall t | Past(calls, t) ensures Past(before, t) {
      forall i | 0 <= i < |before| ensures before[i].now <= t { assert before[i] == calls[i]; }
    }
  }

  // The counts after one more call for the key.
  ghost predicate OneMore(before: seq<Call>, c: Call, calls: seq<Call>, more: int) {
    && (forall lo, hi :: Accepted(calls, c.key, lo, hi) == Accepted(before, c.key, lo, hi) + (if lo <= c.now <= hi then more else 0))
    && (forall t :: Past(calls, t) ==> Past(before, t) && c.now <= t)
  }

  lemma {:induction false} CountsOneMore(before: seq<Call>, c: Call)
    ensures OneMore(before, c, before + [c], if Accepts(After(before), c) then 1 else 0)
    ensures After(before + [c]) == Serve(After(before), c)
  {
    var calls := before + [c];
    LastCall(before, c, c.key, 0, 0);
    forall lo, hi ensures Accepted(calls, c.key, lo, hi)
        == Accepted(before, c.key, lo, hi) + (if lo <= c.now <= hi && Accepts(After(before), c) then 1 else 0) { LastCall(before, c, c.key, lo, hi); }
    forall t | Past(calls, t) ensures Past(before, t) && c.now <= t {
      assert calls[|before|] == c;
      forall i | 0 <= i < |before| ensures before[i].now <= t { assert before[i] == calls[i]; }
    }
  }

  lemma RememberedCall(before: seq<Call>, c: Call, max: int, window: int)
    requires Past(before, c.now) && Proper(max, window) && c.max == max && c.window == window
    requires Remembers(before, c.key, max, window * SECOND)
    ensures Remembers(before + [c], c.key, max, window * SECOND)
  {
    CountsOneMore(before, c);
    assert Wrap(window * SECOND) == window * SECOND > 0;
    LaterNone(before, c.key, c.now);
    if Opens(After(before), c) {
      OpenedWindow(before, c, before + [c], max, window * SECOND);
    } else {
      SameWindow(before, c, before + [c], max, window * SECOND);
    }
  }

  lemma {:induction false} SameWindow(before: seq<Call>, c: Call, calls: seq<Call>, max: int, length: int)
    requires Past(before, c.now) && !Opens(After(before), c) && length > 0 && !Unlimited(c) && c.max == max
    requires Remembers(before, c.key, max, length) && After(calls) == Serve(After(before), c)
    requires OneMore(before, c, calls, if Accepts(After(before), c) then 1 else 0)
    ensures Remembers(calls, c.key, max, length)
  {}

  // The last length of time up to now lies in the window that ends.
  lemma {:induction false} LastLength(before: seq<Call>, c: Call, max: int, length: int, lo: int, hi: int)
    requires Past(before, c.now) && Opens(After(before), c) && length > 0 && max > 0 && c.key in After(before)
    requires Remembers(before, c.key, max, length)
    requires lo >= c.now - length && hi < c.now
    ensures Accepted(before, c.key, lo, hi) <= max
  {
    var start := After(before)[c.key].reset - length;
    assert Accepted(before, c.key, start, c.now) <= max;
    MoreTime(before, c.key, start, lo, c.now);
    Shorter(before, c.key, lo, hi, c.now);
  }

  lemma {:induction false} OpenedWindow(before: seq<Call>, c: Call, calls: seq<Call>, max: int, length: int)
    requires Past(before, c.now) && Opens(After(before), c) && length > 0 && max > 0
    requires Remembers(before, c.key, max, length)
    requires After(calls) == After(before)[c.key := Entry(1, c.now + length)] && OneMore(before, c, calls, 1)
    requires forall lo, hi :: lo > c.now ==> Accepted(before, c.key, lo, hi) == 0
    ensures Remembers(calls, c.key, max, length)
  {
    if c.key in After(before) {
      forall lo, hi | lo >= c.now - length && hi < c.now ensures Accepted(before, c.key, lo, hi) <= max {
        LastLength(before, c, max, length, lo, hi);
      }
    }
  }

  lemma {:induction false} LaterNone(calls: seq<Call>, key: string, t: int)
    requires Past(calls, t)
    ensures forall lo, hi :: lo > t ==> Accepted(calls, key, lo, hi) == 0
  {
    if calls != [] {
      var before := calls[..|calls| - 1];
      LaterNone(before, key, t);
    }
  }

  lemma {:induction false} Shorter(calls: seq<Call>, key: string, lo: int, hi: int, hi': int)
    requires hi <= hi'
    ensures Accepted(calls, key, lo, hi) <= Accepted(calls, key, lo, hi')
  {
    if calls != [] { Shorter(calls[..|calls| - 1], key, lo, hi, hi'); }
  }

  // ----- The bounds -----

  // No more than max are accepted in a window, and no more than twice that in any time as long.
  lemma {:induction false} Bound(calls: seq<Call>, key: string, max: int, window: int, lo: int)
    requires Ordered(calls) && Fixed(calls, key, max, window) && Proper(max, window)
    ensures Accepted(calls, key, lo, lo + window * SECOND) <= 2 * max
  {
    if calls != [] {
      var before, c, length := calls[..|calls| - 1], calls[|calls| - 1], window * SECOND;
      Bound(before, key, max, window, lo);
      if c.key == key && lo <= c.now <= lo + length {
        Remembered(calls, key, max, window);
        var start := After(calls)[key].reset - length;
        var hi := lo + length;
        if lo >= start {
          MoreTime(calls, key, start, lo, hi);
          assert Past(calls, hi);
        } else {
          MoreTime(calls, key, lo, start, hi);
        }
        assert Past(calls, hi);
      }
    }
  }

  // A call is refused only in a window, as long as it should be, in which max were accepted.
  lemma {:induction false} RefusedWhenFull(calls: seq<Call>, c: Call)
    requires Ordered(calls) && Past(calls, c.now) && Fixed(calls, c.key, c.max, c.window) && Proper(c.max, c.window)
    requires !Accepts(After(calls), c)
    ensures var start := After(calls)[c.key].reset - c.window * SECOND;
            start <= c.now <= start + c.window * SECOND && Accepted(calls, c.key, start, c.now) == c.max
  {
    Remembered(calls, c.key, c.max, c.window);
  }

  // Calls for other keys change nothing: neither what is accepted for the key nor its entry.
  function Own(calls: seq<Call>, key: string): seq<Call> {
    if calls == [] then [] else
    Own(calls[..|calls| - 1], key) + (if calls[|calls| - 1].key == key then [calls[|calls| - 1]] else [])
  }

  lemma {:induction false} OthersUnaffected(calls: seq<Call>, key: string, lo: int, hi: int)
    ensures key in After(calls) <==> key in After(Own(calls, key))
    ensures key in After(calls) ==> After(calls)[key] == After(Own(calls, key))[key]
    ensures Accepted(calls, key, lo, hi) == Accepted(Own(calls, key), key, lo, hi)
  {
    if calls != [] {
      var before, c := calls[..|calls| - 1], calls[|calls| - 1];
      OthersUnaffected(before, key, lo, hi);
      assert before + [c] == calls;
      LastCall(before, c, key, lo, hi);
      if c.key == key { LastCall(Own(before, key), c, key, lo, hi); }
      else { assert Own(calls, key) == Own(before, key); }
    }
  }

  // ----- A window too long for a duration -----

  // Three calls, each just after the window before it is over, or at once if it is over at once.
  function Three(window: int): seq<Call> {
    var gap := if Wrap(window * SECOND) < 0 then 0 else Wrap(window * SECOND) + 1;
    [Call("k", 1, window, 0), Call("k", 1, window, gap), Call("k", 1, window, 2 * gap)]
  }

  // The length wraps to something shorter, and all three are accepted within the window asked for.
  lemma {:induction false} WrappedWindow(window: int)
    requires window > 0 && !Fits(window * SECOND)
    ensures Ordered(Three(window)) && Fixed(Three(window), "k", 1, window)
    ensures Accepted(Three(window), "k", 0, window * SECOND) == 3
  {
    var calls := Three(window);
    WrapsDown(window * SECOND);
    OneByOne(calls[0], calls[1], calls[2], 0, window * SECOND);
  }

  lemma {:induction false} OneByOne(a: Call, b: Call, c: Call, lo: int, hi: int)
    requires a.key == b.key == c.key
    ensures var (e1, e2) := (Serve(map[], a), Serve(Serve(map[], a), b));
            Accepted([a, b, c], a.key, lo, hi) ==
              (if lo <= a.now <= hi && Accepts(map[], a) then 1 else 0) + (if lo <= b.now <= hi && Accepts(e1, b) then 1 else 0)
              + (if lo <= c.now <= hi && Accepts(e2, c) then 1 else 0)
  {
    assert [] + [a] == [a] && [a] + [b] == [a, b] && [a, b] + [c] == [a, b, c];
    LastCall([], a, a.key, lo, hi);
    LastCall([a], b, a.key, lo, hi);
    LastCall([a, b], c, a.key, lo, hi);
  }

  lemma WrapsDown(n: int)
    requires n > MAX
    ensures Wrap(n) <= n - MODULUS
  {
    var q := (n - MIN) / MODULUS;
    assert n - Wrap(n) == q * MODULUS && q >= 1;
  }

  predicate BoundedRun(calls: seq<Call>, key: string, max: int, window: int, lo: int) {
    max > 0 && Ordered(calls) && Fixed(calls, key, max, window) ==> Accepted(calls, key, lo, lo + window * SECOND) <= 2 * max
  }

  // The bound holds of every run exactly if the length of the window is a duration.
  lemma BoundExactly(window: int)
    requires window > 0
    ensures Fits(window * SECOND) <==> (forall calls, key, max, lo :: BoundedRun(calls, key, max, window, lo))
  {
    if Fits(window * SECOND) {
      forall calls, key, max, lo ensures BoundedRun(calls, key, max, window, lo) {
        if max > 0 && Ordered(calls) && Fixed(calls, key, max, window) { Bound(calls, key, max, window, lo); }
      }
    } else {
      WrappedWindow(window);
      assert !BoundedRun(Three(window), "k", 1, window, 0);
    }
  }
}
