/**
 The sliding window that counts packets: although it forgets old times, it counts exactly
 the times ever added that lie in the closed window ending now.
 */
module Windows {
  import opened Prelude
  import opened SimState

  ghost predicate Nondecreasing(ts: seq<int>) {
    forall i, j :: 0 <= i < j < |ts| ==> ts[i] <= ts[j]
  }

  /** The entries of ts in the closed interval from lo to hi. */
  function CountIn(ts: seq<int>, lo: int, hi: int): nat {
    if ts == [] then 0
    else
      var last := ts[|ts| - 1];
      CountIn(ts[..|ts| - 1], lo, hi) + (if lo <= last <= hi then 1 else 0)
  }

  /** The times the window holds after all of them were added. */
  function WindowAfter(all: seq<int>, window: nat): seq<int> {
    if all == [] then []
    else AddToWindow(WindowAfter(all[..|all| - 1], window), all[|all| - 1], window)
  }

  lemma CountInAppend(ts: seq<int>, t: int, lo: int, hi: int)
    ensures CountIn(ts + [t], lo, hi) == CountIn(ts, lo, hi) + (if lo <= t <= hi then 1 else 0)
  {
    assert (ts + [t])[..|ts|] == ts;
  }

  /** Pruning a nondecreasing sequence cuts off a prefix of times before the window. */
  lemma {:induction false} PruneCuts(ts: seq<int>, now: int, window: nat) returns (k: nat)
    requires Nondecreasing(ts)
    ensures k <= |ts| && Prune(ts, now, window) == ts[k..]
    ensures forall i :: 0 <= i < k ==> Since(now, ts[i]) > window
    ensures forall i :: k <= i < |ts| ==> Since(now, ts[i]) <= window
  {
    if ts != [] && Since(now, ts[0]) > window {
      var rest := PruneCuts(ts[1..], now, window);
      k := rest + 1;
      assert ts[1..][rest..] == ts[k..];
      assert forall i :: 0 < i < |ts| ==> ts[i] == ts[1..][i - 1];
    } else {
      k := 0;
    }
  }

  /** Index k separates the times before lo from the others. */
  ghost predicate CutAt(ts: seq<int>, k: nat, lo: int) {
    && k <= |ts|
    && (forall i :: 0 <= i < k ==> ts[i] < lo)
    && (forall i :: k <= i < |ts| ==> lo <= ts[i])
  }

  /** Pruning a suffix gives a shorter suffix. */
  lemma PruneSuffix(ts: seq<int>, k: nat, now: int, window: nat) returns (k': nat)
    requires k <= |ts| && Nondecreasing(ts)
    requires forall i :: 0 <= i < k ==> ts[i] < now - window
    ensures CutAt(ts, k', now - window) && Prune(ts[k..], now, window) == ts[k'..]
  {
    hide Prune;
    assert forall i :: 0 <= i < |ts[k..]| ==> ts[k..][i] == ts[i + k];
    var cut := PruneCuts(ts[k..], now, window);
    k' := k + cut;
    assert ts[k..][cut..] == ts[k'..];
    forall i | k <= i < |ts|
      ensures i < k' ==> ts[i] < now - window
      ensures k' <= i ==> now - window <= ts[i]
    {
      assert ts[i] == ts[k..][i - k];
    }
  }

  /** The window holds a suffix of the times: those not more than the window before the last. */
  lemma {:induction false} WindowIsSuffix(all: seq<int>, window: nat) returns (k: nat)
    requires Nondecreasing(all)
    ensures k <= |all| && WindowAfter(all, window) == all[k..]
    ensures all != [] ==> CutAt(all, k, all[|all| - 1] - window)
    decreases |all|
  {
    hide Prune;
    k := 0;
    if all != [] {
      var last := |all| - 1;
      var before := all[..last];
      assert Nondecreasing(before);
      var k0 := WindowIsSuffix(before, window);
      assert before[k0..] + [all[last]] == all[k0..];
      if before != [] {
        assert before[last - 1] == all[last - 1] <= all[last];
        assert forall i :: 0 <= i < k0 ==> all[i] == before[i] < before[last - 1] - window;
      }
      k := PruneSuffix(all, k0, all[last], window);
    }
  }

  lemma {:induction false} CountSuffix(ts: seq<int>, k: nat, lo: int, hi: int)
    requires k <= |ts|
    requires forall i :: 0 <= i < k ==> !(lo <= ts[i] <= hi)
    requires forall i :: k <= i < |ts| ==> lo <= ts[i] <= hi
    ensures CountIn(ts, lo, hi) == |ts| - k
  {
    if ts != [] {
      if k < |ts| {
        CountSuffix(ts[..|ts| - 1], k, lo, hi);
      } else {
        CountSuffix(ts[..|ts| - 1], k - 1, lo, hi);
      }
    }
  }

  /** For nondecreasing times the window's length is the exact count of times within it. */
  lemma WindowIsExact(all: seq<int>, window: nat)
    requires Nondecreasing(all) && all != []
    ensures var now := all[|all| - 1];
            |WindowAfter(all, window)| == CountIn(all, now - window, now)
  {
    var k := WindowIsSuffix(all, window);
    var now := all[|all| - 1];
    CountSuffix(all, k, now - window, now);
  }

  /** The window object of the source: a queue of times, pruned from the front on every addition. */
  class WindowCount {
    const window: nat
    var times: seq<int>
    ghost var all: seq<int>

    ghost predicate Valid()
      reads this
    {
      times == WindowAfter(all, window)
    }

    constructor (window: nat)
      ensures Valid() && this.window == window && times == [] && all == []
    {
      this.window := window;
      times := [];
      all := [];
    }

    method Add(now: int) returns (count: nat)
      requires Valid()
      modifies this
      ensures Valid() && all == old(all) + [now]
      ensures times == AddToWindow(old(times), now, window) && count == |times|
      ensures Nondecreasing(all) ==> count == CountIn(all, now - window, now)
    {
      times := times + [now];
      all := all + [now];
      while times != [] && Since(now, times[0]) > window
        invariant Prune(times, now, window) == AddToWindow(old(times), now, window)
        invariant all == old(all) + [now]
        decreases |times|
      {
        times := times[1..];
      }
      count := |times|;
      assert all[..|all| - 1] == old(all);
      if Nondecreasing(all) {
        WindowIsExact(all, window);
      }
    }
  }

  // ---------- Long windows from short ones ----------

  /** An interval cut in two. */
  lemma {:induction false} CountSplit(ts: seq<int>, lo: int, mid: int, hi: int)
    requires lo - 1 <= mid <= hi
    ensures CountIn(ts, lo, hi) == CountIn(ts, lo, mid) + CountIn(ts, mid + 1, hi)
  {
    if ts != [] {
      CountSplit(ts[..|ts| - 1], lo, mid, hi);
    }
  }

  lemma {:induction false} CountGrows(ts: seq<int>, lo: int, hi: int, lo': int, hi': int)
    requires lo' <= lo && hi <= hi'
    ensures CountIn(ts, lo, hi) <= CountIn(ts, lo', hi')
  {
    if ts != [] {
      CountGrows(ts[..|ts| - 1], lo, hi, lo', hi');
    }
  }

  lemma {:induction false} CountNone(ts: seq<int>, lo: int, hi: int)
    requires forall i :: 0 <= i < |ts| ==> !(lo <= ts[i] <= hi)
    ensures CountIn(ts, lo, hi) == 0
  {
    if ts != [] {
      CountNone(ts[..|ts| - 1], lo, hi);
    }
  }

  /** The entries in the closed window that ends at x. */
  function WindowAt(ts: seq<int>, size: nat, x: int): nat {
    CountIn(ts, x - size, x)
  }

  /** A bound on the windows that end at an entry bounds every window. */
  lemma {:induction false} AnyWindow(ts: seq<int>, size: nat, most: nat, floor: int, x: int)
    requires forall i :: 0 <= i < |ts| ==> floor < ts[i] && WindowAt(ts, size, ts[i]) <= most
    ensures WindowAt(ts, size, x) <= most
    decreases if x > floor then x - floor else 0
  {
    if x <= floor {
      CountNone(ts, x - size, x);
    } else if i :| 0 <= i < |ts| && ts[i] == x {
    } else {
      AnyWindow(ts, size, most, floor, x - 1);
      CountSplit(ts, x - size, x - 1, x);
      CountNone(ts, x, x);
      CountGrows(ts, x - size, x - 1, x - 1 - size, x - 1);
    }
  }

  /** n windows side by side hold at most n times as many. */
  lemma {:induction false} ManyWindows(ts: seq<int>, size: nat, most: nat, n: nat, x: int)
    requires forall y :: WindowAt(ts, size, y) <= most
    ensures CountIn(ts, x - n * (size + 1) + 1, x) <= n * most
    decreases n
  {
    if n == 0 {
      CountNone(ts, x + 1, x);
    } else {
      var y := x - (size + 1);
      ManyWindows(ts, size, most, n - 1, y);
      assert y - (n - 1) * (size + 1) + 1 == x - n * (size + 1) + 1;
      assert WindowAt(ts, size, x) <= most;
      CountSplit(ts, x - n * (size + 1) + 1, y, x);
      assert n * most == (n - 1) * most + most;
    }
  }
}
