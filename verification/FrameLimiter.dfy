/** The per-connection sliding-window frame guard: an evicting deque against the full history. */
module FrameLimiter {

  /** Frame times never go back. */
  ghost predicate NonDecreasing(ts: seq<real>) {
    |ts| >= 2 ==> NonDecreasing(ts[..|ts| - 1]) && ts[|ts| - 2] <= ts[|ts| - 1]
  }

  lemma {:induction false} Ordered(ts: seq<real>, i: nat, j: nat)
    requires NonDecreasing(ts) && i <= j < |ts|
    ensures ts[i] <= ts[j]
  {
    if i < |ts| - 1 {
      if j == |ts| - 1 {
        Ordered(ts[..|ts| - 1], i, j - 1);
      } else {
        Ordered(ts[..|ts| - 1], i, j);
      }
    }
  }

  /** How many of the first `n` frames of a history lie at or after `cutoff`. */
  function CountSince(ts: seq<real>, n: nat, cutoff: real): nat
    requires n <= |ts|
  {
    if n == 0 then 0 else CountSince(ts, n - 1, cutoff) + (if ts[n - 1] >= cutoff then 1 else 0)
  }

  /** It is the number of those frames. */
  lemma {:induction false} CountsThem(ts: seq<real>, n: nat, cutoff: real)
    requires n <= |ts|
    ensures CountSince(ts, n, cutoff) == |set k | 0 <= k < n && ts[k] >= cutoff|
  {
    if n > 0 {
      CountsThem(ts, n - 1, cutoff);
      var before, all := set k | 0 <= k < n - 1 && ts[k] >= cutoff, set k | 0 <= k < n && ts[k] >= cutoff;
      assert all == if ts[n - 1] >= cutoff then before + {n - 1} else before;
    }
  }

  /** The first `n` frames all lie before `cutoff`. */
  ghost predicate Old(history: seq<real>, n: nat, cutoff: real)
    requires n <= |history|
  {
    forall k | 0 <= k < n :: history[k] < cutoff
  }

  /** A window opening at `cutoff` covers exactly the frames from index `from` on. */
  ghost predicate OpensAt(history: seq<real>, cutoff: real, from: nat) {
    && from <= |history|
    && Old(history, from, cutoff)
    && (forall k | from <= k < |history| :: history[k] >= cutoff)
  }

  lemma {:induction false} WindowCounts(history: seq<real>, n: nat, cutoff: real, from: nat)
    requires OpensAt(history, cutoff, from) && n <= |history|
    ensures CountSince(history, n, cutoff) == if n <= from then 0 else n - from
  {
    if n > 0 {
      WindowCounts(history, n - 1, cutoff, from);
    }
  }

  /** Pop from the left while the head has left the window. */
  method EvictOld(deque: seq<real>, cutoff: real) returns (kept: seq<real>, ghost n: nat)
    ensures n <= |deque| && kept == deque[n..] && Old(deque, n, cutoff)
    ensures kept == [] || kept[0] >= cutoff
  {
    kept, n := deque, 0;
    while kept != [] && kept[0] < cutoff
      invariant n <= |deque| && kept == deque[n..] && Old(deque, n, cutoff)
      decreases |kept|
    {
      kept, n := kept[1..], n + 1;
    }
  }

  /** `evicted` frames of the history are gone, all of them too old for the last frame's window. */
  ghost predicate Sound(history: seq<real>, evicted: nat, window: real) {
    && NonDecreasing(history) && evicted <= |history|
    && (evicted > 0 ==> Old(history, evicted, history[|history| - 1] - window))
  }

  lemma OneFrame(history: seq<real>, all: seq<real>, evicted: nat, window: real, now: real, n: nat)
    requires Sound(history, evicted, window) && (history != [] ==> history[|history| - 1] <= now)
    requires all == history + [now] && evicted + n <= |all|
    requires Old(all[evicted..], n, now - window)
    requires evicted + n == |all| || all[evicted + n] >= now - window
    ensures Sound(all, evicted + n, window)
    ensures OpensAt(all, now - window, evicted + n)
  {
    assert all[..|all| - 1] == history;
    forall k | 0 <= k < evicted + n ensures all[k] < now - window {
      if k >= evicted {
        assert all[evicted..][k - evicted] == all[k];
      } else {
        assert all[k] == history[k];
      }
    }
    forall k | evicted + n <= k < |all| ensures all[k] >= now - window {
      Ordered(all, evicted + n, k);
    }
  }

  /** Frames of the whole history that a window opening at `cutoff` covers. */
  function FramesInWindow(history: seq<real>, cutoff: real): nat {
    CountSince(history, |history|, cutoff)
  }

  lemma KeptAreCounted(history: seq<real>, cutoff: real, from: nat)
    requires OpensAt(history, cutoff, from)
    ensures |history[from..]| == FramesInWindow(history, cutoff)
  {
    WindowCounts(history, |history|, cutoff, from);
  }

  /** Dropping from the suffix is dropping from the whole; the first frame kept is in the window. */
  lemma Dropped(all: seq<real>, evicted: nat, deque: seq<real>, n: nat, kept: seq<real>, cutoff: real)
    requires evicted <= |all| && deque == all[evicted..] && n <= |deque| && kept == deque[n..]
    requires kept == [] || kept[0] >= cutoff
    ensures kept == all[evicted + n..]
    ensures evicted + n == |all| || all[evicted + n] >= cutoff
  {
  }

  lemma Grown(history: seq<real>, all: seq<real>, evicted: nat, deque: seq<real>, grown: seq<real>, now: real)
    requires evicted <= |history| && deque == history[evicted..] && all == history + [now] && grown == deque + [now]
    ensures grown == all[evicted..]
  {
  }

  /** One recorded frame, from the deque's side: what eviction keeps is the window, counted. */
  lemma Recording(history: seq<real>, all: seq<real>, evicted: nat, deque: seq<real>, window: real, now: real, kept: seq<real>, n: nat)
    requires Sound(history, evicted, window) && (history != [] ==> history[|history| - 1] <= now)
    requires all == history + [now] && deque == all[evicted..]
    requires n <= |deque| && kept == deque[n..]
    requires Old(deque, n, now - window) && (kept == [] || kept[0] >= now - window)
    ensures Sound(all, evicted + n, window) && kept == all[evicted + n..]
    ensures OpensAt(all, now - window, evicted + n)
    ensures |kept| == FramesInWindow(all, now - window)
  {
    Dropped(all, evicted, deque, n, kept, now - window);
    OneFrame(history, all, evicted, window, now, n);
    KeptAreCounted(all, now - window, evicted + n);
  }

  /** What the limiter's fields are: the frames of the history from `evicted` on, the rest being too old. */
  ghost predicate Suffix(deque: seq<real>, history: seq<real>, evicted: nat, window: real) {
    Sound(history, evicted, window) && deque == history[evicted..]
  }

  /** The deque is the window of the history that opens at `cutoff`, so its length counts it. */
  ghost predicate IsWindow(deque: seq<real>, history: seq<real>, evicted: nat, cutoff: real) {
    OpensAt(history, cutoff, evicted) && deque == history[evicted..] && |deque| == FramesInWindow(history, cutoff)
  }

  ghost predicate NotBefore(history: seq<real>, now: real) {
    history != [] ==> history[|history| - 1] <= now
  }

  method Slide(deque: seq<real>, ghost history: seq<real>, ghost evicted: nat, window: real, now: real)
    returns (kept: seq<real>, ghost out: nat)
    requires Suffix(deque, history, evicted, window) && NotBefore(history, now)
    ensures Suffix(kept, history + [now], out, window) && IsWindow(kept, history + [now], out, now - window)
  {
    ghost var all := history + [now];
    var grown := deque + [now];
    Grown(history, all, evicted, deque, grown, now);
    ghost var n;
    kept, n := EvictOld(grown, now - window);
    Recording(history, all, evicted, grown, window, now, kept, n);
    out := evicted + n;
  }

  class FrameRateLimiter {
    const maxFrames: int
    const window: real
    var timestamps: seq<real>
    /** Every frame ever recorded and how many were evicted, for the specification only. */
    ghost var history: seq<real>
    ghost var evicted: nat

    ghost predicate Valid()
      reads this
    {
      Suffix(timestamps, history, evicted, window)
    }

    constructor (maxFrames: int, window: real)
      ensures Valid() && history == [] && this.maxFrames == maxFrames && this.window == window
    {
      this.maxFrames, this.window := maxFrames, window;
      timestamps, history, evicted := [], [], 0;
    }

    /**
      Record one frame. Over the limit exactly when the frames of the whole history at or after
      `now - window` outnumber `maxFrames`; the deque is that part of the history.
    */
    method RecordAndCheck(now: real) returns (over: bool)
      requires Valid() && NotBefore(history, now)
      modifies this
      ensures Valid() && history == old(history) + [now]
      ensures IsWindow(timestamps, history, evicted, now - window)
      ensures over <==> FramesInWindow(history, now - window) > maxFrames
    {
      timestamps, evicted := Slide(timestamps, history, evicted, window, now);
      history := history + [now];
      over := |timestamps| > maxFrames;
    }
  }
}
