/**
 * The bounded rolling sample buffer of the Brainprint UI, as values.
 *
 * Each acquisition tick appends one sample and, once the buffer holds more
 * than `Capacity` entries, drops the oldest one with `pop(0)`.  Authentication
 * reads the trailing window with the slice `buffer[-k:]`.  `Push` is one tick,
 * `PushAll` is a run of ticks and `Last` is the slice; the class in
 * brainprint.dfy is proved against these functions.
 */
module RollingBuffer {

  /** The bound checked after every append (`len(eeg_buffer) > 100`). */
  const Capacity: nat := 100

  /**
   * The slice `s[-k:]` for k >= 1: the whole sequence when it is no longer
   * than k, its last k entries otherwise.
   */
  function Last<T>(s: seq<T>, k: nat): (r: seq<T>)
    requires k >= 1
    ensures |r| == if |s| < k then |s| else k
    ensures r == s[|s| - |r|..]
  {
    if |s| <= k then s else s[|s| - k..]
  }

  /** One tick: append `x`, then evict the oldest entry if over capacity. */
  function Push<T>(buf: seq<T>, x: T): (r: seq<T>)
    ensures |buf| <= Capacity ==> |r| <= Capacity
    ensures |r| > 0 && r[|r| - 1] == x
    ensures |buf| < Capacity ==> r == buf + [x]
    ensures |buf| == Capacity ==> r == buf[1..] + [x]
  {
    var appended := buf + [x];
    if |appended| > Capacity then appended[1..] else appended
  }

  /** The buffer after one tick per element of `xs`, in order. */
  function PushAll<T>(buf: seq<T>, xs: seq<T>): (r: seq<T>)
    ensures |buf| <= Capacity ==> |r| <= Capacity
    decreases |xs|
  {
    if xs == [] then buf else Push(PushAll(buf, xs[..|xs| - 1]), xs[|xs| - 1])
  }

  /** A tick after taking the window is the window after the tick. */
  lemma {:induction false} PushOntoWindow<T>(s: seq<T>, x: T)
    ensures Push(Last(s, Capacity), x) == Last(s + [x], Capacity)
  {
    if |s| >= Capacity {
      var w := s[|s| - Capacity..];
      assert |w| == Capacity && Last(s, Capacity) == w;
      assert Last(s + [x], Capacity) == (s + [x])[|s| + 1 - Capacity..];
      assert w[1..] + [x] == (s + [x])[|s| + 1 - Capacity..];
    } else {
      assert Last(s, Capacity) == s && Last(s + [x], Capacity) == s + [x];
    }
  }

  /**
   * However many ticks run, a buffer that starts within capacity ends up
   * holding exactly the last `Capacity` samples ever seen, in acquisition
   * order.
   */
  lemma {:induction false} PushAllKeepsLast<T>(buf: seq<T>, xs: seq<T>)
    requires |buf| <= Capacity
    ensures PushAll(buf, xs) == Last(buf + xs, Capacity)
    decreases |xs|
  {
    if xs == [] {
      assert buf + xs == buf;
    } else {
      var init, x := xs[..|xs| - 1], xs[|xs| - 1];
      assert buf + init + [x] == buf + xs;
      calc {
        PushAll(buf, xs);
        Push(PushAll(buf, init), x);
        { PushAllKeepsLast(buf, init); }
        Push(Last(buf + init, Capacity), x);
        { PushOntoWindow(buf + init, x); }
        Last(buf + xs, Capacity);
      }
    }
  }

  /**
   * Starting from the empty buffer, after n ticks the buffer holds the last
   * min(n, Capacity) appended samples, in append order.
   */
  lemma PushAllFromEmpty<T>(xs: seq<T>)
    ensures PushAll([], xs) == Last(xs, Capacity)
    ensures |PushAll([], xs)| == if |xs| < Capacity then |xs| else Capacity
  {
    PushAllKeepsLast([], xs);
    assert [] + xs == xs;
  }
}
