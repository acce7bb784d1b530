// The bounded frame queue shared by both recorders: `queue.Queue(maxsize=120)`
// fed with `put_nowait`, and on `queue.Full` one `get_nowait` (drop the oldest)
// followed by a second `put_nowait`.
module FrameQueue {

  /** A captured camera frame; its pixels are opaque to the recorders' logic. */
  datatype Frame = Frame(id: int)

  /** `maxsize` of the recorders' frame queues (4 seconds at 30 fps). */
  const Capacity: nat := 120

  /** One `add_frame` enqueue: append, or drop the oldest and append when full. */
  function Enqueue(q: seq<Frame>, f: Frame): seq<Frame>
  {
    if |q| < Capacity then q + [f] else q[1..] + [f]
  }

  /** The last `n` elements of `s` (all of `s` when it is shorter). */
  function Newest(s: seq<Frame>, n: nat): (r: seq<Frame>)
    ensures |r| == if |s| < n then |s| else n
  {
    if |s| <= n then s else s[|s| - n..]
  }

  /**
   * A queue that is within its bound stays within it, and it always holds
   * exactly the newest frames offered to it: the 120 most recent of the old
   * contents followed by the new frame.
   */
  lemma EnqueueKeepsNewest(q: seq<Frame>, f: Frame)
    requires |q| <= Capacity
    ensures |Enqueue(q, f)| <= Capacity
    ensures Enqueue(q, f) == Newest(q + [f], Capacity)
    ensures Enqueue(q, f)[|Enqueue(q, f)| - 1] == f
    ensures |q| < Capacity ==> Enqueue(q, f)[..|q|] == q
  {
    if |q| == Capacity {
      assert (q + [f])[|q + [f]| - Capacity..] == q[1..] + [f];
    }
  }

  /** Repeated enqueues never exceed the bound, from any queue within it. */
  lemma {:induction false} EnqueueAllBounded(q: seq<Frame>, fs: seq<Frame>)
    requires |q| <= Capacity
    ensures |EnqueueAll(q, fs)| <= Capacity
    decreases |fs|
  {
    if |fs| > 0 {
      EnqueueKeepsNewest(q, fs[0]);
      EnqueueAllBounded(Enqueue(q, fs[0]), fs[1..]);
    }
  }

  function EnqueueAll(q: seq<Frame>, fs: seq<Frame>): seq<Frame>
    decreases |fs|
  {
    if |fs| == 0 then q else EnqueueAll(Enqueue(q, fs[0]), fs[1..])
  }
}
