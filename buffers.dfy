/**
  The bounded history buffers of the gesture state: `deque(maxlen=3)` in the
  source, used both for the orientation angles and for the per-frame commands.
  Appending to a full deque silently drops its oldest item.
 */
module Buffers {

  /** The `maxlen` of both deques. */
  const MaxLen: nat := 3

  /** The last `MaxLen` items of a history (all of it when it is shorter). */
  function Window<T>(history: seq<T>): (w: seq<T>)
    ensures |w| == if |history| < MaxLen then |history| else MaxLen
    ensures w == history[|history| - |w|..]
  {
    if |history| <= MaxLen then history else history[|history| - MaxLen..]
  }

  /** `deque.append` on a deque with `maxlen=MaxLen`: the new item goes last, and the
      items before it are the newest ones already held, in order. */
  function Push<T>(buf: seq<T>, x: T): (r: seq<T>)
    ensures |r| == if |buf| < MaxLen then |buf| + 1 else MaxLen
    ensures r[|r| - 1] == x
    ensures forall i :: 0 <= i < |r| - 1 ==> r[i] == buf[|buf| + 1 - |r| + i]
  {
    if |buf| < MaxLen then buf + [x] else buf[|buf| + 1 - MaxLen..] + [x]
  }

  /** Appending keeps exactly the window of the longer history. */
  lemma PushIsWindow<T>(buf: seq<T>, x: T)
    ensures Push(buf, x) == Window(buf + [x])
  {
  }

  /** Pushing onto a full buffer drops exactly the oldest item and keeps the rest in order. */
  lemma PushFull<T>(buf: seq<T>, x: T)
    requires |buf| == MaxLen
    ensures |Push(buf, x)| == MaxLen
    ensures Push(buf, x)[..MaxLen - 1] == buf[1..]
    ensures Push(buf, x)[MaxLen - 1] == x
  {
  }

  /** Pushing onto a buffer that is not yet full only appends. */
  lemma PushNotFull<T>(buf: seq<T>, x: T)
    requires |buf| < MaxLen
    ensures Push(buf, x) == buf + [x]
  {
  }

  /** The buffer after appending every item of `history`, in order, to an empty deque. */
  function Fill<T>(history: seq<T>): (r: seq<T>)
    ensures |r| <= MaxLen
    ensures history != [] ==> r != [] && r[|r| - 1] == history[|history| - 1]
  {
    if history == [] then [] else Push(Fill(history[..|history| - 1]), history[|history| - 1])
  }

  /** Pushing onto the window of a history gives the window of the longer history. */
  lemma PushWindow<T>(history: seq<T>, x: T)
    ensures Push(Window(history), x) == Window(history + [x])
  {
    var w := Window(history);
    PushIsWindow(w, x);
    if |history| >= MaxLen {
      assert w + [x] == (history + [x])[|history| - MaxLen..];
      assert (w + [x])[1..] == (history + [x])[|history| + 1 - MaxLen..];
    }
  }

  /** Whatever was appended, the deque holds exactly the most recent `MaxLen` items, oldest first. */
  lemma {:induction false} FillIsWindow<T>(history: seq<T>)
    ensures Fill(history) == Window(history)
  {
    if history != [] {
      var init, last := history[..|history| - 1], history[|history| - 1];
      assert init + [last] == history;
      FillIsWindow(init);
      PushWindow(init, last);
    }
  }
}
