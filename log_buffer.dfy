/**
 * The capped arrays of the content script: before each push, an array longer than 500 entries
 * loses its oldest entry. A buffer that starts with at most 501 entries therefore always holds the
 * newest 501 entries of everything pushed.
 */
module LogBuffer {

  /** The length above which the oldest entry is shifted out before a push. */
  const LIMIT: nat := 500

  /** The most entries a buffer holds: `LIMIT` plus the one just pushed. */
  const CAPACITY: nat := LIMIT + 1

  /** One push: an array longer than the limit first loses its oldest entry. */
  function BoundedPush<T>(buf: seq<T>, x: T): (r: seq<T>)
    // The new entry is last; exactly one old entry is dropped when over the limit, none otherwise.
    ensures |r| > 0 && r[|r| - 1] == x
    ensures |r| == if |buf| > LIMIT then |buf| else |buf| + 1
    // What remains is the newest part of the old contents followed by the new entry.
    ensures r == (buf + [x])[|buf| + 1 - |r|..]
    ensures |buf| <= CAPACITY ==> |r| <= CAPACITY
  {
    if |buf| > LIMIT then buf[1..] + [x] else buf + [x]
  }

  /** The newest `n` entries of a history, oldest first. */
  function Newest<T>(s: seq<T>, n: nat): (r: seq<T>)
    ensures |r| == if |s| <= n then |s| else n
    ensures s == s[..|s| - |r|] + r
  {
    if |s| <= n then s else s[|s| - n..]
  }

  /** Pushing `xs` one by one, oldest first. */
  function PushAll<T>(buf: seq<T>, xs: seq<T>): (r: seq<T>)
    ensures |buf| <= CAPACITY ==> |r| <= CAPACITY
    decreases |xs|
  {
    if xs == [] then buf else BoundedPush(PushAll(buf, xs[..|xs| - 1]), xs[|xs| - 1])
  }

  /** One push keeps "the newest `CAPACITY` entries of the history" true. */
  lemma PushNewest<T>(history: seq<T>, x: T)
    ensures BoundedPush(Newest(history, CAPACITY), x) == Newest(history + [x], CAPACITY)
  {
    var h := history + [x];
    if |history| > CAPACITY {
      assert history[|history| - CAPACITY..][1..] + [x] == h[|h| - CAPACITY..];
    } else if |history| == CAPACITY {
      assert history[1..] + [x] == h[|h| - CAPACITY..];
    }
  }

  /** One more push extends "the newest 501 entries of the history" by one entry. */
  lemma PushAllStep<T>(buf: seq<T>, init: seq<T>, last: T)
    requires PushAll(buf, init) == Newest(buf + init, CAPACITY)
    ensures PushAll(buf, init + [last]) == Newest(buf + init + [last], CAPACITY)
  {
    assert (init + [last])[..|init|] == init;
    PushNewest(buf + init, last);
  }

  /** From a buffer of at most 501 entries, any run of pushes leaves the newest 501 entries. */
  lemma {:induction false} PushAllKeepsNewest<T>(buf: seq<T>, xs: seq<T>)
    requires |buf| <= CAPACITY
    ensures PushAll(buf, xs) == Newest(buf + xs, CAPACITY)
    decreases |xs|
  {
    if xs == [] {
      assert buf + xs == buf;
    } else {
      var init, last := xs[..|xs| - 1], xs[|xs| - 1];
      assert init + [last] == xs;
      assert buf + xs == (buf + init) + [last];
      PushAllKeepsNewest(buf, init);
      PushAllStep(buf, init, last);
    }
  }

  /** Once full, a buffer stays full: its length is 501 after every further push. */
  lemma {:induction false} FullStaysFull<T>(buf: seq<T>, xs: seq<T>)
    requires |buf| == CAPACITY
    ensures |PushAll(buf, xs)| == CAPACITY
    decreases |xs|
  {
    if xs != [] {
      FullStaysFull(buf, xs[..|xs| - 1]);
    }
  }
}
