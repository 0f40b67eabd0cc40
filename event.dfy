/** The one-shot notification wrapper: its content can be taken out once. */
module Events {
  import opened Data

  /** One read of an event: from the handled flag before the read, the value
      returned and the handled flag after it. */
  function Consume<T>(handled: bool, content: T): (res: (Option<T>, bool))
    ensures res.1
    ensures res.0.Some? <==> !handled
    ensures res.0.Some? ==> res.0.value == content
  {
    if handled then (None, true) else (Some(content), true)
  }

  /** What `n` successive reads return, starting from the given handled flag. */
  function Replay<T>(handled: bool, content: T, n: nat): seq<Option<T>>
    decreases n
  {
    if n == 0 then []
    else
      var (r, h) := Consume(handled, content);
      [r] + Replay(h, content, n - 1)
  }

  /** How many of the reads returned a value. */
  function Delivered<T>(rs: seq<Option<T>>): nat
    decreases |rs|
  {
    if rs == [] then 0 else (if rs[0].Some? then 1 else 0) + Delivered(rs[1..])
  }

  /** Once handled, every later read returns null. */
  lemma {:induction false} HandledReadsAreNull<T>(content: T, n: nat)
    ensures |Replay(true, content, n)| == n
    ensures forall i :: 0 <= i < n ==> Replay(true, content, n)[i] == None
    ensures Delivered(Replay(true, content, n)) == 0
    decreases n
  {
    if n > 0 {
      HandledReadsAreNull(content, n - 1);
    }
  }

  /** From a fresh event, the first of any number of reads returns the content,
      every later one returns null, and so exactly one read delivers. */
  lemma {:induction false} DeliveredExactlyOnce<T>(content: T, n: nat)
    requires n >= 1
    ensures |Replay(false, content, n)| == n
    ensures Replay(false, content, n)[0] == Some(content)
    ensures forall i :: 1 <= i < n ==> Replay(false, content, n)[i] == None
    ensures Delivered(Replay(false, content, n)) == 1
  {
    HandledReadsAreNull(content, n - 1);
    var rest := Replay(true, content, n - 1);
    assert Replay(false, content, n) == [Some(content)] + rest;
    assert ([Some(content)] + rest)[1..] == rest;
  }

  /** `Event(content)`: `content` is fixed at construction and `hasBeenHandled`
      starts false. */
  class Event<T> {
    const content: T
    var hasBeenHandled: bool

    constructor (content: T)
      ensures this.content == content && !hasBeenHandled
    {
      this.content := content;
      hasBeenHandled := false;
    }

    /** Returns the content on the first call and null on every later one;
        `hasBeenHandled` is true afterwards and never goes back to false. */
    method GetContentOrNull() returns (r: Option<T>)
      modifies this
      ensures (r, hasBeenHandled) == Consume(old(hasBeenHandled), content)
    {
      if hasBeenHandled {
        r := None;
      } else {
        hasBeenHandled := true;
        r := Some(content);
      }
    }
  }
}
