/** One call's input, as its reader, its handler and its pipe share it: the `Ledger` of
    src/plexus/input.rs. The value `Book` is what the atomics hold; each function on it is one
    atomic operation, which the protocol interleaves; the class runs them as the source does. */
module Ledgers {
  import opened Basics

  datatype Book = Book(
    heldItems: int,
    heldBytes: int,
    /** One past the last frame consumed whole. */
    done: nat,
    consumed: nat,
    /** `consumed` at the last grant. */
    returned: nat,
    ended: bool,
    finished: bool,
    abandoned: bool,
    refused: bool,
    /** The frame with the item that did not decode, until the pipe takes it up. */
    refusal: Option<nat>,
    wake: bool)

  const EMPTY := Book(0, 0, 0, 0, 0, false, false, false, false, None, false)

  /** Half a window, and never nothing: how much is consumed before the pipe is woken. */
  function Half(window: nat): (h: nat)
    ensures window < 2 ==> h == 1
    ensures window >= 2 ==> 2 * h <= window < 2 * h + 2
  {
    Max(window / 2, 1)
  }

  /** A frame queued is counted. */
  function AddHeld(b: Book, items: nat, bytes: nat): Book {
    b.(heldItems := b.heldItems + items, heldBytes := b.heldBytes + bytes)
  }

  // The five operations of `frame_done`.

  function SubItems(b: Book, n: nat): Book {
    b.(heldItems := b.heldItems - n)
  }

  function SubBytes(b: Book, n: nat): Book {
    b.(heldBytes := b.heldBytes - n)
  }

  function StoreDone(b: Book, frame: nat): Book {
    b.(done := frame + 1)
  }

  function AddConsumed(b: Book, n: nat): Book {
    b.(consumed := b.consumed + n)
  }

  /** `consumed` is what this handler's own `fetch_add` answered. */
  function CheckWake(b: Book, window: nat, consumed: nat): Book {
    if consumed - b.returned >= Half(window) then b.(wake := true) else b
  }

  /** Frame `frame`, of `items` items and `bytes` bytes, consumed, nothing in between. */
  function AfterFrame(b: Book, window: nat, frame: nat, items: nat, bytes: nat): Book {
    var b1 := AddConsumed(StoreDone(SubBytes(SubItems(b, items), bytes), frame), items);
    CheckWake(b1, window, b1.consumed)
  }

  /** An item of frame `frame` does not decode. */
  function RefuseItem(b: Book, frame: nat): Book {
    b.(refused := true, refusal := Some(frame), wake := true)
  }

  /** `Ledger::owed`'s answer: the ack when it is news, what is done, the items to grant. */
  datatype Due = Due(ack: Option<nat>, done: nat, credit: nat)

  /** Too much is held to grant anything, and the input is still running. */
  predicate HeldBack(b: Book, maxBuffered: nat, finished: bool, ended: bool) {
    !finished && !ended && b.heldBytes >= maxBuffered
  }

  /** Nothing to say: under half a window, and not the last word. */
  predicate TooSoon(window: nat, acked: nat, finished: bool, done: nat, due: int) {
    due < Half(window) && !(finished && done > acked)
  }

  function OwedFor(acked: nat, finished: bool, ended: bool, done: nat, due: nat): Due {
    Due(if done > acked then Some(done - 1) else None, done, if finished || ended then 0 else due)
  }

  /** `owed`, nothing in between. */
  function OwedNow(b: Book, window: nat, maxBuffered: nat, acked: nat): Option<Due>
    requires b.returned <= b.consumed
  {
    if HeldBack(b, maxBuffered, b.finished, b.ended) then None
    else if TooSoon(window, acked, b.finished, b.done, b.consumed - b.returned) then None
    else Some(OwedFor(acked, b.finished, b.ended, b.done, b.consumed - b.returned))
  }

  /** The ledger's fields, updated one after the other as the source's methods do. */
  class Ledger {
    const window: nat
    const maxBuffered: nat
    var heldItems: int
    var heldBytes: int
    var done: nat
    var consumed: nat
    var returned: nat
    var ended: bool
    var finished: bool
    var abandoned: bool
    var refused: bool
    var refusal: Option<nat>
    var wake: bool

    function Value(): Book
      reads this
    {
      Book(heldItems, heldBytes, done, consumed, returned, ended, finished, abandoned, refused, refusal, wake)
    }

    constructor (window: nat, maxBuffered: nat)
      ensures this.window == window && this.maxBuffered == maxBuffered
      ensures Value() == EMPTY
    {
      this.window, this.maxBuffered := window, maxBuffered;
      heldItems, heldBytes, done, consumed, returned := 0, 0, 0, 0, 0;
      ended, finished, abandoned, refused, refusal, wake := false, false, false, false, None, false;
    }

    method FrameDone(frame: nat, items: nat, bytes: nat)
      modifies this
      ensures Value() == AfterFrame(old(Value()), window, frame, items, bytes)
      ensures heldItems == old(heldItems) - items && heldBytes == old(heldBytes) - bytes
      ensures done == frame + 1 && consumed == old(consumed) + items
      ensures wake == (old(wake) || consumed - returned >= (if window < 2 then 1 else window / 2))
    {
      heldItems := heldItems - items;
      heldBytes := heldBytes - bytes;
      done := frame + 1;
      consumed := consumed + items;
      if consumed - returned >= Half(window) {
        wake := true;
      }
    }

    /** Nothing while the input runs with `maxBuffered` bytes or more held, nor under half a window
        unless it is the last word; else the last frame done when that is news, and all that was
        consumed and not granted, but no credit once the input is over. */
    method Owed(acked: nat) returns (owed: Option<Due>)
      requires returned <= consumed
      modifies this`returned
      ensures owed == old(OwedNow(Value(), window, maxBuffered, acked))
      ensures owed.None? <==>
                (!finished && !ended && heldBytes >= maxBuffered)
                || (consumed - old(returned) < (if window < 2 then 1 else window / 2) && !(finished && done > acked))
      ensures owed.Some? ==>
                && owed.value.done == done && owed.value.ack == (if done > acked then Some(done - 1) else None)
                && owed.value.credit == (if finished || ended then 0 else consumed - old(returned))
      ensures Value() == old(Value()).(returned := if owed.Some? then old(consumed) else old(returned))
    {
      if !finished && !ended && heldBytes >= maxBuffered {
        return None;
      }
      var due := consumed - returned;
      if due < Half(window) && !(finished && done > acked) {
        return None;
      }
      returned := consumed;
      owed := Some(Due(if done > acked then Some(done - 1) else None, done, if finished || ended then 0 else due));
    }

    /** The reader counts a frame it queues. */
    method Hold(items: nat, bytes: nat)
      modifies this`heldItems, this`heldBytes
      ensures Value() == AddHeld(old(Value()), items, bytes)
    {
      heldItems := heldItems + items;
      heldBytes := heldBytes + bytes;
    }

    method InputFinished()
      modifies this`finished, this`wake
      ensures Value() == old(Value()).(finished := true, wake := true)
    {
      finished := true;
      wake := true;
    }

    method Abandon()
      modifies this`abandoned, this`wake
      ensures Value() == old(Value()).(abandoned := true, wake := true)
    {
      abandoned := true;
      wake := true;
    }

    method Refuse(frame: nat)
      modifies this`refused, this`refusal, this`wake
      ensures Value() == RefuseItem(old(Value()), frame)
      ensures Value() == old(Value()).(refused := true, refusal := Some(frame), wake := true)
    {
      refusal := Some(frame);
      refused := true;
      wake := true;
    }

    /** The refusal, once: whoever asks next finds none. */
    method TakeRefusal() returns (frame: Option<nat>)
      modifies this`refusal
      ensures frame == if refused then old(refusal) else None
      ensures Value() == old(Value()).(refusal := if refused then None else old(refusal))
    {
      if !refused {
        return None;
      }
      frame, refusal := refusal, None;
    }
  }
}
