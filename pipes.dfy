/**
 * `Pipe`: a one-writer, one-reader channel of string chunks whose shared
 * state is the `Data` record. Every operation of a `Reader` or `Writer`
 * handle is one atomic step on that record; the spin lock that serialises
 * the steps is not modelled.
 */
module Pipes {

  import opened Wrappers

  /** What a future holds: nothing yet, a value, or a failure message. */
  datatype Outcome<T> = Pending | Ready(value: T) | Failed(message: string)

  /** The value type of `Future<Nothing>`. */
  datatype Nothing = Nothing

  /** A promise whose future the caller holds; it is completed at most once. */
  class Promise<T> {
    var state: Outcome<T>

    constructor ()
      ensures state == Pending
    {
      state := Pending;
    }

    /** A future that is already complete when it is handed out. */
    constructor Completed(outcome: Outcome<T>)
      ensures state == outcome
    {
      state := outcome;
    }
  }

  datatype ReadEnd = OPEN | CLOSED
  datatype WriteEnd = OPEN | CLOSED | FAILED

  /** The failure message of a read on a closed read end. */
  const ClosedMessage: string := "closed"

  /** The shared state of one pipe. */
  class Data {
    var readEnd: ReadEnd
    var writeEnd: WriteEnd
    /** Readers waiting for data, oldest first (`reads` in the source). */
    var pendingReads: seq<Promise<string>>
    /** Unread, non-empty writes, oldest first. */
    var writes: seq<string>
    /** Signals when the read end is closed before the write end. */
    const readerClosure: Promise<Nothing>
    /** The failure message, present exactly when the write end is FAILED. */
    var failure: Option<string>

    /** Every non-empty chunk a write accepted, in order. */
    ghost var accepted: seq<string>
    /** Every chunk handed to a read, in order. */
    ghost var delivered: seq<string>

    ghost predicate Valid()
      reads this, pendingReads, readerClosure
    {
      && (forall i :: 0 <= i < |writes| ==> writes[i] != "")
      && (forall i :: 0 <= i < |pendingReads| ==> pendingReads[i].state == Pending)
      && (forall i, j :: 0 <= i < j < |pendingReads| ==> pendingReads[i] != pendingReads[j])
      && (pendingReads != [] ==> writes == [] && readEnd == ReadEnd.OPEN && writeEnd == WriteEnd.OPEN)
      && (readEnd == ReadEnd.CLOSED ==> writes == [])
      && (failure.Some? <==> writeEnd == WriteEnd.FAILED)
      && (readerClosure.state == Pending || (readerClosure.state == Ready(Nothing) && readEnd == ReadEnd.CLOSED))
      && (readEnd == ReadEnd.OPEN ==> delivered + writes == accepted)
      && delivered <= accepted
    }

    /** `Data()`: both ends open, both queues empty. */
    constructor ()
      ensures Valid() && fresh(readerClosure)
      ensures readEnd == ReadEnd.OPEN && writeEnd == WriteEnd.OPEN
      ensures pendingReads == [] && writes == [] && failure == None
      ensures readerClosure.state == Pending
      ensures accepted == [] && delivered == []
    {
      readEnd, writeEnd := ReadEnd.OPEN, WriteEnd.OPEN;
      pendingReads, writes := [], [];
      readerClosure := new Promise();
      failure := None;
      accepted, delivered := [], [];
    }
  }

  /** The read end of a pipe. */
  class Reader {
    const data: Data

    constructor (data: Data)
      ensures this.data == data
    {
      this.data := data;
    }

    /**
     * `read()`: a buffered chunk first; otherwise end-of-file ("") once the
     * write end is closed, the failure once it failed, and a pending read
     * while it is open. Fails once the read end is closed.
     */
    method Read() returns (f: Promise<string>)
      requires data.Valid()
      modifies data
      ensures data.Valid() && fresh(f)
      ensures data.readEnd == old(data.readEnd) && data.writeEnd == old(data.writeEnd)
      ensures data.failure == old(data.failure) && data.accepted == old(data.accepted)
      ensures old(data.readEnd) == ReadEnd.CLOSED ==>
        f.state == Failed(ClosedMessage) && unchanged(data)
      ensures old(data.readEnd) == ReadEnd.OPEN && old(data.writes) != [] ==>
        && f.state == Ready(old(data.writes)[0])
        && data.writes == old(data.writes)[1..]
        && data.delivered == old(data.delivered) + [old(data.writes)[0]]
        && data.pendingReads == old(data.pendingReads)
      ensures old(data.readEnd) == ReadEnd.OPEN && old(data.writes) == [] ==>
        && f.state == (match old(data.writeEnd)
                       case CLOSED => Ready("")
                       case FAILED => Failed(old(data.failure).value)
                       case OPEN => Pending)
        && data.writes == [] && data.delivered == old(data.delivered)
        && data.pendingReads
           == old(data.pendingReads) + (if old(data.writeEnd) == WriteEnd.OPEN then [f] else [])
      ensures f.state == Ready("") ==> old(data.writeEnd) == WriteEnd.CLOSED && old(data.writes) == []
    {
      if data.readEnd == ReadEnd.CLOSED {
        f := new Promise.Completed(Failed(ClosedMessage));
      } else if data.writes != [] {
        f := new Promise.Completed(Ready(data.writes[0]));
        data.delivered := data.delivered + [data.writes[0]];
        data.writes := data.writes[1..];
      } else if data.writeEnd == WriteEnd.CLOSED {
        f := new Promise.Completed(Ready(""));
      } else if data.writeEnd == WriteEnd.FAILED {
        f := new Promise.Completed(Failed(data.failure.value));
      } else {
        f := new Promise();
        data.pendingReads := data.pendingReads + [f];
      }
    }

    /**
     * `close()`: closes the read end; false if it was already closed.
     * Pending reads fail, buffered chunks are dropped, and the writer is
     * notified if its end is still open.
     */
    method Close() returns (closed: bool)
      requires data.Valid()
      modifies data, data.pendingReads, data.readerClosure
      ensures data.Valid()
      ensures closed == (old(data.readEnd) == ReadEnd.OPEN)
      ensures data.readEnd == ReadEnd.CLOSED
      ensures data.writeEnd == old(data.writeEnd) && data.failure == old(data.failure)
      ensures data.accepted == old(data.accepted) && data.delivered == old(data.delivered)
      ensures data.pendingReads == [] && data.writes == []
      ensures forall i :: 0 <= i < |old(data.pendingReads)| ==>
        old(data.pendingReads)[i].state == Failed(ClosedMessage)
      ensures data.readerClosure.state
           == if closed && old(data.writeEnd) == WriteEnd.OPEN then Ready(Nothing)
              else old(data.readerClosure.state)
    {
      closed := data.readEnd == ReadEnd.OPEN;
      if closed {
        var waiting := data.pendingReads;
        var notify := data.writeEnd == WriteEnd.OPEN;
        data.writes := [];
        data.pendingReads := [];
        data.readEnd := ReadEnd.CLOSED;
        ResolveAll(waiting, Failed(ClosedMessage));
        if notify {
          data.readerClosure.state := Ready(Nothing);
        }
      }
    }
  }

  /** The write end of a pipe. */
  class Writer {
    const data: Data

    constructor (data: Data)
      ensures this.data == data
    {
      this.data := data;
    }

    /**
     * `write(s)`: false, with no effect, unless both ends are open. An
     * empty write has no effect. A non-empty chunk goes to the oldest
     * pending read if there is one, and is buffered otherwise.
     */
    method Write(s: string) returns (written: bool)
      requires data.Valid()
      modifies data, data.pendingReads
      ensures data.Valid()
      ensures written == (old(data.readEnd) == ReadEnd.OPEN && old(data.writeEnd) == WriteEnd.OPEN)
      ensures !written || s == "" ==> unchanged(data)
      ensures forall i :: 0 <= i < |old(data.pendingReads)| ==>
        old(data.pendingReads)[i].state == if i == 0 && written && s != "" then Ready(s) else Pending
      ensures data.readEnd == old(data.readEnd) && data.writeEnd == old(data.writeEnd)
      ensures data.failure == old(data.failure)
      ensures written && s != "" ==>
        && data.accepted == old(data.accepted) + [s]
        && (old(data.pendingReads) == [] ==>
              data.writes == old(data.writes) + [s] && data.pendingReads == []
              && data.delivered == old(data.delivered))
        && (old(data.pendingReads) != [] ==>
              data.writes == old(data.writes) && data.pendingReads == old(data.pendingReads)[1..]
              && data.delivered == old(data.delivered) + [s])
    {
      written := data.writeEnd == WriteEnd.OPEN && data.readEnd == ReadEnd.OPEN;
      if written && s != "" {
        data.accepted := data.accepted + [s];
        if data.pendingReads == [] {
          data.writes := data.writes + [s];
        } else {
          var read := data.pendingReads[0];
          data.pendingReads := data.pendingReads[1..];
          data.delivered := data.delivered + [s];
          read.state := Ready(s);
        }
      }
    }

    /**
     * `close()`: closes the write end; false if it was already closed or
     * failed. Every pending read receives end-of-file ("").
     */
    method Close() returns (closed: bool)
      requires data.Valid()
      modifies data, data.pendingReads
      ensures data.Valid()
      ensures closed == (old(data.writeEnd) == WriteEnd.OPEN)
      ensures !closed ==> unchanged(data)
      ensures closed ==> data.writeEnd == WriteEnd.CLOSED && data.pendingReads == []
      ensures forall i :: 0 <= i < |old(data.pendingReads)| ==> old(data.pendingReads)[i].state == Ready("")
      ensures data.readEnd == old(data.readEnd) && data.writes == old(data.writes)
      ensures data.failure == old(data.failure)
      ensures data.accepted == old(data.accepted) && data.delivered == old(data.delivered)
    {
      closed := data.writeEnd == WriteEnd.OPEN;
      if closed {
        var waiting := data.pendingReads;
        data.pendingReads := [];
        data.writeEnd := WriteEnd.CLOSED;
        ResolveAll(waiting, Ready(""));
      }
    }

    /**
     * `fail(message)`: like `close()`, but the write end becomes FAILED,
     * the message is recorded and every pending read fails with it.
     */
    method Fail(message: string) returns (failed: bool)
      requires data.Valid()
      modifies data, data.pendingReads
      ensures data.Valid()
      ensures failed == (old(data.writeEnd) == WriteEnd.OPEN)
      ensures !failed ==> unchanged(data)
      ensures failed ==>
        data.writeEnd == WriteEnd.FAILED && data.failure == Some(message) && data.pendingReads == []
      ensures forall i :: 0 <= i < |old(data.pendingReads)| ==>
        old(data.pendingReads)[i].state == Failed(message)
      ensures data.readEnd == old(data.readEnd) && data.writes == old(data.writes)
      ensures data.accepted == old(data.accepted) && data.delivered == old(data.delivered)
    {
      failed := data.writeEnd == WriteEnd.OPEN;
      if failed {
        var waiting := data.pendingReads;
        data.pendingReads := [];
        data.writeEnd := WriteEnd.FAILED;
        data.failure := Some(message);
        ResolveAll(waiting, Failed(message));
      }
    }

    /** `readerClosed()`: the future of the shared `readerClosure` promise. */
    method ReaderClosed() returns (f: Promise<Nothing>)
      ensures f == data.readerClosure
    {
      f := data.readerClosure;
    }
  }

  /** Completes each of the distinct promises `waiting` with `outcome`, oldest first. */
  method ResolveAll(waiting: seq<Promise<string>>, outcome: Outcome<string>)
    requires forall a, b :: 0 <= a < b < |waiting| ==> waiting[a] != waiting[b]
    modifies waiting
    ensures forall k :: 0 <= k < |waiting| ==> waiting[k].state == outcome
  {
    for i := 0 to |waiting|
      invariant forall k :: 0 <= k < i ==> waiting[k].state == outcome
    {
      waiting[i].state := outcome;
    }
  }

  /** A pipe: the shared record and the handles onto it. */
  class Pipe {
    const data: Data

    /** `Pipe()`: a new record with both ends open and nothing queued. */
    constructor ()
      ensures fresh(data) && fresh(data.readerClosure) && data.Valid()
      ensures data.readEnd == ReadEnd.OPEN && data.writeEnd == WriteEnd.OPEN
      ensures data.pendingReads == [] && data.writes == [] && data.failure == None
      ensures data.readerClosure.state == Pending
      ensures data.accepted == [] && data.delivered == []
    {
      data := new Data();
    }

    /** `reader()`: a read handle on the same record. */
    method Reader() returns (r: Reader)
      ensures fresh(r) && r.data == data
    {
      r := new Reader(data);
    }

    /** `writer()`: a write handle on the same record. */
    method Writer() returns (w: Writer)
      ensures fresh(w) && w.data == data
    {
      w := new Writer(data);
    }
  }
}
