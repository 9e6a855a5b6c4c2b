/**
 * What a reader observes of a pipe over a whole run, proved from the
 * contracts of the `Pipe` operations alone: chunks arrive in the order they
 * were written, one read per non-empty write, followed by end-of-file or by
 * the writer's failure; and the writer hears of a closed reader only while
 * its own end is open.
 */
module PipeProperties {

  import opened Wrappers
  import opened Pipes

  /** One step of the writer or the reader before the write end is finished. */
  datatype Step = ReadStep | WriteStep(chunk: string)

  /** How the writer finishes: `close()` or `fail(message)`. */
  datatype Ending = Close | Fail(message: string)

  /** The non-empty chunks that a run of steps writes, in order. */
  function Written(plan: seq<Step>): (r: seq<string>)
    ensures forall i :: 0 <= i < |r| ==> r[i] != ""
  {
    if plan == [] then []
    else
      var last := plan[|plan| - 1];
      Written(plan[..|plan| - 1]) + (if last.WriteStep? && last.chunk != "" then [last.chunk] else [])
  }

  /** What a read observes once the buffer is drained after the writer finished. */
  function Terminal(ending: Ending): Outcome<string>
  {
    match ending
    case Close => Ready("")
    case Fail(message) => Failed(message)
  }

  /**
   * The futures returned by reads, oldest first, against the pipe's record:
   * the completed ones hold the delivered chunks in order and the rest are
   * exactly the pending reads.
   */
  ghost predicate Tracks(d: Data, futures: seq<Promise<string>>)
    reads d, futures
  {
    && |d.delivered| <= |futures|
    && (forall k :: 0 <= k < |d.delivered| ==> futures[k].state == Ready(d.delivered[k]))
    && futures[|d.delivered|..] == d.pendingReads
    && (forall a, b :: 0 <= a < b < |futures| ==> futures[a] != futures[b])
  }

  /** The pipe is open at both ends and the reader has not closed. */
  ghost predicate Running(d: Data)
    reads d, d.pendingReads, d.readerClosure
  {
    d.Valid() && d.readEnd == ReadEnd.OPEN && d.writeEnd == WriteEnd.OPEN
  }

  /** A read step keeps the futures in step with the record. */
  method ReadOnce(r: Reader, futures: seq<Promise<string>>) returns (futures': seq<Promise<string>>)
    requires Running(r.data) && Tracks(r.data, futures)
    modifies r.data
    ensures Running(r.data) && Tracks(r.data, futures')
    ensures r.data.accepted == old(r.data.accepted)
    ensures |futures'| == |futures| + 1 && futures'[..|futures|] == futures && fresh(futures'[|futures|])
  {
    var f := r.Read();
    futures' := futures + [f];
  }

  /** A write step keeps the futures in step with the record. */
  method WriteOnce(w: Writer, chunk: string, futures: seq<Promise<string>>)
    requires Running(w.data) && Tracks(w.data, futures)
    modifies w.data, w.data.pendingReads
    ensures Running(w.data) && Tracks(w.data, futures)
    ensures w.data.accepted == old(w.data.accepted) + (if chunk != "" then [chunk] else [])
  {
    ghost var d := w.data;
    ghost var before := |d.delivered|;
    ghost var pendingBefore := d.pendingReads;
    assert forall k :: 0 <= k < |pendingBefore| ==> futures[before + k] == pendingBefore[k];
    var _ := w.Write(chunk);
    assert forall k :: 0 <= k < before ==> futures[k] !in pendingBefore;
  }

  /**
   * Runs `plan` on an open pipe whose reader has consumed nothing; the
   * futures the reads returned track the record afterwards.
   */
  method RunPlan(r: Reader, w: Writer, plan: seq<Step>) returns (futures: seq<Promise<string>>)
    requires r.data == w.data && Running(r.data)
    requires r.data.pendingReads == [] && r.data.accepted == [] && r.data.delivered == []
    modifies r.data
    ensures Running(r.data) && Tracks(r.data, futures)
    ensures r.data.accepted == Written(plan)
    ensures forall k :: 0 <= k < |futures| ==> fresh(futures[k])
  {
    futures := [];
    for i := 0 to |plan|
      invariant Running(r.data) && Tracks(r.data, futures)
      invariant r.data.accepted == Written(plan[..i])
      invariant forall k :: 0 <= k < |futures| ==> fresh(futures[k])
    {
      assert plan[..i + 1][..i] == plan[..i];
      match plan[i]
      case ReadStep =>
        futures := ReadOnce(r, futures);
      case WriteStep(chunk) =>
        WriteOnce(w, chunk, futures);
    }
    assert plan[..|plan|] == plan;
  }

  /**
   * The writer finishes: the futures already completed keep their chunks
   * and every pending one now holds the end.
   */
  method Finish(w: Writer, ending: Ending, futures: seq<Promise<string>>)
    requires Running(w.data) && Tracks(w.data, futures)
    modifies w.data, w.data.pendingReads
    ensures w.data.Valid() && w.data.readEnd == ReadEnd.OPEN && w.data.pendingReads == []
    ensures w.data.writeEnd == (if ending.Close? then WriteEnd.CLOSED else WriteEnd.FAILED)
    ensures ending.Fail? ==> w.data.failure == Some(ending.message)
    ensures w.data.delivered == old(w.data.delivered) && w.data.writes == old(w.data.writes)
    ensures w.data.accepted == old(w.data.accepted)
    ensures forall k :: 0 <= k < |w.data.delivered| ==> futures[k].state == Ready(w.data.delivered[k])
    ensures forall k :: |w.data.delivered| <= k < |futures| ==> futures[k].state == Terminal(ending)
    ensures |w.data.delivered| < |futures| ==> w.data.writes == []
  {
    ghost var d := w.data;
    ghost var open := |d.delivered|;
    ghost var pending := d.pendingReads;
    assert forall k :: open <= k < |futures| ==> futures[k] == pending[k - open];
    assert forall k :: 0 <= k < open ==> futures[k] !in pending;
    if ending.Close? {
      var _ := w.Close();
    } else {
      var _ := w.Fail(ending.message);
    }
  }

  /**
   * For any interleaving of reads and writes, followed by the writer's
   * `close()` or `fail(message)` and reads until the end is seen, the
   * reader observes the non-empty chunks in the order written, then only
   * the end: "" after `close()`, the failure after `fail()`.
   */
  method DeliversInOrder(plan: seq<Step>, ending: Ending) returns (observed: seq<Outcome<string>>)
    ensures |Written(plan)| < |observed|
    ensures forall k :: 0 <= k < |Written(plan)| ==> observed[k] == Ready(Written(plan)[k])
    ensures forall k :: |Written(plan)| <= k < |observed| ==> observed[k] == Terminal(ending)
  {
    var pipe := new Pipe();
    var r := pipe.Reader();
    var w := pipe.Writer();
    var futures := RunPlan(r, w, plan);
    Finish(w, ending, futures);
    observed := Snapshot(futures);
    observed := Drain(r, ending, observed);
  }

  /** The current state of each future, in order. */
  method Snapshot(futures: seq<Promise<string>>) returns (states: seq<Outcome<string>>)
    ensures |states| == |futures|
    ensures forall j :: 0 <= j < |futures| ==> states[j] == futures[j].state
  {
    states := [];
    for k := 0 to |futures|
      invariant |states| == k
      invariant forall j :: 0 <= j < k ==> states[j] == futures[j].state
    {
      states := states + [futures[k].state];
    }
  }

  /**
   * After the writer finished, reads until the end is seen, appending each
   * outcome to `observed`: first the chunks still buffered, then the end.
   */
  method Drain(r: Reader, ending: Ending, observed0: seq<Outcome<string>>) returns (observed: seq<Outcome<string>>)
    requires r.data.Valid() && r.data.readEnd == ReadEnd.OPEN && r.data.pendingReads == []
    requires r.data.writeEnd == (if ending.Close? then WriteEnd.CLOSED else WriteEnd.FAILED)
    requires ending.Fail? ==> r.data.failure == Some(ending.message)
    requires |r.data.delivered| <= |observed0|
    requires forall j :: 0 <= j < |r.data.delivered| ==> observed0[j] == Ready(r.data.delivered[j])
    requires forall j :: |r.data.delivered| <= j < |observed0| ==> observed0[j] == Terminal(ending)
    requires |r.data.delivered| < |observed0| ==> r.data.writes == []
    modifies r.data
    ensures |r.data.delivered| < |observed|
    ensures r.data.delivered == old(r.data.delivered + r.data.writes)
    ensures forall j :: 0 <= j < |r.data.delivered| ==> observed[j] == Ready(r.data.delivered[j])
    ensures forall j :: |r.data.delivered| <= j < |observed| ==> observed[j] == Terminal(ending)
  {
    var d := r.data;
    observed := observed0;
    var done := false;
    while !done
      invariant d.Valid() && d.readEnd == ReadEnd.OPEN && d.pendingReads == []
      invariant d.writeEnd == old(d.writeEnd) && d.failure == old(d.failure)
      invariant d.delivered + d.writes == old(d.delivered + d.writes)
      invariant |d.delivered| <= |observed|
      invariant forall j :: 0 <= j < |d.delivered| ==> observed[j] == Ready(d.delivered[j])
      invariant forall j :: |d.delivered| <= j < |observed| ==> observed[j] == Terminal(ending)
      invariant |d.delivered| < |observed| ==> d.writes == []
      invariant done ==> |d.delivered| < |observed|
      decreases |d.writes|, if done then 0 else 1
    {
      var f := r.Read();
      observed := observed + [f.state];
      done := f.state == Terminal(ending);
    }
  }

  /**
   * The reader gives up while the writer is still open: `readerClosed()`
   * completes, a later write is refused and a second `close()` returns false.
   */
  method ReaderGivesUp(chunk: string) returns (notified: Outcome<Nothing>, written: bool, closedAgain: bool)
    ensures notified == Ready(Nothing) && !written && !closedAgain
  {
    var pipe := new Pipe();
    var r := pipe.Reader();
    var w := pipe.Writer();
    var closure := w.ReaderClosed();
    var _ := r.Close();
    written := w.Write(chunk);
    closedAgain := r.Close();
    notified := closure.state;
  }

  /**
   * Once the write end has left OPEN, closing the reader never completes
   * `readerClosed()`, and every read fails with the closed-pipe message.
   */
  method ReaderClosesAfterWriter(ending: Ending) returns (notified: Outcome<Nothing>, afterClose: Outcome<string>)
    ensures notified == Pending
    ensures afterClose == Failed(ClosedMessage)
  {
    var pipe := new Pipe();
    var r := pipe.Reader();
    var w := pipe.Writer();
    if ending.Close? {
      var _ := w.Close();
    } else {
      var _ := w.Fail(ending.message);
    }
    var _ := r.Close();
    var closure := w.ReaderClosed();
    notified := closure.state;
    var f := r.Read();
    afterClose := f.state;
  }
}
