/**
 * The batching half of import_data's reading loop: what each line read
 * comes to (skipped, blank or a rewritten event), when a batch is sent,
 * where it is sent, what its body is, and what happens when the server
 * refuses it.
 */
module Batching {
  import opened Php
  import opened Strings

  /** What wp_remote_post returns: a WP_Error or an HTTP response. */
  datatype Response = TransportError(message: string) | Http(code: int, body: string)

  /** A response the import goes on after: an HTTP status code of at most 299. */
  predicate Accepted(resp: Response) {
    resp.Http? && resp.code <= 299
  }

  /**
   * The message of the exception a response raises: a WP_Error's message,
   * or the body of a response with a status code above 299.
   */
  function Refusal(resp: Response): (m: Option<string>)
    ensures m.None? <==> Accepted(resp)
  {
    match resp
    case TransportError(message) => Some(message)
    case Http(code, body) => if code > 299 then Some(body) else None
  }

  /**
   * One _bulk request: the day index it is sent to and its documents. The
   * body posted for a request r is BulkBody(r.docs).
   */
  datatype Request = Request(index: string, docs: seq<string>)

  /**
   * How batches are sent: per_page, date('Y-m-d', t / 1000) on a
   * millisecond timestamp t, and the server's answer to the k-th bulk
   * request.
   */
  datatype Bulk = Bulk(perPage: int, formatDay: int -> string, respond: nat -> Response)

  /**
   * What one line read comes to: a non-empty line without a session key is
   * skipped by `continue`, an empty one (or a failed read) adds nothing but
   * still reaches the flush check, and a session line becomes a document
   * and sets $time_stamp.
   */
  datatype Outcome = Skipped | Blank | Event(doc: string, stamp: int)

  /** The action line in front of every document of a bulk body. */
  function IndexAction(): string { "{\"index\":{}}\n" }

  /** The ND-JSON body of a bulk request. */
  function BulkBody(docs: seq<string>): string {
    IndexAction() + Implode(IndexAction(), docs) + "\n"
  }

  function Actions(docs: seq<string>): seq<string> {
    seq(|docs|, i requires 0 <= i < |docs| => IndexAction() + docs[i])
  }

  lemma {:induction false} ImplodeActions(docs: seq<string>)
    requires docs != []
    ensures IndexAction() + Implode(IndexAction(), docs) == Concat(Actions(docs))
    decreases |docs|
  {
    if |docs| == 1 {
      assert Actions(docs) == [IndexAction() + docs[0]];
      assert Actions(docs)[1..] == [];
    } else {
      ImplodeActions(docs[1..]);
      assert Actions(docs) == [IndexAction() + docs[0]] + Actions(docs[1..]);
      ConcatCons(IndexAction() + docs[0], Actions(docs[1..]));
    }
  }

  /**
   * Every document is preceded by its own action line and the body ends
   * with a newline; an empty batch is one action line and a newline.
   */
  lemma {:induction false} BulkBodyShape(docs: seq<string>)
    ensures docs != [] ==> BulkBody(docs) == Concat(Actions(docs)) + "\n"
    ensures docs == [] ==> BulkBody(docs) == IndexAction() + "\n"
  {
    if docs != [] {
      ImplodeActions(docs);
    }
  }

  /** The documents of the first n lines, in file order. */
  function Documents(outs: seq<Outcome>, n: nat): seq<string>
    requires n <= |outs|
    decreases n
  {
    if n == 0 then []
    else if outs[n - 1].Event? then Documents(outs, n - 1) + [outs[n - 1].doc]
    else Documents(outs, n - 1)
  }

  /** $time_stamp after the first n lines: that of the last session line, if any. */
  function LastStamp(outs: seq<Outcome>, n: nat): Option<int>
    requires n <= |outs|
    decreases n
  {
    if n == 0 then None
    else if outs[n - 1].Event? then Some(outs[n - 1].stamp)
    else LastStamp(outs, n - 1)
  }

  /**
   * The index of a bulk request comes from the last session line read,
   * whichever sessions the batch's other documents belong to; before any
   * session line it is undefined (null, read as 0).
   */
  lemma {:induction false} LastStampIsLast(outs: seq<Outcome>, n: nat)
    requires n <= |outs|
    ensures LastStamp(outs, n).None? <==> forall i :: 0 <= i < n ==> !outs[i].Event?
    ensures LastStamp(outs, n).Some? ==>
      exists i :: 0 <= i < n && outs[i].Event? && LastStamp(outs, n).value == outs[i].stamp
                  && forall j :: i < j < n ==> !outs[j].Event?
    decreases n
  {
    if n > 0 {
      LastStampIsLast(outs, n - 1);
      if !outs[n - 1].Event? && LastStamp(outs, n).Some? {
        var i :| 0 <= i < n - 1 && outs[i].Event? && LastStamp(outs, n - 1).value == outs[i].stamp
                 && forall j :: i < j < n - 1 ==> !outs[j].Event?;
        assert forall j :: i < j < n ==> !outs[j].Event?;
      }
    }
  }

  /**
   * The loop's state: lines read ($progress), the batch not yet sent
   * ($lines), the bulk requests made, the progress last stored and the
   * message of the exception that ended the loop.
   */
  datatype Batch = Batch(read: nat, pending: seq<string>, posted: seq<Request>, stored: Option<nat>, failure: Option<string>)

  /** Send the batch to the index of the last session's day; a failure ends the loop. */
  function Flush(bulk: Bulk, outs: seq<Outcome>, b: Batch): (r: Batch)
    requires b.read <= |outs| && b.failure.None?
    ensures r.posted == b.posted + [Request(bulk.formatDay(LastStamp(outs, b.read).GetOr(0)), b.pending)]
    ensures r.read == b.read
    ensures r.failure.None? ==> r.pending == [] && r.stored == Some(b.read)
    ensures r.failure.Some? ==> r.pending == b.pending && r.stored == b.stored
    ensures bulk.respond(|b.posted|).TransportError? ==> r.failure == Some(bulk.respond(|b.posted|).message)
    ensures bulk.respond(|b.posted|).Http? && bulk.respond(|b.posted|).code > 299 ==>
      r.failure == Some(bulk.respond(|b.posted|).body)
    ensures r.failure.None? <==> Accepted(bulk.respond(|b.posted|))
  {
    var posted := b.posted + [Request(bulk.formatDay(LastStamp(outs, b.read).GetOr(0)), b.pending)];
    match bulk.respond(|b.posted|)
    case TransportError(message) => b.(posted := posted, failure := Some(message))
    case Http(code, body) =>
      if code > 299 then b.(posted := posted, failure := Some(body))
      else b.(posted := posted, pending := [], stored := Some(b.read))
  }

  /** The batch is sent once it holds per_page documents or the file has ended. */
  function FlushCheck(bulk: Bulk, outs: seq<Outcome>, b: Batch): Batch
    requires b.read <= |outs| && b.failure.None?
  {
    if |b.pending| < bulk.perPage && b.read < |outs| then b else Flush(bulk, outs, b)
  }

  /** One iteration of the reading loop. */
  function Step(bulk: Bulk, outs: seq<Outcome>, b: Batch): (r: Batch)
    requires b.read < |outs| && b.failure.None?
    ensures r.read == b.read + 1
  {
    var next := b.(read := b.read + 1);
    match outs[b.read]
    case Skipped => next
    case Blank => FlushCheck(bulk, outs, next)
    case Event(doc, _) => FlushCheck(bulk, outs, next.(pending := b.pending + [doc]))
  }

  /** The loop's state after n reads, or when it stopped at the first failure. */
  function Run(bulk: Bulk, outs: seq<Outcome>, n: nat): (r: Batch)
    requires n <= |outs|
    ensures r.read <= n
    ensures r.failure.None? ==> r.read == n
    decreases n
  {
    if n == 0 then Batch(0, [], [], None, None)
    else
      var b := Run(bulk, outs, n - 1);
      if b.failure.Some? then b else Step(bulk, outs, b)
  }

  lemma {:induction false} RunNext(bulk: Bulk, outs: seq<Outcome>, n: nat)
    requires n < |outs| && Run(bulk, outs, n).failure.None?
    ensures Run(bulk, outs, n + 1) == Step(bulk, outs, Run(bulk, outs, n))
  {
  }

  /** Once the loop has stopped on a failure nothing changes any more. */
  lemma {:induction false} RunStops(bulk: Bulk, outs: seq<Outcome>, m: nat, n: nat)
    requires m <= n <= |outs| && Run(bulk, outs, m).failure.Some?
    ensures Run(bulk, outs, n) == Run(bulk, outs, m)
    decreases n - m
  {
    if m < n {
      RunStops(bulk, outs, m, n - 1);
    }
  }

  /** All documents of the requests, in order. */
  function Flatten(posted: seq<Request>): seq<string>
    decreases |posted|
  {
    if posted == [] then [] else Flatten(posted[..|posted| - 1]) + posted[|posted| - 1].docs
  }

  lemma {:induction false} FlattenSnoc(posted: seq<Request>, r: Request)
    ensures Flatten(posted + [r]) == Flatten(posted) + r.docs
  {
    assert (posted + [r])[..|posted|] == posted;
  }

  /**
   * The bookkeeping the loop keeps: while it runs, the documents sent and
   * the batch held are the documents of the lines read so far, and what
   * was sent is exactly the documents of the lines up to the stored
   * progress; after a failure the failed request holds the last batch
   * and the requests before it are still those of the stored progress.
   */
  ghost predicate Accounted(outs: seq<Outcome>, b: Batch)
    requires b.read <= |outs|
  {
    if b.failure.None? then
      Flatten(b.posted) + b.pending == Documents(outs, b.read)
      && b.stored.GetOr(0) <= b.read
      && Flatten(b.posted) == Documents(outs, b.stored.GetOr(0))
    else
      b.posted != [] && Flatten(b.posted) == Documents(outs, b.read)
      && b.stored.GetOr(0) <= b.read
      && Flatten(b.posted[..|b.posted| - 1]) == Documents(outs, b.stored.GetOr(0))
  }

  lemma {:induction false} FlushAccounted(bulk: Bulk, outs: seq<Outcome>, b: Batch)
    requires b.read <= |outs| && b.failure.None? && Accounted(outs, b)
    ensures Accounted(outs, Flush(bulk, outs, b))
  {
    var r := Flush(bulk, outs, b);
    FlattenSnoc(b.posted, Request(bulk.formatDay(LastStamp(outs, b.read).GetOr(0)), b.pending));
    if r.failure.None? {
      assert Flatten(r.posted) + [] == Flatten(r.posted);
    } else {
      assert r.posted[..|r.posted| - 1] == b.posted;
    }
  }

  lemma {:induction false} FlushCheckAccounted(bulk: Bulk, outs: seq<Outcome>, c: Batch)
    requires c.read <= |outs| && c.failure.None? && Accounted(outs, c)
    ensures Accounted(outs, FlushCheck(bulk, outs, c))
  {
    if !(|c.pending| < bulk.perPage && c.read < |outs|) {
      FlushAccounted(bulk, outs, c);
    }
  }

  /** Reading a line that is not a session event keeps the bookkeeping. */
  lemma {:induction false} ReadAccounted(outs: seq<Outcome>, b: Batch)
    requires b.read < |outs| && b.failure.None? && Accounted(outs, b) && !outs[b.read].Event?
    ensures Accounted(outs, b.(read := b.read + 1))
  {
    assert Documents(outs, b.read + 1) == Documents(outs, b.read);
  }

  /** Reading a session event and adding its document to the batch keeps the bookkeeping. */
  lemma {:induction false} EventAccounted(outs: seq<Outcome>, b: Batch)
    requires b.read < |outs| && b.failure.None? && Accounted(outs, b) && outs[b.read].Event?
    ensures Accounted(outs, b.(read := b.read + 1, pending := b.pending + [outs[b.read].doc]))
  {
    var doc := outs[b.read].doc;
    assert Documents(outs, b.read + 1) == Documents(outs, b.read) + [doc];
    assert Flatten(b.posted) + (b.pending + [doc]) == (Flatten(b.posted) + b.pending) + [doc];
  }

  lemma {:induction false} StepAccounted(bulk: Bulk, outs: seq<Outcome>, b: Batch)
    requires b.read < |outs| && b.failure.None? && Accounted(outs, b)
    ensures Accounted(outs, Step(bulk, outs, b))
  {
    if outs[b.read].Event? {
      EventAccounted(outs, b);
      FlushCheckAccounted(bulk, outs, b.(read := b.read + 1, pending := b.pending + [outs[b.read].doc]));
    } else {
      ReadAccounted(outs, b);
      if outs[b.read].Blank? {
        FlushCheckAccounted(bulk, outs, b.(read := b.read + 1));
      }
    }
  }

  /**
   * No document is lost, duplicated or reordered: after any number of
   * reads the loop's state keeps the bookkeeping of Accounted.
   */
  lemma {:induction false} RunAccounts(bulk: Bulk, outs: seq<Outcome>, n: nat)
    requires n <= |outs|
    ensures Accounted(outs, Run(bulk, outs, n))
    decreases n
  {
    if n > 0 {
      RunAccounts(bulk, outs, n - 1);
      var b := Run(bulk, outs, n - 1);
      if b.failure.None? {
        StepAccounted(bulk, outs, b);
      }
    }
  }

  /**
   * The k-th request got the k-th response: every request but the last
   * was accepted, and so was the last unless the loop stopped on it, in
   * which case its refusal is the failure.
   */
  ghost predicate Answered(bulk: Bulk, b: Batch) {
    (forall k :: 0 <= k < |b.posted| - 1 ==> Accepted(bulk.respond(k)))
    && (b.failure.None? ==> forall k :: 0 <= k < |b.posted| ==> Accepted(bulk.respond(k)))
    && (b.failure.Some? ==> b.posted != [] && b.failure == Refusal(bulk.respond(|b.posted| - 1)))
  }

  lemma {:induction false} StepAnswered(bulk: Bulk, outs: seq<Outcome>, b: Batch)
    requires b.read < |outs| && b.failure.None? && Answered(bulk, b)
    ensures Answered(bulk, Step(bulk, outs, b))
  {
    var next := b.(read := b.read + 1);
    var batch := if outs[b.read].Event? then next.(pending := b.pending + [outs[b.read].doc]) else next;
    if !outs[b.read].Skipped? && !(|batch.pending| < bulk.perPage && batch.read < |outs|) {
      var r := Flush(bulk, outs, batch);
      assert Step(bulk, outs, b) == r;
      assert forall k :: 0 <= k < |b.posted| ==> r.posted[k] == b.posted[k];
    }
  }

  /**
   * The loop stops on the first refused request: it has failed exactly
   * when some request was refused, then that request is the last one
   * made, every earlier one was accepted, and the failure is the refused
   * request's message.
   */
  lemma {:induction false} RunFailures(bulk: Bulk, outs: seq<Outcome>, n: nat)
    requires n <= |outs|
    ensures var b := Run(bulk, outs, n);
      b.failure.None? <==> forall k :: 0 <= k < |b.posted| ==> Accepted(bulk.respond(k))
    ensures var b := Run(bulk, outs, n);
      b.failure.Some? ==> b.posted != [] && !Accepted(bulk.respond(|b.posted| - 1))
                          && b.failure == Refusal(bulk.respond(|b.posted| - 1))
                          && forall k :: 0 <= k < |b.posted| - 1 ==> Accepted(bulk.respond(k))
    decreases n
  {
    RunAnswered(bulk, outs, n);
  }

  lemma {:induction false} RunAnswered(bulk: Bulk, outs: seq<Outcome>, n: nat)
    requires n <= |outs|
    ensures Answered(bulk, Run(bulk, outs, n))
    decreases n
  {
    if n > 0 {
      RunAnswered(bulk, outs, n - 1);
      var b := Run(bulk, outs, n - 1);
      if b.failure.None? {
        StepAnswered(bulk, outs, b);
      }
    }
  }

  /** The batch-size facts one iteration keeps. */
  ghost predicate Sized(bulk: Bulk, outs: seq<Outcome>, b: Batch) {
    (b.failure.None? ==> |b.pending| < bulk.perPage)
    && (forall i :: 0 <= i < |b.posted| ==> |b.posted[i].docs| <= bulk.perPage)
    && (forall i :: 0 <= i < |b.posted| ==> |b.posted[i].docs| == bulk.perPage || (i == |b.posted| - 1 && b.read == |outs|))
  }

  lemma {:induction false} StepSized(bulk: Bulk, outs: seq<Outcome>, b: Batch)
    requires bulk.perPage >= 1
    requires b.read < |outs| && b.failure.None? && Sized(bulk, outs, b)
    ensures Sized(bulk, outs, Step(bulk, outs, b))
  {
    var next := b.(read := b.read + 1);
    var batch := if outs[b.read].Event? then next.(pending := b.pending + [outs[b.read].doc]) else next;
    if !outs[b.read].Skipped? && !(|batch.pending| < bulk.perPage && batch.read < |outs|) {
      assert Step(bulk, outs, b) == Flush(bulk, outs, batch);
      assert Flush(bulk, outs, batch).posted[|b.posted|].docs == batch.pending;
    }
  }

  /**
   * With a positive per_page, every bulk request holds per_page documents,
   * except one sent when the file ends, which holds at most that many.
   */
  lemma {:induction false} BatchSizes(bulk: Bulk, outs: seq<Outcome>, n: nat)
    requires n <= |outs| && bulk.perPage >= 1
    ensures var b := Run(bulk, outs, n);
      b.failure.None? ==> |b.pending| < bulk.perPage
    ensures var b := Run(bulk, outs, n);
      forall i :: 0 <= i < |b.posted| ==> |b.posted[i].docs| <= bulk.perPage
    ensures var b := Run(bulk, outs, n);
      forall i :: 0 <= i < |b.posted| ==> |b.posted[i].docs| == bulk.perPage || (i == |b.posted| - 1 && b.read == |outs|)
    decreases n
  {
    if n > 0 {
      BatchSizes(bulk, outs, n - 1);
      var b := Run(bulk, outs, n - 1);
      if b.failure.None? {
        StepSized(bulk, outs, b);
      }
    }
  }

  /**
   * When every line has been read without a failure and the last line is
   * not a skipped one, the last batch has been sent and the stored
   * progress is the number of lines: every document was delivered.
   */
  lemma {:induction false} CompletedRun(bulk: Bulk, outs: seq<Outcome>, n: nat)
    requires n == |outs| && n > 0 && Run(bulk, outs, n).failure.None?
    requires !outs[n - 1].Skipped?
    ensures Run(bulk, outs, n).stored == Some(n)
    ensures Run(bulk, outs, n).pending == []
    ensures Flatten(Run(bulk, outs, n).posted) == Documents(outs, n)
  {
    RunAccounts(bulk, outs, n);
    var b := Run(bulk, outs, n - 1);
    assert b.failure.None?;
  }

  /**
   * A last line that is neither empty nor a session event skips the final
   * flush: the batch collected since the last request is never sent and
   * the stored progress stays below the number of lines.
   */
  lemma {:induction false} TrailingSkippedLine(bulk: Bulk, outs: seq<Outcome>, n: nat)
    requires n == |outs| && n > 0 && Run(bulk, outs, n - 1).failure.None?
    requires outs[n - 1].Skipped?
    ensures Run(bulk, outs, n) == Run(bulk, outs, n - 1).(read := n)
    ensures Run(bulk, outs, n).stored.GetOr(0) < n
  {
    RunAccounts(bulk, outs, n - 1);
  }

  /** The same, as the loop's outcome: no failure, and a stored progress short of the line count. */
  lemma {:induction false} TrailingSkippedStored(bulk: Bulk, outs: seq<Outcome>, n: nat)
    requires n == |outs| && n > 0 && Run(bulk, outs, n - 1).failure.None?
    requires outs[n - 1].Skipped?
    ensures Run(bulk, outs, n).failure.None? && Run(bulk, outs, n).stored.GetOr(0) < n
  {
    TrailingSkippedLine(bulk, outs, n);
  }

  /**
   * The stored progress never goes down: each accepted request stores the
   * number of lines read so far, which is at least what was stored before.
   */
  lemma {:induction false} StoredMonotone(bulk: Bulk, outs: seq<Outcome>, m: nat, n: nat)
    requires m <= n <= |outs|
    ensures Run(bulk, outs, m).stored.GetOr(0) <= Run(bulk, outs, n).stored.GetOr(0)
    ensures Run(bulk, outs, m).stored.Some? ==> Run(bulk, outs, n).stored.Some?
    decreases n - m
  {
    if m < n {
      StoredMonotone(bulk, outs, m, n - 1);
      RunAccounts(bulk, outs, n - 1);
    }
  }

  /** The progress option after the loop: the last stored value, or the one it had before. */
  function StoredProgress(b: Batch, previous: int): int {
    if b.stored.Some? then b.stored.value else previous
  }
}
