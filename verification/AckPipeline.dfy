/**
 The success path of an engine whose storage can batch acks: handlers post to a bounded
 channel, one flusher collects a buffer and hands it to BatchSucceed when it is full, on
 every tick, and once more when the channel is closed.
 */
module AckPipeline {
  import opened Protocol

  datatype Pipeline = Pipeline(
    chan: seq<Token>,
    closed: bool,
    buf: seq<Token>,
    done: bool,                 // the flusher has returned
    sends: seq<Token>,          // everything ever posted, in order
    flushes: seq<seq<Token>>)   // every batch handed to BatchSucceed, in order

  function Empty(): Pipeline { Pipeline([], false, [], false, [], []) }

  function Concat(bs: seq<seq<Token>>): seq<Token> {
    if bs == [] then [] else Concat(bs[..|bs| - 1]) + bs[|bs| - 1]
  }

  // ----- Steps -------------------------------------------------------------------------

  function Capacity(n: nat): nat { 4 * n }

  predicate CanSend(p: Pipeline, n: nat) { !p.closed && |p.chan| < Capacity(n) }

  function Send(p: Pipeline, x: Token): Pipeline {
    p.(chan := p.chan + [x], sends := p.sends + [x])
  }

  function Flush(p: Pipeline): Pipeline {
    if p.buf == [] then p else p.(buf := [], flushes := p.flushes + [p.buf])
  }

  predicate CanReceive(p: Pipeline) { !p.done && p.chan != [] }

  function Receive(p: Pipeline, n: nat): Pipeline
    requires p.chan != []
  {
    var q := p.(chan := p.chan[1..], buf := p.buf + [p.chan[0]]);
    if |q.buf| >= n then Flush(q) else q
  }

  /** A closed channel is still drained before the flusher sees it closed. */
  predicate CanFinish(p: Pipeline) { !p.done && p.closed && p.chan == [] }

  function Finish(p: Pipeline): Pipeline { Flush(p).(done := true) }

  // ----- Invariant ---------------------------------------------------------------------

  ghost predicate Inv(p: Pipeline, n: nat) {
    && Concat(p.flushes) + p.buf + p.chan == p.sends
    && |p.buf| < n && |p.chan| <= Capacity(n)
    && (forall k :: 0 <= k < |p.flushes| ==> 1 <= |p.flushes[k]| <= n)
    && (p.done ==> p.closed && p.chan == [] && p.buf == [])
  }

  lemma ConcatSnoc(bs: seq<seq<Token>>, b: seq<Token>)
    ensures Concat(bs + [b]) == Concat(bs) + b
  {
    assert (bs + [b])[..|bs|] == bs;
  }

  lemma FlushKeeps(p: Pipeline)
    ensures Concat(Flush(p).flushes) + Flush(p).buf == Concat(p.flushes) + p.buf
  {
    if p.buf != [] {
      ConcatSnoc(p.flushes, p.buf);
    }
  }

  lemma SendKeeps(p: Pipeline, n: nat, x: Token)
    requires Inv(p, n) && CanSend(p, n) && !p.done
    ensures Inv(Send(p, x), n)
  {
    assert Concat(p.flushes) + p.buf + (p.chan + [x]) == Concat(p.flushes) + p.buf + p.chan + [x];
  }

  lemma ReceiveKeeps(p: Pipeline, n: nat)
    requires Inv(p, n) && CanReceive(p)
    ensures Inv(Receive(p, n), n)
  {
    var q := p.(chan := p.chan[1..], buf := p.buf + [p.chan[0]]);
    assert Concat(p.flushes) + q.buf + q.chan == Concat(p.flushes) + p.buf + p.chan;
    FlushKeeps(q);
  }

  lemma TickKeeps(p: Pipeline, n: nat)
    requires Inv(p, n)
    ensures Inv(Flush(p), n)
  {
    FlushKeeps(p);
  }

  lemma FinishKeeps(p: Pipeline, n: nat)
    requires Inv(p, n) && CanFinish(p)
    ensures Inv(Finish(p), n)
  {
    FlushKeeps(p);
  }

  // ----- The flusher loop --------------------------------------------------------------

  /** What the flusher's select delivers until the channel is closed. */
  datatype Event = Got(x: Token) | Tick

  function Posted(es: seq<Event>): seq<Token> {
    if es == [] then []
    else Posted(es[..|es| - 1]) + (if es[|es| - 1].Got? then [es[|es| - 1].x] else [])
  }

  lemma PostedSnoc(es: seq<Event>, k: nat)
    requires k < |es|
    ensures Posted(es[..k + 1]) == Posted(es[..k]) + (if es[k].Got? then [es[k].x] else [])
  {
    assert es[..k + 1][..k] == es[..k];
  }

  /** What was received is what was flushed, in batches of 1 to n, and then what is buffered. */
  ghost predicate Collected(flushes: seq<seq<Token>>, buf: seq<Token>, got: seq<Token>, n: nat) {
    && Concat(flushes) + buf == got
    && forall k :: 0 <= k < |flushes| ==> 1 <= |flushes[k]| <= n
  }

  lemma CollectOne(flushes: seq<seq<Token>>, buf: seq<Token>, got: seq<Token>, n: nat, x: Token)
    requires Collected(flushes, buf, got, n)
    ensures Collected(flushes, buf + [x], got + [x], n)
  {
    assert Concat(flushes) + (buf + [x]) == Concat(flushes) + buf + [x];
  }

  lemma CollectFlush(flushes: seq<seq<Token>>, buf: seq<Token>, got: seq<Token>, n: nat)
    requires Collected(flushes, buf, got, n) && 1 <= |buf| <= n
    ensures Collected(flushes + [buf], [], got, n)
  {
    ConcatSnoc(flushes, buf);
  }

  /** At every tick so far, everything received had been handed over. */
  ghost predicate Emptied(es: seq<Event>, k: nat, flushes: seq<seq<Token>>)
    requires k <= |es|
  {
    forall j :: 0 <= j < k && es[j].Tick? ==> exists m :: 0 <= m <= |flushes| && Concat(flushes[..m]) == Posted(es[..j])
  }

  lemma EmptiedFlush(es: seq<Event>, k: nat, flushes: seq<seq<Token>>, b: seq<Token>)
    requires k <= |es| && Emptied(es, k, flushes)
    ensures Emptied(es, k, flushes + [b])
  {
    forall j | 0 <= j < k && es[j].Tick?
      ensures exists m :: 0 <= m <= |flushes + [b]| && Concat((flushes + [b])[..m]) == Posted(es[..j])
    {
      var m :| 0 <= m <= |flushes| && Concat(flushes[..m]) == Posted(es[..j]);
      assert (flushes + [b])[..m] == flushes[..m];
    }
  }

  lemma EmptiedNext(es: seq<Event>, k: nat, flushes: seq<seq<Token>>)
    requires k < |es| && Emptied(es, k, flushes) && (es[k].Tick? ==> Concat(flushes) == Posted(es[..k]))
    ensures Emptied(es, k + 1, flushes)
  {
    assert flushes[..|flushes|] == flushes;
  }

  /** Batch m is full, or was cut off by a tick. */
  ghost predicate Cut(es: seq<Event>, k: nat, n: nat, flushes: seq<seq<Token>>, m: nat)
    requires k <= |es| && m < |flushes|
  {
    |flushes[m]| == n || exists j :: 0 <= j < k && es[j].Tick? && Concat(flushes[..m + 1]) == Posted(es[..j])
  }

  lemma CutFlush(es: seq<Event>, k: nat, n: nat, flushes: seq<seq<Token>>, b: seq<Token>)
    requires k <= |es| && forall m :: 0 <= m < |flushes| ==> Cut(es, k, n, flushes, m)
    ensures forall m :: 0 <= m < |flushes| ==> Cut(es, k, n, flushes + [b], m)
  {
    forall m | 0 <= m < |flushes| ensures Cut(es, k, n, flushes + [b], m) {
      assert Cut(es, k, n, flushes, m);
      assert (flushes + [b])[..m + 1] == flushes[..m + 1];
    }
  }

  lemma CutNext(es: seq<Event>, k: nat, next: nat, n: nat, flushes: seq<seq<Token>>)
    requires k < |es| && next == k + 1 && (forall m :: 0 <= m < |flushes| - 1 ==> Cut(es, k, n, flushes, m))
    requires flushes != [] ==>
               || Cut(es, k, n, flushes, |flushes| - 1)
               || (es[k].Tick? && Concat(flushes) == Posted(es[..k]))
    ensures forall m :: 0 <= m < |flushes| ==> Cut(es, next, n, flushes, m)
  {
    assert flushes[..|flushes|] == flushes;
    forall m | 0 <= m < |flushes| ensures Cut(es, next, n, flushes, m) {
      if m < |flushes| - 1 || Cut(es, k, n, flushes, m) { assert Cut(es, k, n, flushes, m); }
    }
  }

  /** So far the flusher has done its work: everything is handed over or buffered, in batches that are full or cut. */
  ghost predicate Flushed(es: seq<Event>, k: nat, n: nat, flushes: seq<seq<Token>>, buf: seq<Token>)
    requires k <= |es|
  {
    && Collected(flushes, buf, Posted(es[..k]), n) && |buf| < n
    && Emptied(es, k, flushes) && forall m :: 0 <= m < |flushes| ==> Cut(es, k, n, flushes, m)
  }

  lemma Received(es: seq<Event>, k: nat, n: nat, flushes: seq<seq<Token>>, buf: seq<Token>)
    requires k < |es| && es[k].Got? && Flushed(es, k, n, flushes, buf)
    ensures |buf| + 1 < n ==> Flushed(es, k + 1, n, flushes, buf + [es[k].x])
    ensures |buf| + 1 >= n ==> Flushed(es, k + 1, n, flushes + [buf + [es[k].x]], [])
  {
    var b := buf + [es[k].x];
    PostedSnoc(es, k);
    CollectOne(flushes, buf, Posted(es[..k]), n, es[k].x);
    if |b| < n {
      EmptiedNext(es, k, flushes);
      CutNext(es, k, k + 1, n, flushes);
    } else {
      CollectFlush(flushes, b, Posted(es[..k + 1]), n);
      EmptiedFlush(es, k, flushes, b);
      EmptiedNext(es, k, flushes + [b]);
      CutFlush(es, k, n, flushes, b);
      assert (flushes + [b])[|flushes|] == b;
      CutNext(es, k, k + 1, n, flushes + [b]);
    }
  }

  lemma Ticked(es: seq<Event>, k: nat, n: nat, flushes: seq<seq<Token>>, buf: seq<Token>)
    requires k < |es| && es[k].Tick? && Flushed(es, k, n, flushes, buf)
    ensures buf == [] ==> Flushed(es, k + 1, n, flushes, [])
    ensures buf != [] ==> Flushed(es, k + 1, n, flushes + [buf], [])
  {
    PostedSnoc(es, k);
    if buf == [] {
      EmptiedNext(es, k, flushes);
      CutNext(es, k, k + 1, n, flushes);
    } else {
      CollectFlush(flushes, buf, Posted(es[..k]), n);
      EmptiedFlush(es, k, flushes, buf);
      EmptiedNext(es, k, flushes + [buf]);
      CutFlush(es, k, n, flushes, buf);
      CutNext(es, k, k + 1, n, flushes + [buf]);
    }
  }

  /**
   Every posted ack is handed over exactly once, in order, in batches of 1 to n. A tick leaves
   nothing behind, and only a tick or the end cuts a batch short.
   */
  method AckFlusher(es: seq<Event>, n: nat) returns (flushes: seq<seq<Token>>)
    requires n >= 1
    ensures Concat(flushes) == Posted(es)
    ensures forall k :: 0 <= k < |flushes| ==> 1 <= |flushes[k]| <= n
    ensures Emptied(es, |es|, flushes)
    ensures forall m :: 0 <= m < |flushes| - 1 ==> Cut(es, |es|, n, flushes, m)
  {
    flushes := [];
    var buf: seq<Token> := [];
    for k := 0 to |es|
      invariant Flushed(es, k, n, flushes, buf)
    {
      match es[k]
      case Got(x) =>
        Received(es, k, n, flushes, buf);
        buf := buf + [x];
        if |buf| >= n {
          flushes, buf := flushes + [buf], [];
        }
      case Tick =>
        Ticked(es, k, n, flushes, buf);
        if |buf| > 0 {
          flushes, buf := flushes + [buf], [];
        }
    }
    assert es[..|es|] == es;
    if |buf| > 0 {
      CollectFlush(flushes, buf, Posted(es), n);
      EmptiedFlush(es, |es|, flushes, buf);
      CutFlush(es, |es|, n, flushes, buf);
      flushes := flushes + [buf];
    }
  }
}
