/**
 From a handler's error to the message's fate. Errors are trees: a wrapper has one inner
 error, a join has several, and errors.As / errors.Is search them in pre-order.
 */
module Outcomes {
  import opened Rows

  datatype Err =
    | Plain(text: string)
    | Canceled
    | SkipErr(reason: string)
    | RetryAfterErr(delay: int, inner: Err)
    | DeadLetterErr(inner: Err)
    | Wrapped(text: string, inner: Err)
    | Joined(errs: seq<Err>)

  // ----- Searching the chain -----------------------------------------------------------

  datatype Kind = IsSkip | IsRetryAfter | IsDeadLetter | IsCanceled

  predicate OfKind(k: Kind, e: Err) {
    match k
    case IsSkip => e.SkipErr?
    case IsRetryAfter => e.RetryAfterErr?
    case IsDeadLetter => e.DeadLetterErr?
    case IsCanceled => e.Canceled?
  }

  /** errors.As: the error itself, else whatever it unwraps to. */
  function As(k: Kind, e: Err): Option<Err>
    decreases e, 0
  {
    if OfKind(k, e) then Some(e)
    else
      match e
      case RetryAfterErr(_, inner) => As(k, inner)
      case DeadLetterErr(inner) => As(k, inner)
      case Wrapped(_, inner) => As(k, inner)
      case Joined(errs) => AsAny(k, errs)
      case _ => None
  }

  function AsAny(k: Kind, es: seq<Err>): Option<Err>
    decreases es, 0
  {
    if es == [] then None
    else
      var first := As(k, es[0]);
      if first.Some? then first else AsAny(k, es[1..])
  }

  function ExtractRetryAfter(e: Err): Option<int> {
    match As(IsRetryAfter, e)
    case Some(RetryAfterErr(d, _)) => Some(d)
    case _ => None
  }

  // ----- The tree, laid out ------------------------------------------------------------

  /** All errors in the tree, outermost first. */
  function Preorder(e: Err): seq<Err>
    decreases e, 0
  {
    [e] + match e
          case RetryAfterErr(_, inner) => Preorder(inner)
          case DeadLetterErr(inner) => Preorder(inner)
          case Wrapped(_, inner) => Preorder(inner)
          case Joined(errs) => PreorderAll(errs)
          case _ => []
  }

  function PreorderAll(es: seq<Err>): seq<Err>
    decreases es, 0
  {
    if es == [] then [] else Preorder(es[0]) + PreorderAll(es[1..])
  }

  /** e is the outermost error of its kind in the listing. */
  ghost predicate FirstOfKind(k: Kind, nodes: seq<Err>, found: Option<Err>) {
    match found
    case None => forall i :: 0 <= i < |nodes| ==> !OfKind(k, nodes[i])
    case Some(e) =>
      exists i :: 0 <= i < |nodes| && nodes[i] == e && OfKind(k, e) && forall j :: 0 <= j < i ==> !OfKind(k, nodes[j])
  }

  lemma FirstAppend(k: Kind, a: seq<Err>, x: Option<Err>, b: seq<Err>, y: Option<Err>)
    requires FirstOfKind(k, a, x) && FirstOfKind(k, b, y)
    ensures FirstOfKind(k, a + b, if x.Some? then x else y)
  {
    if x.Some? {
      var i :| 0 <= i < |a| && a[i] == x.value && forall j :: 0 <= j < i ==> !OfKind(k, a[j]);
      assert (a + b)[i] == x.value;
    } else if y.Some? {
      var i :| 0 <= i < |b| && b[i] == y.value && forall j :: 0 <= j < i ==> !OfKind(k, b[j]);
      assert (a + b)[|a| + i] == y.value;
      assert forall j :: 0 <= j < |a| + i ==> !OfKind(k, (a + b)[j]);
    }
  }

  /** The search finds the first match in pre-order, and finds one whenever there is one. */
  lemma {:induction false} AsIsFirst(k: Kind, e: Err)
    ensures FirstOfKind(k, Preorder(e), As(k, e))
    decreases e, 0
  {
    if OfKind(k, e) {
      assert Preorder(e)[0] == e;
    } else {
      assert FirstOfKind(k, [e], None);
      match e {
        case RetryAfterErr(_, inner) =>
          AsIsFirst(k, inner);
          FirstAppend(k, [e], None, Preorder(inner), As(k, inner));
        case DeadLetterErr(inner) =>
          AsIsFirst(k, inner);
          FirstAppend(k, [e], None, Preorder(inner), As(k, inner));
        case Wrapped(_, inner) =>
          AsIsFirst(k, inner);
          FirstAppend(k, [e], None, Preorder(inner), As(k, inner));
        case Joined(errs) =>
          AsAnyIsFirst(k, errs);
          FirstAppend(k, [e], None, PreorderAll(errs), AsAny(k, errs));
        case _ =>
      }
    }
  }

  lemma {:induction false} AsAnyIsFirst(k: Kind, es: seq<Err>)
    ensures FirstOfKind(k, PreorderAll(es), AsAny(k, es))
    decreases es, 0
  {
    if es != [] {
      AsIsFirst(k, es[0]);
      AsAnyIsFirst(k, es[1..]);
      FirstAppend(k, Preorder(es[0]), As(k, es[0]), PreorderAll(es[1..]), AsAny(k, es[1..]));
    }
  }

  // ----- Resolving and committing ------------------------------------------------------

  datatype Outcome = OutcomeSuccess | OutcomeRetry | OutcomeCanceled

  /** `ctxDone`: the worker's context has ended; `stopping`: drain has begun. */
  function ResolveOutcome(err: Option<Err>, ctxDone: bool, stopping: bool): Outcome {
    if err.None? then OutcomeSuccess
    else if As(IsSkip, err.value).Some? then OutcomeSuccess
    else if As(IsCanceled, err.value).Some? && ctxDone && stopping then OutcomeCanceled
    else OutcomeRetry
  }

  /** What commitOutcome writes for one message. */
  datatype Fate = Success | Released | Dead | RetryIn(delay: int)

  /** Attempt counters of the message and the handler's own settings. */
  datatype Limits = Limits(attempt: int, messageMax: int, handlerMax: int)
  {
    function Max(): int { if messageMax <= 0 then handlerMax else messageMax }
  }

  function CommitOutcome(err: Option<Err>, outcome: Outcome, l: Limits, deadLetterIf: Err -> bool,
                         policyDelay: int): Fate
    requires outcome.OutcomeRetry? ==> err.Some?
  {
    match outcome
    case OutcomeSuccess => Success
    case OutcomeCanceled => Released
    case OutcomeRetry =>
      var e := err.value;
      if As(IsDeadLetter, e).Some? || deadLetterIf(e) || l.attempt >= l.Max() then Dead
      else RetryIn(var d := ExtractRetryAfter(e); if d.Some? then d.value else policyDelay)
  }

  function FateOf(err: Option<Err>, ctxDone: bool, stopping: bool, l: Limits, deadLetterIf: Err -> bool,
                  policyDelay: int): Fate {
    CommitOutcome(err, ResolveOutcome(err, ctxDone, stopping), l, deadLetterIf, policyDelay)
  }

  // ----- Classification ----------------------------------------------------------------

  ghost predicate Contains(k: Kind, e: Err) {
    exists i :: 0 <= i < |Preorder(e)| && OfKind(k, Preorder(e)[i])
  }

  /** The handler reported success: no error, or a Skip anywhere in it. */
  ghost predicate Benign(err: Option<Err>) {
    err.None? || Contains(IsSkip, err.value)
  }

  lemma ContainsIffFound(k: Kind, e: Err)
    ensures Contains(k, e) <==> As(k, e).Some?
  {
    AsIsFirst(k, e);
  }

  /** The four fates, each exactly when its condition on the whole error tree holds. */
  lemma Classification(err: Option<Err>, ctxDone: bool, stopping: bool, l: Limits, deadLetterIf: Err -> bool,
                       policyDelay: int)
    ensures var f := FateOf(err, ctxDone, stopping, l, deadLetterIf, policyDelay);
            && (f == Success <==> Benign(err))
            && (f == Released <==> !Benign(err) && Contains(IsCanceled, err.value) && ctxDone && stopping)
            && (!Benign(err) && f != Released ==>
              && (f == Dead <==> Contains(IsDeadLetter, err.value) || deadLetterIf(err.value) || l.attempt >= l.Max())
              && (f.RetryIn? && !Contains(IsRetryAfter, err.value) ==> f.delay == policyDelay)
              && (f.RetryIn? && Contains(IsRetryAfter, err.value) ==>
                exists i :: 0 <= i < |Preorder(err.value)| && Preorder(err.value)[i].RetryAfterErr?
                  && Preorder(err.value)[i].delay == f.delay
                  && forall j :: 0 <= j < i ==> !Preorder(err.value)[j].RetryAfterErr?))
  {
    if err.Some? {
      ContainsIffFound(IsSkip, err.value);
      ContainsIffFound(IsCanceled, err.value);
      ContainsIffFound(IsDeadLetter, err.value);
      ContainsIffFound(IsRetryAfter, err.value);
      AsIsFirst(IsRetryAfter, err.value);
    }
  }

  // ----- Wrapping ----------------------------------------------------------------------

  function Layers(texts: seq<string>, e: Err): Err {
    if texts == [] then e else Wrapped(texts[0], Layers(texts[1..], e))
  }

  lemma {:induction false} LayersFound(k: Kind, texts: seq<string>, e: Err)
    ensures As(k, Layers(texts, e)) == As(k, e)
    decreases |texts|
  {
    if texts != [] {
      LayersFound(k, texts[1..], e);
    }
  }

  /** Any number of %w layers leaves the fate unchanged, unless the caller's predicate tells them apart. */
  lemma WrappingInvariant(texts: seq<string>, e: Err, ctxDone: bool, stopping: bool, l: Limits,
                          deadLetterIf: Err -> bool, policyDelay: int)
    requires deadLetterIf(Layers(texts, e)) == deadLetterIf(e)
    ensures FateOf(Some(Layers(texts, e)), ctxDone, stopping, l, deadLetterIf, policyDelay)
         == FateOf(Some(e), ctxDone, stopping, l, deadLetterIf, policyDelay)
  {
    LayersFound(IsSkip, texts, e);
    LayersFound(IsCanceled, texts, e);
    LayersFound(IsDeadLetter, texts, e);
    LayersFound(IsRetryAfter, texts, e);
  }

  /** How a handler call can end; safeInvoke turns a panic into an error. */
  datatype HandlerEnd = Returned(err: Option<Err>) | PanicError(e: Err) | PanicValue(text: string)

  function SafeInvoke(end: HandlerEnd): Option<Err> {
    match end
    case Returned(err) => err
    case PanicError(e) => Some(Wrapped("tickr: handler panic", e))
    case PanicValue(text) => Some(Plain("tickr: handler panic: " + text))
  }

  /**
   A panic with an error counts as returning it; a panic with any other value never passes for
   success or shutdown.
   */
  lemma PanicFate(end: HandlerEnd, ctxDone: bool, stopping: bool, l: Limits, deadLetterIf: Err -> bool,
                  policyDelay: int)
    requires end.PanicError? ==> deadLetterIf(Wrapped("tickr: handler panic", end.e)) == deadLetterIf(end.e)
    ensures var f := FateOf(SafeInvoke(end), ctxDone, stopping, l, deadLetterIf, policyDelay);
            && (end.PanicError? ==> f == FateOf(Some(end.e), ctxDone, stopping, l, deadLetterIf, policyDelay))
            && (end.PanicValue? ==> f == Dead || f == RetryIn(policyDelay))
  {
    if end.PanicError? {
      assert Layers(["tickr: handler panic"], end.e) == Wrapped("tickr: handler panic", Layers([], end.e));
      WrappingInvariant(["tickr: handler panic"], end.e, ctxDone, stopping, l, deadLetterIf, policyDelay);
    }
  }
}
