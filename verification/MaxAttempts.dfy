/**
 Which max_attempts decides a message's fate. The documentation lets a message without one
 inherit the handler's; the client fills in its own default before the engine can.
 */
module MaxAttempts {
  import opened Rows
  import opened Outcomes

  /** What the client stores for a message. */
  function Stored(messageMax: int, clientDefault: int): int {
    if messageMax > 0 then messageMax else if clientDefault > 0 then clientDefault else 10
  }

  /** The enqueue request of the client. */
  function Request(p: EnqueueParams, clientDefault: int): EnqueueParams {
    p.(maxAttempts := Stored(p.maxAttempts, clientDefault))
  }

  /** Everything but the attempt limits that a fate depends on. */
  datatype Ending = Ending(err: Option<Err>, ctxDone: bool, stopping: bool, verdict: bool, policyDelay: int)

  function FateWith(e: Ending, l: Limits): Fate {
    FateOf(e.err, e.ctxDone, e.stopping, l, _ => e.verdict, e.policyDelay)
  }

  /**
   Every way a handler can end, at every attempt, has the documented fate: the handler's limit if
   the message has none.
   */
  ghost predicate AsDocumented(p: EnqueueParams, clientDefault: int, handlerMax: int) {
    forall e: Ending, attempt: int :: attempt >= 1 ==>
      FateWith(e, Limits(attempt, NewRow(Request(p, clientDefault), 0, 0).maxAttempts, handlerMax))
      == FateWith(e, Limits(attempt, p.maxAttempts, handlerMax))
  }

  /** A handler limit below one buries a message at its first failure, like one. */
  function AtLeastOne(n: int): int { if n < 1 then 1 else n }

  lemma SameLimit(e: Ending, attempt: int, a: Limits, b: Limits)
    requires attempt >= 1 && a.attempt == attempt == b.attempt && AtLeastOne(a.Max()) == AtLeastOne(b.Max())
    ensures FateWith(e, a) == FateWith(e, b)
  {
  }

  /** Between the two limits a plain failure is buried under one and retried under the other. */
  lemma BetweenLimits(p: EnqueueParams, clientDefault: int, handlerMax: int)
    requires p.maxAttempts <= 0 && AtLeastOne(handlerMax) != Stored(p.maxAttempts, clientDefault)
    ensures !AsDocumented(p, clientDefault, handlerMax)
  {
    var stored := Stored(p.maxAttempts, clientDefault);
    var attempt := if AtLeastOne(handlerMax) < stored then AtLeastOne(handlerMax) else stored;
    var e := Ending(Some(Plain("failed")), false, false, false, 0);
    assert FateWith(e, Limits(attempt, stored, handlerMax)) != FateWith(e, Limits(attempt, p.maxAttempts, handlerMax));
  }

  /**
   A message enqueued without a limit meets the documented fate at every attempt if and only
   if the handler's limit is the client's default.
   */
  lemma InheritsHandlerMaxIff(p: EnqueueParams, clientDefault: int, handlerMax: int)
    requires p.maxAttempts <= 0
    ensures AsDocumented(p, clientDefault, handlerMax)
       <==> (if handlerMax >= 1 then handlerMax else 1) == if clientDefault >= 1 then clientDefault else 10
  {
    if AtLeastOne(handlerMax) == Stored(p.maxAttempts, clientDefault) {
      forall e: Ending, attempt: int | attempt >= 1
        ensures FateWith(e, Limits(attempt, NewRow(Request(p, clientDefault), 0, 0).maxAttempts, handlerMax))
             == FateWith(e, Limits(attempt, p.maxAttempts, handlerMax))
      {
        SameLimit(e, attempt, Limits(attempt, Stored(p.maxAttempts, clientDefault), handlerMax),
                  Limits(attempt, p.maxAttempts, handlerMax));
      }
    } else {
      BetweenLimits(p, clientDefault, handlerMax);
    }
  }

  /** With the defaults, a handler limited to three attempts sees a fourth. */
  lemma RetriedPastHandlerMax(p: EnqueueParams, delay: int)
    requires p.maxAttempts == 0
    ensures var e := Ending(Some(Plain("failed")), false, false, false, delay);
            && FateWith(e, Limits(3, NewRow(Request(p, 0), 0, 0).maxAttempts, 3)) == RetryIn(delay)
            && FateWith(e, Limits(3, p.maxAttempts, 3)) == Dead
  {
  }
}
