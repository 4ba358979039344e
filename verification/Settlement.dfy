/** How one delivery is handled: run the handler, then retry, acknowledge or reject, and report what was done. */
module Settlement {
  import opened Options
  import opened Retry

  /** How a handler ends. A recovered panic is an ordinary error, never a non-retryable one. */
  datatype Outcome = Succeeded | Errored | NonRetryable | Panicked

  /** The calls a delivery makes on its channel. */
  datatype Call = PublishRetry(key: string, pub: Publishing) | Ack | Nack(requeue: bool)

  /** What becomes of the retry publish: only `Confirmed` is success. */
  datatype PublishReply = SendFailed | ConfirmsOff | WaitFailed | Refused | Confirmed

  datatype ConsumeResult = ConsumeResult(
    failed: bool, deadLettered: bool, nonRetryable: bool, acked: bool, nacked: bool, requeued: bool, retried: bool)

  const NO_RESULT: ConsumeResult := ConsumeResult(false, false, false, false, false, false, false)

  datatype Plan = Accept | Reject | Republish

  /** The decision taken on a handler's outcome. */
  function PlanFor(maxRetries: Int64, count: Int64, outcome: Outcome): Plan {
    if outcome == Succeeded then Accept
    else if outcome == NonRetryable || count >= maxRetries then Reject
    else Republish
  }

  /** The ways a delivery is settled. */
  datatype How = AckSuccess | AckRetried | DeadLetter | Requeue

  function SettleCall(how: How): Call {
    match how
    case AckSuccess | AckRetried => Ack
    case DeadLetter => Nack(false)
    case Requeue => Nack(true)
  }

  function Report(how: How, nonRetryable: bool): ConsumeResult {
    match how
    case AckSuccess => NO_RESULT.(acked := true)
    case AckRetried => NO_RESULT.(failed := true, nonRetryable := nonRetryable, acked := true, retried := true)
    case DeadLetter => NO_RESULT.(failed := true, nonRetryable := nonRetryable, deadLettered := true, nacked := true)
    case Requeue => NO_RESULT.(failed := true, nonRetryable := nonRetryable, nacked := true, requeued := true)
  }

  /**
   * The report tells the truth about the calls: one settlement, made last; acked, nacked, requeued and
   * dead-lettered exactly as it was made; retried exactly when an acknowledged failure was preceded by a
   * publish, and then the publish was confirmed.
   */
  predicate Honest(r: ConsumeResult, calls: seq<Call>, confirmed: bool) {
    && 1 <= |calls| <= 2
    && (|calls| == 2 ==> calls[0].PublishRetry?)
    && var last := calls[|calls| - 1];
    && !last.PublishRetry?
    && (r.acked <==> last == Ack)
    && (r.nacked <==> last.Nack?)
    && (r.requeued <==> last == Nack(true))
    && (r.deadLettered <==> last == Nack(false))
    && (r.retried <==> |calls| == 2 && last == Ack)
    && (r.retried <==> r.acked && r.failed)
    && (r.retried ==> confirmed)
  }

  /** The channel a delivery arrived on, with a record of the calls made on it. */
  class Channel {
    var calls: seq<Call>

    constructor ()
      ensures calls == []
    {
      calls := [];
    }

    method Settle(ack: bool, requeue: bool)
      modifies this
      ensures calls == old(calls) + [if ack then Ack else Nack(requeue)]
    {
      calls := calls + [if ack then Ack else Nack(requeue)];
    }

    method Publish(key: string, pub: Publishing)
      modifies this
      ensures calls == old(calls) + [PublishRetry(key, pub)]
    {
      calls := calls + [PublishRetry(key, pub)];
    }
  }

  /** The calls one delivery must lead to. */
  function ExpectedCalls(maxRetries: Int64, bindingKey: string, msg: Delivery, outcome: Outcome, reply: PublishReply)
    : seq<Call>
  {
    match PlanFor(maxRetries, Count(msg), outcome)
    case Accept => [Ack]
    case Reject => [Nack(false)]
    case Republish =>
      if Count(msg) == MAX_INT64 then assert false; []
      else
        match RetryPublishing(msg, Count(msg) + 1)
        case None => [Nack(true)]
        case Some(pub) =>
          [PublishRetry(RetryKey(msg.routingKey, bindingKey), pub), if reply == Confirmed then Ack else Nack(true)]
  }

  class Consumer {
    const maxRetries: Int64

    constructor (maxRetries: Int64)
      ensures this.maxRetries == maxRetries
    {
      this.maxRetries := maxRetries;
    }

    /** Runs the handler, turning a panic into an error. */
    method CallHandler(outcome: Outcome) returns (failed: bool, nonRetryable: bool)
      ensures failed <==> outcome != Succeeded
      ensures nonRetryable <==> outcome == NonRetryable
    {
      match outcome {
        case Succeeded => failed, nonRetryable := false, false;
        case Errored => failed, nonRetryable := true, false;
        case NonRetryable => failed, nonRetryable := true, true;
        case Panicked => failed, nonRetryable := true, false;
      }
    }

    /** Publishes the retry copy; true only for a confirmed one. */
    method RepublishWithRetry(ch: Channel, key: string, original: Delivery, newRetryCount: Int64, reply: PublishReply)
      returns (ok: bool)
      modifies ch
      ensures ok <==> RetryPublishing(original, newRetryCount).Some? && reply == Confirmed
      ensures ch.calls == old(ch.calls) +
                          match RetryPublishing(original, newRetryCount)
                          case None => []
                          case Some(pub) => [PublishRetry(key, pub)]
    {
      var headers := NextRetryHeaders(original.headers, newRetryCount);
      if headers == None {
        return false;
      }
      var pub := Publishing(
        headers.value, original.contentType, original.contentEncoding, original.deliveryMode, original.priority,
        original.correlationId, original.replyTo, original.expiration, original.messageId, original.timestamp,
        original.kind, original.userId, original.appId, original.body);
      if pub.deliveryMode == 0 {
        pub := pub.(deliveryMode := PERSISTENT);
      }
      ch.Publish(key, pub);
      return reply == Confirmed;
    }

    /** Decides between retry and dead-lettering for a failed delivery. */
    method HandleHandlerError(ch: Channel, key: string, msg: Delivery, retryCount: Int64, nonRetryable: bool,
                              reply: PublishReply)
      returns (outcome: ConsumeResult)
      modifies ch
      ensures outcome.failed && outcome.nonRetryable == nonRetryable
      ensures nonRetryable || retryCount >= maxRetries ==>
                ch.calls == old(ch.calls) + [Nack(false)] && outcome == Report(DeadLetter, nonRetryable)
      ensures !nonRetryable && retryCount < maxRetries ==>
                match RetryPublishing(msg, retryCount + 1)
                case None => ch.calls == old(ch.calls) + [Nack(true)] && outcome == Report(Requeue, false)
                case Some(pub) =>
                  var ok := reply == Confirmed;
                  && ch.calls == old(ch.calls) + [PublishRetry(key, pub), if ok then Ack else Nack(true)]
                  && outcome == Report(if ok then AckRetried else Requeue, false)
    {
      outcome := NO_RESULT.(failed := true, nonRetryable := nonRetryable);
      var retriesExhausted := retryCount >= maxRetries;
      if nonRetryable || retriesExhausted {
        ch.Settle(false, false);
        outcome := outcome.(deadLettered := true);
        outcome := outcome.(nacked := true);
        return;
      }
      var published := RepublishWithRetry(ch, key, msg, retryCount + 1, reply);
      if !published {
        ch.Settle(false, true);
        outcome := outcome.(nacked := true);
        outcome := outcome.(requeued := true);
        return;
      }
      ch.Settle(true, false);
      outcome := outcome.(acked := true);
      outcome := outcome.(retried := true);
    }

    /**
     * Processes one delivery. The new calls are the expected ones, and the report is honest about them: success is
     * acknowledged; a failure that may not be retried, or not any more, is rejected; any other is published
     * again, at most once, under the delivery's own key, or the binding key if that is empty.
     */
    method HandleDelivery(ch: Channel, bindingKey: string, msg: Delivery, handler: Outcome, reply: PublishReply)
      returns (result: ConsumeResult)
      modifies ch
      ensures ch.calls == old(ch.calls) + ExpectedCalls(maxRetries, bindingKey, msg, handler, reply)
      ensures Honest(result, ExpectedCalls(maxRetries, bindingKey, msg, handler, reply), reply == Confirmed)
      ensures result.failed <==> handler != Succeeded
      ensures result.nonRetryable <==> handler == NonRetryable
      ensures handler == Succeeded ==> ch.calls == old(ch.calls) + [Ack]
      ensures handler != Succeeded && (handler == NonRetryable || Count(msg) >= maxRetries) ==>
                ch.calls == old(ch.calls) + [Nack(false)]
      ensures (handler == Errored || handler == Panicked) && Count(msg) < maxRetries ==>
                && ch.calls[|ch.calls| - 1] == (if result.retried then Ack else Nack(true))
                && (result.retried <==> reply == Confirmed && NextRetryHeaders(msg.headers, Count(msg) + 1).Some?)
      ensures forall i :: |old(ch.calls)| <= i < |ch.calls| && ch.calls[i].PublishRetry? ==>
                ch.calls[i].key == if msg.routingKey != "" then msg.routingKey else bindingKey
    {
      var retryCount := ReadRetryCount(msg.headers);
      var deliveryRoutingKey := msg.routingKey;
      if deliveryRoutingKey == "" {
        deliveryRoutingKey := bindingKey;
      }
      result := NO_RESULT;
      var failed, nonRetryable := CallHandler(handler);
      if failed {
        result := HandleHandlerError(ch, deliveryRoutingKey, msg, retryCount, nonRetryable, reply);
      } else {
        ch.Settle(true, false);
        result := result.(acked := true);
      }
    }
  }
}
