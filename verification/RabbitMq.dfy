/** The broker client: the dispatch queue, and the retry queue whose expired messages fall back into it. */
module RabbitMq {
  import opened Domain
  import opened Backoff

  datatype RetryMessage = RetryMessage(id: Id, ttl: int)

  class RabbitMQClient {
    var dispatchQueue: seq<Id>
    var retryQueue: seq<RetryMessage>

    constructor ()
      ensures dispatchQueue == [] && retryQueue == []
    {
      dispatchQueue, retryQueue := [], [];
    }

    /** `up` is the broker's answer to the publish. */
    method PublishTask(id: Id, delayMins: int, up: bool) returns (ok: bool)
      modifies this
      ensures ok == up
      ensures up && delayMins > 0 ==>
                && dispatchQueue == old(dispatchQueue)
                && retryQueue == old(retryQueue) + [RetryMessage(id, WrapI32(WrapI32(delayMins * 60) * 1000))]
      ensures up && delayMins <= 0 ==> dispatchQueue == old(dispatchQueue) + [id] && retryQueue == old(retryQueue)
      ensures !up ==> dispatchQueue == old(dispatchQueue) && retryQueue == old(retryQueue)
    {
      if up {
        if delayMins > 0 {
          var expiration := WrapI32(WrapI32(delayMins * 60) * 1000);
          retryQueue := retryQueue + [RetryMessage(id, expiration)];
        } else {
          dispatchQueue := dispatchQueue + [id];
        }
      }
      ok := up;
    }

    method PublishDispatch(id: Id, up: bool) returns (ok: bool)
      modifies this
      ensures ok == up && retryQueue == old(retryQueue)
      ensures dispatchQueue == if up then old(dispatchQueue) + [id] else old(dispatchQueue)
    {
      ok := PublishTask(id, 0, up);
    }

    method PublishRetry(id: Id, delayMs: int, up: bool) returns (ok: bool)
      requires 0 <= delayMs < U32_LIMIT
      modifies this
      ensures ok == up
      ensures up ==>
        match Place(delayMs)
        case RetryAfter(ttl) =>
          dispatchQueue == old(dispatchQueue) && retryQueue == old(retryQueue) + [RetryMessage(id, ttl)]
        case DispatchNow =>
          dispatchQueue == old(dispatchQueue) + [id] && retryQueue == old(retryQueue)
      ensures !up ==> dispatchQueue == old(dispatchQueue) && retryQueue == old(retryQueue)
    {
      ok := PublishTask(id, WrapI32(delayMs / MINUTE), up);
    }
  }
}
