/**
 * One delivery on its way to the user's consumer: the context it is wrapped in, how it is
 * processed, and the reply sent back to the broker. The serializer and the user's handler are
 * parameters: the handler sees the context's id, attempt, data and the message set on it.
 */
module Deliveries {
  import opened Wrappers
  import opened Errors
  import opened Brokers

  /** `MessageContext<T>`: id, attempt and data are fixed at construction; the message is set later. */
  class MessageContext<T> {
    const id: string
    const attempt: int
    const data: Bytes
    /** `None` (the type's default value) until `SetMessage` runs. */
    var message: Option<T>

    constructor (id: string, attempt: int, data: Bytes)
      ensures this.id == id && this.attempt == attempt && this.data == data
      ensures message == None
    {
      this.id := id;
      this.attempt := attempt;
      this.data := data;
      message := None;
    }

    method SetMessage(message: T)
      modifies this
      ensures this.message == Some(message)
    {
      this.message := Some(message);
    }
  }

  datatype Reply = Ack | Nack

  /**
   * `ProcessMessage`: deserialize the context's data, set the result on the context, then run the
   * handler on that context; a failure of either propagates, and a failed deserialization leaves
   * the context untouched and the handler unrun.
   */
  method ProcessMessage<T>(context: MessageContext<T>, deserialize: Bytes -> Result<T, Error>,
                           handle: (string, int, Bytes, T) -> Outcome<Error>)
    returns (r: Outcome<Error>)
    modifies context
    ensures deserialize(context.data).Failure? ==>
              r == Fail(deserialize(context.data).error) && context.message == old(context.message)
    ensures deserialize(context.data).Success? ==>
              && context.message == Some(deserialize(context.data).value)
              && r == handle(context.id, context.attempt, context.data, context.message.value)
  {
    var data := deserialize(context.data);
    if data.Failure? {
      return Fail(data.error);
    }
    context.SetMessage(data.value);
    r := handle(context.id, context.attempt, context.data, context.message.value);
  }

  /**
   * `ConsumerHandler`: wraps the delivery in a fresh context (a missing delivery attempt counts as
   * 0), processes it, and acknowledges exactly when both deserialization and the handler succeeded.
   */
  method ConsumerHandler<T>(messageId: string, deliveryAttempt: Option<int>, data: Bytes,
                            deserialize: Bytes -> Result<T, Error>, handle: (string, int, Bytes, T) -> Outcome<Error>)
    returns (reply: Reply, attempt: int)
    ensures attempt == deliveryAttempt.GetOr(0)
    ensures reply == Ack <==> deserialize(data).Success? && handle(messageId, attempt, data, deserialize(data).value).Pass?
  {
    attempt := deliveryAttempt.GetOr(0);
    var context := new MessageContext(messageId, attempt, data);
    var processed := ProcessMessage(context, deserialize, handle);
    reply := if processed.Pass? then Ack else Nack;
  }
}
