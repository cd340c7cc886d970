/**
 * The result dispatcher of both SDKs: network callbacks post tagged
 * messages to the main thread's queue, and the main thread hands each
 * message, in order, to `handleMessage`, which calls at most one
 * listener. The two SDKs differ in one line: Appbooster tags an error
 * message ON_SUCCESS, so the error listener it carries is never called.
 */
module Dispatch {
  import opened Wrappers
  import opened Models

  const ON_SUCCESS := 0
  const ON_ERROR := 1

  /** Listener objects, told apart by identity. */
  datatype SuccessListener = SuccessListener(id: nat)
  datatype ErrorListener = ErrorListener(id: nat)

  /** The `Result` object a message carries. */
  datatype Payload = Payload(onSuccess: Option<SuccessListener>, onError: Option<ErrorListener>, th: Option<SdkError>)

  /** An Android message: its `what` tag and its `obj`. */
  datatype Message = Message(what: int, obj: Option<Payload>)

  /** What handling one message does. */
  datatype Invocation =
    | NoCall
    | CallSuccess(successListener: SuccessListener)
    | CallError(errorListener: ErrorListener, th: SdkError)
    | NullDereference   // `th!!` on a message without a throwable

  /** The message `sendSuccess` posts; SuccessIsDelivered and DeliveredOutcomes say what handling it does. */
  function SuccessMessage(listener: SuccessListener): (m: Message)
    ensures m.what == ON_SUCCESS && m.obj == Some(Payload(Some(listener), None, None))
  {
    Message(ON_SUCCESS, Some(Payload(Some(listener), None, None)))
  }

  /** The message `sendError` posts: tagged ON_ERROR by Proba, but ON_SUCCESS by Appbooster. */
  function ErrorMessage(variant: Variant, listener: ErrorListener, th: SdkError): (m: Message)
    ensures m.obj == Some(Payload(None, Some(listener), Some(th)))
    ensures m.what == ON_ERROR <==> variant == Proba
    ensures variant == Appbooster ==> m.what == ON_SUCCESS
  {
    Message(if variant == Proba then ON_ERROR else ON_SUCCESS, Some(Payload(None, Some(listener), Some(th))))
  }

  /** `handleMessage`: dispatch on the tag, then call the listener the payload carries for that tag, if any. */
  function HandleMessage(m: Message): (r: Invocation)
    ensures r.CallSuccess? ==> m.what == ON_SUCCESS && m.obj.Some? && m.obj.value.onSuccess == Some(r.successListener)
    ensures r.CallError? ==> m.what == ON_ERROR && m.obj.Some? &&
                             m.obj.value.onError == Some(r.errorListener) && m.obj.value.th == Some(r.th)
    ensures r.NullDereference? <==> m.what == ON_ERROR && m.obj.Some? && m.obj.value.onError.Some? && m.obj.value.th.None?
  {
    if m.obj.None? then NoCall
    else if m.what == ON_SUCCESS then
      if m.obj.value.onSuccess.Some? then CallSuccess(m.obj.value.onSuccess.value) else NoCall
    else if m.what == ON_ERROR then
      if m.obj.value.onError.None? then NoCall
      else if m.obj.value.th.None? then NullDereference
      else CallError(m.obj.value.onError.value, m.obj.value.th.value)
    else NoCall
  }

  /** The two tags are distinct. */
  lemma TagsDistinct()
    ensures ON_SUCCESS == 0 && ON_ERROR == 1 && ON_SUCCESS != ON_ERROR
  {
  }

  /** A success message calls its success listener once and no error listener, in both SDKs. */
  lemma SuccessIsDelivered(l: SuccessListener)
    ensures HandleMessage(SuccessMessage(l)) == CallSuccess(l)
  {
  }

  /** Proba: an error message calls its error listener with exactly the throwable it was sent with. */
  lemma ProbaErrorIsDelivered(l: ErrorListener, th: SdkError)
    ensures HandleMessage(ErrorMessage(Proba, l, th)) == CallError(l, th)
  {
  }

  /** Appbooster: an error message lands in the ON_SUCCESS branch, finds no success listener, and calls nothing. */
  lemma AppboosterErrorIsDropped(l: ErrorListener, th: SdkError)
    ensures HandleMessage(ErrorMessage(Appbooster, l, th)) == NoCall
  {
  }

  /** Any other tag, or a message without payload, calls nothing. */
  lemma OtherMessagesIgnored(m: Message)
    requires m.obj.None? || (m.what != ON_SUCCESS && m.what != ON_ERROR)
    ensures HandleMessage(m) == NoCall
  {
  }

  /** Handling either send's message never crashes, and calls a listener of the matching kind or none. */
  lemma SentMessagesAreSafe(variant: Variant, s: SuccessListener, e: ErrorListener, th: SdkError)
    ensures HandleMessage(SuccessMessage(s)) != NullDereference
    ensures HandleMessage(ErrorMessage(variant, e, th)) != NullDereference
    ensures !HandleMessage(ErrorMessage(variant, e, th)).CallSuccess?
    ensures !HandleMessage(SuccessMessage(s)).CallError?
  {
  }

  /** The outcome a fetch reports. */
  datatype Outcome = Succeeded | Failed(th: SdkError)

  /** The message a fetch posts for an outcome. */
  function MessageFor(variant: Variant, outcome: Outcome, s: SuccessListener, e: ErrorListener): Message
  {
    match outcome
    case Succeeded => SuccessMessage(s)
    case Failed(th) => ErrorMessage(variant, e, th)
  }

  function MessagesFor(variant: Variant, outcomes: seq<Outcome>, s: SuccessListener, e: ErrorListener): (ms: seq<Message>)
    ensures |ms| == |outcomes|
    ensures forall i :: 0 <= i < |outcomes| ==> ms[i] == MessageFor(variant, outcomes[i], s, e)
  {
    if outcomes == [] then [] else [MessageFor(variant, outcomes[0], s, e)] + MessagesFor(variant, outcomes[1..], s, e)
  }

  /** Handling each message of a queue in order. */
  function HandleAll(queue: seq<Message>): (r: seq<Invocation>)
    ensures |r| == |queue|
    ensures forall i :: 0 <= i < |queue| ==> r[i] == HandleMessage(queue[i])
  {
    if queue == [] then [] else [HandleMessage(queue[0])] + HandleAll(queue[1..])
  }

  /** What the listeners see of a fetch's outcomes: Proba reports each one; Appbooster only successes. */
  lemma {:induction false} DeliveredOutcomes(variant: Variant, outcomes: seq<Outcome>, s: SuccessListener, e: ErrorListener)
    ensures forall i :: 0 <= i < |outcomes| ==>
              HandleAll(MessagesFor(variant, outcomes, s, e))[i] ==
              match outcomes[i]
              case Succeeded => CallSuccess(s)
              case Failed(th) => if variant == Proba then CallError(e, th) else NoCall
  {
    forall i | 0 <= i < |outcomes|
      ensures HandleAll(MessagesFor(variant, outcomes, s, e))[i] ==
              match outcomes[i]
              case Succeeded => CallSuccess(s)
              case Failed(th) => if variant == Proba then CallError(e, th) else NoCall
    {
      match outcomes[i]
      case Succeeded => SuccessIsDelivered(s);
      case Failed(th) =>
        if variant == Proba { ProbaErrorIsDelivered(e, th); } else { AppboosterErrorIsDropped(e, th); }
    }
  }

  /** A `Handler` bound to the main looper: its pending messages, oldest first. */
  class Handler {
    const variant: Variant
    var queue: seq<Message>

    constructor (variant: Variant)
      ensures this.variant == variant && queue == []
    {
      this.variant := variant;
      queue := [];
    }

    /** `sendSuccess(listener)`: posts a success message. */
    method SendSuccess(listener: SuccessListener)
      modifies this
      ensures queue == old(queue) + [SuccessMessage(listener)]
    {
      queue := queue + [SuccessMessage(listener)];
    }

    /** `sendError(listener, th)`: posts an error message, tagged as this SDK tags it. */
    method SendError(listener: ErrorListener, th: SdkError)
      modifies this
      ensures queue == old(queue) + [ErrorMessage(variant, listener, th)]
    {
      queue := queue + [ErrorMessage(variant, listener, th)];
    }

    /** One turn of the main looper: take the oldest message and handle it; nothing when the queue is empty. */
    method Handle() returns (handled: Option<Invocation>)
      modifies this
      ensures old(queue) == [] ==> handled == None && queue == []
      ensures old(queue) != [] ==> handled == Some(HandleMessage(old(queue)[0])) && queue == old(queue)[1..]
    {
      if queue == [] {
        handled := None;
      } else {
        handled := Some(HandleMessage(queue[0]));
        queue := queue[1..];
      }
    }

    /** Run the looper until the queue is empty: messages are handled in the order they were posted. */
    method Drain() returns (calls: seq<Invocation>)
      modifies this
      ensures calls == HandleAll(old(queue)) && queue == []
    {
      calls := [];
      while queue != []
        invariant HandleAll(old(queue)) == calls + HandleAll(queue)
        decreases |queue|
      {
        var h := Handle();
        calls := calls + [h.value];
      }
    }
  }
}
