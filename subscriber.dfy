/**
 * The message consumer: the acknowledge / negatively-acknowledge decision of
 * the subscription callback, and the subscription state of the subscriber.
 * JSON decoding is not modelled; the callback is handed what decoding gave.
 * Broker answers (a subscription handle, an unsubscribe failure) are parameters.
 */
module Nats {
  import opened Wrappers
  import opened Errors
  import opened Domain
  import opened Repository
  import opened Cache
  import opened Service

  const SubscribeFailed := "failed to subscribe"
  const NotSubscribed := "not subscribed to any subject"
  const UnsubscribeFailed := "failed to unsubscribe"

  /** How a message ends: exactly one of the two. */
  datatype Reply = Ack | Nak

  /** What happened to a message before the reply: decoding failed, or `CreateOrder` returned this. */
  datatype Outcome = DecodeFailed(error: Error) | Processed(result: Option<Error>)

  /**
   * The decision as the callback writes it: the validation branch is taken
   * only when the error's outermost dynamic type is `validator.ValidationErrors`.
   */
  function DecideAsWritten(outcome: Outcome): (reply: Reply)
    ensures reply == Ack <==> outcome.Processed? && (outcome.result.None? || IsValidationErrors(outcome.result.value))
  {
    match outcome
    case DecodeFailed(_) => Nak
    case Processed(None) => Ack
    case Processed(Some(e)) => if IsValidationErrors(e) then Ack else Nak
  }

  /**
   * The decision the callback intends: a validation failure anywhere on the
   * error's `%w` chain (`errors.As`) is acknowledged, so the broker does not
   * redeliver data that can never become valid.
   */
  function Decide(outcome: Outcome): (reply: Reply)
    ensures outcome.DecodeFailed? ==> reply == Nak
    ensures outcome.Processed? && outcome.result.None? ==> reply == Ack
    ensures outcome.Processed? && outcome.result.Some? ==>
      (reply == Ack <==> exists i :: 0 <= i < |Chain(outcome.result.value)| && IsValidationErrors(Chain(outcome.result.value)[i]))
  {
    match outcome
    case DecodeFailed(_) => Nak
    case Processed(None) => Ack
    case Processed(Some(e)) =>
      AsValidationErrorsSearchesChain(e);
      if AsValidationErrors(e) then Ack else Nak
  }

  /** As written, every error `CreateOrder` can return is negatively acknowledged, so its validation branch is dead. */
  lemma AsWrittenNaksEveryCreateError(verdict: Verdict, saveFault: Option<Error>)
    requires CreateResult(verdict, saveFault).Some?
    ensures DecideAsWritten(Processed(CreateResult(verdict, saveFault))) == Nak
  {
  }

  /** The discrepancy on one input: an order the validator rejects is redelivered as written. */
  lemma AsWrittenNaksValidationFailure()
    ensures var rejected := CreateResult(Rejected(["OrderUID"]), None);
      && DecideAsWritten(Processed(rejected)) == Nak
      && Decide(Processed(rejected)) == Ack
  {
  }

  /** With `errors.As`, the consumer follows the four-outcome acknowledgement policy. */
  lemma DecideFollowsAckPolicy(verdict: Verdict, saveFault: Option<Error>)
    requires saveFault.Some? ==> !AsValidationErrors(saveFault.value)
    ensures verdict.Rejected? ==> Decide(Processed(CreateResult(verdict, saveFault))) == Ack
    ensures verdict.Accepted? && saveFault.Some? ==> Decide(Processed(CreateResult(verdict, saveFault))) == Nak
    ensures verdict.Accepted? && saveFault.None? ==> Decide(Processed(CreateResult(verdict, saveFault))) == Ack
  {
    if verdict.Rejected? {
      assert AsValidationErrors(Wrapped(InvalidOrderData, ValidationErrors(verdict.violations)));
    } else if saveFault.Some? {
      assert !AsValidationErrors(Wrapped(SaveFailed, saveFault.value));
    }
  }

  /** An opaque handle the broker returns for a subscription. */
  datatype Subscription = Subscription(handle: nat)

  class Subscriber {
    const service: OrderService
    var sub: Option<Subscription>
    var subject: string

    /** Not subscribed means no subject is recorded. */
    ghost predicate Valid()
      reads this
    {
      sub.None? ==> subject == ""
    }

    /** `NewSubscriber`: not subscribed. */
    constructor (service: OrderService)
      ensures Valid() && this.service == service && sub.None? && subject == ""
    {
      this.service := service;
      sub := None;
      subject := "";
    }

    /**
     * `Subscribe`: `broker` is what `js.Subscribe` answered. On success the
     * handle and subject are recorded (replacing any earlier ones); on
     * failure both stay as they were.
     */
    method Subscribe(subject: string, broker: Result<Subscription, Error>) returns (err: Option<Error>)
      requires Valid()
      modifies this
      ensures Valid()
      ensures broker.Failure? ==>
        err == Some(Wrapped(SubscribeFailed, broker.error)) && sub == old(sub) && this.subject == old(this.subject)
      ensures broker.Success? ==> err.None? && sub == Some(broker.value) && this.subject == subject
    {
      if broker.Failure? {
        return Some(Wrapped(SubscribeFailed, broker.error));
      }
      sub := Some(broker.value);
      this.subject := subject;
      return None;
    }

    /**
     * `Unsubscribe`: `brokerFault` is what `sub.Unsubscribe()` answered. Not
     * subscribed is an error; a broker failure keeps the state; success
     * clears the handle and the subject.
     */
    method Unsubscribe(brokerFault: Option<Error>) returns (err: Option<Error>)
      requires Valid()
      modifies this
      ensures Valid()
      ensures old(sub).None? ==> err == Some(Plain(NotSubscribed)) && sub == old(sub) && subject == old(subject) == ""
      ensures old(sub).Some? && brokerFault.Some? ==>
        err == Some(Wrapped(UnsubscribeFailed, brokerFault.value)) && sub == old(sub) && subject == old(subject)
      ensures old(sub).Some? && brokerFault.None? ==> err.None? && sub.None? && subject == ""
    {
      if sub.None? {
        return Some(Plain(NotSubscribed));
      }
      if brokerFault.Some? {
        return Some(Wrapped(UnsubscribeFailed, brokerFault.value));
      }
      sub := None;
      subject := "";
      return None;
    }

    /**
     * The subscription callback for one message: `decoded` is what
     * unmarshalling the payload gave, `saveFault` what the store answers.
     * A decode failure is negatively acknowledged without calling the service.
     */
    method HandleMessage(decoded: Result<Order, Error>, saveFault: Option<Error>) returns (reply: Reply)
      requires service.Valid()
      modifies service.repo, service.cache
      ensures service.Valid()
      ensures decoded.Failure? ==>
        reply == Nak && service.repo.orders == old(service.repo.orders) && service.cache.entries == old(service.cache.entries)
      ensures decoded.Success? ==>
        var err := CreateResult(service.validate(decoded.value), saveFault);
        && reply == Decide(Processed(err))
        && (err.None? ==>
             && service.repo.orders == old(service.repo.orders)[decoded.value.orderUID := decoded.value]
             && service.cache.entries == old(service.cache.entries)[decoded.value.orderUID := decoded.value])
        && (err.Some? ==> service.repo.orders == old(service.repo.orders) && service.cache.entries == old(service.cache.entries))
    {
      if decoded.Failure? {
        return Decide(DecodeFailed(decoded.error));
      }
      var order := decoded.value;
      var err := service.CreateOrder(order, saveFault);
      reply := Decide(Processed(err));
    }
  }
}
