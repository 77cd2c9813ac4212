/**
 * The plugin object: its three fields, the two bridge commands and the two
 * payment-sheet delegate callbacks, each a transition that returns the next
 * state and the effects it emits. Platform answers (the capability query,
 * whether the authorization sheet can be built, JSON serialisation) are
 * parameters of the transitions.
 */
module ApplePayPlugin {
  import opened Wrappers
  import opened Values
  import opened CapabilityProber
  import opened RequestBuilder
  import opened AuthorizationRelay

  datatype Status = Ok | Error

  /** What a plugin result carries: a string, or the `{canMakePayments: b}` dictionary. */
  datatype Message = Text(text: string) | CanMakePayments(canMakePayments: bool)

  /** Observable effects, in the order the plugin performs them. */
  datatype Effect =
    | Send(callbackId: Option<string>, status: Status, message: Message)
    | QueryPlatform(networks: seq<Network>, capabilities: set<Capability>)
    | Present(request: PaymentRequest)
    | CompleteAuthorization
    | Dismiss

  /** `paymentCallbackId`, `successfulPayment` and `paymentResult`. */
  datatype Plugin = Plugin(paymentCallbackId: Option<string>, successfulPayment: bool, paymentResult: Option<Value>)

  /** A freshly loaded plugin: no callback id, flag down, nothing stashed. */
  const Initial: Plugin := Plugin(None, false, None)

  /** A bridge invocation: its callback id and its argument array. */
  datatype Command = Command(callbackId: string, arguments: seq<Value>)

  datatype Step = Step(next: Plugin, effects: seq<Effect>)

  const InvalidArguments: string := "Invalid arguments"
  const UnableToPresent: string := "Unable to present Apple Pay authorization view controller"
  const PaymentCancelled: string := "Payment cancelled"
  const ParseFailed: string := "Failed to parse payment result"

  /** A stashed result accompanies every raised success flag. */
  predicate Consistent(s: Plugin) {
    s.successfulPayment ==> s.paymentResult.Some?
  }

  /**
   * `canMakePayment`: guard the argument shape, map the names, ask the
   * platform, and answer the command's callback id. No field changes.
   */
  function CanMakePayment(s: Plugin, cmd: Command, platform: (seq<Network>, set<Capability>) -> bool): (r: Step)
    requires |cmd.arguments| > 0
    ensures r.next == s
    ensures |r.effects| > 0 && r.effects[|r.effects| - 1].Send?
    ensures r.effects[|r.effects| - 1].callbackId == Some(cmd.callbackId)
    ensures forall k :: 0 <= k < |r.effects| - 1 ==> !r.effects[k].Send?
    ensures ProbeArguments(cmd.arguments[0]).None? ==> r.effects == [Send(Some(cmd.callbackId), Error, Text(InvalidArguments))]
    ensures ProbeArguments(cmd.arguments[0]).Some? ==>
              var (names, capabilities) := ProbeArguments(cmd.arguments[0]).value;
              var networks := MapNetworks(names);
              var caps := MapCapabilities(capabilities);
              r.effects == [QueryPlatform(networks, caps), Send(Some(cmd.callbackId), Ok, CanMakePayments(platform(networks, caps)))]
  {
    match ProbeArguments(cmd.arguments[0])
    case None =>
      Step(s, [Send(Some(cmd.callbackId), Error, Text(InvalidArguments))])
    case Some((names, capabilities)) =>
      var networks := MapNetworks(names);
      var caps := MapCapabilities(capabilities);
      Step(s, [QueryPlatform(networks, caps), Send(Some(cmd.callbackId), Ok, CanMakePayments(platform(networks, caps)))])
  }

  /** The forced casts of `requestPayment` do not trap on this argument. */
  predicate RequestCastsHold(arg: Value) {
    arg.Dict? ==> CastsHold(arg.fields)
  }

  /**
   * `requestPayment`: record the callback id, validate and build the request,
   * and present the authorization sheet when the platform can build it.
   * Every error goes out through `failWithError`, that is, to the stored
   * payment callback id, which was just set to this command's.
   */
  function RequestPayment(s: Plugin, cmd: Command, presentable: PaymentRequest -> bool): (r: Step)
    requires |cmd.arguments| > 0 && RequestCastsHold(cmd.arguments[0])
    ensures r.next == s.(paymentCallbackId := Some(cmd.callbackId))
    ensures |r.effects| == 1
    ensures r.effects[0].Send? ==> r.effects[0].callbackId == Some(cmd.callbackId) && r.effects[0].status == Error
    ensures !cmd.arguments[0].Dict? ==> r.effects == [Send(Some(cmd.callbackId), Error, Text(InvalidArguments))]
    ensures cmd.arguments[0].Dict? ==>
              forall i: nat :: IsFirstAbsent(cmd.arguments[0].fields, i) ==>
                r.effects == [Send(Some(cmd.callbackId), Error, Text(RequiredMessage(RequiredKeys[i])))]
    ensures r.effects[0].Present? <==>
              cmd.arguments[0].Dict? && AllPresent(cmd.arguments[0].fields) && presentable(Assemble(cmd.arguments[0].fields))
    ensures r.effects[0].Present? ==> r.effects[0].request == Assemble(cmd.arguments[0].fields)
    ensures cmd.arguments[0].Dict? && AllPresent(cmd.arguments[0].fields) && !presentable(Assemble(cmd.arguments[0].fields)) ==>
              r.effects == [Send(Some(cmd.callbackId), Error, Text(UnableToPresent))]
  {
    var s1 := s.(paymentCallbackId := Some(cmd.callbackId));
    match cmd.arguments[0]
    case Dict(args) =>
      assert forall i: nat :: IsFirstAbsent(args, i) ==> BuildRequest(args) == Failure(RequiredMessage(RequiredKeys[i])) by {
        forall i: nat | IsFirstAbsent(args, i) ensures BuildRequest(args) == Failure(RequiredMessage(RequiredKeys[i])) {
          BuildRequestReportsFirstAbsent(args, i);
        }
      }
      (match BuildRequest(args)
       case Success(request) =>
         if presentable(request) then Step(s1, [Present(request)])
         else Step(s1, [Send(s1.paymentCallbackId, Error, Text(UnableToPresent))])
       case Failure(message) => Step(s1, [Send(s1.paymentCallbackId, Error, Text(message))]))
    case _ => Step(s1, [Send(s1.paymentCallbackId, Error, Text(InvalidArguments))])
  }

  /**
   * The authorization delegate: acknowledge the platform, raise the success
   * flag and stash the result record. Nothing is sent to the caller yet.
   */
  function DidAuthorizePayment(s: Plugin, payment: Payment): (r: Step)
    ensures r.next.successfulPayment && Consistent(r.next)
    ensures r.next.paymentCallbackId == s.paymentCallbackId
    ensures r.next.paymentResult == Some(ResultRecord(payment))
    ensures FromValue(r.next.paymentResult.value) == Some(Summarize(payment))
    ensures r.effects == [CompleteAuthorization]
  {
    Step(s.(successfulPayment := true, paymentResult := Some(ResultRecord(payment))), [CompleteAuthorization])
  }

  /** Serialisation of the stashed result, absent when there is none or the serialiser fails. */
  function SerializedResult(s: Plugin, serialize: Value -> Option<string>): Option<string> {
    match s.paymentResult
    case Some(result) => serialize(result)
    case None => None
  }

  /**
   * The finish delegate: answer the stored callback id with the serialised
   * result after an authorization, or with "Payment cancelled" otherwise;
   * then lower the flag and dismiss the sheet. The stashed result is kept.
   */
  function DidFinish(s: Plugin, serialize: Value -> Option<string>): (r: Step)
    ensures !r.next.successfulPayment && Consistent(r.next)
    ensures r.next.paymentCallbackId == s.paymentCallbackId
    ensures r.next.paymentResult == s.paymentResult
    ensures |r.effects| == 2 && r.effects[1] == Dismiss
    ensures r.effects[0].Send? && r.effects[0].callbackId == s.paymentCallbackId
    ensures r.effects[0].status == Ok <==> s.successfulPayment && SerializedResult(s, serialize).Some?
    ensures r.effects[0].status == Ok ==> r.effects[0].message == Text(SerializedResult(s, serialize).value)
    ensures !s.successfulPayment ==> r.effects[0].message == Text(PaymentCancelled)
    ensures s.successfulPayment && SerializedResult(s, serialize).None? ==> r.effects[0].message == Text(ParseFailed)
  {
    var answer :=
      if s.successfulPayment then
        match SerializedResult(s, serialize)
        case Some(json) => Send(s.paymentCallbackId, Ok, Text(json))
        case None => Send(s.paymentCallbackId, Error, Text(ParseFailed))
      else
        Send(s.paymentCallbackId, Error, Text(PaymentCancelled));
    Step(s.(successfulPayment := false), [answer, Dismiss])
  }

  /** One thing that can happen to the plugin, with the platform's answers it needs. */
  datatype Event =
    | CanMakePaymentCall(cmd: Command, platform: (seq<Network>, set<Capability>) -> bool)
    | RequestPaymentCall(cmd: Command, presentable: PaymentRequest -> bool)
    | Authorized(payment: Payment)
    | Finished(serialize: Value -> Option<string>)

  /** The event does not make the source trap (empty argument array, failed forced cast). */
  predicate Admissible(e: Event) {
    match e
    case CanMakePaymentCall(cmd, _) => |cmd.arguments| > 0
    case RequestPaymentCall(cmd, _) => |cmd.arguments| > 0 && RequestCastsHold(cmd.arguments[0])
    case _ => true
  }

  function Apply(s: Plugin, e: Event): (r: Step)
    requires Admissible(e)
    ensures Consistent(s) ==> Consistent(r.next)
    ensures !e.Authorized? ==> (r.next.successfulPayment ==> s.successfulPayment)
  {
    match e
    case CanMakePaymentCall(cmd, platform) => CanMakePayment(s, cmd, platform)
    case RequestPaymentCall(cmd, presentable) => RequestPayment(s, cmd, presentable)
    case Authorized(payment) => DidAuthorizePayment(s, payment)
    case Finished(serialize) => DidFinish(s, serialize)
  }

  predicate AllAdmissible(events: seq<Event>) {
    forall i :: 0 <= i < |events| ==> Admissible(events[i])
  }

  /** A run of events: the final state and every effect, in order. */
  function Run(s: Plugin, events: seq<Event>): (r: Step)
    requires AllAdmissible(events)
    decreases |events|
  {
    if |events| == 0 then Step(s, [])
    else
      var first := Apply(s, events[0]);
      var rest := Run(first.next, events[1..]);
      Step(rest.next, first.effects + rest.effects)
  }

  /** Running two event sequences one after the other is running their concatenation. */
  lemma {:induction false} RunAppend(s: Plugin, a: seq<Event>, b: seq<Event>)
    requires AllAdmissible(a) && AllAdmissible(b)
    ensures AllAdmissible(a + b)
    ensures Run(s, a + b).next == Run(Run(s, a).next, b).next
    ensures Run(s, a + b).effects == Run(s, a).effects + Run(Run(s, a).next, b).effects
    decreases |a|
  {
    AdmissibleAppend(a, b);
    if |a| == 0 {
      assert a + b == b;
    } else {
      var head, tail := a[0], a[1..];
      var first := Apply(s, head);
      assert AllAdmissible(tail);
      assert a == [head] + tail;
      assert a + b == [head] + (tail + b);
      RunAppend(first.next, tail, b);
      RunPrepend(s, head, tail);
      RunPrepend(s, head, tail + b);
      var mid := Run(first.next, tail);
      assert first.effects + (mid.effects + Run(mid.next, b).effects)
          == (first.effects + mid.effects) + Run(mid.next, b).effects;
    }
  }

  lemma AdmissibleAppend(a: seq<Event>, b: seq<Event>)
    requires AllAdmissible(a) && AllAdmissible(b)
    ensures AllAdmissible(a + b)
  {
  }

  lemma RunSingle(s: Plugin, e: Event)
    requires Admissible(e)
    ensures AllAdmissible([e])
    ensures Run(s, [e]) == Apply(s, e)
  {
  }

  lemma RunPrepend(s: Plugin, e: Event, rest: seq<Event>)
    requires Admissible(e) && AllAdmissible(rest)
    ensures AllAdmissible([e] + rest)
    ensures Run(s, [e] + rest).next == Run(Apply(s, e).next, rest).next
    ensures Run(s, [e] + rest).effects == Apply(s, e).effects + Run(Apply(s, e).next, rest).effects
  {
  }

  /** Every reachable state keeps a stashed result behind a raised success flag. */
  lemma {:induction false} RunKeepsConsistent(s: Plugin, events: seq<Event>)
    requires AllAdmissible(events) && Consistent(s)
    ensures Consistent(Run(s, events).next)
    decreases |events|
  {
    if |events| > 0 {
      RunKeepsConsistent(Apply(s, events[0]).next, events[1..]);
    }
  }

  /** The result a finish event delivers as a success: a string to some callback id. */
  predicate IsPaymentSuccess(e: Effect) {
    e.Send? && e.status == Ok && e.message.Text?
  }

  predicate NoAuthorization(events: seq<Event>) {
    forall i :: 0 <= i < |events| ==> !events[i].Authorized?
  }

  /**
   * Without an authorization event the success flag stays down and no
   * payment success is ever delivered: every finish reports cancellation.
   */
  lemma {:induction false} NoSuccessWithoutAuthorization(s: Plugin, events: seq<Event>)
    requires AllAdmissible(events) && NoAuthorization(events) && !s.successfulPayment
    ensures !Run(s, events).next.successfulPayment
    ensures forall k :: 0 <= k < |Run(s, events).effects| ==> !IsPaymentSuccess(Run(s, events).effects[k])
    decreases |events|
  {
    if |events| > 0 {
      var first := Apply(s, events[0]);
      NoSuccessWithoutAuthorization(first.next, events[1..]);
      assert forall k :: 0 <= k < |first.effects| ==> !IsPaymentSuccess(first.effects[k]);
    }
  }

  /**
   * After a finish, a later finish with no authorization in between reports
   * "Payment cancelled" to the stored callback id, whatever happened before.
   */
  lemma SecondFinishCancels(s: Plugin, f1: Value -> Option<string>, between: seq<Event>, f2: Value -> Option<string>)
    requires AllAdmissible(between) && NoAuthorization(between)
    ensures AllAdmissible([Finished(f1)] + between)
    ensures
      var mid := Run(s, [Finished(f1)] + between).next;
      DidFinish(mid, f2).effects == [Send(mid.paymentCallbackId, Error, Text(PaymentCancelled)), Dismiss]
  {
    RunAppend(s, [Finished(f1)], between);
    var afterFirst := Run(s, [Finished(f1)]).next;
    assert !afterFirst.successfulPayment;
    NoSuccessWithoutAuthorization(afterFirst, between);
  }

  /**
   * A complete payment: a valid request is presented, authorized and
   * finished, and the caller receives the serialised result on its own
   * callback id, or the parse failure when serialisation fails.
   */
  lemma CompletedPayment(s: Plugin, cmd: Command, presentable: PaymentRequest -> bool, payment: Payment, serialize: Value -> Option<string>)
    requires |cmd.arguments| > 0 && cmd.arguments[0].Dict?
    requires CastsHold(cmd.arguments[0].fields) && AllPresent(cmd.arguments[0].fields)
    requires presentable(Assemble(cmd.arguments[0].fields))
    ensures
      var events := [RequestPaymentCall(cmd, presentable), Authorized(payment), Finished(serialize)];
      var answer := match serialize(ResultRecord(payment))
        case Some(json) => Send(Some(cmd.callbackId), Ok, Text(json))
        case None => Send(Some(cmd.callbackId), Error, Text(ParseFailed));
      && AllAdmissible(events)
      && Run(s, events).effects == [Present(Assemble(cmd.arguments[0].fields)), CompleteAuthorization, answer, Dismiss]
      && !Run(s, events).next.successfulPayment
  {
    var request := Assemble(cmd.arguments[0].fields);
    var s1 := RequestPayment(s, cmd, presentable);
    assert s1.effects == [Present(request)];
    var s2 := DidAuthorizePayment(s1.next, payment);
    assert s2.next.paymentCallbackId == Some(cmd.callbackId);
    var s3 := DidFinish(s2.next, serialize);
    RunSingle(s2.next, Finished(serialize));
    RunPrepend(s1.next, Authorized(payment), [Finished(serialize)]);
    RunPrepend(s, RequestPaymentCall(cmd, presentable), [Authorized(payment), Finished(serialize)]);
  }

  /**
   * A request the user backs out of: the sheet is presented and dismissed,
   * and the caller receives "Payment cancelled".
   */
  lemma CancelledPayment(s: Plugin, cmd: Command, presentable: PaymentRequest -> bool, serialize: Value -> Option<string>)
    requires !s.successfulPayment
    requires |cmd.arguments| > 0 && cmd.arguments[0].Dict?
    requires CastsHold(cmd.arguments[0].fields) && AllPresent(cmd.arguments[0].fields)
    requires presentable(Assemble(cmd.arguments[0].fields))
    ensures
      var events := [RequestPaymentCall(cmd, presentable), Finished(serialize)];
      && AllAdmissible(events)
      && Run(s, events).effects ==
           [Present(Assemble(cmd.arguments[0].fields)), Send(Some(cmd.callbackId), Error, Text(PaymentCancelled)), Dismiss]
  {
    var s1 := RequestPayment(s, cmd, presentable);
    RunSingle(s1.next, Finished(serialize));
    RunPrepend(s, RequestPaymentCall(cmd, presentable), [Finished(serialize)]);
  }

  /**
   * An authorization never followed by a finish is not forgotten: a new
   * request overwrites only the callback id, so a finish with no new
   * authorization delivers the old stashed result, as a success, to the new
   * request's callback id.
   */
  lemma StaleAuthorizationAnswersNewRequest(s: Plugin, cmd: Command, presentable: PaymentRequest -> bool, serialize: Value -> Option<string>)
    requires s.successfulPayment && s.paymentResult.Some? && serialize(s.paymentResult.value).Some?
    requires |cmd.arguments| > 0 && cmd.arguments[0].Dict?
    requires CastsHold(cmd.arguments[0].fields) && AllPresent(cmd.arguments[0].fields)
    requires presentable(Assemble(cmd.arguments[0].fields))
    ensures
      var events := [RequestPaymentCall(cmd, presentable), Finished(serialize)];
      && AllAdmissible(events)
      && Run(s, events).effects ==
           [Present(Assemble(cmd.arguments[0].fields)),
            Send(Some(cmd.callbackId), Ok, Text(serialize(s.paymentResult.value).value)),
            Dismiss]
  {
    var s1 := RequestPayment(s, cmd, presentable);
    RunSingle(s1.next, Finished(serialize));
    RunPrepend(s, RequestPaymentCall(cmd, presentable), [Finished(serialize)]);
  }

  /**
   * An unrecognised network name changes nothing the capability query
   * emits: it is dropped, not reported.
   */
  lemma UnknownNetworkIgnoredByQuery(s: Plugin, id: string, arg1: Value, arg2: Value,
                                     a: seq<string>, unknown: string, b: seq<string>, capabilities: seq<string>,
                                     platform: (seq<Network>, set<Capability>) -> bool)
    requires RecogniseNetwork(unknown).None?
    requires ProbeArguments(arg1) == Some((a + [unknown] + b, capabilities))
    requires ProbeArguments(arg2) == Some((a + b, capabilities))
    ensures CanMakePayment(s, Command(id, [arg1]), platform) == CanMakePayment(s, Command(id, [arg2]), platform)
  {
    UnknownNetworkDropped(a, unknown, b);
  }

  /**
   * From a freshly loaded plugin every run keeps the invariant, and a run
   * without an authorization delivers no payment success.
   */
  lemma FreshPluginRun(events: seq<Event>)
    requires AllAdmissible(events)
    ensures Consistent(Run(Initial, events).next)
    ensures NoAuthorization(events) ==>
      forall k :: 0 <= k < |Run(Initial, events).effects| ==> !IsPaymentSuccess(Run(Initial, events).effects[k])
  {
    RunKeepsConsistent(Initial, events);
    if NoAuthorization(events) {
      NoSuccessWithoutAuthorization(Initial, events);
    }
  }
}
