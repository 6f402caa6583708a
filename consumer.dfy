/** The queue consumer of the payment service (`pollSQSQueue` in
    src/paymentservice/index.js).

    One poll asks the queue for up to 10 messages with a 20 second long
    poll, walks the returned batch in order, reshapes each parsed body into
    a charge request, calls charge, sleeps a random 1..1499 ms and deletes
    the message by its receipt handle. A failure of the reshaping, of charge
    or of the delete is caught per message and the walk goes on; a body that
    JSON.parse rejects throws outside that per-message catch and ends the
    batch. Every poll then schedules exactly one next poll.

    JSON.parse, charge, deleteMessage and Math.random are oracles
    (`Oracles`): the last three are indexed by the message's position in
    its batch, JSON.parse by the body text. What receiveMessage produced
    is the `Received` argument of `Poller.Poll`. */
module Consumer {
  import opened Js
  import Charge

  datatype Message = Message(body: string, receiptHandle: string)

  datatype ReceiveParams = ReceiveParams(maxNumberOfMessages: nat, waitTimeSeconds: nat)

  /** `MaxNumberOfMessages: 10`, `WaitTimeSeconds: 20`. */
  const PollParams: ReceiveParams := ReceiveParams(10, 20)

  /** What `receiveMessage` produced: a rejection, or data whose `Messages`
      may be absent. */
  datatype Received = ReceiveFailed | Received(messages: Option<seq<Message>>)

  /** The collaborators the loop calls. For the message at position k of its
      batch: `charge(k, request)` is true when charge returns normally,
      `deleteSucceeds(k)` when deleteMessage resolves, and `random(k)` is the
      Math.random() draw of its delay. */
  datatype Oracles = Oracles(
    parse: string -> Option<Value>,
    charge: (nat, Charge.Request) -> bool,
    deleteSucceeds: nat -> bool,
    random: nat -> Charge.Fraction)

  /** What one iteration of the loop did with its message. */
  datatype Outcome =
    | Unparsable                       // JSON.parse threw: the exception escapes the batch
    | NotARequest(error: TypeError)    // reshaping threw: logged, left on the queue
    | ChargeThrew(request: Charge.Request)  // logged, left on the queue
    | Charged(request: Charge.Request, delayMs: int, deleted: bool)
      // charge returned, the delay ran, then deleteMessage resolved (deleted) or rejected

  /** An own field of a JSON value, or undefined. */
  function Field(v: Value, key: string): Prop {
    if v.Obj? && key in v.fields then Defined(v.fields[key]) else Undefined
  }

  /** The request built from a parsed body: the three `credit_card` fields
      under their camel-case names, and `amount` as it is. Reading
      `body.credit_card.…` throws when the body is null or has no object
      (or a null) under `credit_card`. */
  function Reshape(body: Value): (r: Result<Charge.Request, TypeError>)
    ensures r.Err? <==> body == Null || Nullish(Field(body, "credit_card"))
    ensures r.Ok? ==>
      var card := Field(body, "credit_card").value;
      r.value == Charge.Request(
        Charge.CreditCard(
          Field(card, "credit_card_number"),
          Field(card, "credit_card_expiration_year"),
          Field(card, "credit_card_expiration_month")),
        Field(body, "amount"))
  {
    match Get(Defined(body), "credit_card")
    case Err(e) => Err(e)
    case Ok(card) =>
      match Get(card, "credit_card_number")
      case Err(e) => Err(e)
      case Ok(number) =>
        var year, month := Get(card, "credit_card_expiration_year"), Get(card, "credit_card_expiration_month");
        var amount := Get(Defined(body), "amount");
        Ok(Charge.Request(Charge.CreditCard(number, year.value, month.value), amount.value))
  }

  /** The post-charge delay `getRandomInt(1, 1500)`. */
  function DelayMs(random: Charge.Fraction): (ms: int)
    ensures 1 <= ms < 1500
  {
    Charge.GetRandomInt(1.0, 1500.0, random)
  }

  /** One iteration of the loop over the message at position k. */
  function Handle(m: Message, k: nat, o: Oracles): Outcome {
    match o.parse(m.body)
    case None => Unparsable
    case Some(body) =>
      match Reshape(body)
      case Err(e) => NotARequest(e)
      case Ok(request) =>
        if o.charge(k, request) then Charged(request, DelayMs(o.random(k)), o.deleteSucceeds(k))
        else ChargeThrew(request)
  }

  /** The position of the first body from `from` on that JSON.parse
      rejects, or |msgs| when there is none. */
  function FirstUnparsable(msgs: seq<Message>, o: Oracles, from: nat): (f: nat)
    requires from <= |msgs|
    ensures from <= f <= |msgs|
    ensures forall j :: from <= j < f ==> o.parse(msgs[j].body).Some?
    ensures f < |msgs| ==> o.parse(msgs[f].body).None?
    decreases |msgs| - from
  {
    if from == |msgs| then |msgs|
    else if o.parse(msgs[from].body).None? then from
    else FirstUnparsable(msgs, o, from + 1)
  }

  /** How many messages of the batch the loop handles: up to and including
      the first unparsable body, or all of them. */
  function Processed(msgs: seq<Message>, o: Oracles): nat {
    var f := FirstUnparsable(msgs, o, 0);
    if f < |msgs| then f + 1 else |msgs|
  }

  /** The outcomes of the first n messages, handled one after another. */
  function HandledPrefix(msgs: seq<Message>, o: Oracles, n: nat): (r: seq<Outcome>)
    requires n <= |msgs|
    ensures |r| == n
  {
    if n == 0 then [] else HandledPrefix(msgs, o, n - 1) + [Handle(msgs[n - 1], n - 1, o)]
  }

  lemma {:induction false} HandledPrefixAt(msgs: seq<Message>, o: Oracles, n: nat, k: nat)
    requires k < n <= |msgs|
    ensures HandledPrefix(msgs, o, n)[k] == Handle(msgs[k], k, o)
    decreases n
  {
    if k < n - 1 {
      HandledPrefixAt(msgs, o, n - 1, k);
    }
  }

  /** The outcomes of the handled messages, message k's at position k. */
  function Outcomes(msgs: seq<Message>, o: Oracles): (r: seq<Outcome>)
    ensures |r| == Processed(msgs, o) <= |msgs|
    ensures forall k :: 0 <= k < |r| ==> r[k] == Handle(msgs[k], k, o)
  {
    var n := Processed(msgs, o);
    forall k | 0 <= k < n
      ensures HandledPrefix(msgs, o, n)[k] == Handle(msgs[k], k, o)
    {
      HandledPrefixAt(msgs, o, n, k);
    }
    HandledPrefix(msgs, o, n)
  }

  /** The receipt handles deleted by a run with these outcomes, in batch
      order. */
  function DeletedHandles(msgs: seq<Message>, outcomes: seq<Outcome>): seq<string>
    requires |outcomes| <= |msgs|
  {
    if outcomes == [] then []
    else
      var k := |outcomes| - 1;
      DeletedHandles(msgs, outcomes[..k])
      + if outcomes[k].Charged? && outcomes[k].deleted then [msgs[k].receiptHandle] else []
  }

  lemma DeletedHandlesSnoc(msgs: seq<Message>, outcomes: seq<Outcome>, x: Outcome)
    requires |outcomes| < |msgs|
    ensures DeletedHandles(msgs, outcomes + [x]) ==
      DeletedHandles(msgs, outcomes)
      + if x.Charged? && x.deleted then [msgs[|outcomes|].receiptHandle] else []
  {
    assert (outcomes + [x])[..|outcomes|] == outcomes;
  }

  /** Walking up to the first unparsable body: message i is it exactly when
      its body does not parse. */
  lemma FirstUnparsableStep(msgs: seq<Message>, o: Oracles, i: nat)
    requires i < |msgs| && i <= FirstUnparsable(msgs, o, 0)
    ensures o.parse(msgs[i].body).None? ==> FirstUnparsable(msgs, o, 0) == i
    ensures o.parse(msgs[i].body).Some? ==> i < FirstUnparsable(msgs, o, 0)
  {
  }

  /** The outcomes of the messages one poll handles, given what the receive
      call produced. */
  function PollOutcomes(received: Received, o: Oracles): seq<Outcome> {
    match received
    case Received(Some(msgs)) => Outcomes(msgs, o)
    case _ => []
  }

  /** The receipt handles one poll deletes, given what the receive call
      produced. */
  function PollDeletes(received: Received, o: Oracles): seq<string> {
    match received
    case Received(Some(msgs)) => DeletedHandles(msgs, PollOutcomes(received, o))
    case _ => []
  }

  /** A poll charges and deletes nothing when the receive failed or returned
      no `Messages`; otherwise what it charges and deletes is exactly what its
      batch's loop does. */
  lemma NoMessagesNoCharges(received: Received, o: Oracles)
    ensures received.ReceiveFailed? || received.messages.None? ==>
      PollOutcomes(received, o) == [] && PollDeletes(received, o) == []
    ensures forall k :: 0 <= k < |PollOutcomes(received, o)| ==>
      received.Received? && received.messages.Some?
      && k < |received.messages.value|
      && PollOutcomes(received, o)[k] == Handle(received.messages.value[k], k, o)
  {
    if received.Received? && received.messages.Some? {
      assert PollOutcomes(received, o) == Outcomes(received.messages.value, o);
    }
  }

  // ---------------------------------------------------------------------
  // Properties of the batch loop.

  /** Whether message k is handled depends only on whether the earlier
      bodies parse: a reshaping failure, a charge that throws or a rejected
      delete never stops the batch. */
  lemma HandledIffEarlierBodiesParse(msgs: seq<Message>, o: Oracles, k: nat)
    requires k < |msgs|
    ensures k < |Outcomes(msgs, o)| <==> forall j :: 0 <= j < k ==> o.parse(msgs[j].body).Some?
  {
    var f := FirstUnparsable(msgs, o, 0);
    if k > f {
      assert 0 <= f < k && o.parse(msgs[f].body).None?;
    }
  }

  /** A body JSON.parse rejects ends the batch: its outcome is the last one,
      and no later message is charged or deleted. */
  lemma NothingAfterUnparsableBody(msgs: seq<Message>, o: Oracles, k: nat)
    requires k < |Outcomes(msgs, o)|
    requires o.parse(msgs[k].body).None?
    ensures |Outcomes(msgs, o)| == k + 1
    ensures Outcomes(msgs, o)[k] == Unparsable
  {
  }

  /** Only the last handled message can have an unparsable body. */
  lemma UnparsableOnlyLast(msgs: seq<Message>, o: Oracles, k: nat)
    requires k + 1 < |Outcomes(msgs, o)|
    ensures Outcomes(msgs, o)[k] != Unparsable
  {
    var f := FirstUnparsable(msgs, o, 0);
    assert k < f;
  }

  /** A message is deleted exactly when its body parsed and reshaped,
      charge returned normally with the reshaped request, and the delete
      went through; the delay before it lies in [1, 1500). */
  lemma DeletedOnlyAfterCharge(m: Message, k: nat, o: Oracles)
    ensures Handle(m, k, o).Charged? && Handle(m, k, o).deleted <==>
      o.parse(m.body).Some?
      && Reshape(o.parse(m.body).value).Ok?
      && o.charge(k, Reshape(o.parse(m.body).value).value)
      && o.deleteSucceeds(k)
    ensures Handle(m, k, o).Charged? ==> 1 <= Handle(m, k, o).delayMs < 1500
  {
  }

  /** A receipt handle is among those deleted exactly when some handled
      message with that handle had its charge returned and its delete go
      through. */
  lemma {:induction false} DeletedExactlyAcknowledged(msgs: seq<Message>, outcomes: seq<Outcome>, h: string)
    requires |outcomes| <= |msgs|
    ensures h in DeletedHandles(msgs, outcomes) <==>
      exists k :: 0 <= k < |outcomes| && outcomes[k].Charged? && outcomes[k].deleted
                  && msgs[k].receiptHandle == h
  {
    if outcomes != [] {
      var k := |outcomes| - 1;
      DeletedExactlyAcknowledged(msgs, outcomes[..k], h);
      if h in DeletedHandles(msgs, outcomes[..k]) {
        var j :| 0 <= j < k && outcomes[..k][j].Charged? && outcomes[..k][j].deleted
                 && msgs[j].receiptHandle == h;
        assert outcomes[j] == outcomes[..k][j];
      }
      if exists j :: 0 <= j < |outcomes| && outcomes[j].Charged? && outcomes[j].deleted
                     && msgs[j].receiptHandle == h {
        var j :| 0 <= j < |outcomes| && outcomes[j].Charged? && outcomes[j].deleted
                 && msgs[j].receiptHandle == h;
        if j < k {
          assert outcomes[..k][j] == outcomes[j];
        }
      }
    }
  }

  /** Each acknowledged message contributes exactly one delete: there are
      as many deletes as messages whose charge returned and whose delete
      went through. */
  lemma {:induction false} DeletedHandlesCount(msgs: seq<Message>, outcomes: seq<Outcome>)
    requires |outcomes| <= |msgs|
    ensures |DeletedHandles(msgs, outcomes)| == |set k | 0 <= k < |outcomes| && outcomes[k].Charged? && outcomes[k].deleted|
  {
    if outcomes != [] {
      var n := |outcomes| - 1;
      DeletedHandlesCount(msgs, outcomes[..n]);
      var before := set k | 0 <= k < n && outcomes[..n][k].Charged? && outcomes[..n][k].deleted;
      var all := set k | 0 <= k < |outcomes| && outcomes[k].Charged? && outcomes[k].deleted;
      assert before == set k | 0 <= k < n && outcomes[k].Charged? && outcomes[k].deleted;
      if outcomes[n].Charged? && outcomes[n].deleted {
        assert all == before + {n};
      } else {
        assert all == before;
      }
    }
  }

  // ---------------------------------------------------------------------
  // A batch of three messages whose middle one is bad, with the model's own
  // charge deciding each request (a valid VISA card expiring 12/2030,
  // charged in October 2026).

  const SampleAmount: Value :=
    Obj(map["units" := Num(20), "nanos" := Num(0), "currency_code" := Str("USD")])

  const SampleCard: Value := Obj(map[
    "credit_card_number" := Str("4111111111111111"),
    "credit_card_expiration_year" := Num(2030),
    "credit_card_expiration_month" := Num(12)])

  /** A well-formed body for 20 USD on card 4111111111111111, 12/2030. */
  const GoodBody: Value := Obj(map["credit_card" := SampleCard, "amount" := SampleAmount])

  const GoodRequest: Charge.Request := Charge.Request(
    Charge.CreditCard(Defined(Str("4111111111111111")), Defined(Num(2030)), Defined(Num(12))),
    Defined(SampleAmount))

  const VisaEnv: Charge.Env :=
    Charge.Env(10, 2026, "a-uuid", (n: string) => Charge.CardDetails("visa", true), None)

  /** Bodies "good" parse to GoodBody, "{}" to an empty object, anything else
      is rejected by JSON.parse; charge is the model's own; deletes succeed. */
  const SampleOracles: Oracles := Oracles(
    (b: string) => if b == "good" then Some(GoodBody) else if b == "{}" then Some(Obj(map[])) else None,
    (k: nat, r: Charge.Request) => Charge.Charge(r, VisaEnv, map[]).Ok?,
    (k: nat) => true,
    (k: nat) => 0.0)

  lemma GoodBodyReshapes()
    ensures Reshape(GoodBody) == Ok(GoodRequest)
  {
    assert Field(GoodBody, "credit_card") == Defined(SampleCard);
    assert Field(GoodBody, "amount") == Defined(SampleAmount);
    assert Field(SampleCard, "credit_card_number") == Defined(Str("4111111111111111"));
    assert Field(SampleCard, "credit_card_expiration_year") == Defined(Num(2030));
    assert Field(SampleCard, "credit_card_expiration_month") == Defined(Num(12));
  }

  /** The request for a VISA card 4111111111111111 expiring 12/2030 is
      charged in October 2026, under currency label undefined. */
  lemma GoodRequestIsCharged()
    ensures Charge.Charge(GoodRequest, VisaEnv, map[]) ==
      Ok(Charge.Charged(Charge.Response("a-uuid"), true, map[Undefined := 1]))
  {
    assert !Charge.Expired(VisaEnv, Defined(Num(2030)), Defined(Num(12)));
    assert Charge.CurrencyCode(Defined(SampleAmount)) == Undefined;
  }

  lemma GoodMessageIsDeleted(h: string, k: nat)
    ensures Handle(Message("good", h), k, SampleOracles) == Charged(GoodRequest, DelayMs(0.0), true)
  {
    GoodBodyReshapes();
    GoodRequestIsCharged();
  }

  lemma EmptyObjectIsNotARequest(h: string, k: nat)
    ensures Handle(Message("{}", h), k, SampleOracles).NotARequest?
  {
    assert Reshape(Obj(map[])).Err?;
  }

  /** A middle body that is valid JSON but not a charge request is contained:
      the first and third messages are both deleted. */
  lemma MalformedRequestIsContained(msgs: seq<Message>)
    requires msgs == [Message("good", "h1"), Message("{}", "h2"), Message("good", "h3")]
    ensures DeletedHandles(msgs, Outcomes(msgs, SampleOracles)) == ["h1", "h3"]
  {
    var o := SampleOracles;
    assert FirstUnparsable(msgs, o, 0) == 3;
    var r := Outcomes(msgs, o);
    GoodMessageIsDeleted("h1", 0);
    EmptyObjectIsNotARequest("h2", 1);
    GoodMessageIsDeleted("h3", 2);
    assert r[..2][..1] == r[..1] && r[..1][..0] == [];
    assert DeletedHandles(msgs, r[..1]) == ["h1"];
    assert DeletedHandles(msgs, r[..2]) == ["h1"];
  }

  /** A middle body JSON.parse rejects escapes the per-message catch: only
      the first message is deleted, and the third is never handled. */
  lemma UnparsableBodyAbandonsRest(msgs: seq<Message>)
    requires msgs == [Message("good", "h1"), Message("{bad", "h2"), Message("good", "h3")]
    ensures |Outcomes(msgs, SampleOracles)| == 2
    ensures DeletedHandles(msgs, Outcomes(msgs, SampleOracles)) == ["h1"]
  {
    var o := SampleOracles;
    assert FirstUnparsable(msgs, o, 0) == 1;
    var r := Outcomes(msgs, o);
    GoodMessageIsDeleted("h1", 0);
    assert r[1] == Unparsable;
    assert r[..1][..0] == [];
    assert DeletedHandles(msgs, r[..1]) == ["h1"];
  }

  /** The consumer's effects on the outside world: the receive requests it
      issued, the receipt handles it deleted, and the polls it scheduled. */
  class Poller {
    var receiveCalls: seq<ReceiveParams>
    var deleted: seq<string>
    var scheduledPolls: nat

    constructor ()
      ensures receiveCalls == [] && deleted == [] && scheduledPolls == 0
    {
      receiveCalls := [];
      deleted := [];
      scheduledPolls := 0;
    }

    /** The body of the loop for the message at position k: parse,
        reshape, charge, delay, delete, with the per-message catch. */
    method HandleMessage(m: Message, k: nat, o: Oracles) returns (outcome: Outcome)
      modifies this`deleted
      ensures outcome == Handle(m, k, o)
      ensures outcome.Unparsable? <==> o.parse(m.body).None?
      ensures deleted == old(deleted) + if outcome.Charged? && outcome.deleted then [m.receiptHandle] else []
    {
      match o.parse(m.body) {
        case None =>
          outcome := Unparsable;
        case Some(body) =>
          match Reshape(body) {
            case Err(e) =>
              outcome := NotARequest(e);
            case Ok(request) =>
              if o.charge(k, request) {
                var delay := DelayMs(o.random(k));
                var ok := o.deleteSucceeds(k);
                if ok {
                  deleted := deleted + [m.receiptHandle];
                }
                outcome := Charged(request, delay, ok);
              } else {
                outcome := ChargeThrew(request);
              }
          }
      }
    }

    /** The `for...of` loop over `data.Messages`: returns what happened to
        each handled message and appends the handles it deleted. */
    method ProcessBatch(msgs: seq<Message>, o: Oracles) returns (outcomes: seq<Outcome>)
      modifies this`deleted
      ensures outcomes == Outcomes(msgs, o)
      ensures deleted == old(deleted) + DeletedHandles(msgs, outcomes)
    {
      outcomes := [];
      var i := 0;
      var abandoned := false;
      while i < |msgs| && !abandoned
        invariant 0 <= i <= |msgs| && |outcomes| == i
        invariant outcomes == HandledPrefix(msgs, o, i)
        invariant !abandoned ==> i <= FirstUnparsable(msgs, o, 0)
        invariant abandoned ==> i == FirstUnparsable(msgs, o, 0) + 1
        invariant deleted == old(deleted) + DeletedHandles(msgs, outcomes)
      {
        var outcome := HandleMessage(msgs[i], i, o);
        FirstUnparsableStep(msgs, o, i);
        DeletedHandlesSnoc(msgs, outcomes, outcome);
        abandoned := outcome.Unparsable?;
        outcomes := outcomes + [outcome];
        i := i + 1;
      }
      assert |outcomes| == Processed(msgs, o);
    }

    /** One run of `pollSQSQueue`: receive with the fixed parameters, process
        the batch if there is one, and schedule exactly one next poll whatever
        happened. The outcomes say which messages were charged; a failed
        receive or one without `Messages` handles none. */
    method Poll(received: Received, o: Oracles) returns (outcomes: seq<Outcome>)
      modifies this
      ensures outcomes == PollOutcomes(received, o)
      ensures receiveCalls == old(receiveCalls) + [PollParams]
      ensures deleted == old(deleted) + PollDeletes(received, o)
      ensures scheduledPolls == old(scheduledPolls) + 1
    {
      receiveCalls := receiveCalls + [PollParams];
      match received {
        case ReceiveFailed =>
          outcomes := [];
        case Received(None) =>
          outcomes := [];
        case Received(Some(msgs)) =>
          outcomes := ProcessBatch(msgs, o);
      }
      scheduledPolls := scheduledPolls + 1;
    }
  }
}
