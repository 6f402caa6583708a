/** The charge decision of the payment service (src/paymentservice/charge.js).

    `charge` reads the card fields of a request, asks the card validator
    library for the card's network and validity, and then stops at the first
    of three failing guards: an invalid card, a network other than VISA or
    MasterCard, an expired card. When all pass it classifies the request as
    charged or synthetic, counts the transaction under its currency and
    returns only the transaction id.

    The clock, the UUID generator and the validator library are not computed
    here: they are the fields of `Env`. */
module Charge {
  import opened Js

  /** `request.creditCard`: the three fields charge destructures, as read. */
  datatype CreditCard = CreditCard(number: Prop, year: Prop, month: Prop)

  datatype Request = Request(creditCard: CreditCard, amount: Prop)

  /** What `cardValidator(number).getCardDetails()` reports. */
  datatype CardDetails = CardDetails(cardType: string, valid: bool)

  /** The active baggage's entries, by key, as their string values. */
  type Baggage = map<string, string>

  /** Everything charge reads besides its request. The month and the year
      come from two separate `new Date()` readings. */
  datatype Env = Env(
    currentMonth: int,
    currentYear: int,
    transactionId: string,
    validator: string -> CardDetails,
    baggage: Option<Baggage>)

  /** The value charge returns: `{ transactionId }` and nothing else. */
  datatype Response = Response(transactionId: string)

  /** The `app.payment.transactions` counter, by its `app.payment.currency`
      label (the amount's `currencyCode` property, possibly undefined). */
  type Counter = map<Prop, nat>

  /** A charge that returned: the response, the `app.payment.charged` span
      attribute, and the counter after the increment. */
  datatype Charged = Charged(response: Response, charged: bool, counter: Counter)

  /** The exceptions charge can throw, in the order it can throw them. */
  datatype ChargeError =
    | NumberNotString                  // `number.substr` is not a function / reads undefined
    | InvalidCard                      // "Credit card info is invalid."
    | UnsupportedNetwork(cardType: string)
    | CardExpired(lastFourDigits: string, month: Prop, year: Prop)
    | AmountNullish                    // destructuring `request.amount` when it is undefined or null

  const AcceptedNetworks: seq<string> := ["visa", "mastercard"]

  const SyntheticKey: string := "synthetic_request"

  /** The card number, when it is a string (the only case where
      `number.substr(-4)` does not throw). */
  function CardNumber(request: Request): Option<string> {
    match request.creditCard.number
    case Defined(Str(s)) => Some(s)
    case _ => None
  }

  /** `number.substr(-4)`: the last four characters, or the whole string
      when it is shorter. */
  function LastFourDigits(number: string): (r: string)
    ensures |r| == if |number| < 4 then |number| else 4
    ensures number == number[..|number| - |r|] + r
  {
    number[if |number| < 4 then 0 else |number| - 4..]
  }

  /** `year * 12 + month`, NaN as soon as either operand coerces to NaN. */
  function MonthIndex(year: Prop, month: Prop): Number {
    match (ToNumber(year), ToNumber(month))
    case (Finite(y), Finite(m)) => Finite(y * 12 + m)
    case _ => NaN
  }

  /** `(currentYear * 12 + currentMonth) > (year * 12 + month)`; any
      comparison with NaN is false. */
  predicate Expired(env: Env, year: Prop, month: Prop) {
    match MonthIndex(year, month)
    case Finite(k) => env.currentYear * 12 + env.currentMonth > k
    case NaN => false
  }

  /** True when the baggage carries `synthetic_request` with value "true". */
  predicate Synthetic(baggage: Option<Baggage>) {
    baggage.Some? && SyntheticKey in baggage.value && baggage.value[SyntheticKey] == "true"
  }

  function Count(counter: Counter, currency: Prop): nat {
    if currency in counter then counter[currency] else 0
  }

  /** The currency label of an amount that is neither undefined nor null. */
  function CurrencyCode(amount: Prop): Prop
    requires !Nullish(amount)
  {
    Get(amount, "currencyCode").value
  }

  function Charge(request: Request, env: Env, counter: Counter): (r: Result<Charged, ChargeError>)
    // the first guard: a non-string number throws before the validator is asked
    ensures r == Err(NumberNotString) <==> CardNumber(request).None?
    ensures r == Err(InvalidCard) <==>
      CardNumber(request).Some? && !env.validator(CardNumber(request).value).valid
    ensures r.Err? && r.error.UnsupportedNetwork? <==>
      CardNumber(request).Some?
      && env.validator(CardNumber(request).value).valid
      && env.validator(CardNumber(request).value).cardType !in AcceptedNetworks
    ensures r.Err? && r.error.UnsupportedNetwork? ==>
      r.error.cardType == env.validator(CardNumber(request).value).cardType
    ensures r.Err? && r.error.CardExpired? <==>
      CardNumber(request).Some?
      && env.validator(CardNumber(request).value).valid
      && env.validator(CardNumber(request).value).cardType in AcceptedNetworks
      && Expired(env, request.creditCard.year, request.creditCard.month)
    ensures r.Err? && r.error.CardExpired? ==>
      r.error == CardExpired(LastFourDigits(CardNumber(request).value),
                             request.creditCard.month, request.creditCard.year)
    // success only when every guard passed, and then only the fresh id is returned
    ensures r.Ok? <==>
      CardNumber(request).Some?
      && env.validator(CardNumber(request).value).valid
      && env.validator(CardNumber(request).value).cardType in AcceptedNetworks
      && !Expired(env, request.creditCard.year, request.creditCard.month)
      && !Nullish(request.amount)
    ensures r.Ok? ==> r.value.response == Response(env.transactionId)
    ensures r.Ok? ==> (r.value.charged <==> !Synthetic(env.baggage))
    ensures r.Ok? ==>
      var currency := CurrencyCode(request.amount);
      r.value.counter == counter[currency := Count(counter, currency) + 1]
  {
    match CardNumber(request)
    case None => Err(NumberNotString)
    case Some(number) =>
      var details := env.validator(number);
      if !details.valid then
        Err(InvalidCard)
      else if details.cardType !in AcceptedNetworks then
        Err(UnsupportedNetwork(details.cardType))
      else if Expired(env, request.creditCard.year, request.creditCard.month) then
        Err(CardExpired(LastFourDigits(number), request.creditCard.month, request.creditCard.year))
      else if Nullish(request.amount) then
        Err(AmountNullish)
      else
        var currency := CurrencyCode(request.amount);
        Ok(Charged(Response(env.transactionId), !Synthetic(env.baggage),
                   counter[currency := Count(counter, currency) + 1]))
  }

  /** Every check charge makes, each evaluated on its own rather than
      short-circuited: the reference against which the guard order is
      stated. */
  function Violations(request: Request, env: Env): seq<ChargeError> {
    match CardNumber(request)
    case None => [NumberNotString]
    case Some(number) =>
      var details := env.validator(number);
      var year, month := request.creditCard.year, request.creditCard.month;
      (if details.valid then [] else [InvalidCard])
      + (if details.cardType in AcceptedNetworks then [] else [UnsupportedNetwork(details.cardType)])
      + (if Expired(env, year, month) then [CardExpired(LastFourDigits(number), month, year)] else [])
      + (if Nullish(request.amount) then [AmountNullish] else [])
  }

  /** charge throws the first violated check and succeeds exactly when none
      is violated. */
  lemma ChargeReportsFirstViolation(request: Request, env: Env, counter: Counter)
    ensures Charge(request, env, counter).Ok? <==> Violations(request, env) == []
    ensures Charge(request, env, counter).Err? ==>
      Charge(request, env, counter).error == Violations(request, env)[0]
  {
  }

  /** An invalid card is reported as invalid whatever network the validator
      reports for it, its expiry date and its amount. */
  lemma InvalidCardReportedFirst(request: Request, env: Env, counter: Counter, cardType: string, year: Prop, month: Prop, amount: Prop)
    requires CardNumber(request).Some?
    requires !env.validator(CardNumber(request).value).valid
    ensures var number := CardNumber(request).value;
      var other := Request(request.creditCard.(year := year, month := month), amount);
      var otherEnv := env.(validator := (s: string) =>
        if s == number then CardDetails(cardType, false) else env.validator(s));
      Charge(other, otherEnv, counter) == Charge(request, env, counter) == Err(InvalidCard)
  {
  }

  /** For numeric fields with months in 1..12 the expiry guard is the
      year-month order: expired exactly when the card's year is earlier, or
      the year is the current one and the month earlier. */
  lemma ExpiredIsEarlierYearMonth(env: Env, year: int, month: int)
    requires 1 <= month <= 12 && 1 <= env.currentMonth <= 12
    ensures Expired(env, Defined(Num(year)), Defined(Num(month))) <==>
      year < env.currentYear || (year == env.currentYear && month < env.currentMonth)
  {
  }

  /** A card expiring in the current month is accepted by the expiry guard. */
  lemma ExpiringThisMonthAccepted(env: Env)
    ensures !Expired(env, Defined(Num(env.currentYear)), Defined(Num(env.currentMonth)))
  {
  }

  /** A missing year or month makes `year * 12 + month` NaN, so such a card
      never counts as expired. */
  lemma MissingExpiryNeverExpires(env: Env, year: Prop, month: Prop)
    requires year == Undefined || month == Undefined
    ensures !Expired(env, year, month)
  {
  }

  /** Minting a different transaction id changes nothing but the id in the
      response: two charges of one request differ only there. */
  lemma OnlyTheIdDependsOnTheUuid(request: Request, env: Env, counter: Counter, id: string)
    ensures var a := Charge(request, env, counter);
      var b := Charge(request, env.(transactionId := id), counter);
      a.Ok? == b.Ok?
      && (a.Err? ==> a == b)
      && (a.Ok? ==> b.value == a.value.(response := Response(id)))
  {
  }

  /** The baggage decides only the `charged` attribute: it never changes
      whether charge throws, what it throws, what it returns or the count. */
  lemma BaggageOnlyLabels(request: Request, env: Env, counter: Counter, baggage: Option<Baggage>)
    ensures var a := Charge(request, env, counter);
      var b := Charge(request, env.(baggage := baggage), counter);
      a.Ok? == b.Ok?
      && (a.Err? ==> a == b)
      && (a.Ok? ==> b.value == a.value.(charged := !Synthetic(baggage)))
  {
  }

  /** `Math.random()`: a real in [0, 1). */
  type Fraction = r: real | 0.0 <= r < 1.0

  function Floor(x: real): int {
    x.Floor
  }

  function Ceil(x: real): int {
    -((-x).Floor)
  }

  lemma ScaledFractionBelow(random: Fraction, d: real)
    requires d > 0.0
    ensures 0.0 <= random * d < d
  {
  }

  lemma DrawBetween(random: Fraction, lo: int, hi: int)
    requires lo < hi
    ensures lo as real <= random * ((hi - lo) as real) + lo as real < hi as real
  {
    ScaledFractionBelow(random, (hi - lo) as real);
    assert (hi - lo) as real + lo as real == hi as real;
  }

  lemma FloorBetween(x: real, lo: int, hi: int)
    requires lo as real <= x < hi as real
    ensures lo <= Floor(x) < hi
  {
  }

  /** `getRandomInt(min, max)`: `Math.floor(Math.random() * (max - min) + min)`
      after rounding min up and max down; the minimum is inclusive and the
      maximum exclusive. */
  function GetRandomInt(min: real, max: real, random: Fraction): (r: int)
    ensures Ceil(min) < Floor(max) ==> Ceil(min) <= r < Floor(max)
  {
    var lo, hi := Ceil(min), Floor(max);
    var x := random * ((hi - lo) as real) + lo as real;
    if lo < hi then
      DrawBetween(random, lo, hi);
      FloorBetween(x, lo, hi);
      Floor(x)
    else
      Floor(x)
  }
}
