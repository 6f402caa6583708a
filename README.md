# Payment service: charge decision and queue acknowledgment

A Dafny model of the core of the payment service in `src/paymentservice/`.
The service pulls charge requests from an SQS queue, validates each card and
acknowledges (deletes) a message only after its charge went through.

- `js.dfy` (module `Js`) holds the pieces of JavaScript the service relies on.
  These are the values `JSON.parse` produces and property reads, which throw
  a `TypeError` on `undefined`/`null`. It also holds the numeric coercion
  that `year * 12 + month` applies.
- `charge.dfy` (module `Charge`) models `charge` from `charge.js`. It is a
  pure function of the request and an `Env`. The `Env` carries the two clock
  readings, the minted UUID, the card validator library (an uninterpreted
  function returning card type and validity) and the active baggage. The
  `app.payment.transactions` counter is threaded through as a map. The guards
  stop at the first failure: the card must be valid, the network must be
  `visa` or `mastercard`, and the card must not have expired. A card that
  expires in the current month is accepted. On success `charge` returns only
  `{ transactionId }`. The module also holds `getRandomInt`.
  `index.js:138-142` is an identical copy of it, which the consumer reuses.
- `consumer.dfy` (module `Consumer`) models `pollSQSQueue` from `index.js`.
  The function `Handle` gives what one iteration of the loop does with its
  message: the body is unparsable, it is not a request, charge threw, or it
  was charged (with its delay and whether the delete went through).
  `Outcomes` gives the outcomes of a batch: every message up to and
  including the first body `JSON.parse` rejects. `DeletedHandles` gives the
  receipt handles those outcomes delete.
  The `Poller` class records three things: the receive requests it issues,
  the receipt handles it deletes, and how many next polls it scheduled.
  `Poller.HandleMessage` is the loop body and `Poller.ProcessBatch` the
  `for...of` loop. Each is proved to produce exactly these outcomes and
  deletes. Lemmas then show four things:
  - which messages are handled;
  - that only an unparsable body ends the batch;
  - that a message is deleted exactly when its charge returned and its
    delete went through;
  - that reshaping, charge and delete failures are contained.

## Notes on the code

- `JSON.parse` at `index.js:91` sits outside the per-message `try`. A body
  it rejects escapes to the outer `catch` at `index.js:131`, so the rest of
  the batch is neither charged nor deleted. `NothingAfterUnparsableBody`
  and `UnparsableBodyAbandonsRest` state this. A body that parses but lacks
  `credit_card` is caught for that message alone
  (`MalformedRequestIsContained`).
- The card network allow-list is hard-coded to `visa` and `mastercard`
  (`charge.js:37`), and so it is in the model.
- `charge` returns only `{ transactionId }`. The card type, the last four
  digits and the amount also go into the success log record at
  `charge.js:56`, which the model does not render. In the model the last
  four digits appear only in the expiry error.
- `amount` is passed on from the queue body unchanged, and `charge` reads
  its `currencyCode` for the counter label. A body whose amount carries a
  snake-case `currency_code` is therefore counted under an `undefined`
  label.

## Model

| member | source | states |
|---|---|---|
| `Charge.Charge` | src/paymentservice/charge.js:12-60 | The result is fully described guard by guard. A non-string number throws first. Otherwise it throws "invalid" exactly when the validator says not valid, and "unsupported network" (carrying the card type) exactly when the card is valid and its type is not `visa`/`mastercard`. It throws "expired" (carrying the last four digits, month and year) exactly when a valid visa/mastercard card fails the expiry comparison. It succeeds exactly when all guards pass and the amount is not nullish. On success it returns only the env's transaction id, sets `charged` exactly when the request is not synthetic, and raises the counter by 1 under the amount's `currencyCode` |
| `Charge.ChargeReportsFirstViolation` | src/paymentservice/charge.js:33-43 | Against a list of every check evaluated independently: charge succeeds exactly when the list is empty, and otherwise throws the first entry |
| `Charge.InvalidCardReportedFirst` | src/paymentservice/charge.js:33-35 | An invalid card throws "invalid" whatever the network the validator reports for it, its expiry fields and its amount; neither network nor expiry nor amount is examined |
| `Charge.LastFourDigits` | src/paymentservice/charge.js:22 | `substr(-4)`: the result is a suffix of the number, 4 characters long, or the whole number when it is shorter |
| `Charge.ExpiredIsEarlierYearMonth` | src/paymentservice/charge.js:41-43 | For numeric months in 1..12 the comparison `currentYear*12+currentMonth > year*12+month` holds exactly when the card's year is earlier, or the year is the current one and the month earlier |
| `Charge.ExpiringThisMonthAccepted` | src/paymentservice/charge.js:41 | A card expiring in the current month and year is not expired |
| `Charge.MissingExpiryNeverExpires` | src/paymentservice/charge.js:41 | A missing year or month makes the comparison NaN-false, so the card is never rejected as expired |
| `Charge.OnlyTheIdDependsOnTheUuid` | src/paymentservice/charge.js:23 | Two charges of one request with different UUIDs have the same outcome. Errors are identical, and successes differ only in the returned id |
| `Charge.BaggageOnlyLabels` | src/paymentservice/charge.js:45-51 | The baggage never changes whether or what charge throws, the response or the counter. It decides only the `charged` attribute, which is false exactly for `synthetic_request` = "true" |
| `Charge.GetRandomInt` | src/paymentservice/charge.js:120-124 | For a draw in [0, 1) the result lies in [ceil(min), floor(max)) whenever that range is non-empty |
| `Consumer.Reshape` | src/paymentservice/index.js:99-108 | Throws exactly when the body is null or its `credit_card` is missing or null. Otherwise it maps `credit_card_number`/`_expiration_year`/`_expiration_month` to the request's card fields and passes `amount` unchanged |
| `Consumer.DelayMs` | src/paymentservice/index.js:113-114 | The post-charge delay `getRandomInt(1, 1500)` lies in [1, 1500) |
| `Consumer.FirstUnparsable` | src/paymentservice/index.js:89-91 | Walking the batch from a position: the result is the first later position whose body `JSON.parse` rejects, or the batch length when every such body parses |
| `Consumer.Outcomes` | src/paymentservice/index.js:89-133 | The loop handles exactly the messages up to and including the first unparsable body, or all of them. Message k's outcome is the per-message outcome of message k |
| `Consumer.HandledIffEarlierBodiesParse` | src/paymentservice/index.js:89-129 | Message k is handled exactly when every earlier body parses. A reshaping failure, a charge that throws or a rejected delete never stops the batch |
| `Consumer.NothingAfterUnparsableBody` | src/paymentservice/index.js:86-133 | A handled body that `JSON.parse` rejects is the last one handled, and its outcome is the escaped exception |
| `Consumer.UnparsableOnlyLast` | src/paymentservice/index.js:89-133 | Every handled message other than the last has a body that parsed |
| `Consumer.DeletedOnlyAfterCharge` | src/paymentservice/index.js:97-128 | A message is deleted exactly when its body parsed and reshaped, charge returned normally for the reshaped request, and `deleteMessage` resolved. A charged message was delayed by [1, 1500) ms |
| `Consumer.DeletedExactlyAcknowledged` | src/paymentservice/index.js:111-119 | A receipt handle is deleted exactly when some handled message with that handle was charged and its delete went through |
| `Consumer.DeletedHandlesCount` | src/paymentservice/index.js:116-119 | The number of deletes equals the number of handled messages that were charged and whose delete went through, so each such message is deleted exactly once |
| `Consumer.GoodBodyReshapes` | src/paymentservice/index.js:99-108 | A well-formed queue body reshapes to the request with card 4111111111111111, 12/2030 and its amount |
| `Consumer.GoodRequestIsCharged` | src/paymentservice/charge.js:33-59 | A VISA card 4111111111111111 expiring 12/2030, charged in October 2026, succeeds with the minted id, charged, and counted once under an `undefined` currency label |
| `Consumer.GoodMessageIsDeleted` | src/paymentservice/index.js:97-121 | With the model's own charge, a well-formed message is charged and deleted |
| `Consumer.EmptyObjectIsNotARequest` | src/paymentservice/index.js:97-128 | An empty JSON object fails reshaping, and the failure is caught for that message |
| `Consumer.MalformedRequestIsContained` | src/paymentservice/index.js:97-128 | In a batch of three whose middle body parses but has no `credit_card`, the first and third handles are deleted |
| `Consumer.UnparsableBodyAbandonsRest` | src/paymentservice/index.js:131-133 | In a batch of three whose middle body `JSON.parse` rejects, two messages are handled and only the first handle is deleted |
| `Consumer.Poller.HandleMessage` | src/paymentservice/index.js:89-128 | One iteration: its outcome is the per-message outcome, it is an escaped exception exactly when the body does not parse, and the message's handle is appended to the deletes exactly when it was charged and its delete went through |
| `Consumer.Poller.ProcessBatch` | src/paymentservice/index.js:88-130 | The loop's outcomes are exactly those of the batch, and the deletes gain exactly their handles, in batch order |
| `Consumer.NoMessagesNoCharges` | src/paymentservice/index.js:86-133 | A failed receive, or a response without `Messages`, handles no message, so nothing is charged or deleted. Otherwise a poll's k-th outcome is the per-message outcome of the k-th received message |
| `Consumer.Poller.Poll` | src/paymentservice/index.js:79-137 | Each poll issues one receive with at most 10 messages and a 20 s wait. It returns the outcomes of the messages it handled, which are those of its batch, or none when the receive failed or there were no `Messages`. The deletes gain exactly that poll's handles, and exactly one next poll is scheduled on every path |

## Left out

- Charge.Charge: a year or month that is a JSON string, array or object is coerced to NaN, so the card never counts as expired. JavaScript would instead parse a numeric string, and `+` would concatenate a string month. Such bodies are outside the modelled numeric domain.
- JSON numbers are integers in the model. Fractional numbers and the floating-point rounding of `Math.random() * (max - min) + min` are not modelled, and `Charge.GetRandomInt` computes with exact reals.
- Charge.LastFourDigits: strings are sequences of Unicode scalar values, while JavaScript's `substr(-4)` counts UTF-16 code units. For a number containing a character outside the Basic Multilingual Plane the model's suffix can hold more code units than the source's ("123😀" stays whole, where JavaScript gives "23😀"). A suffix that would split a surrogate pair, or a lone surrogate from a JSON `\ud800` escape, has no counterpart in the model. The difference shows only in the `CardExpired` payload of a card the validator accepts.
- The `simple-card-validator` library is an uninterpreted function `Env.validator` from the card number to (card type, validity). Its Luhn and prefix rules are not modelled.
- `uuidv4()` and `new Date()` are the `Env` fields `transactionId`, `currentMonth` and `currentYear`. The two date readings are independent, as in the source.
- `JSON.parse`, `deleteMessage`, the outcome of charge inside the loop and `Math.random()` are the oracles of `Consumer.Oracles`. `charge`, `deleteSucceeds` and `random` are indexed by a message's position in its batch, and `parse` by the body text. The result of `receiveMessage` is the `Consumer.Received` argument of `Consumer.Poller.Poll`. The loop's charge oracle is abstract; the scenario lemmas instantiate it with `Charge.Charge`.
- Error message texts are not rendered. Each error carries its data instead: the card type, the last four digits, and the month and year.
- Telemetry is not modelled: spans and their attributes, the logger, and the log record at `charge.js:56`. Only the `charged` decision and the transaction counter are kept. The logging and span start at `index.js:92-95` are taken not to throw.
- `insertCreditCardDetails`, `dropIndexIfExists`, `randomDate` and `randomPaymentMethod` (`charge.js:62-143`) are database I/O and randomness. Their result is not awaited at `charge.js:58` and their errors are caught inside them, so they do not affect `charge`.
- The SQS client setup (region, queue URL), the `delay` timer and `setImmediate` are runtime plumbing. Rescheduling is modelled only as the `scheduledPolls` count, and sleeping only as the delay recorded in a `Charged` outcome.
- The commented-out gRPC server at `index.js:1-59` is dead code.
- A `Messages` field that is present but not an array is not modelled.
- Dead-letter queues, retry limits, cancellation and a configurable allow-list are absent from the source, so the model has none.
