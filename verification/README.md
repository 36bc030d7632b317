# ShopStream: the order-to-payment saga, modelled and proved in Dafny

The core is a transition system. Any number of `CreateOrder` calls in
order-service and any number of charge handlers in payment-service act on two
databases. The network may lose, delay or duplicate any request or response.
Commits may fail, or succeed without being acknowledged. Handlers may be
cancelled or crash anywhere. The theorems are about every sequence of such
actions.

The layers, bottom up:

- `Payments`, `PaymentProtocol`, `PaymentInvariant`, `PaymentTheorems`,
  `DuplicateRequests`: payment-service. The ledger records each call of
  `IPaymentGatewayClient` and what it returned; "captured" and "approved" are
  counted there.
- `Orders`, `OrderTotals`, `OrderSaga`, `SagaInvariant`, `SagaTheorems`,
  `SagaLimits`: order-service on top of the whole payment protocol. Order ids are
  fresh, and a key that equals an order id is used by order-service alone;
  clients with other keys may charge freely.
- `SagaRuns`: the runs that go through to 201 and 402, and for which orders they exist.
- `EdgeGateway`, `EdgeTheorems`: the gateway's sessions on top of the saga. One
  attempt of a session reaches order-service at most once.
- `Worlds`: the mutable world in which the imperative code works. Its methods
  perform their effects as actions of the saga (`Act`), and wherever the code
  awaits a database, the network or a timer, everybody else takes the next batch
  of a schedule (`Interfere`). The schedule, the outcomes of HTTP attempts, the ends
  of commits and the answers of the card gateway are inputs. `Valid()` says that the world's history is a legal
  run of the saga, so every theorem about runs holds of the methods.
- `ResilientClients`, `ServiceClients`, `OrderRepositories`, `OrderServices`,
  `OrderHandlers`, `PaymentProcessing`: the code, as methods over that world.
- `Retry`, `AxiosRetry`, `Notifications`: one specification of "stop at the first
  decisive outcome" and the other two retry loops.
- `GatewayClients`, `ProductCatalog`: the two gateway implementations and the
  paginated product list.

HTTP status codes mean what section 15 of RFC 9110 says. POST is not idempotent by
itself (section 9.2.2 of RFC 9110); the key is what makes the retries safe.

Where code and comments disagree, the model follows the code:

- api-gateway/src/services/httpClient.js:14 speaks of no retries for an
  unresolved host; line 24 retries every error without a response.
- payment-service/src/PaymentService.Api/Models/Payment.cs:14-16 says that a
  second request finds the row and returns its result; a second request that runs
  at the same time can instead hit the unique index and end with status 500
  (`DuplicateRequests` has the run, and says exactly who gets the stored payment).
- payment-service/README.md:121-124 says that an order stays PENDING or FAILED
  when the gateway is down; a CreateOrder that gets as far as a charge result
  decides FAILED then. The stored order stays PENDING if that status write fails,
  if the process stops before it, or if the insert was done but not acknowledged.

Three properties that one might expect are false of the code. Each has a concrete
witness and the exact condition under which it holds:

- A FAILED order need not be uncharged (`SagaLimits`). For an order that can be
  stored at all, every run that leaves it FAILED has captured nothing if and only if
  its total is below one cent or order-service's retry setting is negative, so that
  it sends nothing. A failure decided by a decoded response never captures; one
  decided by an error may, and `CapturedAfterFailure` says exactly when it still can.
- A stored total need not be the sum of its lines (`OrderTotals`): it is if and only
  if that sum fits the INTEGER column.
- Pages need not partition the products (`ProductCatalog`): they do, whatever
  orderings the database picks, if and only if no page end cuts a tie.

## Model

| member | source | states |
|---|---|---|
| PaymentInvariant.StepInv | payment-service/src/PaymentService.Api/Services/PaymentProcessingService.cs:27-79 | every action of a handler or its environment keeps: unique keys, one call per row, Pending rows owned by one handler, settled rows holding what their one call returned |
| PaymentInvariant.StepKeeps | payment-service/src/PaymentService.Api/Services/PaymentProcessingService.cs:64-76 | no action changes a terminal row, the identity of a row, a recorded call, or a result handed out |
| PaymentTheorems.AtMostOneGatewayCallPerKey | payment-service/src/PaymentService.Api/Services/PaymentProcessingService.cs:29-62 | in every run the gateway client is called at most once per idempotency key, with at most the configured retries plus one POST |
| PaymentTheorems.HistoryIsKept | payment-service/src/PaymentService.Api/Services/PaymentProcessingService.cs:29-78 | whatever a run has stored as terminal, called, or answered at some moment is there unchanged at every later one |
| PaymentTheorems.ReplayStability | payment-service/src/PaymentService.Api/Services/PaymentProcessingService.cs:29-35 | the results for one key are Pending any number of times, then for ever one terminal payment with one HTTP status, always the same id and amount |
| DuplicateRequests.SecondRequestGetsTheRow | payment-service/src/PaymentService.Api/Services/PaymentProcessingService.cs:29-56 | a request whose key has a row of another handler is answered with a payment if and only if the row was there at its lookup, and then with that row; otherwise never |
| DuplicateRequests.TwoDeliveriesCollide | payment-service/migrations/001_init.sql:8-21 | any chargeable request, with a key of at most 100 characters, delivered twice has a run in which one handler stores the row and the other hits the unique index and ends without an answer |
| PaymentTheorems.MoneyConservation | payment-service/src/PaymentService.Api/Services/PaymentProcessingService.cs:42-78 | total approved = Succeeded rows + Pending rows whose approval was returned but not saved; bounded by Succeeded below and Succeeded plus Pending above |
| PaymentTheorems.SettledRowTells | payment-service/src/PaymentService.Api/Services/PaymentProcessingService.cs:58-73 | in every run a settled row is Succeeded or Declined as its one gateway call approved or not, with the transaction id and the reason it returned; or Failed, without a transaction, for gateway_unavailable |
| PaymentTheorems.RowsFollowRequests | payment-service/src/PaymentService.Api/Services/PaymentProcessingService.cs:37-62 | in every run a row has the ids, amount, upper-cased currency and key of a request that was sent, and the gateway was asked for exactly what the row says |
| PaymentTheorems.RepliesTellStatus | payment-service/src/PaymentService.Api/Controllers/PaymentsController.cs:41-46 | in every run a reply is 200 exactly for Succeeded, 402 exactly for Declined, 502 exactly for Pending or Failed |
| SagaInvariant.StepInv | order-service/internal/service/order_service.go:45-125 | every action of the saga keeps: orders stored whole, charges only for stored orders with their user and total, CONFIRMED only if paid |
| SagaTheorems.StepKeeps | order-service/internal/service/order_service.go:96-119 | no action alters a stored order except PENDING to CONFIRMED or FAILED, nor moves a finished call |
| SagaTheorems.HistoryIsKept | order-service/internal/service/order_service.go:58-119 | over whole runs a stored order keeps items, owner and total, and its status moves at most once, from PENDING |
| SagaTheorems.ConfirmedMeansPaid | order-service/internal/service/order_service.go:96-124 | an order stored CONFIRMED or answered 201 is stored field by field with its items, has a Succeeded payment with its id as key, its user and exactly its total in USD, and exactly one gateway call, approved for that amount in USD |
| SagaTheorems.ConfirmedStaysPaid | order-service/internal/service/order_service.go:116-124 | the same in every later state, with the order unchanged |
| SagaTheorems.ChargesFollowOrders | order-service/internal/service/order_service.go:100-105 | every charge request under an order id is for an order already committed: its id as header and body, its user, its stored total, USD |
| SagaTheorems.PaymentsFollowOrders | order-service/internal/service/order_service.go:96-105 | every payment row and every gateway call under an order id is for an order already committed, with its user, its stored total and USD, and that order is not CANCELLED |
| SagaTheorems.VerdictAgreement | payment-service/src/PaymentService.Api/Controllers/PaymentsController.cs:41-46 | in every run, once a response is decoded its row is Succeeded or Declined for ever; the order is stored CONFIRMED or answered 201 only for a Succeeded row, which captured exactly the total, and stored FAILED or answered 402 only for a Declined one, which captured nothing |
| SagaTheorems.VerdictIsStored | order-service/internal/service/order_service.go:107-124 | once the status write after a decoded response has gone through, the stored status is CONFIRMED exactly for a Succeeded row and FAILED exactly for a Declined one, in every later state |
| SagaTheorems.RefusalLeavesNoTrace | order-service/internal/handlers/order_handler.go:81-102 | after a 400, 404, 409 or 502 of CreateOrder there is, now and later, no order, no item, no charge request, no payment and no gateway call for that id |
| SagaTheorems.ConfirmedTotalsAreCovered | order-service/internal/service/order_service.go:107-119 | sum of CONFIRMED totals <= total approved <= sum of Succeeded and Pending payment amounts |
| SagaLimits.CaptureIsReadOffTheRow | payment-service/src/PaymentService.Api/Services/PaymentProcessingService.cs:64-76 | whatever the order's status: nothing was captured without a row; for a settled row exactly if it is not Succeeded; over all rows exactly if none is Succeeded and none is Pending with an approval that was not saved |
| SagaLimits.DeclinedStaysUncaptured | payment-service/src/PaymentService.Api/Services/PaymentProcessingService.cs:64-66 | once a payment is Declined, nothing is captured for its key in any later state |
| SagaLimits.FailedYetCharged | order-service/internal/service/order_service.go:100-119 | for every order of at least a cent, every id and all retry settings from 0 up, a run leaves it FAILED by an error, answered 402, and captured exactly once for its total: approved, but the save failed and the answer was a 500 |
| SagaLimits.FailedMeansUnchargedExactlyWhen | order-service/internal/service/order_service.go:100-119 | every run that leaves the order FAILED captured nothing for it, if and only if its total is below one cent, or order-service is set to send nothing, or no such order can be stored |
| SagaLimits.DecodedFailureIsUncaptured | order-service/internal/service/order_service.go:107-114 | a FAILED order that was decided by a decoded response was Declined, and is captured in no continuation |
| SagaLimits.CapturedAfterFailure | order-service/internal/service/order_service.go:100-119 | after a 402, some continuation captures the order exactly if it is captured already, or at least a cent was sent and there is no row yet or a handler holds the row without an answer from the gateway |
| SagaRuns.ConfirmedExactlyWhen | order-service/internal/service/order_service.go:45-125 | some run stores the order CONFIRMED and answers 201, if and only if it can be stored, is worth at least a cent and an attempt is allowed |
| SagaRuns.DeclinedExactlyWhen | order-service/internal/service/order_service.go:107-124 | the same orders, and no others, can be FAILED by a decoded answer |
| EdgeTheorems.RetryAmplification | api-gateway/src/services/httpClient.js:28-57 | one client POST causes at most Rg+1 orders, (Rg+1)(Ro+1) charge requests, Rg+1 gateway-client calls and (Rg+1)(Rp+1) POSTs to the card processor |
| EdgeTheorems.StatusCodeRetriesAreSafe | order-service/internal/handlers/order_handler.go:75-106 | while order-service itself answers every attempt, all attempts of a POST leave at most one order, one payment row and one gateway call |
| EdgeTheorems.RetriedExactlyWhen | api-gateway/src/services/httpClient.js:23-46 | an attempt answered by order-service is followed by another exactly if the answer is a 502, 503 or 504 and retries are left |
| EdgeTheorems.SessionIsInterceptor | api-gateway/src/services/httpClient.js:28-57 | over outcomes at which the interceptor's recursion stops right, a session of the transition system makes as many attempts and ends |
| Orders.LoopTotalWraps | order-service/internal/service/order_service.go:65-94 | the pricing loop yields the exact sum modulo 2^64, for any lines |
| Orders.WithOrderRows | order-service/internal/repository/order_repository.go:46-70 | a committed order adds exactly its own item rows and touches those of no other order |
| OrderTotals.PricingIsExact | order-service/internal/service/order_service.go:83-84 | with 32-bit prices and quantities the total is exact if and only if the sum is below 2^63, and always for up to two lines |
| OrderTotals.StoredTotal | order-service/migrations/0001_init.up.sql:4-21 | in every run a stored total is the sum over its stored rows exactly when that sum fits INTEGER, always for up to four rows, and no stored order is CANCELLED |
| OrderTotals.FiveLinesCanWrap | order-service/internal/service/order_service.go:83-84 | whatever the settings, a run stores an order with a total of 4 cents whose five admissible rows add up to 2^64 + 4 |
| Worlds.World.RoundTrip | order-service/internal/client/http_client.go:69-76 | one attempt sends one request, logs what the network yields, opens a body exactly for a response, and lasts no longer than a positive client timeout |
| Retry.StopsRightIsUsed | order-service/internal/client/http_client.go:45-47 | "stopped right" holds of exactly one prefix of every outcome script: up to the first outcome not worth retrying, or all attempts |
| ResilientClients.ResilientClient.Attempt | order-service/internal/client/http_client.go:64-87 | one turn waits, sends and classifies; a network error or 502, 503, 504 leaves no body open, anything else is handed on |
| ResilientClients.ResilientClient.Do | order-service/internal/client/http_client.go:48-93 | exactly one of response and error unless R < 0; the loop ends after the first decisive outcome, with R+1 attempts used up, or in the first cancelled wait, and never otherwise; the caller's own error exactly for a cancelled wait with attempts left, else a timeout exactly for a last attempt that timed out; discarded bodies closed; each charge attempt is the one request of the order |
| ResilientClients.TotalBackoffClosedForm | order-service/internal/client/http_client.go:53-62 | without overflow of the last wait, the 64-bit waits add up to b(2^n - 1) |
| ResilientClients.TimeBound | order-service/internal/client/http_client.go:51-76 | sleeps at most b(2^R - 1), and takes at most (R+1)T + b(2^R - 1) in all |
| ServiceClients.VerifyUserExists | order-service/internal/client/user_client.go:21-40 | asks again as long as the retry policy does; succeeds exactly on a final 200, not found exactly on a final 404, leaves no body open |
| ServiceClients.GetProductInfo | order-service/internal/client/product_client.go:29-52 | asks again as long as the retry policy does; a product exactly if the last answer is a 200 that decodes, and then that one; not found exactly on a final 404; no body left open |
| ServiceClients.AskedRight | order-service/internal/client/http_client.go:45-93 | without cancellation, every attempt of a client but the last failed without a response or with 502, 503 or 504, and the last one failed so only if it was the last one allowed |
| ServiceClients.Charge | order-service/internal/client/payment_client.go:36-66 | every attempt sends the order's id as key and order id, its user, total and currency, as often as the retry policy does; a result exactly if the last answer is a decodable 200, 201 or 402, and then the reply in it, which payment-service gave for this key; no body left open |
| OrderRepositories.OrderRepository.CommitTx | order-service/internal/repository/order_repository.go:70 | a commit publishes the order row and all collected item rows at once or changes nothing |
| OrderRepositories.OrderRepository.InsertItems | order-service/internal/repository/order_repository.go:55-68 | collects exactly the rows of the order, or stops at a failing statement, a violated CHECK or a taken id |
| OrderRepositories.OrderRepository.Create | order-service/internal/repository/order_repository.go:35-71 | whatever others do in between, the tables hold the order and exactly its items, field by field, or nothing of it; all of it exactly if every statement ran, no CHECK failed, no item id was taken and the commit was not undone; success exactly if that was acknowledged |
| OrderRepositories.OrderRepository.GetItems | order-service/internal/repository/order_repository.go:131-150 | lists each item row of the order exactly once, field by field |
| OrderRepositories.OrderRepository.GetByID | order-service/internal/repository/order_repository.go:73-94 | although read by two queries with others between them, the result is the order as one database state held it; not found only if some state lacked it |
| OrderRepositories.OrderRepository.CreateThenGet | order-service/internal/repository/order_repository.go:35-94 | GetByID after a successful Create finds the order, with its owner, total and currency and the same multiset of items, whatever others do |
| OrderRepositories.OrderRepository.UpdateStatus | order-service/internal/repository/order_repository.go:117-129 | writes the decided status unless rolled back; success exactly if a row was there and the write acknowledged; ErrOrderNotFound exactly if acknowledged and there was none |
| OrderServices.OrderService.PriceLine | order-service/internal/service/order_service.go:67-92 | whether the line is priced, and each of its errors, follows exactly from the last answer to the request for its own product |
| OrderServices.OrderService.PriceItems | order-service/internal/service/order_service.go:65-94 | all lines priced in order from the answers about their products, with the total of the 64-bit loop; or the error that the last answer gives for the first line not priced |
| OrderServices.OrderService.PriceOrder | order-service/internal/service/order_service.go:45-94 | a priced PENDING order for the requested user and lines; or nothing stored, with a validation error exactly for an unparsable user id and otherwise the error of the last answer, about the user or the first line not priced |
| OrderServices.OrderService.Record | order-service/internal/service/order_service.go:107-124 | CONFIRMED without error exactly if a reply was decoded and says Succeeded, else FAILED with the order and the error; that status is stored unless its write was undone |
| OrderServices.OrderService.ChargeAndRecord | order-service/internal/service/order_service.go:100-124 | no error exactly if the last answer to the charge is a decodable one whose payment succeeded; what was heard is what the run decides on |
| OrderServices.OrderService.CreateOrder | order-service/internal/service/order_service.go:45-125 | under any interleaving: no error exactly if the last answer says the charge succeeded, and then stored, paid and captured exactly once for the total; an order with ErrPaymentDeclined exactly if a charge was tried otherwise; a refusal means nothing stored and is the verdict of the last answer; ErrPersisting names a failed statement, CHECK, id or commit |
| OrderHandlers.CreateOrder | order-service/internal/handlers/order_handler.go:22-36 | 201 exactly if the last answer says paid, 402 exactly if a charge was tried and it does not; 404 exactly if the last answer about the user or a product is a 404, 409 exactly if it is the product of the first unpriced line without the stock, 502 exactly if the last attempt about them had no usable answer; 400 exactly for a request that does not bind or parse; a 500 names a failed statement, CHECK, id or commit of the priced order, or a client set to make no attempt; the body carries an order exactly with 201 and 402 |
| PaymentProcessing.FirstOrDefault | payment-service/src/PaymentService.Api/Services/PaymentProcessingService.cs:29-30 | some row with the key if there is one, and none only if there is none |
| PaymentProcessing.LookUp | payment-service/src/PaymentService.Api/Services/PaymentProcessingService.cs:29-35 | a stored payment for the key is the answer, on record with its status |
| PaymentProcessing.InsertPending | payment-service/src/PaymentService.Api/Services/PaymentProcessingService.cs:42-56 | the handler goes on exactly if its row was new and fits its columns, its key unused and the commit acknowledged |
| PaymentProcessing.CallGateway | payment-service/src/PaymentService.Api/Services/PaymentProcessingService.cs:58-62 | always one recorded call for the inserted row, with every POST counted up to one more than the configured retries, ending with the gateway's outcome or an escaped exception |
| PaymentProcessing.ApplyOutcome | payment-service/src/PaymentService.Api/Services/PaymentProcessingService.cs:64-73 | the row takes the verdict, transaction id and reason of the answer, or Failed and gateway_unavailable, and keeps everything else |
| PaymentProcessing.ChargeAndSettle | payment-service/src/PaymentService.Api/Services/PaymentProcessingService.cs:58-78 | calls the gateway, and saves whatever it returned; a payment exactly if the gateway came back and the save fitted and was acknowledged, with the verdict, transaction id and reason that came back |
| PaymentProcessing.ChargeNew | payment-service/src/PaymentService.Api/Services/PaymentProcessingService.cs:37-78 | after a lookup without result: an argument error exactly for ids that do not parse; the gateway is called and its outcome saved whenever the insert went through; a payment exactly if all of it went through: the charge that the request asks for, with the verdict, transaction id and reason of the answer |
| PaymentProcessing.ChargeAsync | payment-service/src/PaymentService.Api/Services/PaymentProcessingService.cs:27-79 | every effect is an action of the protocol; a payment exactly if its lookup found one, which is then returned as stored, or found none and everything went through, and then the charge asked for with what the gateway returned; an argument error exactly if it found none and an id does not parse; else an exception |
| PaymentProcessing.Charge | payment-service/src/PaymentService.Api/Controllers/PaymentsController.cs:20-52 | 200 exactly for Succeeded, 402 exactly for Declined, 502 for other payments, a payment exactly when ChargeAsync gives one, and the response that goes out has just that status; 400 exactly for a blank id, an amount outside 1 to 2147483647, a currency that is not three characters, or unparsable ids on a lookup without result; else 500 |
| GatewayClients.LiveGatewayDecides | payment-service/src/PaymentService.Api/Services/HttpPaymentGatewayClient.cs:28-53 | in every run against the live gateway behind Polly, a settled row stems from one call whose counted POSTs repeated only failures, 5xx and 408, as far as retries went; the last one decides: approval or refusal of a 2xx with its transaction and reason, a refusal for an empty 2xx, else Failed |
| GatewayClients.SimulatedGatewayDecides | payment-service/src/PaymentService.Api/Services/SimulatedPaymentGatewayClient.cs:25-46 | in every run against the simulated gateway a settled row is Succeeded with a generated transaction exactly for USD, EUR or GBP up to the threshold, else Declined as unsupported_currency or amount_exceeds_limit |
| AxiosRetry.Client | api-gateway/src/services/httpClient.js:16-60 | every attempt but the last failed without a response or with 502, 503 or 504, the last one so only if the counter was used up; below 500 resolves, anything else rejects with the error; the counter advances by the retries made |
| AxiosRetry.OnRejected | api-gateway/src/services/httpClient.js:30-56 | the interceptor retries while its counter and predicate allow, else rejects with the error itself |
| AxiosRetry.DelaysClosedForm | api-gateway/src/services/httpClient.js:35-36 | the delays of n retries add up to d(2^n - 1) |
| AxiosRetry.RecursionAgreesWithLoop | api-gateway/src/services/httpClient.js:23-26 | with equal retries and before equal outcomes, the gateway's recursion makes exactly as many attempts as an uncancelled Do of order-service |
| Notifications.HttpSend | notification-service/src/services/emailProvider.ts:39-84 | stops right; provider_unavailable exactly when every allowed try was a 5xx or threw; waits add up to 200(2^k - 1) |
| Notifications.Send | notification-service/src/services/notificationService.ts:17-62 | with both saves the store has seen PENDING with 0 attempts, then SENT or FAILED with 1: an SMS always FAILED, an email SENT exactly if delivered; if the second save fails it keeps PENDING with 0 |
| Notifications.SimulatedOutcome | notification-service/src/services/emailProvider.ts:19-30 | with the simulated provider an email is FAILED as bounced exactly if "+bounce" occurs in the recipient, else SENT |
| Notifications.LiveOutcome | notification-service/src/services/notificationService.ts:44-58 | an email is SENT exactly when the first try with an outcome, neither a 5xx nor a throw, was a success, and keeps its message id; a refusal keeps its reason or status; the fallback reason stands exactly when there is no such try |
| ProductCatalog.ListProducts | product-service/app/services/product_service.py:23-46 | at most page_size rows, the number of all wanted products as total, and nothing beyond the last page |
| ProductCatalog.ListedItems | product-service/app/services/product_service.py:30-46 | item i of a page is row (page - 1) * page_size + i, for as many as fit or are left; every item is in the store, active if asked for and of the category if one is given, newest first, none twice |
| ProductCatalog.PagesPartitionExactlyWhenClean | product-service/app/services/product_service.py:39-41 | the answers to separate requests for enough pages list every wanted product exactly once, whatever orderings the database picks, if and only if no page end falls between two products with equal created_at |
| ProductCatalog.TieBreaksPages | product-service/app/services/product_service.py:41 | a tie across a page end admits answers that list one product on two pages |
| ProductCatalog.PagesConcatenate | product-service/app/services/product_service.py:39-46 | with distinct created_at, the answers for pages 1 to n together are exactly the wanted products, strictly newest first |

## Left out

- Resolution of Pending payments: nothing in the code ever settles a row whose handler is gone.
- Replays with another payload under the same key: the code returns the stored payment and compares nothing.
- Captures on the card processor's own wire: requests carry no key there, so only the number of POSTs is bounded.
- Duplicated delivery between gateway and order-service: a session's attempt starts at most one CreateOrder; charge requests may be duplicated freely.
- Rows that exist before the first action (the seed data): runs start with empty tables.
- OrderRepositories.OrderRepository.Create: leaves out timestamps and the replacement of nil item ids, because CreateOrder never passes one.
- OrderServices.OrderService.CreateOrder: its body is split into methods for pricing, persisting, charging and recording; logging is left out.
- ResilientClients.ResilientClient.Do: the loop body is a method of its own; the request builder is represented by the request it builds, since it closes over constants.
- Notifications.HttpSend: failure reasons are tagged values, so a provider's own text "provider_unavailable" is told apart from the fallback.
- AxiosRetry.Client: delays are integers, not JavaScript numbers.
- PaymentProcessing.ChargeAsync: text is upper-cased for ASCII letters only and measured in characters, not UTF-16 units; created_at and updated_at are left out.
- UUID and GUID parsing: one total parse with a failure case stands for both libraries; the canonical spelling is the one both write.
- Transport and libraries (HTTP redirects, connection pools, EF Core, pgx, Polly, axios internals): represented by their contracts as actions and inputs.
- Stock reservation: the code checks stock line by line and never changes it.
- ListByUser, product create, update and delete, notification queries: single queries and single writes.
- JWT, passwords, user-service, rate limiting, CORS, health checks, shutdown, configuration parsing: no part in the saga.
