# A verified model of the bluele/dynamodb client core

This project models the core of a small Go client for Amazon DynamoDB (JSON
protocol version `DynamoDB_20120810`). It covers four parts:

- **Service errors** (`dynamodb.go`). A reply with a status other than 200
  becomes an `Error`. Its code is read from the namespaced `__type` member
  (for example `com.amazon.coral.validate#ValidationException`). A body that
  is not JSON gets a fixed code. The text form is the code, `": "`, then the
  message.
- **The two retry tiers.**
  - `rawQueryServer` resends a request after every
    `ProvisionedThroughputExceededException`. Before each resend it sleeps
    1, 2, 3, ... seconds, with no upper bound. A negative counter disables
    this tier. `queryServer` always starts the counter at 0.
  - Above that tier, `putItem` makes at most five calls. It retries a status
    500 error or a throttling code, and sleeps 50, 100, 200 and 400 ms
    between calls.
- **Reply reading** (`item.go`, `query.go`).
  - `parseAttributes` decodes typed attributes: it probes the tags `S`, `N`,
    `B`, `SS`, `NS`, `BS` in that order and silently drops any field it
    cannot decode.
  - `getItem`, `deleteItem` and `modifyAttributes` read their replies, and
    so do the batch read and batch write requests.
  - `RawQueryTable` reads a query page (`Count`, `Items`,
    `LastEvaluatedKey`), with its exemption for `UpdateItem`. `CountQuery`
    reads a count.
- **Batch containers.** `AddTable` replaces a table's entry in place.

The network and the clock are an explicit environment `Env`. It holds:

- the replies the service will give, in order;
- the requests sent so far;
- the sleeps requested so far.

Operations take an `Env` and return the new one. Once the scripted replies
run out, every further exchange is a transport failure. This is also what
makes the unbounded throttling recursion terminate.

A JSON document is an abstract value (`Json.Value`), and a body that does not
parse is `Malformed`. Every request body built by the query builder is an
opaque string.

Each retry loop is a method proved equal to a specification function:

- `ThrottleRun`, a closed form, for the throttling tier;
- `WriteLoop`, a recursive specification of the same loop, for `putItem`.

Lemmas about these specifications state what the source promises. Examples
are the attempt bound, the backoff schedule, that the throttling error is
absorbed, and that the last answer is the one reported.

Three behaviours of the code are easy to misread:

- The error code is the suffix after the **first** `#` of `__type`, and
  only when that `#` is not at index 0. A leading `#`, or no `#` at all,
  leaves the whole name as the code. The comment in `buildError` speaks of
  "the last part", but the code takes what follows the first `#`.
- `putItem` retries only a service `Error` with status 500 or one of the
  two throttling codes. A transport failure is not retried.
- `queryServer` always starts the throttle counter at 0, whatever
  `isRetry` the caller passes. Only `RawQueryTable` lets `isRetry` switch the
  throttling retry off.

## Model

| member | source | states |
|---|---|---|
| Attributes.FirstCarried | item.go:319-374 | finds the first tag, in probing order, whose payload has the accepted shape: that tag is carried, none before it is, and no result means no tag is carried |
| Attributes.SetMembers | item.go:339-344 | a set's member list has the wire list's length, and position i holds element i's string, or "" when that element is not a string |
| Attributes.Decode | item.go:319-377 | a decoded field has the field's name and a carried tag; an object carrying any accepted tag always decodes; a non-object never does |
| Attributes.CollectSetMembers | item.go:339-344 | the slot-by-slot fill of a zeroed array yields exactly the reference member list |
| Attributes.DecodeAttribute | item.go:319-377 | the six-branch if-chain gives exactly the reference decoding by tag priority |
| Attributes.DecodePicksFirstCarried | item.go:320-374 | tag priority: the first tag in the order S, N, B, SS, NS, BS that the object carries decides type and payload, whatever later tags it also carries |
| Attributes.DecodeNothingCarried | item.go:319-377 | an object that carries none of the six tags in an accepted shape decodes to nothing, with no error |
| Attributes.DecodeStringTag | item.go:320-325 | a field whose object has a string `S` decodes to type S, named after the field, holding that string |
| Attributes.DecodeSetKeepsLength | item.go:338-373 | a decoded set keeps the wire list's length and order, has an empty scalar value, and non-string elements become "" in place |
| Attributes.DecodeItemDomain | item.go:315-382 | the decoded item's keys are a subset of the input keys; non-objects and objects without a usable tag are dropped; every kept attribute is named after its key |
| Attributes.ParseAttributes | item.go:315-382 | the loop over the fields, in any order, yields exactly the reference item decoding |
| Transport.ErrorString | dynamodb.go:38-40 | the rendering is the code, then ": ", then the message, at the stated positions |
| Transport.ErrorStringSeparates | dynamodb.go:38-40 | when the codes have no colon, two errors that render alike have equal codes and equal messages |
| Transport.ErrorCodeShape | dynamodb.go:57-64 | a name without `#` is its own code; with the first `#` at index h, the code is the suffix after it when h > 0 and the whole name when h = 0 |
| Transport.ErrorCodeOfNamespaced | dynamodb.go:57-64 | a non-empty `#`-free namespace, `#`, then a code gives back that code, even when the code holds further `#` |
| Transport.BuildError | dynamodb.go:42-67 | status code and text are copied; a non-JSON body gives code "Failed to parse body as JSON" and an empty message; otherwise the message is `message` and the code comes from `__type`, each "" when absent or not a string |
| Transport.Target | dynamodb.go:125-127 | the target is the versioned prefix followed by the operation name |
| Transport.TargetInjective | dynamodb.go:125-127 | distinct operation names give distinct targets |
| Throttling.Attempts | dynamodb.go:105-116 | a call sends at least one request and at most one more than the scripted replies; a negative counter sends exactly one |
| Throttling.AttemptsRetriedBefore | dynamodb.go:107-112 | every reply consumed before the last was a throttling error met with a non-negative counter |
| Throttling.AttemptsStopAtAnswer | dynamodb.go:107-115 | the last reply consumed is either not a throttling error or was met with a negative counter |
| Throttling.AttemptsExact | dynamodb.go:107-115 | conversely, j retried throttling replies followed by an answer make exactly j + 1 requests |
| Throttling.ThrottledAt | dynamodb.go:105-107 | a scripted position yields the throttling error exactly when it is flagged; past the script nothing is throttled |
| Throttling.ThrottleAbsorbed | dynamodb.go:107-112 | with a non-negative counter the throttling error never reaches the caller |
| Throttling.ThrottleDisabled | dynamodb.go:107-115 | with a negative counter: one request, the first reply's outcome whatever it is, and no sleep |
| Throttling.ThrottleRetriesOnlyThrottling | dynamodb.go:105-112 | only throttling errors are retried, and only with a non-negative counter |
| Throttling.ExchangeOnce | dynamodb.go:88-118 | one exchange: a transport failure is passed on, 200 yields the body, any other status the built error; retry is chosen exactly on a flagged reply with a non-negative counter |
| Throttling.RawQueryServer | dynamodb.go:69-119 | the self-call written as a loop yields exactly the closed form: k = Attempts requests, k replies consumed, sleeps of counter+1 ... counter+k-1 seconds, and the k-th reply's outcome |
| Throttling.QueryServer | dynamodb.go:121-123 | counter 0, and the result is never the throttling error |
| Items.Acknowledge | item.go:221-230 | a write succeeds exactly when the last answer is a JSON body; a failure is passed on and a non-JSON body is a syntax error |
| Items.BackoffSchedule | item.go:216-217 | the waits are 50, 100, 200 and 400 ms, each twice the one before |
| Items.WriteCalls | item.go:195-219 | the write loop calls the service at least once and at most maxNumberOfRetry + 1 = 5 times |
| Items.ThrottleAddsNoBackoff | dynamodb.go:108-111 | the throttling tier sleeps only in seconds-long throttling sleeps, never a backoff sleep |
| Items.WriteBackoffs | item.go:195-219 | over any call that adds no backoff sleep of its own, the loop sleeps once between two calls, and the k-th sleep lasts 2^k × 50 ms |
| Items.ServeAddsNoBackoff | item.go:197 | the call `putItem` makes adds no backoff sleep of its own, so `WriteBackoffs` applies to the call `putItem` makes |
| Items.BackoffSeqValues | item.go:216-217 | the four possible backoff waits are exactly 50, 100, 200 and 400 ms |
| Items.WriteStopsOnAnswer | item.go:198-214 | a loop that ends before its fifth call ends on an answer that is not retried |
| Items.WriteReportsCallAnswer | item.go:196-219 | what the loop reports is one of the call's own answers |
| Items.PutNeverThrottled | item.go:196-214 | `putItem` never reports the throttling code, because the tier below absorbs it |
| Items.PutFirstAnswerFinal | item.go:202-214 | a first answer that is not retried is the only call and the reported answer |
| Items.PutPersistentFailure | item.go:195-223 | a service that keeps failing with status 500 is called exactly five times, and the fifth answer is reported |
| Items.OneCallAt500 | item.go:205-209 | a status-500 reply that is not throttled is consumed once and is retried |
| Items.PutRetriesOn | item.go:202-210 | under the call `putItem` makes, an answer is retried exactly when it is a service error with status 500 or code `ThrottlingException`; the code `ProvisionedThroughputExceededException`, which the loop also checks for, never reaches the loop, because the tier below retries it first |
| Items.WriteAttempt | item.go:196-218 | one pass of the loop makes one call whose answer is `served`; it ends the loop exactly after the fifth call or on an answer that is not retried, with the loop's answer and environment; otherwise it appends a backoff of 2^k × 50 ms to the call's environment and leaves the rest of the loop unchanged |
| Items.PutItem | item.go:176-231 | an empty attribute list is refused and the service is not contacted; otherwise the result is the write loop's last answer, acknowledged, and ok holds exactly when there is no error |
| Items.GetItemResponse | item.go:142-165 | not found exactly when `Item` is absent; unexpected exactly when it is present but not an object; otherwise the decoded item |
| Items.GetItemEmpty | item.go:158-164 | `Item: {}` is an item with no attributes, not a missing item |
| Items.GetItem | item.go:134-166 | one throttled-retry request for `GetItem`, read by the reference reply reading |
| Items.DeleteItem | item.go:233-253 | one `DeleteItem` request; success exactly on a JSON body |
| Items.ModifyAttributes | item.go:287-313 | an empty attribute list is refused without contacting the service; otherwise one `UpdateItem` request, acknowledged |
| Items.DecodeEntries | item.go:79-88 | a table's entries are decoded one item per entry, in order |
| Items.BatchGetResponse | item.go:47-94 | succeeds exactly when `Responses` is an object whose every entry is a list of objects; then the tables are the same and each maps to its entries decoded in order |
| Items.DecodeTable | item.go:71-88 | the append loop succeeds exactly when every entry is an object, and then yields the entries decoded in order |
| Items.DecodeBatchGet | item.go:56-93 | the loop over tables, in any order, yields exactly the reference reading |
| Items.BatchWriteResponse | item.go:100-123 | missing or non-object `UnprocessedItems` is unexpected; empty means success with nothing returned; non-empty is returned with an error |
| Items.BatchGetItem.constructor | item.go:23-28 | a new batch read holds exactly the one table's keys |
| Items.BatchGetItem.AddTable | item.go:37-40 | the table's keys are replaced, not merged, and the other tables keep theirs |
| Items.BatchGetItem.Execute | item.go:47-94 | one `BatchGetItem` request built from the current keys, read by the reference batch reading |
| Items.BatchWriteItem.constructor | item.go:30-35 | a new batch write holds exactly the one table's requests |
| Items.BatchWriteItem.AddTable | item.go:42-45 | the table's requests are replaced, not merged, and the other tables keep theirs |
| Items.BatchWriteItem.Execute | item.go:96-124 | one `BatchWriteItem` request built from the current requests, read by the reference reading of unprocessed items |
| Queries.RetryCount | query.go:60-63 | the counter is non-negative exactly when retries are asked for, and is never below -1 |
| Queries.DecodeItems | query.go:84-93 | `Count` items, where item i is the decoded `Items[i]` |
| Queries.QueryResponse | query.go:69-100 | a missing or non-integer `Count` gives an empty page for `UpdateItem` and is unexpected otherwise; a negative `Count` panics; otherwise success exactly when the first `Count` entries of `Items` are objects, then decoded in order, with `LastEvaluatedKey` as the key when it is an object |
| Queries.DecodeQueryResponse | query.go:69-100 | the slot-filling loop yields exactly the reference page reading |
| Queries.RawQueryTable | query.go:59-101 | the counter is 0 or -1 according to the retry flag, the request goes to the prefixed target, and the reply is read as a page |
| Queries.RawQueryWithoutRetry | query.go:60-64 | without the retry flag exactly one request is made, and the first reply is read whatever it is |
| Queries.RawQueryWithRetry | query.go:60-64 | with the retry flag the throttling error never reaches the page reading |
| Queries.UpdateItemExemption | query.go:74-82 | without an integer `Count`, `UpdateItem` gets an empty page with no key, and any other target gets an unexpected-response error |
| Queries.ContinuationKey | query.go:95-98 | on success the continuation key is absent exactly when `LastEvaluatedKey` is missing or not an object |
| Queries.QueryTable | query.go:103-105 | a raw query on the `Query` operation |
| Queries.RunQuery | query.go:107-115 | the query's items on success (the continuation key is dropped) and its error otherwise |
| Queries.CountResponse | query.go:46-56 | success exactly when `Count` is an integer that fits in 64 bits, and then it is that integer; otherwise an error |
| Queries.CountMatchesPage | query.go:51-56 | when both readings accept a reply, the page has as many items as the count |
| Queries.CountQuery | query.go:38-57 | one `Query` request through `queryServer`, read as a count |

## Left out

- HTTP: building the request, headers, the `X-Amz-Date` timestamp, SigV4
  signing, the security token, the HTTP client and reading the body are
  replaced by the scripted environment. A reply is a status code, a status
  text and a body, and a failure to send or read is a transport failure.
- Real sleeps are not performed. Each sleep is recorded as a `Wait`: in
  seconds for the throttling tier, in milliseconds for the write backoff.
- Log output is not modelled.
- The go-simplejson parser is not modelled. A body is either malformed or an
  abstract JSON value, and numbers are kept as integer or non-integer
  literals.
- The query builder (`NewQuery`, `NewEmptyQuery`, `AddItem`, `AddKey`,
  `AddExpected`, `AddUpdates`, `AddGetRequestItems`,
  `AddWriteRequestItems`, ...), `Attribute`, `Key`, `Key.Clone` and
  `parseKey` are not part of this model. Operations take the serialised
  request body as a string. The batch containers take an `encode`
  function. The continuation key is kept as the raw `LastEvaluatedKey`
  object.
- The public wrappers (`PutItem`, `ConditionalPutItem`, `GetItemConsistent`,
  the `Add`/`Update`/`Delete` attribute calls, `Query`, `QueryOnIndex`,
  `LimitedQuery*`, ...) only choose the query that is sent. Each one is
  covered by the operation it delegates to.
- `queryServer` is declared with two parameters, but every call site passes
  a third, `isRetry`. The model takes that flag and ignores it, so the
  counter is always 0, as the declared body does.
- Script exhaustion: once the scripted replies run out, the service answers
  with a transport failure. This bounds the otherwise unbounded throttling
  recursion.
- Throttling.RawQueryServer: a sleep lasts `retryCount` seconds, as an
  unbounded integer. In the source, that sleep is a `time.Duration` (int64
  nanoseconds), which overflows once `retryCount` exceeds 9,223,372,036. Go
  then wraps it to a negative duration, so the sleep returns at once. That
  wrapped duration is not modelled.
- Go's distinction between a nil slice or map and an empty one is not kept.
  For example, an empty table in a batch read is an empty list.
- Queries.QueryResponse: a negative `Count` is a panic in the source (slice
  allocation). The model returns it as the failure `SlicePanic`. An
  allocation too large to succeed is not modelled.
- Queries.QueryResponse and Queries.CountResponse: `Count` is read as a
  signed 64-bit integer for both `Int()` and `Int64()`. A 64-bit platform is
  assumed.
- Error messages that quote the raw body ("Unexpected response %s") are
  modelled as `UnexpectedResponse(body)`, not as formatted text.
- Items.BatchGetItem and Items.BatchWriteItem store copies of the keys and
  write requests, as `seq` and `map` values. In the source, the batch keeps
  the caller's slice, which shares its backing array, and the caller's map
  itself. A change the caller makes to them after `BatchGetItems`,
  `BatchWriteItems` or `AddTable` would therefore change what `Execute`
  sends. That aliasing is not modelled.
- The `Server` value, with its credentials and region, is not modelled.
