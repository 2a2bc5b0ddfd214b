/** Item operations on a table (`item.go`): the write backoff of `putItem`,
    the empty-attribute guard of the writes, the reply handling of
    `getItem`, `deleteItem` and `modifyAttributes`, and the batch requests
    with their per-table containers.

    Every operation reaches the service through `QueryServer`, so each
    request it makes is itself subject to the throttling retry. Queries are
    built by a query builder that is not part of this model: an operation
    takes its serialised request body as a string. */
module Items {
  import opened Wrappers
  import opened Json
  import opened Attributes
  import opened Transport
  import opened Throttling

  // ----- replies that carry no data -----

  /** How a write reports its reply: a failure is passed on, a body that is
      not JSON is a syntax error, and any JSON body acknowledges the write. */
  function Acknowledge(served: Result<Body, Failure>): (err: Option<Failure>)
    ensures err.None? <==> served.Ok? && served.value.Doc?
    ensures served.Err? ==> err == Some(served.error)
    ensures served.Ok? && served.value.Malformed? ==> err == Some(JsonSyntax)
  {
    match served
    case Err(e) => Some(e)
    case Ok(Malformed) => Some(JsonSyntax)
    case Ok(Doc(_)) => None
  }

  // ----- the write backoff of putItem -----

  const MaxNumberOfRetry: nat := 4

  function Pow2(k: nat): (p: nat)
    ensures p >= 1
  {
    if k == 0 then 1 else 2 * Pow2(k - 1)
  }

  /** The wait before retry `k` (counting from 0), in milliseconds. */
  function BackoffMillis(k: nat): nat {
    Pow2(k) * 50
  }

  /** The waits are 50, 100, 200 and 400 ms, each twice the one before. */
  lemma BackoffSchedule()
    ensures BackoffMillis(0) == 50 && BackoffMillis(1) == 100
    ensures BackoffMillis(2) == 200 && BackoffMillis(3) == 400
    ensures forall k: nat :: BackoffMillis(k + 1) == 2 * BackoffMillis(k)
  {
    assert Pow2(1) == 2 && Pow2(2) == 4 && Pow2(3) == 8;
  }

  /** The errors `putItem` retries: a service error with status 500 or with
      one of the two throttling codes. A transport failure is not retried. */
  predicate Retryable(r: Result<Body, Failure>) {
    r.Err? && r.error.Service? &&
    (r.error.err.statusCode == 500 || r.error.err.code == ThrottlingException ||
     r.error.err.code == ProvisionedThroughputExceeded)
  }

  /** One call of the service as the write loop makes it: a request with
      the throttling retry below it, counter starting at 0. */
  function Serve(req: Request): Env -> Run<Body> {
    e => ThrottleRun(e, req, 0)
  }

  /** The request loop of `putItem` from retry counter `currentRetry` on,
      over a service call `serve`: call; stop after the fifth call, or when
      the answer is not retryable; otherwise sleep the backoff and call
      again. */
  function WriteLoop(serve: Env -> Run<Body>, env: Env, currentRetry: nat): Run<Body>
    requires currentRetry <= MaxNumberOfRetry
    decreases MaxNumberOfRetry - currentRetry
  {
    var served := serve(env);
    if currentRetry >= MaxNumberOfRetry || !Retryable(served.result) then served
    else WriteLoop(serve, Slept(served.env, BackoffSleep(BackoffMillis(currentRetry))), currentRetry + 1)
  }

  /** How many times that loop calls the service. */
  function WriteCalls(serve: Env -> Run<Body>, env: Env, currentRetry: nat): (n: nat)
    requires currentRetry <= MaxNumberOfRetry
    ensures 1 <= n <= MaxNumberOfRetry + 1 - currentRetry
    decreases MaxNumberOfRetry - currentRetry
  {
    var served := serve(env);
    if currentRetry >= MaxNumberOfRetry || !Retryable(served.result) then 1
    else 1 + WriteCalls(serve, Slept(served.env, BackoffSleep(BackoffMillis(currentRetry))), currentRetry + 1)
  }

  /** The backoff waits among a list of waits, in milliseconds. */
  function Backoffs(w: seq<Wait>): (ms: seq<int>)
    ensures |ms| <= |w|
  {
    if w == [] then []
    else (if w[0].BackoffSleep? then [w[0].millis] else []) + Backoffs(w[1..])
  }

  lemma {:induction false} BackoffsAppend(a: seq<Wait>, b: seq<Wait>)
    ensures Backoffs(a + b) == Backoffs(a) + Backoffs(b)
  {
    if a == [] {
      assert a + b == b;
    } else {
      assert (a + b)[1..] == a[1..] + b;
      BackoffsAppend(a[1..], b);
      var head := if a[0].BackoffSleep? then [a[0].millis] else [];
      assert Backoffs(a + b) == head + (Backoffs(a[1..]) + Backoffs(b));
      assert (head + Backoffs(a[1..])) + Backoffs(b) == head + (Backoffs(a[1..]) + Backoffs(b));
    }
  }

  lemma {:induction false} NoBackoffsWhileThrottled(count: int, n: nat)
    ensures Backoffs(ThrottleSleeps(count, n)) == []
    decreases n
  {
    if n > 0 {
      assert ThrottleSleeps(count, n)[1..] == ThrottleSleeps(count + 1, n - 1);
      NoBackoffsWhileThrottled(count + 1, n - 1);
    }
  }

  /** The throttling tier sleeps, but never a backoff sleep. */
  lemma ThrottleAddsNoBackoff(env: Env, req: Request)
    ensures Backoffs(ThrottleRun(env, req, 0).env.waits) == Backoffs(env.waits)
  {
    var k := Attempts(ThrottleFlags(env.replies), 0);
    assert ThrottleRun(env, req, 0).env.waits == env.waits + ThrottleSleeps(0, k - 1);
    BackoffsAppend(env.waits, ThrottleSleeps(0, k - 1));
    NoBackoffsWhileThrottled(0, k - 1);
  }

  /** The backoff waits retries `from` ... `from + n - 1` take. */
  function BackoffSeq(from: nat, n: nat): (ms: seq<int>)
    ensures |ms| == n && forall i :: 0 <= i < n ==> ms[i] == BackoffMillis(from + i)
  {
    seq(n, i requires 0 <= i < n => BackoffMillis(from + i))
  }

  lemma BackoffSeqCons(before: seq<int>, from: nat, n: nat)
    requires n >= 1
    ensures (before + [BackoffMillis(from)]) + BackoffSeq(from + 1, n - 1) == before + BackoffSeq(from, n)
  {
    assert [BackoffMillis(from)] + BackoffSeq(from + 1, n - 1) == BackoffSeq(from, n);
    assert (before + [BackoffMillis(from)]) + BackoffSeq(from + 1, n - 1)
        == before + ([BackoffMillis(from)] + BackoffSeq(from + 1, n - 1));
  }

  lemma AfterBackoff(waits: seq<Wait>, millis: int)
    ensures Backoffs(waits + [BackoffSleep(millis)]) == Backoffs(waits) + [millis]
  {
    BackoffsAppend(waits, [BackoffSleep(millis)]);
    assert Backoffs([BackoffSleep(millis)]) == [millis];
  }

  /** A service call that adds no backoff sleep of its own. */
  ghost predicate SleepsNoBackoff(serve: Env -> Run<Body>) {
    forall e :: Backoffs(serve(e).env.waits) == Backoffs(e.waits)
  }

  /** Over any service call that adds no backoff sleep of its own, the loop
      sleeps once between two calls, and the k-th of those sleeps (from 0)
      lasts `BackoffMillis(k)`. */
  lemma {:induction false} WriteBackoffs(serve: Env -> Run<Body>, env: Env, currentRetry: nat)
    requires currentRetry <= MaxNumberOfRetry
    requires SleepsNoBackoff(serve)
    ensures Backoffs(WriteLoop(serve, env, currentRetry).env.waits)
         == Backoffs(env.waits) + BackoffSeq(currentRetry, WriteCalls(serve, env, currentRetry) - 1)
    decreases MaxNumberOfRetry - currentRetry
  {
    var served := serve(env);
    if currentRetry < MaxNumberOfRetry && Retryable(served.result) {
      var millis := BackoffMillis(currentRetry);
      var next := Slept(served.env, BackoffSleep(millis));
      assert WriteLoop(serve, env, currentRetry) == WriteLoop(serve, next, currentRetry + 1);
      assert WriteCalls(serve, env, currentRetry) == 1 + WriteCalls(serve, next, currentRetry + 1);
      var rest := WriteCalls(serve, next, currentRetry + 1);
      calc {
        Backoffs(WriteLoop(serve, env, currentRetry).env.waits);
        Backoffs(WriteLoop(serve, next, currentRetry + 1).env.waits);
        { WriteBackoffs(serve, next, currentRetry + 1); }
        Backoffs(next.waits) + BackoffSeq(currentRetry + 1, rest - 1);
        { AfterBackoff(served.env.waits, millis); }
        (Backoffs(served.env.waits) + [millis]) + BackoffSeq(currentRetry + 1, rest - 1);
        { assert Backoffs(served.env.waits) == Backoffs(env.waits); }
        (Backoffs(env.waits) + [millis]) + BackoffSeq(currentRetry + 1, rest - 1);
        { BackoffSeqCons(Backoffs(env.waits), currentRetry, rest); }
        Backoffs(env.waits) + BackoffSeq(currentRetry, rest);
      }
    } else {
      assert WriteLoop(serve, env, currentRetry) == served;
      assert WriteCalls(serve, env, currentRetry) == 1;
      assert Backoffs(env.waits) + BackoffSeq(currentRetry, 0) == Backoffs(env.waits);
    }
  }

  /** The loop ends on a non-retryable answer unless it used all its calls. */
  lemma {:induction false} WriteStopsOnAnswer(serve: Env -> Run<Body>, env: Env, currentRetry: nat)
    requires currentRetry <= MaxNumberOfRetry
    ensures WriteCalls(serve, env, currentRetry) < MaxNumberOfRetry + 1 - currentRetry
        ==> !Retryable(WriteLoop(serve, env, currentRetry).result)
    decreases MaxNumberOfRetry - currentRetry
  {
    var served := serve(env);
    if currentRetry < MaxNumberOfRetry && Retryable(served.result) {
      WriteStopsOnAnswer(serve, Slept(served.env, BackoffSleep(BackoffMillis(currentRetry))), currentRetry + 1);
    }
  }

  /** What the loop reports is one of the call's own answers, so an answer
      the call never gives never reaches the caller. */
  lemma {:induction false} WriteReportsCallAnswer(serve: Env -> Run<Body>, env: Env, currentRetry: nat)
    requires currentRetry <= MaxNumberOfRetry
    ensures exists e :: WriteLoop(serve, env, currentRetry) == serve(e)
    decreases MaxNumberOfRetry - currentRetry
  {
    var served := serve(env);
    if currentRetry < MaxNumberOfRetry && Retryable(served.result) {
      WriteReportsCallAnswer(serve, Slept(served.env, BackoffSleep(BackoffMillis(currentRetry))), currentRetry + 1);
    }
  }

  lemma BackoffSeqValues()
    ensures BackoffSeq(0, MaxNumberOfRetry) == [50, 100, 200, 400]
  {
    BackoffSchedule();
  }

  /** The call `putItem` makes adds no backoff sleep of its own, so
      `WriteBackoffs` gives `putItem`'s sleeps: between two of its calls it
      sleeps 50, 100, 200, then 400 ms. */
  lemma ServeAddsNoBackoff(req: Request)
    ensures SleepsNoBackoff(Serve(req))
  {
    forall e ensures Backoffs(Serve(req)(e).env.waits) == Backoffs(e.waits) {
      ThrottleAddsNoBackoff(e, req);
    }
  }

  /** The throttling code never reaches the loop: the tier below absorbs it,
      so only status 500 and `ThrottlingException` can make `putItem` retry,
      and `putItem` never reports it. */
  lemma PutNeverThrottled(env: Env, req: Request)
    ensures !Throttled(WriteLoop(Serve(req), env, 0).result)
  {
    WriteReportsCallAnswer(Serve(req), env, 0);
    var e :| WriteLoop(Serve(req), env, 0) == Serve(req)(e);
    ThrottleAbsorbed(e, req, 0);
  }

  /** A first answer that is not retryable is the loop's only call. */
  lemma PutFirstAnswerFinal(env: Env, req: Request)
    requires !Retryable(ThrottleRun(env, req, 0).result)
    ensures WriteLoop(Serve(req), env, 0) == ThrottleRun(env, req, 0)
    ensures WriteCalls(Serve(req), env, 0) == 1
  {
  }

  /** A service that keeps answering with status 500 is called five times,
      and its fifth answer is the one reported. */
  lemma PutPersistentFailure(env: Env, req: Request)
    requires |env.replies| >= MaxNumberOfRetry + 1
    requires forall i :: 0 <= i <= MaxNumberOfRetry ==>
      env.replies[i].Reply? && env.replies[i].statusCode == 500 && !Throttled(Outcome(env.replies[i]))
    ensures WriteCalls(Serve(req), env, 0) == MaxNumberOfRetry + 1
    ensures WriteLoop(Serve(req), env, 0).result == Outcome(env.replies[MaxNumberOfRetry])
  {
    var e := env;
    var c: nat := 0;
    while c < MaxNumberOfRetry
      invariant c <= MaxNumberOfRetry
      invariant e.replies == env.replies[c..]
      invariant WriteCalls(Serve(req), env, 0) == c + WriteCalls(Serve(req), e, c)
      invariant WriteLoop(Serve(req), env, 0) == WriteLoop(Serve(req), e, c)
    {
      OneCallAt500(e, req);
      e := Slept(ThrottleRun(e, req, 0).env, BackoffSleep(BackoffMillis(c)));
      assert env.replies[c..][1..] == env.replies[c + 1..];
      c := c + 1;
    }
    OneCallAt500(e, req);
  }

  /** One call that meets a status 500 reply that is not throttled consumes
      exactly that reply and yields its error, which `putItem` retries. */
  lemma OneCallAt500(env: Env, req: Request)
    requires |env.replies| > 0 && env.replies[0].Reply? && env.replies[0].statusCode == 500
    requires !Throttled(Outcome(env.replies[0]))
    ensures Serve(req)(env) == Run(Outcome(env.replies[0]), Sent(env, req))
    ensures Retryable(Serve(req)(env).result)
  {
    var flags := ThrottleFlags(env.replies);
    ThrottleFlagsAt(env.replies, 0);
    AttemptsExact(flags, 0, 0);
    ThrottleExit(env, req, 0, 0);
    assert Retried(env, req, 0, 0) == env;
  }

  lemma ServeIs(req: Request, env: Env)
    ensures Serve(req)(env) == ThrottleRun(env, req, 0)
  {
  }

  lemma WriteLoopStop(serve: Env -> Run<Body>, env: Env, currentRetry: nat)
    requires currentRetry <= MaxNumberOfRetry
    requires currentRetry == MaxNumberOfRetry || !Retryable(serve(env).result)
    ensures WriteLoop(serve, env, currentRetry) == serve(env)
  {
  }

  lemma WriteLoopStep(serve: Env -> Run<Body>, env: Env, currentRetry: nat)
    requires currentRetry < MaxNumberOfRetry && Retryable(serve(env).result)
    ensures WriteLoop(serve, env, currentRetry)
         == WriteLoop(serve, Slept(serve(env).env, BackoffSleep(BackoffMillis(currentRetry))), currentRetry + 1)
  {
  }

  /** Under the call `putItem` makes, an answer is retried exactly when it
      is a service error with status 500 or code `ThrottlingException`: the
      code `ProvisionedThroughputExceededException`, which the loop also
      tests, never reaches it, because the tier below retries it first. */
  lemma PutRetriesOn(env: Env, req: Request)
    ensures var answer := Serve(req)(env).result;
      Retryable(answer) <==>
        answer.Err? && answer.error.Service? &&
        (answer.error.err.statusCode == 500 || answer.error.err.code == ThrottlingException)
  {
    ServeIs(req, env);
    ThrottleAbsorbed(env, req, 0);
  }

  /** One pass of `putItem`'s loop with retry counter `currentRetry`: call
      the service; stop after the fifth call or on an answer that is not
      retried; otherwise sleep the backoff. Either way the rest of the loop
      is accounted for. */
  method WriteAttempt(env: Env, req: Request, currentRetry: nat, isRetry: bool)
    returns (served: Result<Body, Failure>, env': Env, done: bool)
    requires currentRetry <= MaxNumberOfRetry
    ensures served == ThrottleRun(env, req, 0).result
    ensures done <==> currentRetry == MaxNumberOfRetry || !Retryable(served)
    ensures done ==>
      env' == ThrottleRun(env, req, 0).env &&
      WriteLoop(Serve(req), env, currentRetry) == Run(served, env')
    ensures !done ==>
      env' == Slept(ThrottleRun(env, req, 0).env, BackoffSleep(BackoffMillis(currentRetry))) &&
      WriteLoop(Serve(req), env, currentRetry) == WriteLoop(Serve(req), env', currentRetry + 1)
  {
    served, env' := QueryServer(env, req.target, req.query, isRetry);
    ServeIs(req, env);
    if currentRetry >= MaxNumberOfRetry {
      WriteLoopStop(Serve(req), env, currentRetry);
      return served, env', true;
    }
    if !Retryable(served) {
      WriteLoopStop(Serve(req), env, currentRetry);
      return served, env', true;
    }
    WriteLoopStep(Serve(req), env, currentRetry);
    env' := Slept(env', BackoffSleep(BackoffMillis(currentRetry)));
    done := false;
  }

  /** `putItem` (and `ConditionalPutItem`, which differs only in the query it
      sends): refuses an empty attribute list without contacting the
      service, otherwise runs the request loop and acknowledges its last
      answer. */
  method PutItem<A>(env: Env, attributes: seq<A>, query: string, isRetry: bool)
    returns (ok: bool, err: Option<Failure>, env': Env)
    ensures ok <==> err.None?
    ensures |attributes| == 0 ==> err == Some(AttributesRequired) && env' == env
    ensures |attributes| > 0 ==>
      var run := WriteLoop(Serve(Request(Target("PutItem"), query)), env, 0);
      env' == run.env && err == Acknowledge(run.result)
  {
    if |attributes| == 0 {
      return false, Some(AttributesRequired), env;
    }
    var req := Request(Target("PutItem"), query);
    var served: Result<Body, Failure>;
    var currentRetry: nat := 0;
    var done := false;
    env' := env;
    while true
      invariant currentRetry <= MaxNumberOfRetry
      invariant WriteLoop(Serve(req), env', currentRetry) == WriteLoop(Serve(req), env, 0)
      decreases MaxNumberOfRetry - currentRetry
    {
      served, env', done := WriteAttempt(env', req, currentRetry, isRetry);
      if done {
        break;
      }
      currentRetry := currentRetry + 1;
    }
    err := Acknowledge(served);
    ok := err.None?;
  }

  // ----- single-item requests -----

  /** `getItem`'s reading of the reply: a failure is passed on; a body that
      is not JSON is a syntax error; no `Item` member means the item does
      not exist; an `Item` that is not an object is an unexpected response;
      otherwise the item is decoded. */
  function GetItemResponse(served: Result<Body, Failure>): (r: Result<Item, Failure>)
    ensures served.Err? ==> r == Err(served.error)
    ensures served.Ok? && served.value.Malformed? ==> r == Err(JsonSyntax)
    ensures served.Ok? && served.value.Doc? ==>
      var body := served.value;
      (r == Err(NotFound) <==> CheckGet(body.root, "Item").None?) &&
      (r == Err(UnexpectedResponse(body)) <==> CheckGet(body.root, "Item").Some? && !CheckGet(body.root, "Item").value.Object?) &&
      (r.Ok? <==> CheckGet(body.root, "Item").Some? && CheckGet(body.root, "Item").value.Object?) &&
      (r.Ok? ==> r.value == DecodeItem(CheckGet(body.root, "Item").value.fields))
  {
    match served
    case Err(e) => Err(e)
    case Ok(Malformed) => Err(JsonSyntax)
    case Ok(Doc(root)) =>
      match CheckGet(root, "Item")
      case None => Err(NotFound)
      case Some(itemJson) =>
        match AsMap(itemJson)
        case None => Err(UnexpectedResponse(Doc(root)))
        case Some(item) => Ok(DecodeItem(item))
  }

  /** A reply whose `Item` is the empty object is an item with no
      attributes, not a missing item. */
  lemma GetItemEmpty(root: map<string, Value>)
    requires "Item" in root && root["Item"] == Object(map[])
    ensures GetItemResponse(Ok(Doc(Object(root)))) == Ok(map[])
  {
  }

  /** `GetItem` / `GetItemConsistent`: the consistency flag only changes the
      query sent. */
  method GetItem(env: Env, query: string, isRetry: bool) returns (r: Result<Item, Failure>, env': Env)
    ensures var run := ThrottleRun(env, Request(Target("GetItem"), query), 0);
      env' == run.env && r == GetItemResponse(run.result)
  {
    var served;
    served, env' := QueryServer(env, Target("GetItem"), query, isRetry);
    if served.Err? {
      return Err(served.error), env';
    }
    if served.value.Malformed? {
      return Err(JsonSyntax), env';
    }
    var json := served.value.root;
    var itemJson := CheckGet(json, "Item");
    if itemJson.None? {
      return Err(NotFound), env';
    }
    var item := AsMap(itemJson.value);
    if item.None? {
      return Err(UnexpectedResponse(served.value)), env';
    }
    var decoded := ParseAttributes(item.value);
    r := Ok(decoded);
  }

  /** `deleteItem` (`DeleteItem`, `ConditionalDeleteItem`): one request,
      acknowledged. */
  method DeleteItem(env: Env, query: string, isRetry: bool) returns (ok: bool, err: Option<Failure>, env': Env)
    ensures ok <==> err.None?
    ensures var run := ThrottleRun(env, Request(Target("DeleteItem"), query), 0);
      env' == run.env && err == Acknowledge(run.result)
  {
    var served;
    served, env' := QueryServer(env, Target("DeleteItem"), query, isRetry);
    err := Acknowledge(served);
    ok := err.None?;
  }

  /** `modifyAttributes` (the `Add`, `Update` and `Delete` attribute calls and
      their conditional forms, which differ only in the query sent): refuses
      an empty attribute list without contacting the service, otherwise one
      `UpdateItem` request, acknowledged. */
  method ModifyAttributes<A>(env: Env, attributes: seq<A>, query: string, isRetry: bool)
    returns (ok: bool, err: Option<Failure>, env': Env)
    ensures ok <==> err.None?
    ensures |attributes| == 0 ==> err == Some(AttributesRequired) && env' == env
    ensures |attributes| > 0 ==>
      var run := ThrottleRun(env, Request(Target("UpdateItem"), query), 0);
      env' == run.env && err == Acknowledge(run.result)
  {
    if |attributes| == 0 {
      return false, Some(AttributesRequired), env;
    }
    var served;
    served, env' := QueryServer(env, Target("UpdateItem"), query, isRetry);
    err := Acknowledge(served);
    ok := err.None?;
  }

  // ----- batch requests -----

  /** Whether every table entry of a `BatchGetItem` reply is a list of
      objects. */
  predicate WellShapedTables(tables: map<string, Value>) {
    forall t :: t in tables ==>
      tables[t].Array? && forall i :: 0 <= i < |tables[t].elems| ==> tables[t].elems[i].Object?
  }

  /** The items of a well-shaped table entry, decoded in order. */
  function DecodeEntries(entries: seq<Value>): (items: seq<Item>)
    requires forall i :: 0 <= i < |entries| ==> entries[i].Object?
    ensures |items| == |entries|
    ensures forall i :: 0 <= i < |entries| ==> items[i] == DecodeItem(entries[i].fields)
  {
    seq(|entries|, i requires 0 <= i < |entries| => DecodeItem(entries[i].fields))
  }

  /** `BatchGetItem.Execute`'s reading of the reply: a failure is passed on;
      a body that is not JSON is a syntax error; `Responses` must be an
      object whose every entry is a list of objects, otherwise the reply is
      unexpected; each table then maps to its items decoded in order. */
  function BatchGetResponse(served: Result<Body, Failure>): (r: Result<map<string, seq<Item>>, Failure>)
    ensures served.Err? ==> r == Err(served.error)
    ensures served.Ok? && served.value.Malformed? ==> r == Err(JsonSyntax)
    ensures served.Ok? && served.value.Doc? ==>
      var tables := AsMap(Get(served.value.root, "Responses"));
      (r.Ok? <==> tables.Some? && WellShapedTables(tables.value)) &&
      (r.Err? ==> r.error == UnexpectedResponse(served.value))
    ensures r.Ok? ==>
      var tables := Get(served.value.root, "Responses").fields;
      r.value.Keys == tables.Keys &&
      forall t :: t in tables ==>
        |r.value[t]| == |tables[t].elems| &&
        forall i :: 0 <= i < |r.value[t]| ==> r.value[t][i] == DecodeItem(tables[t].elems[i].fields)
  {
    match served
    case Err(e) => Err(e)
    case Ok(Malformed) => Err(JsonSyntax)
    case Ok(Doc(root)) =>
      match AsMap(Get(root, "Responses"))
      case None => Err(UnexpectedResponse(Doc(root)))
      case Some(tables) =>
        if WellShapedTables(tables) then Ok(map t | t in tables :: DecodeEntries(tables[t].elems))
        else Err(UnexpectedResponse(Doc(root)))
  }

  /** Decodes the entries of one table, appending item by item; fails on
      the first entry that is not an object. */
  method DecodeTable(entries: seq<Value>) returns (items: Option<seq<Item>>)
    ensures items.Some? <==> forall i :: 0 <= i < |entries| ==> entries[i].Object?
    ensures items.Some? ==> items.value == DecodeEntries(entries)
  {
    var tableResult: seq<Item> := [];
    for i := 0 to |entries|
      invariant forall j :: 0 <= j < i ==> entries[j].Object?
      invariant |tableResult| == i
      invariant forall j :: 0 <= j < i ==> tableResult[j] == DecodeItem(entries[j].fields)
    {
      if !entries[i].Object? {
        return None;
      }
      var unmarshalledItem := ParseAttributes(entries[i].fields);
      tableResult := tableResult + [unmarshalledItem];
    }
    assert tableResult == DecodeEntries(entries);
    return Some(tableResult);
  }

  /** The loop over the tables of a `BatchGetItem` reply; the order in
      which the tables are visited does not change the outcome. */
  method DecodeBatchGet(served: Result<Body, Failure>) returns (r: Result<map<string, seq<Item>>, Failure>)
    ensures r == BatchGetResponse(served)
  {
    if served.Err? {
      return Err(served.error);
    }
    if served.value.Malformed? {
      return Err(JsonSyntax);
    }
    var unexpected := UnexpectedResponse(served.value);
    var maybeTables := AsMap(Get(served.value.root, "Responses"));
    if maybeTables.None? {
      return Err(unexpected);
    }
    var tables := maybeTables.value;
    var results: map<string, seq<Item>> := map[];
    var todo := tables.Keys;
    while todo != {}
      invariant todo <= tables.Keys
      invariant results.Keys == tables.Keys - todo
      invariant forall t :: t in results ==>
        tables[t].Array? &&
        (forall i :: 0 <= i < |tables[t].elems| ==> tables[t].elems[i].Object?) &&
        results[t] == DecodeEntries(tables[t].elems)
      decreases todo
    {
      var table :| table in todo;
      var entries := tables[table];
      if !entries.Array? {
        return Err(unexpected);
      }
      var tableResult := DecodeTable(entries.elems);
      if tableResult.None? {
        return Err(unexpected);
      }
      results := results[table := tableResult.value];
      todo := todo - {table};
    }
    assert results == map t | t in tables :: DecodeEntries(tables[t].elems);
    return Ok(results);
  }

  /** What `BatchWriteItem.Execute` reports: the items the service left
      unprocessed (empty when there is nothing to report) and the error. */
  datatype Written = Written(unprocessed: map<string, Value>, err: Option<Failure>)

  /** `BatchWriteItem.Execute`'s reading of the reply: a failure is passed
      on; a body that is not JSON is a syntax error; `UnprocessedItems`
      must be an object, otherwise the reply is unexpected; an empty one
      means success, a non-empty one is returned with an error. */
  function BatchWriteResponse(served: Result<Body, Failure>): (w: Written)
    ensures served.Err? ==> w == Written(map[], Some(served.error))
    ensures served.Ok? && served.value.Malformed? ==> w == Written(map[], Some(JsonSyntax))
    ensures served.Ok? && served.value.Doc? ==>
      var unprocessed := AsMap(Get(served.value.root, "UnprocessedItems"));
      (unprocessed.None? ==> w == Written(map[], Some(UnexpectedResponse(served.value)))) &&
      (unprocessed.Some? ==>
        w.unprocessed == unprocessed.value &&
        (w.err.None? <==> unprocessed.value == map[]) &&
        (w.err.Some? ==> w.err.value == UnprocessedItems))
  {
    match served
    case Err(e) => Written(map[], Some(e))
    case Ok(Malformed) => Written(map[], Some(JsonSyntax))
    case Ok(Doc(root)) =>
      match AsMap(Get(root, "UnprocessedItems"))
      case None => Written(map[], Some(UnexpectedResponse(Doc(root))))
      case Some(unprocessed) =>
        if |unprocessed| == 0 then Written(map[], None) else Written(unprocessed, Some(UnprocessedItems))
  }

  /** A batch read: for each table (`Tbl`, compared by identity) the keys to
      fetch. */
  class BatchGetItem<Tbl(==), K> {
    var keys: map<Tbl, seq<K>>

    /** `Table.BatchGetItems`: a batch over one table. */
    constructor (t: Tbl, ks: seq<K>)
      ensures keys == map[t := ks]
    {
      keys := map[t := ks];
    }

    /** `AddTable`: the table's keys are replaced, not merged; the other
        tables keep theirs. */
    method AddTable(t: Tbl, ks: seq<K>)
      modifies this
      ensures keys == old(keys)[t := ks]
    {
      keys := keys[t := ks];
    }

    /** `Execute`: one `BatchGetItem` request built from the current keys by
        `encode` (the query builder), and its reply read. */
    method Execute(env: Env, encode: map<Tbl, seq<K>> -> string, isRetry: bool)
      returns (r: Result<map<string, seq<Item>>, Failure>, env': Env)
      ensures var run := ThrottleRun(env, Request(Target("BatchGetItem"), encode(keys)), 0);
        env' == run.env && r == BatchGetResponse(run.result)
    {
      var served;
      served, env' := QueryServer(env, Target("BatchGetItem"), encode(keys), isRetry);
      r := DecodeBatchGet(served);
    }
  }

  /** A batch write: for each table the write requests, grouped by kind. */
  class BatchWriteItem<Tbl(==), A> {
    var itemActions: map<Tbl, map<string, seq<seq<A>>>>

    /** `Table.BatchWriteItems`: a batch over one table. */
    constructor (t: Tbl, actions: map<string, seq<seq<A>>>)
      ensures itemActions == map[t := actions]
    {
      itemActions := map[t := actions];
    }

    /** `AddTable`: the table's requests are replaced, not merged. */
    method AddTable(t: Tbl, actions: map<string, seq<seq<A>>>)
      modifies this
      ensures itemActions == old(itemActions)[t := actions]
    {
      itemActions := itemActions[t := actions];
    }

    /** `Execute`: one `BatchWriteItem` request built from the current
        requests by `encode`, and its reply read. */
    method Execute(env: Env, encode: map<Tbl, map<string, seq<seq<A>>>> -> string, isRetry: bool)
      returns (w: Written, env': Env)
      ensures var run := ThrottleRun(env, Request(Target("BatchWriteItem"), encode(itemActions)), 0);
        env' == run.env && w == BatchWriteResponse(run.result)
    {
      var served;
      served, env' := QueryServer(env, Target("BatchWriteItem"), encode(itemActions), isRetry);
      if served.Err? {
        return Written(map[], Some(served.error)), env';
      }
      if served.value.Malformed? {
        return Written(map[], Some(JsonSyntax)), env';
      }
      var unprocessed := AsMap(Get(served.value.root, "UnprocessedItems"));
      if unprocessed.None? {
        return Written(map[], Some(UnexpectedResponse(served.value))), env';
      }
      if |unprocessed.value| == 0 {
        w := Written(map[], None);
      } else {
        w := Written(unprocessed.value, Some(UnprocessedItems));
      }
    }
  }
}
