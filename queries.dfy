/** Queries on a table (`query.go`): the raw query with its retry flag, the
    reading of a result page (`Count`, `Items`, `LastEvaluatedKey`), and the
    count-only query.

    The query itself is built by a query builder that is not part of this
    model; an operation takes its serialised form as a string. */
module Queries {
  import opened Wrappers
  import opened Json
  import opened Attributes
  import opened Transport
  import opened Throttling

  /** A page of results and the continuation key. The key is kept as the
      `LastEvaluatedKey` object came on the wire; turning it into a table
      key is not part of this model. */
  datatype Page = Page(items: seq<Item>, lastKey: Option<map<string, Value>>)

  /** The throttle counter a raw query starts with: 0 when the caller asks
      for retries, -1 (retry disabled) otherwise. */
  function RetryCount(isRetry: bool): (c: int)
    ensures c >= 0 <==> isRetry
    ensures c >= -1
  {
    if isRetry then 0 else -1
  }

  /** Whether the first `n` entries of `Items` are all objects. */
  predicate ItemsPresent(root: Value, n: int) {
    forall i :: 0 <= i < n ==> GetIndex(Get(root, "Items"), i).Object?
  }

  /** The first `n` entries of `Items`, decoded in order. */
  function DecodeItems(root: Value, n: nat): (items: seq<Item>)
    requires ItemsPresent(root, n)
    ensures |items| == n
    ensures forall i :: 0 <= i < n ==> items[i] == DecodeItem(GetIndex(Get(root, "Items"), i).fields)
  {
    seq(n, i requires 0 <= i < n => DecodeItem(GetIndex(Get(root, "Items"), i).fields))
  }

  /** The reading of a query reply. A failure is passed on and a body that
      is not JSON is a syntax error. A `Count` that is missing or not an
      integer is tolerated only for the `UpdateItem` target, which then
      yields an empty page; a negative `Count` makes the result allocation
      panic; otherwise the first `Count` entries of `Items` must be
      objects and are decoded in order, and the continuation key is
      `LastEvaluatedKey` when that is an object. */
  function QueryResponse(served: Result<Body, Failure>, target: string): (r: Result<Page, Failure>)
    ensures served.Err? ==> r == Err(served.error)
    ensures served.Ok? && served.value.Malformed? ==> r == Err(JsonSyntax)
    ensures served.Ok? && served.value.Doc? && AsInt64(Get(served.value.root, "Count")).None? ==>
      (r.Ok? <==> target == "UpdateItem") &&
      (r.Ok? ==> r.value == Page([], None)) &&
      (r.Err? ==> r.error == UnexpectedResponse(served.value))
    ensures served.Ok? && served.value.Doc? && AsInt64(Get(served.value.root, "Count")).Some? ==>
      var root := served.value.root;
      var n := AsInt64(Get(root, "Count")).value;
      (n < 0 ==> r == Err(SlicePanic)) &&
      (n >= 0 ==> (r.Ok? <==> ItemsPresent(root, n))) &&
      (n >= 0 && r.Err? ==> r.error == UnexpectedResponse(served.value)) &&
      (r.Ok? ==>
        |r.value.items| == n &&
        (forall i :: 0 <= i < n ==> r.value.items[i] == DecodeItem(GetIndex(Get(root, "Items"), i).fields)) &&
        r.value.lastKey == AsMap(Get(root, "LastEvaluatedKey")))
  {
    match served
    case Err(e) => Err(e)
    case Ok(Malformed) => Err(JsonSyntax)
    case Ok(Doc(root)) =>
      match AsInt64(Get(root, "Count"))
      case None =>
        if target == "UpdateItem" then Ok(Page([], None)) else Err(UnexpectedResponse(Doc(root)))
      case Some(n) =>
        if n < 0 then Err(SlicePanic)
        else if ItemsPresent(root, n) then Ok(Page(DecodeItems(root, n), AsMap(Get(root, "LastEvaluatedKey"))))
        else Err(UnexpectedResponse(Doc(root)))
  }

  /** Reads a query reply: the result slots are allocated from `Count`, then
      filled entry by entry, and the reading stops at the first entry that
      is not an object. */
  method DecodeQueryResponse(served: Result<Body, Failure>, target: string) returns (r: Result<Page, Failure>)
    ensures r == QueryResponse(served, target)
  {
    if served.Err? {
      return Err(served.error);
    }
    if served.value.Malformed? {
      return Err(JsonSyntax);
    }
    var json := served.value.root;
    var itemCount := AsInt64(Get(json, "Count"));
    if itemCount.None? {
      if target == "UpdateItem" {
        return Ok(Page([], None));
      }
      return Err(UnexpectedResponse(served.value));
    }
    var n := itemCount.value;
    if n < 0 {
      return Err(SlicePanic);
    }
    var results := new Item[n](_ => map[]);
    for i := 0 to n
      invariant ItemsPresent(json, i)
      invariant forall j :: 0 <= j < i ==> results[j] == DecodeItem(GetIndex(Get(json, "Items"), j).fields)
    {
      var item := AsMap(GetIndex(Get(json, "Items"), i));
      if item.None? {
        return Err(UnexpectedResponse(served.value));
      }
      var decoded := ParseAttributes(item.value);
      results[i] := decoded;
    }
    var lastEvaluatedKey := AsMap(Get(json, "LastEvaluatedKey"));
    assert results[..] == DecodeItems(json, n);
    r := Ok(Page(results[..], lastEvaluatedKey));
  }

  /** `RawQueryTable`: one raw request to the service for operation
      `target`, with the throttling retry enabled only when `isRetry` is
      set, and its reply read as a page. */
  method RawQueryTable(env: Env, query: string, target: string, isRetry: bool)
    returns (r: Result<Page, Failure>, env': Env)
    ensures var run := ThrottleRun(env, Request(Target(target), query), RetryCount(isRetry));
      env' == run.env && r == QueryResponse(run.result, target)
  {
    var retryCount := 0;
    if !isRetry {
      retryCount := -1;
    }
    var served;
    served, env' := RawQueryServer(env, TargetPrefix + target, query, retryCount);
    r := DecodeQueryResponse(served, target);
  }

  /** Without `isRetry` a raw query makes exactly one request and reads the
      first scripted reply, whatever it is. */
  lemma RawQueryWithoutRetry(env: Env, query: string, target: string)
    ensures ThrottleRun(env, Request(Target(target), query), RetryCount(false))
         == Run(Outcome(ReplyAt(env.replies, 0)), Sent(env, Request(Target(target), query)))
  {
    ThrottleDisabled(env, Request(Target(target), query), RetryCount(false));
  }

  /** With `isRetry` the throttling error never reaches the reading of the
      reply. */
  lemma RawQueryWithRetry(env: Env, query: string, target: string)
    ensures !Throttled(ThrottleRun(env, Request(Target(target), query), RetryCount(true)).result)
  {
    ThrottleAbsorbed(env, Request(Target(target), query), RetryCount(true));
  }

  /** The `UpdateItem` exemption: a reply without an integer `Count` is an
      empty page for `UpdateItem` and an unexpected response for every
      other target. */
  lemma UpdateItemExemption(root: Value, target: string)
    requires AsInt64(Get(root, "Count")).None?
    ensures QueryResponse(Ok(Doc(root)), "UpdateItem") == Ok(Page([], None))
    ensures target != "UpdateItem" ==> QueryResponse(Ok(Doc(root)), target) == Err(UnexpectedResponse(Doc(root)))
  {
  }

  /** The continuation key is absent exactly when `LastEvaluatedKey` is
      missing or not an object; an empty object still continues. */
  lemma ContinuationKey(root: Value, target: string)
    requires QueryResponse(Ok(Doc(root)), target).Ok? && AsInt64(Get(root, "Count")).Some?
    ensures QueryResponse(Ok(Doc(root)), target).value.lastKey.None?
        <==> CheckGet(root, "LastEvaluatedKey").None? || !Get(root, "LastEvaluatedKey").Object?
  {
  }

  /** `QueryTable`: a raw query on the `Query` operation. */
  method QueryTable(env: Env, query: string, isRetry: bool) returns (r: Result<Page, Failure>, env': Env)
    ensures var run := ThrottleRun(env, Request(Target("Query"), query), RetryCount(isRetry));
      env' == run.env && r == QueryResponse(run.result, "Query")
  {
    r, env' := RawQueryTable(env, query, "Query", isRetry);
  }

  /** `RunQuery` (behind `Query`, `QueryOnIndex` and the limited queries,
      which differ only in the query built): the items of `QueryTable`,
      without the continuation key. */
  method RunQuery(env: Env, query: string, isRetry: bool) returns (r: Result<seq<Item>, Failure>, env': Env)
    ensures var run := ThrottleRun(env, Request(Target("Query"), query), RetryCount(isRetry));
      var page := QueryResponse(run.result, "Query");
      env' == run.env &&
      (r.Ok? <==> page.Ok?) &&
      (r.Ok? ==> r.value == page.value.items) &&
      (r.Err? ==> r.error == page.error)
  {
    var result;
    result, env' := QueryTable(env, query, isRetry);
    if result.Err? {
      return Err(result.error), env';
    }
    r := Ok(result.value.items);
  }

  /** The reading of a count-only query reply: `Count` as a signed 64-bit
      integer, or a failure. */
  function CountResponse(served: Result<Body, Failure>): (r: Result<int, Failure>)
    ensures served.Err? ==> r == Err(served.error)
    ensures served.Ok? && served.value.Malformed? ==> r == Err(JsonSyntax)
    ensures served.Ok? && served.value.Doc? ==>
      (r.Ok? <==> AsInt64(Get(served.value.root, "Count")).Some?) &&
      (r.Err? ==> r.error == NotAnInteger)
    ensures r.Ok? ==>
      Int64Min <= r.value <= Int64Max &&
      Get(served.value.root, "Count") == Num(Integer(r.value))
  {
    match served
    case Err(e) => Err(e)
    case Ok(Malformed) => Err(JsonSyntax)
    case Ok(Doc(root)) =>
      match AsInt64(Get(root, "Count"))
      case None => Err(NotAnInteger)
      case Some(n) => Ok(n)
  }

  /** A reply that both readings accept gives as many items as it counts. */
  lemma CountMatchesPage(served: Result<Body, Failure>, target: string)
    requires CountResponse(served).Ok? && QueryResponse(served, target).Ok?
    ensures |QueryResponse(served, target).value.items| == CountResponse(served).value
  {
  }

  /** `CountQuery`: a `Query` request asking for the count only. */
  method CountQuery(env: Env, query: string, isRetry: bool) returns (r: Result<int, Failure>, env': Env)
    ensures var run := ThrottleRun(env, Request(Target("Query"), query), 0);
      env' == run.env && r == CountResponse(run.result)
  {
    var served;
    served, env' := QueryServer(env, Target("Query"), query, isRetry);
    if served.Err? {
      return Err(served.error), env';
    }
    if served.value.Malformed? {
      return Err(JsonSyntax), env';
    }
    var itemCount := AsInt64(Get(served.value.root, "Count"));
    if itemCount.None? {
      return Err(NotAnInteger), env';
    }
    r := Ok(itemCount.value);
  }
}
