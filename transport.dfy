/** The request/response exchange with the service (`dynamodb.go`): service
    errors, their codes, operation targets and one exchange without retry.

    The network and the clock are replaced by an explicit environment: the
    replies the service will give, in order, the requests sent so far and the
    sleeps requested so far. Signing, headers and the HTTP client itself are
    not modelled; a request is its target and its serialised body. */
module Transport {
  import opened Wrappers
  import opened Json

  const ProvisionedThroughputExceeded: string := "ProvisionedThroughputExceededException"
  const ThrottlingException: string := "ThrottlingException"
  const UnparsableBodyCode: string := "Failed to parse body as JSON"
  const TargetPrefix: string := "DynamoDB_20120810."

  /** A service error: HTTP status code and text, service error code and
      message. */
  datatype Error = Error(statusCode: int, status: string, code: string, message: string)

  /** Everything an operation can report instead of a result. */
  datatype Failure =
    | Service(err: Error)               // a reply with a status other than 200
    | SendFailed(reason: string)        // no reply was received or read
    | JsonSyntax                        // a 200 reply whose body is not JSON
    | NotAnInteger                      // `Count` missing or not a 64-bit integer
    | NotFound                          // GetItem: the item does not exist
    | UnexpectedResponse(raw: Body)     // the reply lacks the expected shape
    | AttributesRequired                // a write with no attributes
    | UnprocessedItems                  // BatchWriteItem left items unprocessed
    | SlicePanic                        // a negative `Count`: the slice allocation panics

  /** `Error.Error()`: the code, a colon and a space, then the message. */
  function ErrorString(e: Error): (s: string)
    ensures |s| == |e.code| + 2 + |e.message|
    ensures s[..|e.code|] == e.code && s[|e.code|..|e.code| + 2] == ": " && s[|e.code| + 2..] == e.message
  {
    e.code + ": " + e.message
  }

  /** The rendering keeps code and message apart whenever the code has no
      colon: two errors that render alike have the same code and message. */
  lemma ErrorStringSeparates(e1: Error, e2: Error)
    requires ':' !in e1.code && ':' !in e2.code
    requires ErrorString(e1) == ErrorString(e2)
    ensures e1.code == e2.code && e1.message == e2.message
  {
    var s := ErrorString(e1);
    CodeThenColon(e1);
    CodeThenColon(e2);
    assert e1.code == s[..|e1.code|];
  }

  lemma CodeThenColon(e: Error)
    ensures ErrorString(e)[|e.code|] == ':'
    ensures forall i :: 0 <= i < |e.code| ==> ErrorString(e)[i] == e.code[i]
  {
  }

  /** The error code of `typeName` when no `#` occurs before position `i`:
      the scan goes on until the first `#`. */
  function CodeFrom(typeName: string, i: nat): string
    decreases |typeName| - i
  {
    if i >= |typeName| then typeName
    else if typeName[i] == '#' then (if i > 0 then typeName[i + 1..] else typeName)
    else CodeFrom(typeName, i + 1)
  }

  lemma {:induction false} CodeFromAt(typeName: string, i: nat, h: nat)
    requires i <= h < |typeName| && typeName[h] == '#' && '#' !in typeName[i..h]
    ensures CodeFrom(typeName, i) == if h > 0 then typeName[h + 1..] else typeName
    decreases h - i
  {
    if i < h {
      assert typeName[i] in typeName[i..h];
      assert typeName[i + 1..h] == typeName[i..h][1..];
      CodeFromAt(typeName, i + 1, h);
    }
  }

  lemma {:induction false} CodeFromNone(typeName: string, i: nat)
    requires i <= |typeName| && '#' !in typeName[i..]
    ensures CodeFrom(typeName, i) == typeName
    decreases |typeName| - i
  {
    if i < |typeName| {
      assert typeName[i] in typeName[i..];
      assert typeName[i + 1..] == typeName[i..][1..];
      CodeFromNone(typeName, i + 1);
    }
  }

  /** The error code carried by a namespaced type name such as
      `com.amazon.coral.validate#ValidationException`: what follows the
      first `#` when that `#` is not the first character (its index is
      positive), and otherwise the whole name. */
  function ErrorCode(typeName: string): (code: string)
  {
    CodeFrom(typeName, 0)
  }

  /** A name without `#` is its own code; otherwise, with `h` the index of
      the first `#`, the code is what follows it when `h > 0` and the whole
      name when `h == 0`. */
  lemma ErrorCodeShape(typeName: string)
    ensures '#' !in typeName ==> ErrorCode(typeName) == typeName
    ensures forall h :: 0 <= h < |typeName| && typeName[h] == '#' && '#' !in typeName[..h] ==>
      ErrorCode(typeName) == if h > 0 then typeName[h + 1..] else typeName
  {
    if '#' !in typeName {
      CodeFromNone(typeName, 0);
    }
    forall h | 0 <= h < |typeName| && typeName[h] == '#' && '#' !in typeName[..h]
      ensures ErrorCode(typeName) == if h > 0 then typeName[h + 1..] else typeName
    {
      CodeFromAt(typeName, 0, h);
    }
  }

  /** A namespace without `#`, a `#`, then a code: the code comes back, even
      when it holds further `#` characters. */
  lemma ErrorCodeOfNamespaced(namespace: string, code: string)
    requires namespace != [] && '#' !in namespace
    ensures ErrorCode(namespace + "#" + code) == code
  {
    var t := namespace + "#" + code;
    assert t[..|namespace|] == namespace;
    assert t[|namespace| + 1..] == code;
    CodeFromAt(t, 0, |namespace|);
  }

  /** `buildError`: the status is copied from the reply; an unparsable body
      gives the fixed code and an empty message; otherwise the message is
      the `message` member and the code comes from the `__type` member, each
      read as "" when absent or not a string. */
  function BuildError(statusCode: int, status: string, body: Body): (e: Error)
    ensures e.statusCode == statusCode && e.status == status
    ensures body.Malformed? ==> e.code == UnparsableBodyCode && e.message == ""
    ensures body.Doc? ==> e.message == MustString(Get(body.root, "message"))
    ensures body.Doc? ==> e.code == ErrorCode(MustString(Get(body.root, "__type")))
  {
    match body
    case Malformed => Error(statusCode, status, UnparsableBodyCode, "")
    case Doc(root) =>
      Error(statusCode, status, ErrorCode(MustString(Get(root, "__type"))), MustString(Get(root, "message")))
  }

  /** `target`: the versioned operation name sent in the target header. */
  function Target(name: string): (t: string)
    ensures |t| == |TargetPrefix| + |name|
    ensures t[..|TargetPrefix|] == TargetPrefix && t[|TargetPrefix|..] == name
  {
    TargetPrefix + name
  }

  /** Distinct operations get distinct targets. */
  lemma TargetInjective(a: string, b: string)
    requires Target(a) == Target(b)
    ensures a == b
  {
    assert a == Target(a)[|TargetPrefix|..];
  }

  // ----- the environment -----

  /** What one HTTP exchange yields: a transport failure or a reply. */
  datatype Exchange =
    | TransportFailure(reason: string)
    | Reply(statusCode: int, status: string, body: Body)

  datatype Request = Request(target: string, query: string)

  /** A requested sleep: seconds in the throttling tier, milliseconds in the
      write backoff. */
  datatype Wait = ThrottleSleep(seconds: int) | BackoffSleep(millis: int)

  /** The scripted service: the replies still to come, the requests sent and
      the sleeps requested so far. */
  datatype Env = Env(replies: seq<Exchange>, sent: seq<Request>, waits: seq<Wait>)

  /** An operation's result together with the environment it leaves. */
  datatype Run<T> = Run(result: Result<T, Failure>, env: Env)

  /** Once the script is spent the service no longer answers. */
  const NoReply: Exchange := TransportFailure("no reply")

  function ReplyAt(replies: seq<Exchange>, i: nat): Exchange {
    if i < |replies| then replies[i] else NoReply
  }

  function Drop(replies: seq<Exchange>, n: nat): seq<Exchange> {
    if n <= |replies| then replies[n..] else []
  }

  /** The environment after sending one request: the next reply (the one at
      position 0) is consumed and the request recorded. */
  function Sent(env: Env, req: Request): Env {
    Env(Drop(env.replies, 1), env.sent + [req], env.waits)
  }

  /** The environment after a sleep. */
  function Slept(env: Env, w: Wait): Env {
    env.(waits := env.waits + [w])
  }

  /** One exchange without any retry: a transport failure is passed on, a
      200 reply yields its body, any other reply the error built from it. */
  function Outcome(x: Exchange): Result<Body, Failure> {
    match x
    case TransportFailure(reason) => Err(SendFailed(reason))
    case Reply(statusCode, status, body) =>
      if statusCode != 200 then Err(Service(BuildError(statusCode, status, body))) else Ok(body)
  }
}
