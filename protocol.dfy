/** The wire protocol between the client and the hub: control strings,
    request identifiers, outbound envelopes, inbound messages, and the
    settlement status of the promises the client hands out. */
module Protocol {
  import opened Values

  const NAMESPACE := "cross-storage:"
  const UNAVAILABLE := "cross-storage:unavailable"
  const READY := "cross-storage:ready"

  const CLOSED_MESSAGE := "CrossStorageClient has closed"
  const DISCONNECTED_MESSAGE := "CrossStorageClient is in disconnected state"
  const CONNECT_TIMEOUT_MESSAGE := "CrossStorageClient could not connect"
  const UNAVAILABLE_MESSAGE := "Closing this. Could not access localStorage in hub."

  /** The message of the error a request timer rejects with; `methodName` is
      the namespaced method of the envelope. */
  function TimeoutMessage(methodName: string): string {
    "Timeout: could not perform " + methodName
  }

  /** The namespaced method name sent in an envelope. */
  function Namespaced(methodName: string): string {
    NAMESPACE + methodName
  }

  predicate OccursAt(s: string, sub: string, i: int) {
    0 <= i && i + |sub| <= |s| && s[i..i + |sub|] == sub
  }

  /** String.prototype.indexOf(sub, from): the first position at or after
      `from` where `sub` occurs, or -1. */
  function IndexOfFrom(s: string, sub: string, from: nat): (r: int)
    requires from <= |s|
    ensures r == -1 || (from <= r && OccursAt(s, sub, r))
    ensures r == -1 ==> forall i :: from <= i ==> !OccursAt(s, sub, i)
    ensures r != -1 ==> forall i :: from <= i < r ==> !OccursAt(s, sub, i)
    decreases |s| - from
  {
    if from + |sub| > |s| then -1
    else if s[from..from + |sub|] == sub then from
    else IndexOfFrom(s, sub, from + 1)
  }

  /** String.prototype.indexOf(sub): -1 exactly when `sub` occurs nowhere,
      otherwise its first position. */
  function IndexOf(s: string, sub: string): (r: int)
    ensures r == -1 <==> forall i :: !OccursAt(s, sub, i)
    ensures r != -1 ==> OccursAt(s, sub, r) && forall i :: 0 <= i < r ==> !OccursAt(s, sub, i)
  {
    IndexOfFrom(s, sub, 0)
  }

  /** `s.indexOf(sub) !== -1` holds exactly when `sub` occurs anywhere in `s`,
      not only at its start. */
  lemma IndexOfFindsInfix(prefix: string, sub: string, suffix: string)
    ensures IndexOf(prefix + sub + suffix, sub) != -1
    ensures IndexOf(prefix + sub + suffix, sub) <= |prefix|
  {
    var s := prefix + sub + suffix;
    assert s[|prefix|..|prefix| + |sub|] == sub;
    assert OccursAt(s, sub, |prefix|);
  }

  /** The identifier of the n-th request of client `clientId`. */
  function RequestId(clientId: string, n: nat): string {
    clientId + ":" + Decimal(n)
  }

  /** An identifier is the client id, ':', and digits that read back as the
      count. */
  lemma RequestIdShape(clientId: string, n: nat)
    ensures var r := RequestId(clientId, n);
      && |r| > |clientId| + 1 && r[..|clientId|] == clientId && r[|clientId|] == ':'
      && AllDigits(r[|clientId| + 1..]) && ParseDecimal(r[|clientId| + 1..]) == n
  {
    ParseDecimalOfDecimal(n);
    assert RequestId(clientId, n)[|clientId| + 1..] == Decimal(n);
  }

  /** Identifiers of one client never repeat. */
  lemma RequestIdInjective(clientId: string, a: nat, b: nat)
    ensures RequestId(clientId, a) == RequestId(clientId, b) ==> a == b
  {
    if RequestId(clientId, a) == RequestId(clientId, b) {
      var k := |clientId| + 1;
      assert Decimal(a) == RequestId(clientId, a)[k..];
      assert Decimal(b) == RequestId(clientId, b)[k..];
      DecimalInjective(a, b);
    }
  }

  /** The identifiers of the first n requests of a client. */
  function IssuedIds(clientId: string, n: nat): set<string> {
    if n == 0 then {} else IssuedIds(clientId, n - 1) + {RequestId(clientId, n)}
  }

  lemma {:induction false} IssuedIdsMembership(clientId: string, n: nat, m: nat)
    ensures RequestId(clientId, m) in IssuedIds(clientId, n) <==> 1 <= m <= n
  {
    if n > 0 {
      IssuedIdsMembership(clientId, n - 1, m);
      RequestIdInjective(clientId, m, n);
    }
  }

  /** The params object of an envelope. */
  datatype Params =
    | KeyValue(key: Value, value: Value)   // {key, value}
    | Keys(keys: seq<Value>)               // {keys: [...]}
    | NoParams                             // {}

  datatype Envelope = Envelope(id: string, methodName: string, params: Params)

  /** One postMessage call to the hub: the envelope (before JSON.stringify)
      and the target origin. */
  datatype Post = Post(envelope: Envelope, targetOrigin: string)

  /** The state of a promise the client handed out. */
  datatype Settlement =
    | Pending
    | Resolved(result: Option<Value>)
    | Rejected(message: string)

  /** The entry `_requests[id]`: the namespaced method, the state of the
      request's promise, and whether its timer is still armed. */
  datatype Request = Request(methodName: string, status: Settlement, timerArmed: bool)

  /** A connect-waiter: the state of the promise onConnect returned and
      whether its timer is still armed. */
  datatype Waiter = Waiter(status: Settlement, timerArmed: bool)

  /** What JSON.parse made of a message's data: it threw, or it produced a
      value whose `id`, `error` and `result` properties are given (None for
      undefined; a primitive or null parses to Parsed(None, None, None)). */
  datatype Parsed =
    | Unparseable
    | Parsed(id: Option<Value>, error: Option<Value>, result: Option<Value>)

  /** message.data: a non-string value, or a string together with what
      JSON.parse makes of it. */
  datatype Data = NonString | Text(text: string, json: Parsed)

  datatype Inbound = Inbound(origin: string, data: Data)

  /** Calling a request's callback with (error, result): the timer is cleared
      and, if the promise is still pending, it is rejected with `new
      Error(error)` for a truthy error and resolved with result otherwise. */
  function Respond(r: Request, error: Option<Value>, result: Option<Value>): (r': Request)
    ensures r'.methodName == r.methodName && !r'.timerArmed
    ensures !r.status.Pending? ==> r'.status == r.status
    ensures r.status.Pending? ==> !r'.status.Pending?
    ensures r.status.Pending? ==> (r'.status.Rejected? <==> error.Some? && Truthy(error.value))
  {
    var status :=
      if !r.status.Pending? then r.status
      else if error.Some? && Truthy(error.value) then Rejected(JsString(error.value))
      else Resolved(result);
    Request(r.methodName, status, false)
  }

  /** A request timer firing: the promise, if still pending, is rejected with
      the timeout error naming the method. */
  function Expire(r: Request): (r': Request)
    ensures r'.methodName == r.methodName && !r'.timerArmed
    ensures !r.status.Pending? ==> r'.status == r.status
    ensures r.status.Pending? ==> r'.status.Rejected?
  {
    Request(r.methodName, if r.status.Pending? then Rejected(TimeoutMessage(r.methodName)) else r.status, false)
  }

  /** Calling a connect-waiter (or its timer firing): the timer is gone and a
      pending promise takes the given outcome. Settling twice is settling
      once. */
  function Settle(w: Waiter, outcome: Settlement): (w': Waiter)
    ensures !w'.timerArmed
    ensures !w.status.Pending? ==> w'.status == w.status
    ensures !outcome.Pending? ==> !w'.status.Pending?
    ensures w.status.Pending? ==> w'.status == outcome
  {
    Waiter(if w.status.Pending? then outcome else w.status, false)
  }

  /** Once a waiter is settled, calling it again, with any outcome, changes
      nothing. */
  lemma SettleOnce(w: Waiter, first: Settlement, second: Settlement)
    requires !first.Pending?
    ensures Settle(Settle(w, first), second) == Settle(w, first)
  {
  }
}
