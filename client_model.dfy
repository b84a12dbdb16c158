/** The client's connection state machine and request correlator as pure
    transitions over its state, one function per event, with the invariant
    every reachable state keeps and the properties the protocol relies on.
    The class in module Client implements each event imperatively and is
    proved to produce exactly these transitions. */
module ClientModel {
  import opened Values
  import opened Origin
  import opened Protocol

  /** What a client fixes when it is built: its uuid, the hub's origin, and
      whether the hub window (the frame's contentWindow) is present. */
  datatype Config = Config(id: string, origin: string, hubPresent: bool)

  /** The fields the client updates: `_connected`, `_closed`, `_count`,
      `_requests`, `_connections` (indices into `waiters`, the promises
      onConnect handed out) and the messages posted to the hub so far. */
  datatype State = State(
    connected: bool,
    closed: bool,
    count: nat,
    requests: map<string, Request>,
    waiters: seq<Waiter>,
    connections: seq<nat>,
    outbox: seq<Post>)

  /** The errors thrown synchronously by onConnect and `_request`. */
  datatype ClientError = ClosedError | DisconnectedError

  function ErrorMessage(e: ClientError): string {
    match e
    case ClosedError => CLOSED_MESSAGE
    case DisconnectedError => DISCONNECTED_MESSAGE
  }

  /** What the `async` methods get and clear hand back. Their call to
      `_request` cannot throw out of them: a throw becomes a promise rejected
      with the thrown error's message; otherwise the promise settles as the
      request's does. */
  datatype Promised = RequestPromise(id: string) | RejectedPromise(message: string)

  function Awaited(r: Result<string, ClientError>): (p: Promised)
    ensures p.RequestPromise? <==> r.Success?
    ensures r.Success? ==> p.id == r.value
    ensures r.Failure? ==> p.message == ErrorMessage(r.error)
  {
    match r
    case Success(id) => RequestPromise(id)
    case Failure(e) => RejectedPromise(ErrorMessage(e))
  }

  /** What onConnect returns: the client's ambient `_promise`, or the promise
      of the waiter at that index. */
  datatype Handle = Ambient | Waiting(index: nat)

  /** The result of an operation together with the state after it. */
  datatype Step<+R> = Step(result: R, state: State)

  function Init(): State {
    State(false, false, 0, map[], [], [], [])
  }

  /** The n-th message posted (counting from 0) carries the n+1-th request
      identifier, its entry in the table keeps the envelope's method, and it
      went to the target origin of the hub. */
  ghost predicate PostedAs(c: Config, outbox: seq<Post>, requests: map<string, Request>, j: nat)
    requires j < |outbox|
  {
    var env := outbox[j].envelope;
    && env.id == RequestId(c.id, j + 1)
    && env.id in requests
    && requests[env.id].methodName == env.methodName
    && outbox[j].targetOrigin == TargetOrigin(c.origin)
  }

  ghost predicate Valid(c: Config, s: State) {
    // a closed client is never connected, and a connected one has no queue
    && (s.closed ==> !s.connected)
    && (s.connected ==> s.connections == [])
    && (forall i :: 0 <= i < |s.connections| ==> s.connections[i] < |s.waiters|)
    // a timer is armed exactly while its promise is pending
    && (forall w :: 0 <= w < |s.waiters| ==> (s.waiters[w].timerArmed <==> s.waiters[w].status.Pending?))
    && (forall key :: key in s.requests ==> (s.requests[key].timerArmed <==> s.requests[key].status.Pending?))
    // every pending waiter is still queued
    && (forall w :: 0 <= w < |s.waiters| && s.waiters[w].status.Pending? ==> w in s.connections)
    // the table holds exactly the identifiers issued so far, one post each
    && s.requests.Keys == IssuedIds(c.id, s.count)
    && |s.outbox| == s.count
    && (forall j :: 0 <= j < |s.outbox| ==> PostedAs(c, s.outbox, s.requests, j))
  }

  // ---------------------------------------------------------------------
  // Public calls

  /** onConnect: it throws only when closed and not connected, never touches
      the requests, the count or the posts, and leaves every earlier waiter
      as it was. */
  function OnConnect(s: State): (step: Step<Result<Handle, ClientError>>)
    ensures step.result.Failure? <==> !s.connected && s.closed
    ensures step.result.Failure? ==> ErrorMessage(step.result.error) == CLOSED_MESSAGE && step.state == s
    ensures step.state.requests == s.requests && step.state.count == s.count && step.state.outbox == s.outbox
    ensures step.state.connected == s.connected && step.state.closed == s.closed
    ensures |s.waiters| <= |step.state.waiters| && step.state.waiters[..|s.waiters|] == s.waiters
  {
    if s.connected then Step(Success(Ambient), s)
    else if s.closed then Step(Failure(ClosedError), s)
    else
      var index := |s.waiters|;
      Step(Success(Waiting(index)),
           s.(waiters := s.waiters + [Waiter(Pending, true)],
              connections := s.connections + [index]))
  }

  /** `_request(methodName, params)`: the result is the request's
      identifier, which is how its promise is found in `requests`. */
  function SendRequest(c: Config, s: State, methodName: string, params: Params): (step: Step<Result<string, ClientError>>)
    ensures step.result.Failure? <==> s.closed || !c.hubPresent
    ensures step.result.Failure? ==>
      && step.state == s
      && ErrorMessage(step.result.error) == if s.closed then CLOSED_MESSAGE else DISCONNECTED_MESSAGE
    ensures step.result.Success? ==>
      && |step.state.outbox| == |s.outbox| + 1
      && step.state.outbox[..|s.outbox|] == s.outbox
      && step.state.outbox[|s.outbox|].envelope.id == step.result.value
      && step.result.value in step.state.requests
      && (forall k :: k in s.requests ==> k in step.state.requests)
    ensures step.state.connected == s.connected && step.state.closed == s.closed
    ensures step.state.waiters == s.waiters && step.state.connections == s.connections
  {
    if s.closed then Step(Failure(ClosedError), s)
    else if !c.hubPresent then Step(Failure(DisconnectedError), s)
    else
      var n := s.count + 1;
      var req := Envelope(RequestId(c.id, n), Namespaced(methodName), params);
      Step(Success(req.id),
           s.(count := n,
              requests := s.requests[req.id := Request(req.methodName, Pending, true)],
              outbox := s.outbox + [Post(req, TargetOrigin(c.origin))]))
  }

  /** close: the frame and the listener are DOM effects and are not part of
      the state. */
  function Close(s: State): (r: State)
    ensures r.closed && !r.connected
    ensures r.(connected := s.connected, closed := s.closed) == s
  {
    s.(connected := false, closed := true)
  }

  // ---------------------------------------------------------------------
  // Timers

  /** The timer of request `key` fires (it can only fire while armed). */
  function RequestTimerFires(s: State, key: string): (r: State)
    ensures r.requests.Keys == s.requests.Keys
    ensures forall k :: k in s.requests && k != key ==> r.requests[k] == s.requests[k]
    ensures r.(requests := s.requests) == s
  {
    if key in s.requests && s.requests[key].timerArmed
    then s.(requests := s.requests[key := Expire(s.requests[key])])
    else s
  }

  /** The timer of connect-waiter `index` fires; the waiter stays queued. */
  function ConnectTimerFires(s: State, index: nat): (r: State)
    ensures |r.waiters| == |s.waiters|
    ensures forall w :: 0 <= w < |s.waiters| && w != index ==> r.waiters[w] == s.waiters[w]
    ensures index < |s.waiters| && !s.waiters[index].status.Pending? ==>
              r.waiters[index].status == s.waiters[index].status
    ensures r.(waiters := s.waiters) == s
  {
    if index < |s.waiters| && s.waiters[index].timerArmed
    then s.(waiters := s.waiters[index := Settle(s.waiters[index], Rejected(CONNECT_TIMEOUT_MESSAGE))])
    else s
  }

  // ---------------------------------------------------------------------
  // The message listener

  /** Calling every queued waiter, in queue order, with the same argument. */
  function SettleAll(ws: seq<Waiter>, queue: seq<nat>, outcome: Settlement): (r: seq<Waiter>)
    ensures |r| == |ws|
    ensures forall w :: 0 <= w < |ws| ==> r[w] == if w in queue then Settle(ws[w], outcome) else ws[w]
  {
    if queue == [] then ws
    else
      var front := SettleAll(ws, queue[..|queue| - 1], outcome);
      var last := queue[|queue| - 1];
      assert forall w :: w in queue <==> w in queue[..|queue| - 1] || w == last by {
        assert queue == queue[..|queue| - 1] + [last];
      }
      if last < |front| then front[last := Settle(front[last], outcome)] else front
  }

  /** The listener's first filter: a closed client, empty or non-string data
      and a foreign origin are ignored. */
  predicate Accepts(c: Config, s: State, m: Inbound) {
    && !s.closed
    && m.data.Text?
    && m.data.text != ""
    && ListenerOrigin(m.origin) == c.origin
  }

  /** The first message containing the namespace while not connected connects
      the client and resolves every queued waiter. */
  function ConnectOn(s: State, text: string): (r: State)
    ensures r.connected <==> s.connected || IndexOf(text, NAMESPACE) != -1
    ensures r.requests == s.requests && r.count == s.count && r.outbox == s.outbox && r.closed == s.closed
    ensures r.connected && !s.connected ==>
      && r.connections == []
      && |r.waiters| == |s.waiters|
      && forall w :: w in s.connections && w < |s.waiters| ==> !r.waiters[w].status.Pending?
    ensures !r.connected || s.connected ==> r == s
  {
    if IndexOf(text, NAMESPACE) != -1 && !s.connected
    then s.(connected := true,
            waiters := SettleAll(s.waiters, s.connections, Resolved(None)),
            connections := [])
    else s
  }

  /** A response for `key` calls the callback stored under it, if any. */
  function Deliver(s: State, key: string, error: Option<Value>, result: Option<Value>): (r: State)
    ensures r.requests.Keys == s.requests.Keys
    ensures forall k :: k in s.requests && k != key ==> r.requests[k] == s.requests[k]
    ensures r.(requests := s.requests) == s
  {
    if key in s.requests
    then s.(requests := s.requests[key := Respond(s.requests[key], error, result)])
    else s
  }

  /** What follows the connection step: "ready" stops, unparseable data and a
      falsy id are dropped, anything else is delivered by its id. */
  function Dispatch(s: State, text: string, json: Parsed): (r: State)
    ensures r.requests.Keys == s.requests.Keys
    ensures forall k :: k in s.requests && !s.requests[k].status.Pending? ==> r.requests[k].status == s.requests[k].status
    ensures r.(requests := s.requests) == s
  {
    if text == READY then s
    else match json
      case Unparseable => s
      case Parsed(id, error, result) =>
        if id.None? || !Truthy(id.value) then s
        else Deliver(s, JsString(id.value), error, result)
  }

  /** The `_installListener` handler. */
  function Receive(c: Config, s: State, m: Inbound): (r: State)
    ensures !Accepts(c, s, m) ==> r == s
    ensures r.requests.Keys == s.requests.Keys && r.count == s.count && r.outbox == s.outbox
    ensures forall k :: k in s.requests && !s.requests[k].status.Pending? ==> r.requests[k].status == s.requests[k].status
  {
    if !Accepts(c, s, m) then s
    else if m.data.text == UNAVAILABLE then
      var closed := Close(s);
      closed.(waiters := SettleAll(closed.waiters, closed.connections, Rejected(UNAVAILABLE_MESSAGE)))
    else Dispatch(ConnectOn(s, m.data.text), m.data.text, m.data.json)
  }

  // ---------------------------------------------------------------------
  // Every event

  datatype Event =
    | ConnectCall
    | RequestCall(methodName: string, params: Params)
    | CloseCall
    | Message(message: Inbound)
    | RequestTimer(key: string)
    | ConnectTimer(index: nat)

  function Apply(c: Config, s: State, e: Event): State {
    match e
    case ConnectCall => OnConnect(s).state
    case RequestCall(methodName, params) => SendRequest(c, s, methodName, params).state
    case CloseCall => Close(s)
    case Message(m) => Receive(c, s, m)
    case RequestTimer(key) => RequestTimerFires(s, key)
    case ConnectTimer(index) => ConnectTimerFires(s, index)
  }

  function Run(c: Config, s: State, events: seq<Event>): State
    decreases |events|
  {
    if events == [] then s else Run(c, Apply(c, s, events[0]), events[1..])
  }

  // ---------------------------------------------------------------------
  // The invariant holds of every reachable state

  lemma InitValid(c: Config)
    ensures Valid(c, Init())
  {
    assert IssuedIds(c.id, 0) == {};
  }

  lemma SendRequestPreservesValid(c: Config, s: State, methodName: string, params: Params)
    requires Valid(c, s)
    ensures Valid(c, SendRequest(c, s, methodName, params).state)
  {
    if !s.closed && c.hubPresent {
      var n := s.count + 1;
      var req := Envelope(RequestId(c.id, n), Namespaced(methodName), params);
      var s' := s.(count := n,
                   requests := s.requests[req.id := Request(req.methodName, Pending, true)],
                   outbox := s.outbox + [Post(req, TargetOrigin(c.origin))]);
      assert SendRequest(c, s, methodName, params).state == s';
      assert s'.requests.Keys == IssuedIds(c.id, n);
      forall j | 0 <= j < |s'.outbox|
        ensures PostedAs(c, s'.outbox, s'.requests, j)
      {
        if j < s.count {
          assert PostedAs(c, s.outbox, s.requests, j);
          RequestIdInjective(c.id, j + 1, n);
        }
      }
    }
  }

  lemma ConnectOnPreservesValid(c: Config, s: State, text: string)
    requires Valid(c, s) && !s.closed
    ensures Valid(c, ConnectOn(s, text))
  {
  }

  lemma DispatchPreservesValid(c: Config, s: State, text: string, json: Parsed)
    requires Valid(c, s)
    ensures Valid(c, Dispatch(s, text, json))
  {
    var s' := Dispatch(s, text, json);
    assert s'.requests.Keys == s.requests.Keys;
    forall j | 0 <= j < |s'.outbox|
      ensures PostedAs(c, s'.outbox, s'.requests, j)
    {
      assert PostedAs(c, s.outbox, s.requests, j);
    }
  }

  lemma ReceivePreservesValid(c: Config, s: State, m: Inbound)
    requires Valid(c, s)
    ensures Valid(c, Receive(c, s, m))
  {
    if Accepts(c, s, m) && m.data.text != UNAVAILABLE {
      ConnectOnPreservesValid(c, s, m.data.text);
      DispatchPreservesValid(c, ConnectOn(s, m.data.text), m.data.text, m.data.json);
    }
  }

  lemma RequestTimerPreservesValid(c: Config, s: State, key: string)
    requires Valid(c, s)
    ensures Valid(c, RequestTimerFires(s, key))
  {
    var s' := RequestTimerFires(s, key);
    assert s'.requests.Keys == s.requests.Keys;
    forall j | 0 <= j < |s'.outbox|
      ensures PostedAs(c, s'.outbox, s'.requests, j)
    {
      assert PostedAs(c, s.outbox, s.requests, j);
    }
  }

  lemma ApplyPreservesValid(c: Config, s: State, e: Event)
    requires Valid(c, s)
    ensures Valid(c, Apply(c, s, e))
  {
    match e
    case ConnectCall =>
    case RequestCall(methodName, params) => SendRequestPreservesValid(c, s, methodName, params);
    case CloseCall =>
    case Message(m) => ReceivePreservesValid(c, s, m);
    case RequestTimer(key) => RequestTimerPreservesValid(c, s, key);
    case ConnectTimer(index) =>
  }

  lemma {:induction false} RunPreservesValid(c: Config, s: State, events: seq<Event>)
    requires Valid(c, s)
    ensures Valid(c, Run(c, s, events))
    decreases |events|
  {
    if events != [] {
      ApplyPreservesValid(c, s, events[0]);
      RunPreservesValid(c, Apply(c, s, events[0]), events[1..]);
    }
  }

  /** Every state a client reaches from construction is valid. */
  lemma ReachableValid(c: Config, events: seq<Event>)
    ensures Valid(c, Run(c, Init(), events))
  {
    InitValid(c);
    RunPreservesValid(c, Init(), events);
  }

  // ---------------------------------------------------------------------
  // Request identifiers

  /** The identifiers of all requests a client has sent are pairwise
      distinct. */
  lemma RequestIdsDistinct(c: Config, s: State)
    requires Valid(c, s)
    ensures forall i, j :: 0 <= i < j < |s.outbox| ==>
              s.outbox[i].envelope.id != s.outbox[j].envelope.id
  {
    forall i, j | 0 <= i < j < |s.outbox|
      ensures s.outbox[i].envelope.id != s.outbox[j].envelope.id
    {
      assert PostedAs(c, s.outbox, s.requests, i) && PostedAs(c, s.outbox, s.requests, j);
      RequestIdInjective(c.id, i + 1, j + 1);
    }
  }

  /** `_request` throws on a closed client, then on a missing hub, changing
      nothing; otherwise it takes the next count, an identifier never used
      before, registers a pending entry with an armed timer and posts the
      envelope with the namespaced method and the params unchanged. */
  lemma SendRequestOutcome(c: Config, s: State, methodName: string, params: Params)
    requires Valid(c, s)
    ensures var step := SendRequest(c, s, methodName, params);
      && (s.closed ==> step == Step(Failure(ClosedError), s))
      && (!s.closed && !c.hubPresent ==> step == Step(Failure(DisconnectedError), s))
      && (!s.closed && c.hubPresent ==>
            var id := RequestId(c.id, s.count + 1);
            var req := Envelope(id, NAMESPACE + methodName, params);
            && step.result == Success(id)
            && id !in s.requests
            && (forall j :: 0 <= j < |s.outbox| ==> s.outbox[j].envelope.id != id)
            && step.state.count == s.count + 1
            && step.state.requests == s.requests[id := Request(req.methodName, Pending, true)]
            && step.state.outbox == s.outbox + [Post(req, TargetOrigin(c.origin))]
            && step.state.connected == s.connected && step.state.closed == s.closed
            && step.state.waiters == s.waiters && step.state.connections == s.connections)
  {
    if !s.closed && c.hubPresent {
      var n := s.count + 1;
      IssuedIdsMembership(c.id, s.count, n);
      forall j | 0 <= j < |s.outbox|
        ensures s.outbox[j].envelope.id != RequestId(c.id, n)
      {
        assert PostedAs(c, s.outbox, s.requests, j);
        RequestIdInjective(c.id, j + 1, n);
      }
    }
  }

  /** get and clear are `async`: where `_request` throws (a closed client,
      then a missing hub) they hand back a promise rejected with that error's
      message instead of throwing; otherwise the promise of the new request. */
  lemma AsyncRequestOutcome(c: Config, s: State, methodName: string, params: Params)
    ensures var step := SendRequest(c, s, methodName, params);
      Awaited(step.result) ==
        if s.closed then RejectedPromise(CLOSED_MESSAGE)
        else if !c.hubPresent then RejectedPromise(DISCONNECTED_MESSAGE)
        else RequestPromise(RequestId(c.id, s.count + 1))
  {
  }

  // ---------------------------------------------------------------------
  // Each request settles at most once

  /** No event changes the outcome of a settled request or removes an
      entry: a response after a timeout, a second response, a late timer all
      leave it as it was. */
  lemma SettledIsFinal(c: Config, s: State, e: Event, key: string)
    requires Valid(c, s)
    requires key in s.requests && !s.requests[key].status.Pending?
    ensures key in Apply(c, s, e).requests
    ensures Apply(c, s, e).requests[key].status == s.requests[key].status
  {
    match e
    case RequestCall(methodName, params) =>
      if !s.closed && c.hubPresent {
        IssuedIdsMembership(c.id, s.count, s.count + 1);
      }
    case Message(m) =>
      if Accepts(c, s, m) && m.data.text != UNAVAILABLE {
        assert ConnectOn(s, m.data.text).requests == s.requests;
      }
    case _ =>
  }

  /** No event changes the outcome of a settled connect-waiter: a called
      waiter's timer was cleared, and a promise settles once. */
  lemma WaiterSettledIsFinal(c: Config, s: State, e: Event, w: nat)
    requires w < |s.waiters| && !s.waiters[w].status.Pending?
    ensures w < |Apply(c, s, e).waiters|
    ensures Apply(c, s, e).waiters[w].status == s.waiters[w].status
  {
    match e
    case Message(m) =>
      if Accepts(c, s, m) && m.data.text != UNAVAILABLE {
        var s1 := ConnectOn(s, m.data.text);
        assert s1.waiters[w].status == s.waiters[w].status;
        assert Receive(c, s, m).waiters == s1.waiters;
      }
    case _ =>
  }

  lemma {:induction false} WaiterSettledIsFinalOverRun(c: Config, s: State, events: seq<Event>, w: nat)
    requires w < |s.waiters| && !s.waiters[w].status.Pending?
    ensures w < |Run(c, s, events).waiters|
    ensures Run(c, s, events).waiters[w].status == s.waiters[w].status
    decreases |events|
  {
    if events != [] {
      WaiterSettledIsFinal(c, s, events[0], w);
      WaiterSettledIsFinalOverRun(c, Apply(c, s, events[0]), events[1..], w);
    }
  }

  lemma {:induction false} SettledIsFinalOverRun(c: Config, s: State, events: seq<Event>, key: string)
    requires Valid(c, s)
    requires key in s.requests && !s.requests[key].status.Pending?
    ensures key in Run(c, s, events).requests
    ensures Run(c, s, events).requests[key].status == s.requests[key].status
    decreases |events|
  {
    if events != [] {
      SettledIsFinal(c, s, events[0], key);
      ApplyPreservesValid(c, s, events[0]);
      SettledIsFinalOverRun(c, Apply(c, s, events[0]), events[1..], key);
    }
  }

  /** A pending request always has an armed timer, and when it fires the
      request is rejected with the timeout error naming the method it was
      sent with. */
  lemma TimeoutRejects(c: Config, s: State, key: string)
    requires Valid(c, s)
    requires key in s.requests && s.requests[key].status.Pending?
    ensures s.requests[key].timerArmed
    ensures var s' := RequestTimerFires(s, key);
      && key in s'.requests && !s'.requests[key].timerArmed
      && forall j :: 0 <= j < |s.outbox| && s.outbox[j].envelope.id == key ==>
           s'.requests[key].status == Rejected(TimeoutMessage(s.outbox[j].envelope.methodName))
  {
    forall j | 0 <= j < |s.outbox| && s.outbox[j].envelope.id == key
      ensures s.requests[key].methodName == s.outbox[j].envelope.methodName
    {
      assert PostedAs(c, s.outbox, s.requests, j);
    }
  }

  /** Once the timer has rejected a request, any later sequence of events,
      responses for its identifier included, leaves it rejected. */
  lemma TimeoutThenAnything(c: Config, s: State, key: string, later: seq<Event>)
    requires Valid(c, s)
    requires key in s.requests && s.requests[key].status.Pending?
    ensures var s' := RequestTimerFires(s, key);
      && key in Run(c, s', later).requests
      && Run(c, s', later).requests[key].status == Rejected(TimeoutMessage(s.requests[key].methodName))
  {
    RequestTimerPreservesValid(c, s, key);
    SettledIsFinalOverRun(c, RequestTimerFires(s, key), later, key);
  }

  /** A response to a pending request clears its timer and rejects it with
      the error for a truthy `error`, resolves it with `result` otherwise;
      no other entry changes. */
  lemma ResponseSettles(c: Config, s: State, m: Inbound)
    requires Valid(c, s) && Accepts(c, s, m)
    requires m.data.text != UNAVAILABLE && m.data.text != READY
    requires m.data.json.Parsed? && m.data.json.id.Some? && Truthy(m.data.json.id.value)
    requires JsString(m.data.json.id.value) in s.requests
    requires s.requests[JsString(m.data.json.id.value)].status.Pending?
    ensures var key := JsString(m.data.json.id.value);
      var error := m.data.json.error;
      var r := Receive(c, s, m);
      && r.requests.Keys == s.requests.Keys
      && !r.requests[key].timerArmed
      && r.requests[key].status ==
           (if error.Some? && Truthy(error.value) then Rejected(JsString(error.value))
            else Resolved(m.data.json.result))
      && forall other :: other in s.requests && other != key ==> r.requests[other] == s.requests[other]
  {
    assert ConnectOn(s, m.data.text).requests == s.requests;
  }

  /** Unparseable data, a missing or falsy id and an unknown id are dropped:
      beyond the connection step, nothing changes. */
  lemma UnaddressedDropped(c: Config, s: State, m: Inbound)
    requires Accepts(c, s, m) && m.data.text != UNAVAILABLE
    requires || m.data.json.Unparseable?
             || m.data.json.id.None?
             || !Truthy(m.data.json.id.value)
             || JsString(m.data.json.id.value) !in s.requests
    ensures Receive(c, s, m) == ConnectOn(s, m.data.text)
    ensures Receive(c, s, m).requests == s.requests
  {
    assert ConnectOn(s, m.data.text).requests == s.requests;
  }

  /** The listener is inert on a closed client, on empty or non-string data
      and on a foreign origin; the origin "null" counts as "file://". */
  lemma ListenerFilters(c: Config, s: State, m: Inbound)
    ensures s.closed || m.data.NonString? || m.data == Text("", m.data.json) ==> Receive(c, s, m) == s
    ensures ListenerOrigin(m.origin) != c.origin ==> Receive(c, s, m) == s
    ensures m.origin == "null" && c.origin == FILE_ORIGIN && !s.closed && m.data.Text? && m.data.text != "" ==>
              Accepts(c, s, m)
  {
  }

  // ---------------------------------------------------------------------
  // Connection

  /** onConnect: the ambient promise once connected; a throw when closed;
      otherwise exactly one new pending waiter with an armed timer, queued
      last. */
  lemma OnConnectOutcome(c: Config, s: State)
    requires Valid(c, s)
    ensures var step := OnConnect(s);
      && (s.connected ==> step == Step(Success(Ambient), s))
      && (s.closed ==> step == Step(Failure(ClosedError), s))
      && (!s.connected && !s.closed ==>
            && step.result == Success(Waiting(|s.waiters|))
            && step.state.waiters == s.waiters + [Waiter(Pending, true)]
            && step.state.connections == s.connections + [|s.waiters|]
            && step.state.requests == s.requests && step.state.count == s.count)
  {
  }

  /** The first message containing "cross-storage:" anywhere while not
      connected connects the client, resolves every pending waiter (each
      was queued), leaves settled ones alone and empties the queue. */
  lemma ConnectDrainsQueue(c: Config, s: State, m: Inbound)
    requires Valid(c, s) && Accepts(c, s, m)
    requires m.data.text != UNAVAILABLE && !s.connected
    requires IndexOf(m.data.text, NAMESPACE) != -1
    ensures var r := Receive(c, s, m);
      && r.connected && !r.closed && r.connections == []
      && |r.waiters| == |s.waiters|
      && forall w :: 0 <= w < |s.waiters| ==>
           r.waiters[w] == if s.waiters[w].status.Pending? then Waiter(Resolved(None), false) else s.waiters[w]
  {
    var s1 := ConnectOn(s, m.data.text);
    assert Receive(c, s, m).waiters == s1.waiters;
  }

  /** The unavailable notice itself contains the namespace. */
  lemma UnavailableIsNamespaced()
    ensures IndexOf(UNAVAILABLE, NAMESPACE) != -1
  {
    assert UNAVAILABLE == "" + NAMESPACE + "unavailable";
    IndexOfFindsInfix("", NAMESPACE, "unavailable");
  }

  /** A message whose text does not contain "cross-storage:" never connects
      the client and leaves the waiters and the queue as they were. */
  lemma NoNamespaceKeepsConnection(c: Config, s: State, m: Inbound)
    requires m.data.Text? && IndexOf(m.data.text, NAMESPACE) == -1
    ensures var r := Receive(c, s, m);
      r.connected == s.connected && r.waiters == s.waiters && r.connections == s.connections
  {
    UnavailableIsNamespaced();
  }

  /** Once connected, no connect-waiter is pending. */
  lemma ConnectedLeavesNoWaiter(c: Config, s: State, w: nat)
    requires Valid(c, s) && s.connected && w < |s.waiters|
    ensures !s.waiters[w].status.Pending?
  {
  }

  /** "cross-storage:unavailable" closes the client and rejects every
      pending waiter with the hub error; the queue itself, the pending
      requests and their timers are left as they were. */
  lemma UnavailableCloses(c: Config, s: State, m: Inbound)
    requires Valid(c, s) && Accepts(c, s, m)
    requires m.data.text == UNAVAILABLE
    ensures var r := Receive(c, s, m);
      && r.closed && !r.connected
      && r.requests == s.requests && r.count == s.count && r.outbox == s.outbox
      && r.connections == s.connections
      && |r.waiters| == |s.waiters|
      && forall w :: 0 <= w < |s.waiters| ==>
           r.waiters[w] == if s.waiters[w].status.Pending? then Waiter(Rejected(UNAVAILABLE_MESSAGE), false) else s.waiters[w]
  {
  }

  /** A connect timer rejects its waiter but leaves it in the queue. */
  lemma ConnectTimeoutKeepsQueued(c: Config, s: State, index: nat)
    requires Valid(c, s)
    requires index < |s.waiters| && s.waiters[index].status.Pending?
    ensures var r := ConnectTimerFires(s, index);
      && r.waiters[index] == Waiter(Rejected(CONNECT_TIMEOUT_MESSAGE), false)
      && r.connections == s.connections
      && index in r.connections
  {
  }

  /** close always leaves the client closed and disconnected, and a second
      close changes nothing more. */
  lemma CloseIdempotent(s: State)
    ensures Close(s).closed && !Close(s).connected
    ensures Close(Close(s)) == Close(s)
  {
  }
}
