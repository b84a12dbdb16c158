/** CrossStorageClient: the object the application holds. Each public call,
    each inbound message and each timer firing is a method that updates the
    fields in place; every method is proved to perform exactly the transition
    ClientModel gives for that event, so the invariant and the lemmas proved
    there hold of the object. */
module Client {
  import opened Values
  import opened Origin
  import opened Protocol
  import ClientModel

  /** Calling each queued waiter in order with the same argument, as the
      listener's two loops over `_connections` do. */
  method CallQueued(waiters: seq<Waiter>, queue: seq<nat>, outcome: Settlement) returns (settled: seq<Waiter>)
    ensures settled == ClientModel.SettleAll(waiters, queue, outcome)
    ensures |settled| == |waiters|
    ensures forall w :: 0 <= w < |waiters| ==>
              settled[w] == if w in queue then Settle(waiters[w], outcome) else waiters[w]
  {
    settled := waiters;
    var i := 0;
    while i < |queue|
      invariant 0 <= i <= |queue|
      invariant settled == ClientModel.SettleAll(waiters, queue[..i], outcome)
    {
      assert queue[..i + 1][..i] == queue[..i];
      var w := queue[i];
      if w < |settled| {
        settled := settled[w := Settle(settled[w], outcome)];
      }
      i := i + 1;
    }
    assert queue[..i] == queue;
  }

  class CrossStorageClient {
    const id: string
    const origin: string
    const hubPresent: bool
    var connected: bool
    var closed: bool
    var count: nat
    var requests: map<string, Request>
    var waiters: seq<Waiter>
    var connections: seq<nat>
    var outbox: seq<Post>

    function Config(): ClientModel.Config {
      ClientModel.Config(id, origin, hubPresent)
    }

    ghost function State(): ClientModel.State
      reads this
    {
      ClientModel.State(connected, closed, count, requests, waiters, connections, outbox)
    }

    ghost predicate Valid()
      reads this
    {
      ClientModel.Valid(Config(), State())
    }

    /** The constructor: the uuid is given, the origin is resolved from the
        hub URL's anchor and the document location, and hubPresent says
        whether the frame's contentWindow exists. */
    constructor (clientId: string, anchor: Location, window: Location, hubPresent: bool)
      ensures Valid()
      ensures Config() == ClientModel.Config(clientId, GetOrigin(anchor, window), hubPresent)
      ensures State() == ClientModel.Init()
    {
      id := clientId;
      origin := GetOrigin(anchor, window);
      this.hubPresent := hubPresent;
      requests := map[];
      waiters := [];
      connections := [];
      connected := false;
      closed := false;
      count := 0;
      outbox := [];
      new;
      ClientModel.InitValid(Config());
    }

    method OnConnect() returns (r: Result<ClientModel.Handle, ClientModel.ClientError>)
      requires Valid()
      modifies this
      ensures Valid()
      ensures var step := ClientModel.OnConnect(old(State()));
              r == step.result && State() == step.state
    {
      ClientModel.ApplyPreservesValid(Config(), State(), ClientModel.ConnectCall);
      if connected {
        return Success(ClientModel.Ambient);
      } else if closed {
        return Failure(ClientModel.ClosedError);
      }
      var index := |waiters|;
      waiters := waiters + [Waiter(Pending, true)];
      connections := connections + [index];
      r := Success(ClientModel.Waiting(index));
    }

    /** `_request`: throws (a Failure; ClientModel.ErrorMessage gives the
        error's message) when closed or without a hub; otherwise counts,
        registers the pending entry with its timer and posts the envelope.
        The result identifies the request's promise. */
    method SendRequest(methodName: string, params: Params) returns (r: Result<string, ClientModel.ClientError>)
      requires Valid()
      modifies this
      ensures Valid()
      ensures var step := ClientModel.SendRequest(Config(), old(State()), methodName, params);
              r == step.result && State() == step.state
    {
      ClientModel.SendRequestPreservesValid(Config(), State(), methodName, params);
      if closed {
        return Failure(ClientModel.ClosedError);
      }
      if !hubPresent {
        return Failure(ClientModel.DisconnectedError);
      }
      count := count + 1;
      var req := Envelope(RequestId(id, count), Namespaced(methodName), params);
      requests := requests[req.id := Request(req.methodName, Pending, true)];
      var targetOrigin := TargetOrigin(origin);
      outbox := outbox + [Post(req, targetOrigin)];
      r := Success(req.id);
    }

    /** set(key, value): sends {key, value}. */
    method Set(key: Value, value: Value) returns (r: Result<string, ClientModel.ClientError>)
      requires Valid()
      modifies this
      ensures Valid()
      ensures var step := ClientModel.SendRequest(Config(), old(State()), "set", KeyValue(key, value));
              r == step.result && State() == step.state
      ensures r.Success? ==> outbox[|outbox| - 1].envelope == Envelope(r.value, "cross-storage:set", KeyValue(key, value))
    {
      r := SendRequest("set", KeyValue(key, value));
    }

    /** get(key, ...): sends the keys, in argument order. Being `async`, it
        hands back a rejected promise where `_request` throws. */
    method Get(keys: seq<Value>) returns (r: ClientModel.Promised)
      requires Valid()
      modifies this
      ensures Valid()
      ensures var step := ClientModel.SendRequest(Config(), old(State()), "get", Keys(keys));
              r == ClientModel.Awaited(step.result) && State() == step.state
      ensures r.RequestPromise? ==> outbox[|outbox| - 1].envelope == Envelope(r.id, "cross-storage:get", Keys(keys))
    {
      var sent := SendRequest("get", Keys(keys));
      r := ClientModel.Awaited(sent);
    }

    /** del(key, ...): sends the keys, in argument order. */
    method Del(keys: seq<Value>) returns (r: Result<string, ClientModel.ClientError>)
      requires Valid()
      modifies this
      ensures Valid()
      ensures var step := ClientModel.SendRequest(Config(), old(State()), "del", Keys(keys));
              r == step.result && State() == step.state
      ensures r.Success? ==> outbox[|outbox| - 1].envelope == Envelope(r.value, "cross-storage:del", Keys(keys))
    {
      r := SendRequest("del", Keys(keys));
    }

    /** clear(): sends the default params {}. Being `async`, it hands back a
        rejected promise where `_request` throws. */
    method Clear() returns (r: ClientModel.Promised)
      requires Valid()
      modifies this
      ensures Valid()
      ensures var step := ClientModel.SendRequest(Config(), old(State()), "clear", NoParams);
              r == ClientModel.Awaited(step.result) && State() == step.state
      ensures r.RequestPromise? ==> outbox[|outbox| - 1].envelope == Envelope(r.id, "cross-storage:clear", NoParams)
    {
      var sent := SendRequest("clear", NoParams);
      r := ClientModel.Awaited(sent);
    }

    /** getKeys(): sends the default params {}. */
    method GetKeys() returns (r: Result<string, ClientModel.ClientError>)
      requires Valid()
      modifies this
      ensures Valid()
      ensures var step := ClientModel.SendRequest(Config(), old(State()), "getKeys", NoParams);
              r == step.result && State() == step.state
      ensures r.Success? ==> outbox[|outbox| - 1].envelope == Envelope(r.value, "cross-storage:getKeys", NoParams)
    {
      r := SendRequest("getKeys", NoParams);
    }

    method Close()
      requires Valid()
      modifies this
      ensures Valid()
      ensures State() == ClientModel.Close(old(State()))
    {
      connected := false;
      closed := true;
    }

    /** The message listener. */
    method Receive(message: Inbound)
      requires Valid()
      modifies this
      ensures Valid()
      ensures State() == ClientModel.Receive(Config(), old(State()), message)
    {
      ClientModel.ReceivePreservesValid(Config(), State(), message);
      if closed || message.data.NonString? || message.data.text == "" {
        return;
      }
      var messageOrigin := ListenerOrigin(message.origin);
      if messageOrigin != origin {
        return;
      }
      var text := message.data.text;
      if text == UNAVAILABLE {
        if !closed {
          Close();
        }
        waiters := CallQueued(waiters, connections, Rejected(UNAVAILABLE_MESSAGE));
        return;
      }
      ConnectStep(text);
      DispatchStep(text, message.data.json);
    }

    /** The listener's connection step: the first message containing the
        namespace while not connected connects and calls every queued
        waiter. */
    method ConnectStep(text: string)
      modifies this
      ensures State() == ClientModel.ConnectOn(old(State()), text)
    {
      if IndexOf(text, NAMESPACE) != -1 && !connected {
        connected := true;
        waiters := CallQueued(waiters, connections, Resolved(None));
        connections := [];
      }
    }

    /** The listener's remaining steps: "ready" stops, unparseable data and a
        falsy id are dropped, and a response calls the callback stored under
        its id, if any. */
    method DispatchStep(text: string, json: Parsed)
      modifies this
      ensures State() == ClientModel.Dispatch(old(State()), text, json)
    {
      if text == READY {
        return;
      }
      match json
      case Unparseable =>
        return;
      case Parsed(responseId, error, result) =>
        if responseId.None? || !Truthy(responseId.value) {
          return;
        }
        var key := JsString(responseId.value);
        if key in requests {
          requests := requests[key := Respond(requests[key], error, result)];
        }
    }

    /** The timer of request `key` fires. */
    method RequestTimerFires(key: string)
      requires Valid()
      modifies this
      ensures Valid()
      ensures State() == ClientModel.RequestTimerFires(old(State()), key)
    {
      ClientModel.RequestTimerPreservesValid(Config(), State(), key);
      if key in requests && requests[key].timerArmed {
        requests := requests[key := Expire(requests[key])];
      }
    }

    /** The timer of connect-waiter `index` fires. */
    method ConnectTimerFires(index: nat)
      requires Valid()
      modifies this
      ensures Valid()
      ensures State() == ClientModel.ConnectTimerFires(old(State()), index)
    {
      ClientModel.ApplyPreservesValid(Config(), State(), ClientModel.ConnectTimer(index));
      if index < |waiters| && waiters[index].timerArmed {
        waiters := waiters[index := Settle(waiters[index], Rejected(CONNECT_TIMEOUT_MESSAGE))];
      }
    }
  }
}
