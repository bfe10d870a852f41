/** The shared broker connection of a Node-RED flow and the input nodes bound through it: handler
    sets counted per node, and names re-resolved on every registry change. */
module Flow {
  import opened Text
  import opened Discovery

  // ---------- reference-counted subscriptions ----------

  datatype Filter = NodeMeta | BridgeStatus | NodeAttributes(nodeId: string) | BridgeResponses

  /** `handlers` maps a node to a handler set, `sets` holds the contents of every set ever made, and
      `live` is what the client is subscribed to on its current connection. */
  datatype Hub = Hub(
    handlers: map<string, nat>,
    sets: map<nat, set<nat>>,
    subscribed: set<string>,
    responses: set<nat>,
    connected: bool,
    live: set<Filter>)

  const NEW_HUB := Hub(map[], map[], {}, {}, false, {})

  /** What `subscribeNode` returns: it remembers the handler set it added to, not just the node. */
  datatype Closure = Closure(nodeId: string, at: nat, fn: nat)

  function Handlers(h: Hub, nodeId: string): set<nat> {
    if nodeId in h.handlers && h.handlers[nodeId] in h.sets then h.sets[h.handlers[nodeId]] else {}
  }

  function Subscribe(h: Hub, nodeId: string, fn: nat, spare: nat): (Hub, Closure) {
    var at := if nodeId in h.handlers then h.handlers[nodeId] else spare;
    var had := if at in h.sets then h.sets[at] else {};
    var isNew := nodeId !in h.subscribed;
    (h.(handlers := h.handlers[nodeId := at],
        sets := h.sets[at := had + {fn}],
        subscribed := h.subscribed + {nodeId},
        live := if isNew && h.connected then h.live + {NodeAttributes(nodeId)} else h.live),
     Closure(nodeId, at, fn))
  }

  function Unsubscribe(h: Hub, c: Closure): Hub {
    var left := (if c.at in h.sets then h.sets[c.at] else {}) - {c.fn};
    var h1 := h.(sets := h.sets[c.at := left]);
    if left != {} then h1
    else h1.(handlers := h.handlers - {c.nodeId},
             subscribed := h.subscribed - {c.nodeId},
             live := if h.connected then h.live - {NodeAttributes(c.nodeId)} else h.live)
  }

  function AddResponder(h: Hub, fn: nat): Hub {
    h.(responses := h.responses + {fn},
       live := if h.responses == {} && h.connected then h.live + {BridgeResponses} else h.live)
  }

  function DropResponder(h: Hub, fn: nat): Hub {
    var left := h.responses - {fn};
    h.(responses := left, live := if left == {} && h.connected then h.live - {BridgeResponses} else h.live)
  }

  /** Connecting subscribes to everything wanted; `resumed` is what the client restores by itself. */
  function Connect(h: Hub, resumed: set<Filter>): Hub {
    h.(connected := true,
       live := resumed + {NodeMeta, BridgeStatus} + (set n | n in h.subscribed :: NodeAttributes(n))
             + if h.responses != {} then {BridgeResponses} else {})
  }

  function Disconnect(h: Hub): Hub {
    h.(connected := false, live := {})
  }

  ghost predicate HubOk(h: Hub) {
    && h.subscribed == h.handlers.Keys
    && (forall n :: n in h.handlers ==> h.handlers[n] in h.sets && h.sets[h.handlers[n]] != {})
    && (forall m, n :: m in h.handlers && n in h.handlers && m != n ==> h.handlers[m] != h.handlers[n])
    && (h.connected ==> NodeMeta in h.live && BridgeStatus in h.live)
    && (h.connected ==> forall n :: n in h.subscribed ==> NodeAttributes(n) in h.live)
    && (h.connected && h.responses != {} ==> BridgeResponses in h.live)
  }

  /** The closure has not been run, and its handler is still where it put it. */
  predicate Live(h: Hub, c: Closure) {
    c.nodeId in h.handlers && h.handlers[c.nodeId] == c.at && c.at in h.sets && c.fn in h.sets[c.at]
  }

  lemma SubscribeKeeps(h: Hub, nodeId: string, fn: nat, at: nat)
    requires HubOk(h) && at !in h.sets
    ensures var (h', c) := Subscribe(h, nodeId, fn, at);
      && HubOk(h') && Live(h', c) && c.nodeId == nodeId && c.fn == fn
      && (forall n :: Handlers(h', n) == if n == nodeId then Handlers(h, n) + {fn} else Handlers(h, n))
      && (forall d :: Live(h, d) ==> Live(h', d))
  {
  }

  /** Running a closure once takes exactly its handler away and keeps every subscription that
      another handler still needs. */
  lemma UnsubscribeKeeps(h: Hub, c: Closure)
    requires HubOk(h) && Live(h, c)
    ensures var h' := Unsubscribe(h, c);
      && HubOk(h') && !Live(h', c)
      && (forall n :: Handlers(h', n) == if n == c.nodeId then Handlers(h, n) - {c.fn} else Handlers(h, n))
      && (forall d :: Live(h, d) && (d.nodeId != c.nodeId || d.fn != c.fn) ==> Live(h', d))
  {
    var h' := Unsubscribe(h, c);
    forall d | Live(h, d) && (d.nodeId != c.nodeId || d.fn != c.fn) ensures Live(h', d) {
      if d.nodeId == c.nodeId {
        assert d.fn in h.sets[c.at] - {c.fn};
      } else {
        assert h.handlers[d.nodeId] != h.handlers[c.nodeId];
      }
    }
  }

  lemma ConnectKeeps(h: Hub, resumed: set<Filter>)
    requires HubOk(h)
    ensures HubOk(Connect(h, resumed)) && HubOk(Disconnect(h))
    ensures forall n :: Handlers(Connect(h, resumed), n) == Handlers(h, n) && Handlers(Disconnect(h), n) == Handlers(h, n)
  {
  }

  lemma RespondersKeep(h: Hub, fn: nat)
    requires HubOk(h)
    ensures HubOk(AddResponder(h, fn)) && HubOk(DropResponder(h, fn))
    ensures AddResponder(h, fn).responses == h.responses + {fn} && DropResponder(h, fn).responses == h.responses - {fn}
    ensures forall n :: Handlers(AddResponder(h, fn), n) == Handlers(h, n) && Handlers(DropResponder(h, fn), n) == Handlers(h, n)
  {
  }

  /** While connected, the client is subscribed to no node that nobody wants. */
  ghost predicate NothingSpare(h: Hub) {
    && (h.connected ==> forall n :: NodeAttributes(n) in h.live ==> n in h.subscribed)
    && (h.connected && BridgeResponses in h.live ==> h.responses != {})
  }

  /** Subscribing and unsubscribing keep it so: the last handler's going ends the subscription. */
  lemma SpareNothing(h: Hub, nodeId: string, fn: nat, at: nat, c: Closure)
    requires HubOk(h) && NothingSpare(h)
    ensures NothingSpare(Subscribe(h, nodeId, fn, at).0)
    ensures Live(h, c) ==> NothingSpare(Unsubscribe(h, c))
    ensures NothingSpare(AddResponder(h, fn)) && NothingSpare(DropResponder(h, fn))
  {
  }

  /** A connection starts without spare subscriptions exactly when the client restores none by itself. What
      was unsubscribed while disconnected is what it can restore, because nobody told it. */
  lemma ConnectSpareIff(h: Hub, resumed: set<Filter>)
    ensures NothingSpare(Connect(h, resumed)) <==>
      (forall n :: NodeAttributes(n) in resumed ==> n in h.subscribed) && (BridgeResponses in resumed ==> h.responses != {})
  {
    var h' := Connect(h, resumed);
    if NothingSpare(h') {
      forall n | NodeAttributes(n) in resumed ensures n in h.subscribed {
        assert NodeAttributes(n) in h'.live;
      }
      assert BridgeResponses in resumed ==> BridgeResponses in h'.live;
    }
  }

  /** A closure run a second time, after the node was subscribed to afresh, silences the newcomer:
      this is why nobody may run one twice. */
  lemma SecondRunSilences(nodeId: string, a: nat, b: nat)
    requires a != b
    ensures
      var (h1, first) := Subscribe(NEW_HUB, nodeId, a, 0);
      var h2 := Unsubscribe(h1, first);
      var (h3, second) := Subscribe(h2, nodeId, b, 1);
      var h4 := Unsubscribe(h3, first);
      Handlers(h3, nodeId) == {b} && Live(h3, second) && !Live(h3, first) && Handlers(h4, nodeId) == {}
  {
    var (h1, first) := Subscribe(NEW_HUB, nodeId, a, 0);
    assert h1.sets[0] - {a} == {};
    var h2 := Unsubscribe(h1, first);
    assert h2.handlers == map[];
    var (h3, second) := Subscribe(h2, nodeId, b, 1);
    assert h3.sets[1] == {b};
  }

  /** A closure that has been run already changes nobody's handlers exactly when its node has none, or
      when the set it remembers still has a handler in it. */
  lemma SecondRunIff(h: Hub, c: Closure)
    requires HubOk(h) && c.at in h.sets && c.fn !in h.sets[c.at]
    ensures (forall n :: Handlers(Unsubscribe(h, c), n) == Handlers(h, n))
      <==> Handlers(h, c.nodeId) == {} || h.sets[c.at] != {}
  {
    var h' := Unsubscribe(h, c);
    assert h.sets[c.at] - {c.fn} == h.sets[c.at];
    assert h'.sets == h.sets;
    if h.sets[c.at] == {} {
      assert Handlers(h', c.nodeId) == {};
    }
  }

  // ---------- input nodes ----------

  datatype Input = Input(device: string, bound: Option<string>, unsubscribe: Option<Closure>)

  /** A handler is registered for a node exactly when that input node is bound to it, and every
      bound input node holds a closure that has not been run. */
  ghost predicate InputsOk(h: Hub, inputs: map<nat, Input>) {
    && (forall i :: i in inputs ==> BindingOk(h, i, inputs[i]))
    && (forall n, i :: i in Handlers(h, n) <==> i in inputs && inputs[i].bound == Some(n))
  }

  ghost predicate BindingOk(h: Hub, i: nat, b: Input) {
    && (b.bound.Some? <==> b.unsubscribe.Some?)
    && (b.unsubscribe.Some? ==> BoundBy(h, i, b.bound, b.unsubscribe.value))
  }

  ghost predicate BoundBy(h: Hub, i: nat, bound: Option<string>, c: Closure) {
    Live(h, c) && c.fn == i && bound == Some(c.nodeId)
  }

  function Unbound(b: Input): Input {
    b.(bound := None, unsubscribe := None)
  }

  lemma UnbindKeeps(h: Hub, inputs: map<nat, Input>, i: nat)
    requires HubOk(h) && InputsOk(h, inputs) && i in inputs && inputs[i].unsubscribe.Some?
    ensures var h' := Unsubscribe(h, inputs[i].unsubscribe.value);
      HubOk(h') && InputsOk(h', inputs[i := Unbound(inputs[i])])
  {
    var c, next := inputs[i].unsubscribe.value, inputs[i := Unbound(inputs[i])];
    UnsubscribeKeeps(h, c);
    var h' := Unsubscribe(h, c);
    assert BoundBy(h, i, inputs[i].bound, c);
    forall j | j in next ensures BindingOk(h', j, next[j]) {
      assert BindingOk(h, j, inputs[j]);
    }
  }

  lemma BindKeeps(h: Hub, inputs: map<nat, Input>, i: nat, nodeId: string, at: nat)
    requires HubOk(h) && InputsOk(h, inputs) && i in inputs && inputs[i].bound == None && at !in h.sets
    ensures var (h', c) := Subscribe(h, nodeId, i, at);
      HubOk(h') && InputsOk(h', inputs[i := inputs[i].(bound := Some(nodeId), unsubscribe := Some(c))])
  {
    SubscribeKeeps(h, nodeId, i, at);
    var (h', c) := Subscribe(h, nodeId, i, at);
    var next := inputs[i := inputs[i].(bound := Some(nodeId), unsubscribe := Some(c))];
    forall j | j in next ensures BindingOk(h', j, next[j]) {
      assert BindingOk(h, j, inputs[j]);
    }
  }

  /** An input node that is bound to nothing can come and go. */
  lemma UnboundKeeps(h: Hub, inputs: map<nat, Input>, i: nat, device: string)
    requires InputsOk(h, inputs)
    ensures i !in inputs ==> InputsOk(h, inputs[i := Input(device, None, None)])
    ensures i in inputs && inputs[i].bound == None ==> InputsOk(h, inputs - {i})
  {
  }

  class Broker {
    const fold: Folding
    var devices: seq<Device>
    var hub: Hub
    /** The input nodes whose `refresh` is registered for status changes. */
    var inputs: map<nat, Input>

    ghost predicate Valid()
      reads this
    {
      HubOk(hub) && DistinctDevices(devices) && InputsOk(hub, inputs)
    }

    /** What an input node should be bound to now. */
    function Wanted(i: nat): Option<string>
      reads this
      requires i in inputs
    {
      LookupName(fold, devices, inputs[i].device)
    }

    ghost predicate Quiescent()
      reads this
    {
      forall i :: i in inputs ==> inputs[i].bound == Wanted(i)
    }

    /** The same input nodes asking for the same devices. */
    twostate predicate SameInputs()
      reads this
    {
      && inputs.Keys == old(inputs.Keys)
      && forall i :: i in inputs ==> inputs[i].device == old(inputs)[i].device
    }

    constructor (fold: Folding)
      ensures Valid() && Quiescent() && this.fold == fold && devices == [] && inputs == map[] && hub == NEW_HUB
    {
      this.fold := fold;
      devices, hub, inputs := [], NEW_HUB, map[];
    }

    method FreshSet() returns (at: nat)
      ensures at !in hub.sets
    {
      at := 0;
      var rest := hub.sets.Keys;
      while rest != {}
        invariant rest <= hub.sets.Keys && forall k :: k in hub.sets && k !in rest ==> k < at
      {
        var k :| k in rest;
        rest := rest - {k};
        if at <= k {
          at := k + 1;
        }
      }
    }

    /** Moves one input node's subscription to whatever its name means now. */
    method Refresh(i: nat)
      requires Valid() && i in inputs
      modifies this`hub, this`inputs
      ensures Valid() && SameInputs() && inputs[i].bound == Wanted(i)
      ensures forall j :: j in inputs && j != i ==> inputs[j] == old(inputs)[j]
      ensures hub.connected == old(hub.connected)
    {
      var nodeId := LookupName(fold, devices, inputs[i].device);
      if nodeId == inputs[i].bound {
        return;
      }
      Unbind(i);
      if nodeId.Some? {
        Bind(i, nodeId.value);
      }
    }

    method Unbind(i: nat)
      requires Valid() && i in inputs
      modifies this`hub, this`inputs
      ensures Valid() && inputs == old(inputs)[i := Unbound(old(inputs)[i])]
      ensures hub.connected == old(hub.connected)
    {
      if inputs[i].unsubscribe.Some? {
        var c := inputs[i].unsubscribe.value;
        UnbindKeeps(hub, inputs, i);
        hub := Unsubscribe(hub, c);
      }
      inputs := inputs[i := Unbound(inputs[i])];
    }

    method Bind(i: nat, nodeId: string)
      requires Valid() && i in inputs && inputs[i].bound == None
      modifies this`hub, this`inputs
      ensures Valid() && inputs.Keys == old(inputs.Keys) && inputs[i].bound == Some(nodeId)
      ensures inputs[i].device == old(inputs)[i].device
      ensures forall j :: j in inputs && j != i ==> inputs[j] == old(inputs)[j]
      ensures hub.connected == old(hub.connected)
    {
      var at := FreshSet();
      BindKeeps(hub, inputs, i, nodeId, at);
      var (h, c) := Subscribe(hub, nodeId, i, at);
      hub := h;
      inputs := inputs[i := inputs[i].(bound := Some(nodeId), unsubscribe := Some(c))];
    }

    /** Runs every registered `refresh`, in no particular order. */
    method EmitStatus()
      requires Valid()
      modifies this`hub, this`inputs
      ensures Valid() && SameInputs() && Quiescent() && hub.connected == old(hub.connected)
    {
      var rest := inputs.Keys;
      while rest != {}
        invariant Valid() && SameInputs() && rest <= inputs.Keys
        invariant forall i :: i in inputs && i !in rest ==> inputs[i].bound == Wanted(i)
        invariant hub.connected == old(hub.connected)
      {
        var i :| i in rest;
        rest := rest - {i};
        Refresh(i);
      }
    }

    /** A metadata message: the registry takes it in, then everybody re-resolves. */
    method OnMeta(m: Meta)
      requires Valid()
      modifies this`devices, this`hub, this`inputs
      ensures Valid() && SameInputs() && Quiescent() && devices == Applied(old(devices), m)
    {
      AppliedEffect(devices, m, m.nodeId);
      devices := Applied(devices, m);
      EmitStatus();
    }

    method OnConnect(resumed: set<Filter>)
      requires Valid()
      modifies this`hub, this`inputs
      ensures Valid() && SameInputs() && Quiescent() && hub.connected
    {
      ConnectKeeps(hub, resumed);
      hub := Connect(hub, resumed);
      EmitStatus();
    }

    method OnClose()
      requires Valid() && Quiescent()
      modifies this`hub, this`inputs
      ensures Valid() && SameInputs() && Quiescent() && !hub.connected
    {
      if !hub.connected {
        return;
      }
      ConnectKeeps(hub, {});
      hub := Disconnect(hub);
      EmitStatus();
    }

    /** A deployed input node registers its `refresh` and runs it once. */
    method AddInput(i: nat, device: string)
      requires Valid() && Quiescent() && i !in inputs
      modifies this`hub, this`inputs
      ensures Valid() && Quiescent()
      ensures inputs.Keys == old(inputs.Keys) + {i} && inputs[i].device == device
      ensures forall j :: j in old(inputs) ==> inputs[j] == old(inputs)[j]
    {
      UnboundKeeps(hub, inputs, i, device);
      inputs := inputs[i := Input(device, None, None)];
      Refresh(i);
    }

    method CloseInput(i: nat)
      requires Valid() && Quiescent() && i in inputs
      modifies this`hub, this`inputs
      ensures Valid() && Quiescent() && inputs == old(inputs) - {i}
    {
      Unbind(i);
      UnboundKeeps(hub, inputs, i, "");
      inputs := inputs - {i};
    }

    /** An attribute message reaches exactly the input nodes whose device name currently means its
        node, and the client is subscribed whenever there are any. */
    method OnAttribute(nodeId: string) returns (reached: set<nat>)
      requires Valid() && Quiescent()
      ensures reached == set i | i in inputs && LookupName(fold, devices, inputs[i].device) == Some(nodeId)
      ensures hub.connected && reached != {} ==> NodeAttributes(nodeId) in hub.live
    {
      reached := Handlers(hub, nodeId);
      assert forall i :: i in reached <==> i in inputs && inputs[i].bound == Some(nodeId);
    }
  }
}
