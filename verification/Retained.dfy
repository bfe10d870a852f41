/** What the bridge's steps do to its cache, its names, its record of published topics and the
    broker's retained store. Each step is a relation between two states, because the source visits
    maps in no fixed order. */
module Retained {
  import opened Text
  import opened Fabric
  import opened Naming
  import opened NameIndex
  import opened DataModel
  import opened Topics

  datatype Config = Config(fold: Folding, model: Model, retain: bool, publishNames: bool)

  /** A payload is a word, a JSON value, or the descriptor document built from a node and its name. */
  datatype Payload = Word(w: string) | Value(v: Json) | Document(node: Node, name: Option<string>)

  datatype State = State(
    nodes: Cache,
    names: map<nat, string>,
    index: map<string, nat>,
    topics: map<nat, set<Topic>>,
    retained: map<Topic, Payload>)

  const EMPTY := State(map[], map[], map[], map[], map[])

  // ---------- the broker ----------

  predicate IsEmpty(p: Payload) {
    p == Word("") || p == Value(NoBytes)
  }

  /** A retained publish with an empty payload deletes the entry (section 3.3.1.3 of MQTT 3.1.1). */
  function Put(store: map<Topic, Payload>, t: Topic, p: Payload): map<Topic, Payload> {
    if IsEmpty(p) then store - {t} else store[t := p]
  }

  function At(store: map<Topic, Payload>, t: Topic): Option<Payload> {
    if t in store then Some(store[t]) else None
  }

  function Tracked(s: State, id: nat): set<Topic> {
    if id in s.topics then s.topics[id] else {}
  }

  // ---------- publishing ----------

  function PublishTracked(s: State, id: nat, t: Topic, p: Payload, retain: bool): State {
    if retain then s.(topics := s.topics[id := Tracked(s, id) + {t}], retained := Put(s.retained, t, p)) else s
  }

  /** The alias of an attribute: withheld when mirroring is off, the node has no name, or the model
      does not know the cluster or the attribute. */
  function AliasOf(cfg: Config, names: map<nat, string>, id: nat, path: string): Option<string> {
    if cfg.publishNames && id in names && CountSlash(path) == 2 then NamePath(cfg.model, path) else None
  }

  function PublishAttribute(cfg: Config, s: State, id: nat, path: string, v: Json): State {
    if CountSlash(path) != 2 then s
    else
      var s1 := PublishTracked(s, id, Attr(id, path), Value(NonNil(v)), cfg.retain);
      var a := AliasOf(cfg, s.names, id, path);
      if a.Some? then PublishTracked(s1, id, Alias(s.names[id], a.value), Value(NonNil(v)), cfg.retain) else s1
  }

  /** The topics a node's full publication writes. */
  ghost predicate Publishes(cfg: Config, names: map<nat, string>, n: Node, t: Topic) {
    match t
    case Availability(id) => id == n.id
    case NameTopic(id) => id == n.id
    case Descriptor(id) => id == n.id
    case Attr(id, path) => id == n.id && cfg.retain && path in n.attrs && CountSlash(path) == 2
    case Alias(key, a) =>
      cfg.retain && n.id in names && key == names[n.id] && exists path :: path in n.attrs && AliasOf(cfg, names, n.id, path) == Some(a)
    case _ => false
  }

  ghost predicate AliasedValue(cfg: Config, names: map<nat, string>, n: Node, a: string, p: Option<Payload>) {
    exists path :: path in n.attrs && AliasOf(cfg, names, n.id, path) == Some(a) && p == Some(Value(NonNil(n.attrs[path])))
  }

  /** What the store holds at such a topic afterwards. When two paths of the node share an alias,
      either value may be the one that stays. */
  ghost predicate Expects(cfg: Config, names: map<nat, string>, n: Node, t: Topic, p: Option<Payload>) {
    match t
    case Availability(_) => p == Some(Word(if n.available then "online" else "offline"))
    case NameTopic(_) => p == if n.id in names && names[n.id] != "" then Some(Word(names[n.id])) else None
    case Descriptor(_) => p == Some(Document(n, NameAt(names, n.id)))
    case Attr(_, path) => path in n.attrs && p == Some(Value(NonNil(n.attrs[path])))
    case Alias(_, a) => AliasedValue(cfg, names, n, a, p)
    case _ => true
  }

  ghost predicate SameView(s: State, s': State) {
    s'.nodes == s.nodes && s'.names == s.names && s'.index == s.index
  }

  ghost predicate NodePublished(cfg: Config, s: State, n: Node, s': State) {
    && SameView(s, s')
    && s'.topics.Keys == s.topics.Keys + {n.id}
    && (forall id :: id in s.topics && id != n.id ==> s'.topics[id] == s.topics[id])
    && (forall t :: t in s'.topics[n.id] <==> t in Tracked(s, n.id) || Publishes(cfg, s.names, n, t))
    && (forall t :: Publishes(cfg, s.names, n, t) ==> Expects(cfg, s.names, n, t, At(s'.retained, t)))
    && (forall t :: !Publishes(cfg, s.names, n, t) ==> At(s'.retained, t) == At(s.retained, t))
  }

  function Front<T>(list: seq<T>): (r: seq<T>)
    requires list != []
    ensures |r| == |list| - 1
  {
    list[..|list| - 1]
  }

  function Last<T>(list: seq<T>): T
    requires list != []
  {
    list[|list| - 1]
  }

  ghost predicate NodesPublished(cfg: Config, s: State, list: seq<Node>, s': State)
    decreases |list|
  {
    if list == [] then s' == s
    else exists m: State :: NodesPublished(cfg, s, Front(list), m) && NodePublished(cfg, m, Last(list), s')
  }

  // ---------- clearing ----------

  function ClearNode(s: State, id: nat): State {
    s.(topics := s.topics - {id}, retained := s.retained - Tracked(s, id))
  }

  function NamedTopics(s: State, id: nat): set<Topic> {
    set t | t in Tracked(s, id) && t.Alias?
  }

  function ClearNamed(s: State, id: nat): State {
    if id in s.topics then
      s.(topics := s.topics[id := s.topics[id] - NamedTopics(s, id)], retained := s.retained - NamedTopics(s, id))
    else s
  }

  function ClearAll(s: State, ids: seq<nat>): State {
    if ids == [] then s else ClearNamed(ClearAll(s, ids[..|ids| - 1]), ids[|ids| - 1])
  }

  // ---------- refreshing names ----------

  function Picked(nodes: Cache, ids: seq<nat>): seq<Node> {
    if ids == [] then []
    else
      var last := ids[|ids| - 1];
      Picked(nodes, ids[..|ids| - 1]) + if last in nodes then [nodes[last]] else []
  }

  /** Every changed node's named topics go first, then every changed node still cached is published
      again in full. */
  ghost predicate Refreshed(cfg: Config, s: State, s': State) {
    && s'.names == NamesOf(cfg.fold, s.nodes)
    && IndexOf(cfg.fold, s'.names, s'.index)
    && exists ids: seq<nat> :: RefreshedVia(cfg, s, ids, s') && Lists(ids, Changed(s.names, s'.names))
  }

  ghost predicate RefreshedVia(cfg: Config, s: State, ids: seq<nat>, s': State) {
    NodesPublished(cfg, ClearAll(s.(names := s'.names, index := s'.index), ids), Picked(s.nodes, ids), s')
  }

  // ---------- events ----------

  /** Malformed payloads, occurrences, shutdown notices and unknown events leave all of this alone. */
  datatype Event =
    | AttributeUpdated(id: nat, path: string, value: Json)
    | NodeUpserted(n: Node)
    | NodeRemoved(id: nat)
    | Unrelated

  function CacheAttribute(nodes: Cache, id: nat, path: string, v: Json): Cache {
    if id in nodes then nodes[id := nodes[id].(attrs := nodes[id].attrs[path := v])] else nodes
  }

  ghost predicate Relabelled(cfg: Config, s: State, path: string, s': State) {
    if path == NODE_LABEL then Refreshed(cfg, s, s') else s' == s
  }

  ghost predicate Handled(cfg: Config, s: State, ev: Event, s': State) {
    match ev
    case AttributeUpdated(id, path, v) =>
      exists m: State :: Relabelled(cfg, s.(nodes := CacheAttribute(s.nodes, id, path, v)), path, m)
        && s' == PublishAttribute(cfg, m, id, path, v)
    case NodeUpserted(n) =>
      exists m: State :: Refreshed(cfg, s.(nodes := s.nodes[n.id := n]), m) && NodePublished(cfg, m, n, s')
    case NodeRemoved(id) => Refreshed(cfg, ClearNode(s, id).(nodes := s.nodes - {id}), s')
    case Unrelated => s' == s
  }

  // ---------- sessions ----------

  /** A new session replaces the cache and the names and publishes every node; what an earlier
      session published under other names is not looked at. */
  ghost predicate Started(cfg: Config, s: State, list: seq<Node>, s': State) {
    var names := ListNames(cfg.fold, list);
    && IndexOf(cfg.fold, names, s'.index)
    && NodesPublished(cfg, s.(nodes := Listed(list), names := names, index := s'.index), list, s')
  }

  /** Losing the session publishes `offline` for every node with a topic record. */
  ghost predicate MarkedOffline(s: State, s': State) {
    && SameView(s, s') && s'.topics == s.topics
    && forall t :: At(s'.retained, t) ==
         if t.Availability? && t.id in s.topics then Some(Word("offline")) else At(s.retained, t)
  }

  // ---------- ownership ----------

  /** A topic of the numeric tree belongs to its node id, an alias to whoever carries its key. */
  predicate Owns(names: map<nat, string>, id: nat, t: Topic) {
    match t
    case Availability(i) => i == id
    case NameTopic(i) => i == id
    case Descriptor(i) => i == id
    case Attr(i, _) => i == id
    case Alias(key, _) => id in names && names[id] == key
    case _ => false
  }

  ghost predicate IsTracked(s: State, t: Topic) {
    exists id :: id in s.topics && t in s.topics[id]
  }

  /** An availability topic that went offline with a session while no record held it. */
  ghost predicate IsAdrift(s: State, adrift: set<nat>, t: Topic) {
    t.Availability? && t.id in adrift && At(s.retained, t) == Some(Word("offline"))
  }

  /** A numeric topic is recorded with its own node; every retained topic is recorded, the
      availability topics of nodes adrift excepted. */
  ghost predicate Recorded(s: State, adrift: set<nat>) {
    && (forall id, t :: id in s.topics && t in s.topics[id] ==> t.Alias? || Owns(s.names, id, t))
    && (forall t :: t in s.retained ==> IsTracked(s, t) || IsAdrift(s, adrift, t))
  }

  /** Every recorded alias is its node's own, under its current name. */
  ghost predicate Aliased(s: State) {
    forall id, t :: id in s.topics && t in s.topics[id] ==> Owns(s.names, id, t)
  }

  ghost predicate Tracking(s: State, adrift: set<nat>) {
    Recorded(s, adrift) && Aliased(s)
  }

  /** No record holds a topic that another node owns. */
  ghost predicate Separate(s: State) {
    forall id, t, j :: id in s.topics && t in s.topics[id] && Owns(s.names, j, t) ==> j == id
  }

  /** Only this node's record may hold the topic. */
  ghost predicate Private(s: State, id: nat, t: Topic) {
    forall j :: j in s.topics && t in s.topics[j] ==> j == id
  }

  /** Nodes whose record does not hold their availability topic. */
  function Unrecorded(s: State): set<nat> {
    set id | id in s.topics && Availability(id) !in s.topics[id]
  }

  /** No other node can own the topic. */
  ghost predicate Exclusive(names: map<nat, string>, t: Topic) {
    t.Alias? ==> Injective(names)
  }

  ghost predicate Keyed(nodes: Cache) {
    forall id :: id in nodes ==> nodes[id].id == id
  }

  lemma OwnerUnique(names: map<nat, string>, i: nat, j: nat, t: Topic)
    requires Exclusive(names, t) && Owns(names, i, t) && Owns(names, j, t)
    ensures i == j
  {
  }

  lemma SeparatePrivate(s: State, id: nat, t: Topic)
    requires Separate(s) && Owns(s.names, id, t)
    ensures Private(s, id, t)
  {
  }

  lemma NumericPrivate(s: State, id: nat, t: Topic, adrift: set<nat>)
    requires Recorded(s, adrift) && Owns(s.names, id, t) && !t.Alias?
    ensures Private(s, id, t)
  {
    forall j | j in s.topics && t in s.topics[j] ensures j == id {
      OwnerUnique(s.names, id, j, t);
    }
  }

  /** Records under current names are separate while names are unique. */
  lemma AliasedSeparate(s: State)
    requires Aliased(s) && Injective(s.names)
    ensures Separate(s)
  {
    forall id, t, j | id in s.topics && t in s.topics[id] && Owns(s.names, j, t) ensures j == id {
      OwnerUnique(s.names, id, j, t);
    }
  }

  /** A numeric topic is recorded with its own node or not at all. */
  lemma NumericRecord(s: State, id: nat, t: Topic, adrift: set<nat>)
    requires Recorded(s, adrift) && Owns(s.names, id, t) && !t.Alias?
    ensures IsTracked(s, t) ==> t in Tracked(s, id)
  {
    NumericPrivate(s, id, t, adrift);
  }

  // ---------- effect of publishing a list ----------

  ghost predicate InList(list: seq<Node>, id: nat) {
    exists k :: 0 <= k < |list| && list[k].id == id
  }

  lemma PublishedTracking(cfg: Config, s: State, n: Node, s': State, adrift: set<nat>)
    requires Recorded(s, adrift) && NodePublished(cfg, s, n, s')
    ensures Recorded(s', adrift - {n.id}) && (Aliased(s) ==> Aliased(s'))
    ensures Unrecorded(s') <= Unrecorded(s)
  {
    assert Publishes(cfg, s.names, n, Availability(n.id));
    forall t | t in s'.retained ensures IsTracked(s', t) || IsAdrift(s', adrift - {n.id}, t) {
      if Publishes(cfg, s.names, n, t) {
        assert t in s'.topics[n.id];
      } else {
        assert At(s'.retained, t) == At(s.retained, t);
        if IsTracked(s, t) {
          var id :| id in s.topics && t in s.topics[id];
          assert id in s'.topics && t in s'.topics[id];
        }
      }
    }
  }

  function Ids(list: seq<Node>): set<nat>
    decreases |list|
  {
    if list == [] then {} else Ids(Front(list)) + {Last(list).id}
  }

  lemma {:induction false} AllPublishedTracking(cfg: Config, s: State, list: seq<Node>, s': State, adrift: set<nat>)
    requires Recorded(s, adrift) && NodesPublished(cfg, s, list, s')
    ensures Recorded(s', adrift - Ids(list)) && SameView(s, s') && (Aliased(s) ==> Aliased(s'))
    ensures Unrecorded(s') <= Unrecorded(s)
    decreases |list|
  {
    if list == [] {
      assert adrift - Ids(list) == adrift;
    } else {
      var m := BeforeLast(cfg, s, list, s');
      AllPublishedTracking(cfg, s, Front(list), m, adrift);
      PublishedTracking(cfg, m, Last(list), s', adrift - Ids(Front(list)));
      assert adrift - Ids(Front(list)) - {Last(list).id} == adrift - Ids(list);
    }
  }

  lemma OneOther(cfg: Config, s: State, n: Node, s': State, id: nat, t: Topic)
    requires NodePublished(cfg, s, n, s') && id != n.id
    ensures SameView(s, s')
    ensures (id in s'.topics <==> id in s.topics) && Tracked(s', id) == Tracked(s, id)
    ensures Exclusive(s.names, t) && Owns(s.names, id, t) ==> At(s'.retained, t) == At(s.retained, t)
  {
    if Publishes(cfg, s.names, n, t) && Exclusive(s.names, t) && Owns(s.names, id, t) {
      OwnerUnique(s.names, id, n.id, t);
    }
  }

  lemma NotInFront(list: seq<Node>, id: nat)
    requires list != [] && !InList(list, id)
    ensures !InList(Front(list), id) && Last(list).id != id
  {
    assert list[|list| - 1].id != id;
    forall k | 0 <= k < |list| - 1 ensures Front(list)[k].id != id {
      assert list[k].id != id;
    }
  }

  /** Publishing drops nothing from any node's record. */
  lemma {:induction false} RecordsGrow(cfg: Config, s: State, list: seq<Node>, s': State, id: nat)
    requires NodesPublished(cfg, s, list, s')
    ensures SameView(s, s') && (id in s.topics ==> id in s'.topics) && Tracked(s, id) <= Tracked(s', id)
    decreases |list|
  {
    if list == [] {
    } else {
      var m := BeforeLast(cfg, s, list, s');
      RecordsGrow(cfg, s, Front(list), m, id);
    }
  }

  lemma {:induction false} InListIds(list: seq<Node>, id: nat)
    ensures id in Ids(list) <==> InList(list, id)
    decreases |list|
  {
    if list == [] {
    } else if InList(list, id) && Last(list).id != id {
      var k :| 0 <= k < |list| && list[k].id == id;
      assert Front(list)[k].id == id;
      InListIds(Front(list), id);
    } else {
      InListIds(Front(list), id);
      if InList(Front(list), id) {
        var k :| 0 <= k < |list| - 1 && Front(list)[k].id == id;
        assert list[k].id == id;
      } else if Last(list).id == id {
        assert list[|list| - 1].id == id;
      }
    }
  }

  /** Every listed node has a record, and no record is dropped. */
  lemma {:induction false} PublishedKeys(cfg: Config, s: State, list: seq<Node>, s': State)
    requires NodesPublished(cfg, s, list, s')
    ensures s'.topics.Keys == s.topics.Keys + Ids(list)
    decreases |list|
  {
    if list == [] {
    } else {
      var m := BeforeLast(cfg, s, list, s');
      PublishedKeys(cfg, s, Front(list), m);
    }
  }

  /** Topics that belong to no listed node keep what they held; a node not listed keeps its record. */
  lemma {:induction false} OthersUntouched(cfg: Config, s: State, list: seq<Node>, s': State, id: nat, t: Topic)
    requires NodesPublished(cfg, s, list, s') && !InList(list, id)
    ensures SameView(s, s')
    ensures (id in s'.topics <==> id in s.topics) && Tracked(s', id) == Tracked(s, id)
    ensures Exclusive(s.names, t) && Owns(s.names, id, t) ==> At(s'.retained, t) == At(s.retained, t)
    decreases |list|
  {
    if list == [] {
    } else {
      NotInFront(list, id);
      var m := BeforeLast(cfg, s, list, s');
      OthersUntouched(cfg, s, Front(list), m, id, t);
      OneOther(cfg, m, Last(list), s', id, t);
    }
  }

  lemma BeforeLast(cfg: Config, s: State, list: seq<Node>, s': State) returns (m: State)
    requires NodesPublished(cfg, s, list, s') && list != []
    ensures NodesPublished(cfg, s, Front(list), m) && NodePublished(cfg, m, Last(list), s')
  {
    m :| NodesPublished(cfg, s, Front(list), m) && NodePublished(cfg, m, Last(list), s');
  }

  lemma LastAlone(list: seq<Node>)
    requires Distinct(list) && list != []
    ensures Distinct(Front(list)) && !InList(Front(list), Last(list).id)
  {
  }

  /** A listed node ends up published, whatever its neighbours in the list are. */
  lemma {:induction false} ListedPublished(cfg: Config, s: State, list: seq<Node>, s': State, k: nat, t: Topic)
    requires NodesPublished(cfg, s, list, s') && Distinct(list) && Exclusive(s.names, t) && k < |list|
    ensures SameView(s, s')
    ensures Publishes(cfg, s.names, list[k], t) ==> Expects(cfg, s.names, list[k], t, At(s'.retained, t))
    ensures !Publishes(cfg, s.names, list[k], t) && Owns(s.names, list[k].id, t) ==> At(s'.retained, t) == At(s.retained, t)
    decreases |list|
  {
    var front, last := Front(list), Last(list);
    var m := BeforeLast(cfg, s, list, s');
    LastAlone(list);
    if k == |list| - 1 {
      OthersUntouched(cfg, s, front, m, last.id, t);
      JustPublished(cfg, s, m, last, s', t);
    } else {
      assert front[k] == list[k];
      ListedPublished(cfg, s, front, m, k, t);
      StaysPublished(cfg, s, m, last, s', list[k], t);
    }
  }

  lemma JustPublished(cfg: Config, s: State, m: State, n: Node, s': State, t: Topic)
    requires SameView(s, m) && NodePublished(cfg, m, n, s')
    requires Owns(s.names, n.id, t) ==> At(m.retained, t) == At(s.retained, t)
    ensures SameView(s, s')
    ensures Publishes(cfg, s.names, n, t) ==> Expects(cfg, s.names, n, t, At(s'.retained, t))
    ensures !Publishes(cfg, s.names, n, t) && Owns(s.names, n.id, t) ==> At(s'.retained, t) == At(s.retained, t)
  {
  }

  lemma StaysPublished(cfg: Config, s: State, m: State, last: Node, s': State, n: Node, t: Topic)
    requires SameView(s, m) && NodePublished(cfg, m, last, s') && n.id != last.id && Exclusive(s.names, t)
    requires Publishes(cfg, s.names, n, t) ==> Expects(cfg, s.names, n, t, At(m.retained, t))
    requires !Publishes(cfg, s.names, n, t) && Owns(s.names, n.id, t) ==> At(m.retained, t) == At(s.retained, t)
    ensures SameView(s, s')
    ensures Publishes(cfg, s.names, n, t) ==> Expects(cfg, s.names, n, t, At(s'.retained, t))
    ensures !Publishes(cfg, s.names, n, t) && Owns(s.names, n.id, t) ==> At(s'.retained, t) == At(s.retained, t)
  {
    OneOther(cfg, m, last, s', n.id, t);
    PublishesOwns(cfg, s.names, n, t);
  }

  lemma PublishesOwns(cfg: Config, names: map<nat, string>, n: Node, t: Topic)
    ensures Publishes(cfg, names, n, t) ==> Owns(names, n.id, t)
  {
  }

  // ---------- effect of clearing ----------

  /** Clearing a list of nodes removes exactly the aliases recorded for them. */
  lemma {:induction false} ClearAllEffect(s: State, ids: seq<nat>)
    ensures var r := ClearAll(s, ids);
      && SameView(s, r)
      && r.topics.Keys == s.topics.Keys
      && (forall id :: id in s.topics ==> r.topics[id] == if id in ids then s.topics[id] - NamedTopics(s, id) else s.topics[id])
      && (forall t :: At(r.retained, t) == if ClearedBy(s, ids, t) then None else At(s.retained, t))
  {
    if ids == [] {
      assert ClearAll(s, ids) == s;
    } else {
      var front, last := ids[..|ids| - 1], ids[|ids| - 1];
      ClearAllEffect(s, front);
      var m, r := ClearAll(s, front), ClearAll(s, ids);
      assert forall id :: id in ids <==> id in front || id == last;
      forall t ensures At(r.retained, t) == if ClearedBy(s, ids, t) then None else At(s.retained, t) {
        ClearedSplit(s, ids, t);
        ClearedNext(s, front, last, m, t);
      }
    }
  }

  lemma ClearedNext(s: State, front: seq<nat>, last: nat, m: State, t: Topic)
    requires m.topics.Keys == s.topics.Keys && At(m.retained, t) == if ClearedBy(s, front, t) then None else At(s.retained, t)
    requires last in s.topics ==>
      m.topics[last] == if last in front then s.topics[last] - NamedTopics(s, last) else s.topics[last]
    ensures At(ClearNamed(m, last).retained, t) ==
      if ClearedBy(s, front, t) || (t.Alias? && t in Tracked(s, last)) then None else At(s.retained, t)
  {
    if t.Alias? && t in Tracked(s, last) && last in front {
      assert ClearedBy(s, front, t);
    }
  }

  ghost predicate ClearedBy(s: State, ids: seq<nat>, t: Topic) {
    t.Alias? && exists id :: id in ids && id in s.topics && t in s.topics[id]
  }

  lemma ClearedSplit(s: State, ids: seq<nat>, t: Topic)
    requires ids != []
    ensures ClearedBy(s, ids, t) <==>
      ClearedBy(s, ids[..|ids| - 1], t) || (t.Alias? && t in Tracked(s, ids[|ids| - 1]))
  {
    var front, last := ids[..|ids| - 1], ids[|ids| - 1];
    assert forall id :: id in ids <==> id in front || id == last;
    if t.Alias? && t in Tracked(s, last) {
      assert last in ids && last in s.topics && t in s.topics[last];
    }
  }

  lemma {:induction false} PickedIn(nodes: Cache, ids: seq<nat>, id: nat)
    requires Keyed(nodes)
    ensures InList(Picked(nodes, ids), id) <==> id in ids && id in nodes
    ensures forall k :: 0 <= k < |Picked(nodes, ids)| ==>
      Picked(nodes, ids)[k].id in nodes && Picked(nodes, ids)[k] == nodes[Picked(nodes, ids)[k].id]
  {
    if ids == [] {
    } else {
      var front, last := ids[..|ids| - 1], ids[|ids| - 1];
      PickedIn(nodes, front, id);
      assert id in ids <==> id in front || id == last;
      var list, before := Picked(nodes, ids), Picked(nodes, front);
      if InList(before, id) {
        var k :| 0 <= k < |before| && before[k].id == id;
        assert list[k].id == id;
      }
      if InList(list, id) {
        var k :| 0 <= k < |list| && list[k].id == id;
        if k < |before| {
          assert before[k].id == id;
        }
      }
      if last in nodes {
        assert list[|before|].id == last;
      }
    }
  }

  lemma {:induction false} PickedDistinct(nodes: Cache, ids: seq<nat>)
    requires Keyed(nodes) && Ascending(ids)
    ensures Distinct(Picked(nodes, ids))
  {
    if ids == [] {
    } else {
      var front, last := ids[..|ids| - 1], ids[|ids| - 1];
      PickedDistinct(nodes, front);
      assert last !in front;
      PickedIn(nodes, front, last);
      assert forall k :: 0 <= k < |Picked(nodes, front)| ==> Picked(nodes, front)[k].id != last;
    }
  }
}
