/** When the retained tree holds nothing but what the cache describes. */
module Exactness {
  import opened Text
  import opened Fabric
  import opened Naming
  import opened NameIndex
  import opened DataModel
  import opened Topics
  import opened Retained
  import opened Agreement
  import opened Runs
  import opened Sessions

  /** Records lie under current names, and names are unique. */
  ghost predicate Firm(s: State, adrift: set<nat>) {
    Keyed(s.nodes) && Tracking(s, adrift) && Injective(s.names)
  }

  /** Every retained topic is one the cache would publish now. */
  ghost predicate NothingStale(cfg: Config, s: State) {
    forall t :: t in s.retained ==> Described(cfg, s, t)
  }

  ghost predicate Described(cfg: Config, s: State, t: Topic) {
    exists id :: id in s.nodes && Publishes(cfg, s.names, s.nodes[id], t)
  }

  /** The attributes of a node that are mirrored in the retained tree. */
  function Mirrored(cfg: Config, n: Node): set<string> {
    set path | path in n.attrs && cfg.retain && CountSlash(path) == 2
  }

  /** The event leaves nothing behind: a retained report is about a cached node, a node report lists
      every mirrored attribute of the node it replaces, and a removed node has its availability
      topic on record. */
  predicate Tidy(cfg: Config, s: State, ev: Event) {
    match ev
    case AttributeUpdated(id, path, _) => id in s.nodes || !cfg.retain || CountSlash(path) != 2
    case NodeUpserted(n) => n.id in s.nodes ==> Mirrored(cfg, s.nodes[n.id]) <= Mirrored(cfg, n)
    case NodeRemoved(id) => Availability(id) in s.retained ==> Availability(id) in Tracked(s, id)
    case Unrelated => true
  }

  lemma StillPublished(cfg: Config, a: map<nat, string>, b: map<nat, string>, n: Node, n': Node, t: Topic)
    requires n.id == n'.id && Mirrored(cfg, n) <= Mirrored(cfg, n') && Publishes(cfg, a, n, t)
    requires NameAt(a, n.id) == NameAt(b, n.id) || !t.Alias?
    ensures Publishes(cfg, b, n', t)
  {
    if t.Alias? {
      var path :| path in n.attrs && AliasOf(cfg, a, n.id, path) == Some(t.path);
      assert path in Mirrored(cfg, n);
      assert path in n'.attrs && AliasOf(cfg, b, n.id, path) == Some(t.path);
    } else if t.Attr? {
      assert t.path in Mirrored(cfg, n);
    }
  }

  lemma DescribedOwner(cfg: Config, s: State, t: Topic, id: nat, adrift: set<nat>)
    requires Firm(s, adrift) && Described(cfg, s, t) && Owns(s.names, id, t)
    ensures id in s.nodes && Publishes(cfg, s.names, s.nodes[id], t)
  {
    var j :| j in s.nodes && Publishes(cfg, s.names, s.nodes[j], t);
    PublishesOwns(cfg, s.names, s.nodes[j], t);
    OwnerUnique(s.names, id, j, t);
  }

  /** The cache changed from `s` to `s1`, keeping the attributes of every node that stayed, and the
      names were refreshed. */
  ghost predicate Evolves(cfg: Config, s: State, s1: State, m: State, id: nat, adrift: set<nat>) {
    && Named(cfg, s) && Firm(s, adrift)
    && Keyed(s1.nodes) && Tracking(s1, adrift) && s1.names == s.names
    && (forall t :: t in s1.retained ==> t in s.retained)
    && Refreshed(cfg, s1, m) && m.nodes == s1.nodes && Injective(m.names)
    && (id in s.nodes ==> id in s1.nodes && Mirrored(cfg, s.nodes[id]) <= Mirrored(cfg, s1.nodes[id]))
  }

  lemma AliasedPrivate(s: State, id: nat, t: Topic)
    requires Aliased(s) && Injective(s.names) && Owns(s.names, id, t)
    ensures Private(s, id, t)
  {
    AliasedSeparate(s);
    SeparatePrivate(s, id, t);
  }

  lemma RefreshDescribes(cfg: Config, s: State, s1: State, m: State, id: nat, t: Topic, adrift: set<nat>)
    requires Evolves(cfg, s, s1, m, id, adrift) && NothingStale(cfg, s) && Owns(m.names, id, t) && t in m.retained
    ensures id in m.nodes && Publishes(cfg, m.names, m.nodes[id], t)
  {
    if NameAt(s.names, id) == NameAt(m.names, id) {
      SameOwner(s.names, m.names, id, t);
      AliasedPrivate(s1, id, t);
      RefreshKeeps(cfg, s1, m, id, t);
      assert At(s1.retained, t).Some?;
      DescribedOwner(cfg, s, t, id, adrift);
      StillPublished(cfg, s.names, m.names, s.nodes[id], m.nodes[id], t);
    } else {
      assert id in m.nodes;
      RefreshPublishes(cfg, s1, m, id, t, adrift);
      if !t.Alias? && t in s1.retained {
        SameOwner(s.names, m.names, id, t);
        DescribedOwner(cfg, s, t, id, adrift);
        StillPublished(cfg, s.names, m.names, s.nodes[id], m.nodes[id], t);
      }
    }
  }

  ghost predicate Grown(cfg: Config, a: Cache, b: Cache) {
    forall id :: id in a ==> id in b && Mirrored(cfg, a[id]) <= Mirrored(cfg, b[id])
  }

  lemma OwnerOf(s: State, t: Topic, adrift: set<nat>) returns (j: nat)
    requires Tracking(s, adrift) && t in s.retained
    ensures Owns(s.names, j, t) && (t in Tracked(s, j) || (t == Availability(j) && !IsTracked(s, t)))
  {
    if IsTracked(s, t) {
      j :| j in s.topics && t in s.topics[j];
    } else {
      j := t.id;
    }
  }

  lemma RecachedDescribes(cfg: Config, s: State, nodes: Cache, m: State, t: Topic, adrift: set<nat>)
    requires Named(cfg, s) && Firm(s, adrift) && NothingStale(cfg, s) && Keyed(nodes) && Grown(cfg, s.nodes, nodes)
    requires Refreshed(cfg, s.(nodes := nodes), m) && Injective(m.names) && t in m.retained
    ensures Described(cfg, m, t)
  {
    var s1 := s.(nodes := nodes);
    TrackingIgnoresNodes(s, nodes, adrift);
    RefreshTracking(cfg, s1, m, adrift);
    var j := OwnerOf(m, t, adrift);
    RefreshDescribes(cfg, s, s1, m, j, t, adrift);
  }

  lemma SameNamesDescribes(cfg: Config, s: State, m: State, t: Topic)
    requires Described(cfg, s, t) && Keyed(s.nodes) && Keyed(m.nodes) && Grown(cfg, s.nodes, m.nodes) && m.names == s.names
    ensures Described(cfg, m, t)
  {
    var j :| j in s.nodes && Publishes(cfg, s.names, s.nodes[j], t);
    StillPublished(cfg, s.names, s.names, s.nodes[j], m.nodes[j], t);
  }

  lemma PathDescribed(cfg: Config, m: State, id: nat, path: string, t: Topic)
    requires id in m.nodes && m.nodes[id].id == id && path in m.nodes[id].attrs
    requires cfg.retain && CountSlash(path) == 2 && PathTopic(cfg, m.names, id, path, t)
    ensures Described(cfg, m, t)
  {
    assert Publishes(cfg, m.names, m.nodes[id], t);
  }

  lemma RelabelDescribes(cfg: Config, s: State, nodes: Cache, path: string, m: State, t: Topic, adrift: set<nat>)
    requires Named(cfg, s) && Firm(s, adrift) && NothingStale(cfg, s) && Keyed(nodes) && Grown(cfg, s.nodes, nodes)
    requires Relabelled(cfg, s.(nodes := nodes), path, m) && Injective(m.names) && t in m.retained
    ensures Described(cfg, m, t)
  {
    if path == NODE_LABEL {
      RecachedDescribes(cfg, s, nodes, m, t, adrift);
    } else {
      SameNamesDescribes(cfg, s, m, t);
    }
  }

  lemma RelabelNodes(cfg: Config, s: State, nodes: Cache, path: string, m: State)
    requires Relabelled(cfg, s.(nodes := nodes), path, m)
    ensures m.nodes == nodes
  {
    if path == NODE_LABEL {
      RefreshNodes(cfg, s.(nodes := nodes), m);
    }
  }

  lemma PublishedDescribes(cfg: Config, m: State, id: nat, path: string, v: Json, s': State, t: Topic)
    requires Keyed(m.nodes) && (cfg.retain && CountSlash(path) == 2 ==> id in m.nodes && path in m.nodes[id].attrs)
    requires s' == PublishAttribute(cfg, m, id, path, v) && t in s'.retained
    requires t in m.retained ==> Described(cfg, m, t)
    ensures Described(cfg, s', t)
  {
    PublishAttributeEffect(cfg, m, id, path, v, t);
    if cfg.retain && CountSlash(path) == 2 && PathTopic(cfg, m.names, id, path, t) {
      PathDescribed(cfg, m, id, path, t);
    } else {
      assert At(m.retained, t).Some?;
    }
    var j :| j in m.nodes && Publishes(cfg, m.names, m.nodes[j], t);
    assert Publishes(cfg, s'.names, s'.nodes[j], t);
  }

  lemma AttributeVia(cfg: Config, s: State, nodes: Cache, id: nat, path: string, v: Json, m: State, s': State, t: Topic, adrift: set<nat>)
    requires Named(cfg, s) && Firm(s, adrift) && NothingStale(cfg, s) && Tidy(cfg, s, AttributeUpdated(id, path, v))
    requires nodes == CacheAttribute(s.nodes, id, path, v)
    requires Relabelled(cfg, s.(nodes := nodes), path, m) && Injective(m.names)
    requires s' == PublishAttribute(cfg, m, id, path, v) && t in s'.retained
    ensures Described(cfg, s', t)
  {
    assert Keyed(nodes) && Grown(cfg, s.nodes, nodes);
    RelabelVia(cfg, s, nodes, path, m, t, adrift);
    PublishedDescribes(cfg, m, id, path, v, s', t);
  }

  lemma RelabelVia(cfg: Config, s: State, nodes: Cache, path: string, m: State, t: Topic, adrift: set<nat>)
    requires Named(cfg, s) && Firm(s, adrift) && NothingStale(cfg, s) && Keyed(nodes) && Grown(cfg, s.nodes, nodes)
    requires Relabelled(cfg, s.(nodes := nodes), path, m) && Injective(m.names)
    ensures m.nodes == nodes && (t in m.retained ==> Described(cfg, m, t))
  {
    RelabelNodes(cfg, s, nodes, path, m);
    if t in m.retained {
      RelabelDescribes(cfg, s, nodes, path, m, t, adrift);
    }
  }

  lemma AttributeNothingStale(cfg: Config, s: State, id: nat, path: string, v: Json, s': State, t: Topic, adrift: set<nat>)
    requires Named(cfg, s) && Firm(s, adrift) && NothingStale(cfg, s) && Tidy(cfg, s, AttributeUpdated(id, path, v))
    requires Handled(cfg, s, AttributeUpdated(id, path, v), s') && Injective(s'.names) && t in s'.retained
    ensures Described(cfg, s', t)
  {
    var s1, m := AttributeMiddle(cfg, s, id, path, v, s');
    PublishAttributeEffect(cfg, m, id, path, v, t);
    AttributeVia(cfg, s, s1.nodes, id, path, v, m, s', t, adrift);
  }

  lemma NodePublishedDescribes(cfg: Config, m: State, n: Node, s': State, t: Topic)
    requires NodePublished(cfg, m, n, s') && n.id in m.nodes && m.nodes[n.id] == n && t in s'.retained
    requires t in m.retained ==> Described(cfg, m, t)
    ensures Described(cfg, s', t)
  {
    if Publishes(cfg, m.names, n, t) {
      assert s'.nodes[n.id] == n;
    } else {
      assert At(m.retained, t) == At(s'.retained, t);
      var j :| j in m.nodes && Publishes(cfg, m.names, m.nodes[j], t);
      assert Publishes(cfg, s'.names, s'.nodes[j], t);
    }
  }

  lemma UpsertNothingStale(cfg: Config, s: State, n: Node, s': State, t: Topic, adrift: set<nat>)
    requires Named(cfg, s) && Firm(s, adrift) && NothingStale(cfg, s) && t in s'.retained
    requires Tidy(cfg, s, NodeUpserted(n))
    requires Handled(cfg, s, NodeUpserted(n), s') && Injective(s'.names)
    ensures Described(cfg, s', t)
  {
    var s1, m := UpsertMiddle(cfg, s, n, s');
    UpsertVia(cfg, s, n, s1.nodes, m, s', t, adrift);
  }

  lemma UpsertGrows(cfg: Config, s: State, n: Node)
    requires Keyed(s.nodes) && Tidy(cfg, s, NodeUpserted(n))
    ensures Keyed(s.nodes[n.id := n]) && Grown(cfg, s.nodes, s.nodes[n.id := n])
  {
  }

  lemma UpsertVia(cfg: Config, s: State, n: Node, nodes: Cache, m: State, s': State, t: Topic, adrift: set<nat>)
    requires Named(cfg, s) && Firm(s, adrift) && NothingStale(cfg, s) && t in s'.retained && nodes == s.nodes[n.id := n]
    requires Tidy(cfg, s, NodeUpserted(n))
    requires Refreshed(cfg, s.(nodes := nodes), m) && NodePublished(cfg, m, n, s') && Injective(s'.names)
    ensures Described(cfg, s', t)
  {
    RelabelNodes(cfg, s, nodes, NODE_LABEL, m);
    UpsertGrows(cfg, s, n);
    if t in m.retained {
      RecachedDescribes(cfg, s, nodes, m, t, adrift);
    }
    NodePublishedDescribes(cfg, m, n, s', t);
  }

  lemma RemovalNothingStale(cfg: Config, s: State, id: nat, s': State, t: Topic, adrift: set<nat>)
    requires Named(cfg, s) && Firm(s, adrift) && NothingStale(cfg, s) && Tidy(cfg, s, NodeRemoved(id))
    requires Handled(cfg, s, NodeRemoved(id), s') && Injective(s'.names) && t in s'.retained
    ensures Described(cfg, s', t)
  {
    var s1 := RemovedTracking(s, id, adrift);
    RefreshTracking(cfg, s1, s', adrift);
    assert Aliased(s');
    RemovalComplete(cfg, s, id, s', t, adrift);
    var j :| j != id && Belongs(s', j, t);
    RemovalEvolves(cfg, s, id, s1, s', j, adrift);
    RefreshDescribes(cfg, s, s1, s', j, t, adrift);
  }

  lemma RemovalEvolves(cfg: Config, s: State, id: nat, s1: State, s': State, j: nat, adrift: set<nat>)
    requires Named(cfg, s) && Firm(s, adrift) && s1 == ClearNode(s, id).(nodes := s.nodes - {id}) && Tracking(s1, adrift)
    requires Refreshed(cfg, s1, s') && s'.nodes == s1.nodes && Injective(s'.names) && j != id
    ensures Evolves(cfg, s, s1, s', j, adrift)
  {
    assert forall t :: t in s1.retained ==> t in s.retained;
  }

  lemma RefreshKeepsUnpublished(cfg: Config, s: State, m: State, id: nat, path: string, adrift: set<nat>)
    requires Keyed(s.nodes) && Recorded(s, adrift) && Refreshed(cfg, s, m) && id in s.nodes && path !in s.nodes[id].attrs
    ensures At(m.retained, Attr(id, path)) == At(s.retained, Attr(id, path))
  {
    NumericStands(cfg, s, m, id, Attr(id, path), adrift);
  }

  /** A refresh leaves a numeric topic alone that its node does not publish. */
  lemma NumericStands(cfg: Config, s: State, m: State, id: nat, t: Topic, adrift: set<nat>)
    requires Keyed(s.nodes) && Recorded(s, adrift) && Refreshed(cfg, s, m) && id in s.nodes
    requires Owns(s.names, id, t) && !t.Alias? && !Publishes(cfg, m.names, s.nodes[id], t)
    ensures At(m.retained, t) == At(s.retained, t)
  {
    NumericPrivate(s, id, t, adrift);
    if NameAt(s.names, id) == NameAt(m.names, id) {
      RefreshKeeps(cfg, s, m, id, t);
    } else {
      RefreshLeaves(cfg, s, m, id, t);
    }
  }

  lemma NotDescribed(cfg: Config, s: State, id: nat, path: string)
    requires Keyed(s.nodes) && (id in s.nodes ==> path !in s.nodes[id].attrs)
    ensures !Described(cfg, s, Attr(id, path))
  {
  }

  /** A node report that drops an attribute leaves its topic behind: retained, and no longer
      described by the cache. */
  lemma DroppedAttributeLingers(cfg: Config, s: State, n: Node, s': State, path: string, adrift: set<nat>)
    requires Keyed(s.nodes) && Recorded(s, adrift) && Attr(n.id, path) in s.retained && path !in n.attrs
    requires Handled(cfg, s, NodeUpserted(n), s')
    ensures Attr(n.id, path) in s'.retained && !Described(cfg, s', Attr(n.id, path))
  {
    var s1, m := UpsertMiddle(cfg, s, n, s');
    LingersVia(cfg, s, n, s1, m, s', path, adrift);
  }

  lemma LingersVia(cfg: Config, s: State, n: Node, s1: State, m: State, s': State, path: string, adrift: set<nat>)
    requires Keyed(s.nodes) && Recorded(s, adrift) && Attr(n.id, path) in s.retained && path !in n.attrs
    requires s1 == s.(nodes := s.nodes[n.id := n]) && Refreshed(cfg, s1, m) && NodePublished(cfg, m, n, s')
    ensures Attr(n.id, path) in s'.retained && !Described(cfg, s', Attr(n.id, path))
  {
    RelabelNodes(cfg, s, s1.nodes, NODE_LABEL, m);
    TrackingIgnoresNodes(s, s1.nodes, adrift);
    RefreshKeepsUnpublished(cfg, s1, m, n.id, path, adrift);
    UnlistedStands(cfg, m, n, s', path);
    assert At(s.retained, Attr(n.id, path)) == At(s1.retained, Attr(n.id, path));
    NotDescribed(cfg, s', n.id, path);
  }

  lemma UnlistedStands(cfg: Config, m: State, n: Node, s': State, path: string)
    requires NodePublished(cfg, m, n, s') && path !in n.attrs
    ensures At(s'.retained, Attr(n.id, path)) == At(m.retained, Attr(n.id, path)) && s'.nodes == m.nodes
  {
  }

  lemma TidyNothingStale(cfg: Config, s: State, ev: Event, s': State, adrift: set<nat>)
    requires Named(cfg, s) && Firm(s, adrift) && NothingStale(cfg, s) && Tidy(cfg, s, ev)
    requires Handled(cfg, s, ev, s') && Injective(s'.names)
    ensures NothingStale(cfg, s')
  {
    forall t | t in s'.retained ensures Described(cfg, s', t) {
      match ev
      case AttributeUpdated(id, path, v) => AttributeNothingStale(cfg, s, id, path, v, s', t, adrift);
      case NodeUpserted(n) => UpsertNothingStale(cfg, s, n, s', t, adrift);
      case NodeRemoved(id) => RemovalNothingStale(cfg, s, id, s', t, adrift);
      case Unrelated =>
    }
  }

  lemma StrayReportStale(cfg: Config, s: State, id: nat, path: string, v: Json, s': State, adrift: set<nat>)
    requires Named(cfg, s) && Recorded(s, adrift) && Handled(cfg, s, AttributeUpdated(id, path, v), s')
    requires !Tidy(cfg, s, AttributeUpdated(id, path, v))
    ensures !NothingStale(cfg, s')
  {
    var s1, m := AttributeMiddle(cfg, s, id, path, v, s');
    EventTracking(cfg, s, AttributeUpdated(id, path, v), s', adrift);
    PublishAttributeEffect(cfg, m, id, path, v, Attr(id, path));
    assert At(s'.retained, Attr(id, path)).Some?;
    NotDescribed(cfg, s', id, path);
  }

  lemma DroppedStale(cfg: Config, s: State, n: Node, s': State, up: bool, adrift: set<nat>)
    requires Named(cfg, s) && Recorded(s, adrift) && Handled(cfg, s, NodeUpserted(n), s')
    requires !Tidy(cfg, s, NodeUpserted(n)) && NodeAgrees(cfg, s, n.id, up)
    ensures !NothingStale(cfg, s')
  {
    var path :| path in Mirrored(cfg, s.nodes[n.id]) && path !in Mirrored(cfg, n);
    var t := Attr(n.id, path);
    assert Publishes(cfg, s.names, s.nodes[n.id], t);
    assert Shows(cfg, s.names, View(s.nodes[n.id], up), t, At(s.retained, t));
    DroppedAttributeLingers(cfg, s, n, s', path, adrift);
  }

  lemma RemovedStale(cfg: Config, s: State, id: nat, s': State, adrift: set<nat>)
    requires Named(cfg, s) && Recorded(s, adrift) && Handled(cfg, s, NodeRemoved(id), s') && !Tidy(cfg, s, NodeRemoved(id))
    ensures !NothingStale(cfg, s')
  {
    var t := Availability(id);
    RemovalComplete(cfg, s, id, s', t, adrift);
    EventTracking(cfg, s, NodeRemoved(id), s', adrift);
    assert !Described(cfg, s', t);
  }

  /** An event leaves nothing stale behind exactly when it is tidy, simultaneous renames included. A
      node whose topics a requested removal has cleared has nothing to leave. */
  lemma NothingStaleIffTidy(cfg: Config, s: State, ev: Event, s': State, skip: set<nat>, up: bool, adrift: set<nat>)
    requires Named(cfg, s) && Firm(s, adrift) && NothingStale(cfg, s) && Agree(cfg, s, skip, up)
    requires Handled(cfg, s, ev, s') && Injective(s'.names) && (ev.NodeUpserted? ==> ev.n.id !in skip)
    ensures NothingStale(cfg, s') <==> Tidy(cfg, s, ev)
  {
    if Tidy(cfg, s, ev) {
      TidyNothingStale(cfg, s, ev, s', adrift);
    } else {
      match ev
      case AttributeUpdated(id, path, v) => StrayReportStale(cfg, s, id, path, v, s', adrift);
      case NodeUpserted(n) => DroppedStale(cfg, s, n, s', up, adrift);
      case NodeRemoved(id) => RemovedStale(cfg, s, id, s', adrift);
    }
  }

  /** Agreement and nothing stale together fix the whole store: a topic is retained exactly when a
      cached node publishes it, the name topic of an unnamed node excepted. */
  lemma ExactTree(cfg: Config, s: State, t: Topic, skip: set<nat>, up: bool)
    requires Named(cfg, s) && Agree(cfg, s, skip, up) && NothingStale(cfg, s)
    requires NameTopicsRight(s)
    requires forall id :: id in skip ==> !Owns(s.names, id, t)
    ensures t in s.retained <==> Described(cfg, s, t) && (t.NameTopic? ==> t.id in s.names)
  {
    NamesNonEmpty(cfg.fold, s.nodes);
    if Described(cfg, s, t) {
      var id :| id in s.nodes && Publishes(cfg, s.names, s.nodes[id], t);
      PublishesOwns(cfg, s.names, s.nodes[id], t);
      assert Shows(cfg, s.names, View(s.nodes[id], up), t, At(s.retained, t));
      assert t.Alias? ==> AliasedValue(cfg, s.names, View(s.nodes[id], up), t.path, At(s.retained, t));
    }
  }

  lemma NamesNonEmpty(f: Folding, nodes: Cache)
    ensures forall id :: id in NamesOf(f, nodes) ==> NamesOf(f, nodes)[id] != ""
  {
  }

  lemma {:induction false} UnpublishedUntouched(cfg: Config, s: State, list: seq<Node>, s': State, t: Topic)
    requires NodesPublished(cfg, s, list, s')
    requires forall k :: 0 <= k < |list| ==> !Publishes(cfg, s.names, list[k], t)
    ensures SameView(s, s') && At(s'.retained, t) == At(s.retained, t)
    decreases |list|
  {
    if list == [] {
    } else {
      var m := BeforeLast(cfg, s, list, s');
      forall k | 0 <= k < |Front(list)| ensures !Publishes(cfg, s.names, Front(list)[k], t) {
        assert Front(list)[k] == list[k];
      }
      UnpublishedUntouched(cfg, s, Front(list), m, t);
      assert Last(list) == list[|list| - 1];
    }
  }

  /** A listed node publishes the topic. */
  ghost predicate ListPublishes(cfg: Config, list: seq<Node>, t: Topic) {
    exists k :: 0 <= k < |list| && Publishes(cfg, ListNames(cfg.fold, list), list[k], t)
  }

  /** A new session leaves nothing stale exactly when its node list publishes every topic that was
      retained before it. */
  lemma StartStaleIff(cfg: Config, s: State, list: seq<Node>, s': State)
    requires Distinct(list) && Started(cfg, s, list, s')
    ensures NothingStale(cfg, s') <==> forall t :: t in s.retained ==> ListPublishes(cfg, list, t)
  {
    var s0 := s.(nodes := Listed(list), names := ListNames(cfg.fold, list), index := s'.index);
    RecordsGrow(cfg, s0, list, s', 0);
    forall t ensures ListPublishes(cfg, list, t) <==> Described(cfg, s', t) {
      ListsDescribes(cfg, list, s', t);
    }
    forall t | !ListPublishes(cfg, list, t) ensures At(s'.retained, t) == At(s.retained, t) {
      UnpublishedUntouched(cfg, s0, list, s', t);
    }
  }

  lemma ListsDescribes(cfg: Config, list: seq<Node>, s': State, t: Topic)
    requires Distinct(list) && s'.nodes == Listed(list) && s'.names == ListNames(cfg.fold, list)
    ensures ListPublishes(cfg, list, t) <==> Described(cfg, s', t)
  {
    if ListPublishes(cfg, list, t) {
      var k :| 0 <= k < |list| && Publishes(cfg, s'.names, list[k], t);
      ListedAt(list, k);
    }
    if Described(cfg, s', t) {
      var id :| id in s'.nodes && Publishes(cfg, s'.names, s'.nodes[id], t);
      ListedKeys(list, id);
    }
  }

  lemma {:induction false} ListedAt(list: seq<Node>, k: nat)
    requires Distinct(list) && k < |list|
    ensures list[k].id in Listed(list) && Listed(list)[list[k].id] == list[k]
  {
    if k == |list| - 1 {
    } else {
      assert list[..|list| - 1][k] == list[k];
      ListedAt(list[..|list| - 1], k);
    }
  }

  // ---------- name topics ----------

  /** A retained name topic holds the current name of its node. */
  ghost predicate NameTopicsRight(s: State) {
    forall id :: NameTopic(id) in s.retained ==> id in s.names && s.retained[NameTopic(id)] == Word(s.names[id])
  }

  lemma RefreshRightsNames(cfg: Config, s: State, m: State, adrift: set<nat>)
    requires Keyed(s.nodes) && Recorded(s, adrift) && Refreshed(cfg, s, m) && NameTopicsRight(s)
    requires forall id :: NameTopic(id) in s.retained ==> id in s.nodes
    ensures NameTopicsRight(m)
  {
    forall id | NameTopic(id) in m.retained ensures id in m.names && m.retained[NameTopic(id)] == Word(m.names[id]) {
      RefreshRightsName(cfg, s, m, id, adrift);
    }
  }

  lemma RefreshRightsName(cfg: Config, s: State, m: State, id: nat, adrift: set<nat>)
    requires Keyed(s.nodes) && Recorded(s, adrift) && Refreshed(cfg, s, m) && NameTopicsRight(s)
    requires NameTopic(id) in s.retained ==> id in s.nodes
    ensures NameTopic(id) in m.retained ==> id in m.names && m.retained[NameTopic(id)] == Word(m.names[id])
  {
    var t := NameTopic(id);
    if NameAt(s.names, id) == NameAt(m.names, id) {
      NumericPrivate(s, id, t, adrift);
      RefreshKeeps(cfg, s, m, id, t);
      assert At(m.retained, t) == At(s.retained, t);
    } else if id in s.nodes {
      RefreshExpects(cfg, s, m, id, t);
      assert Expects(cfg, m.names, s.nodes[id], t, At(m.retained, t));
    } else {
      UncachedUntouched(cfg, s, m, id, t);
      assert At(m.retained, t) == At(s.retained, t);
    }
  }

  lemma NamesCached(cfg: Config, s: State)
    requires Named(cfg, s) && NameTopicsRight(s)
    ensures forall id :: NameTopic(id) in s.retained ==> id in s.nodes
  {
  }

  /** After every event the retained name topics are right, clashes or not. */
  lemma EventRightsNames(cfg: Config, s: State, ev: Event, s': State, adrift: set<nat>)
    requires Named(cfg, s) && Recorded(s, adrift) && Handled(cfg, s, ev, s') && NameTopicsRight(s)
    ensures NameTopicsRight(s')
  {
    match ev
    case AttributeUpdated(id, path, v) =>
      var s1, m := AttributeMiddle(cfg, s, id, path, v, s');
      ReportRightsNames(cfg, s, s1, id, path, v, m, adrift);
    case NodeUpserted(n) =>
      var s1, m := UpsertMiddle(cfg, s, n, s');
      UpsertRightsNames(cfg, s, n, s1, m, s', adrift);
    case NodeRemoved(id) => RemovalRightsNames(cfg, s, id, s', adrift);
    case Unrelated =>
  }

  lemma RecachedRightsNames(cfg: Config, s: State, nodes: Cache, m: State, adrift: set<nat>)
    requires Named(cfg, s) && Recorded(s, adrift) && NameTopicsRight(s) && Keyed(nodes) && s.nodes.Keys <= nodes.Keys
    requires Refreshed(cfg, s.(nodes := nodes), m)
    ensures NameTopicsRight(m)
  {
    NamesCached(cfg, s);
    TrackingIgnoresNodes(s, nodes, adrift);
    RefreshRightsNames(cfg, s.(nodes := nodes), m, adrift);
  }

  lemma UpsertRightsNames(cfg: Config, s: State, n: Node, s1: State, m: State, s': State, adrift: set<nat>)
    requires Named(cfg, s) && Recorded(s, adrift) && NameTopicsRight(s) && s1 == s.(nodes := s.nodes[n.id := n])
    requires Refreshed(cfg, s1, m) && NodePublished(cfg, m, n, s')
    ensures NameTopicsRight(s')
  {
    RecachedRightsNames(cfg, s, s1.nodes, m, adrift);
    PublishedRightsNames(cfg, m, n, s');
  }

  lemma RemovalRightsNames(cfg: Config, s: State, id: nat, s': State, adrift: set<nat>)
    requires Named(cfg, s) && Recorded(s, adrift) && NameTopicsRight(s) && Handled(cfg, s, NodeRemoved(id), s')
    ensures NameTopicsRight(s')
  {
    NamesCached(cfg, s);
    var s1 := RemovedTracking(s, id, adrift);
    ClearedRightsNames(s, id, adrift);
    RefreshRightsNames(cfg, s1, s', adrift);
  }

  lemma ReportRightsNames(cfg: Config, s: State, s1: State, id: nat, path: string, v: Json, m: State, adrift: set<nat>)
    requires Named(cfg, s) && Recorded(s, adrift) && NameTopicsRight(s) && s1 == s.(nodes := CacheAttribute(s.nodes, id, path, v))
    requires Relabelled(cfg, s1, path, m)
    ensures NameTopicsRight(PublishAttribute(cfg, m, id, path, v))
  {
    if path == NODE_LABEL {
      RecachedRightsNames(cfg, s, s1.nodes, m, adrift);
    }
    var s' := PublishAttribute(cfg, m, id, path, v);
    forall j ensures At(s'.retained, NameTopic(j)) == At(m.retained, NameTopic(j)) && s'.names == m.names {
      PublishAttributeEffect(cfg, m, id, path, v, NameTopic(j));
    }
    SameNameTopics(m, s');
  }

  lemma SameNameTopics(m: State, s': State)
    requires NameTopicsRight(m) && s'.names == m.names
    requires forall j :: At(s'.retained, NameTopic(j)) == At(m.retained, NameTopic(j))
    ensures NameTopicsRight(s')
  {
    forall j | NameTopic(j) in s'.retained ensures j in s'.names && s'.retained[NameTopic(j)] == Word(s'.names[j]) {
      assert At(s'.retained, NameTopic(j)) == At(m.retained, NameTopic(j));
    }
  }

  lemma PublishedRightsNames(cfg: Config, m: State, n: Node, s': State)
    requires NodePublished(cfg, m, n, s') && NameTopicsRight(m)
    ensures NameTopicsRight(s')
  {
    forall j | NameTopic(j) in s'.retained ensures j in s'.names && s'.retained[NameTopic(j)] == Word(s'.names[j]) {
      if j == n.id {
        assert Expects(cfg, m.names, n, NameTopic(j), At(s'.retained, NameTopic(j)));
      } else {
        assert At(s'.retained, NameTopic(j)) == At(m.retained, NameTopic(j));
      }
    }
  }

  lemma ClearedRightsNames(s: State, id: nat, adrift: set<nat>)
    requires Recorded(s, adrift) && NameTopicsRight(s)
    ensures NameTopicsRight(ClearNode(s, id)) && NameTopic(id) !in ClearNode(s, id).retained
  {
    NumericRecord(s, id, NameTopic(id), adrift);
  }

  /** A new session has right name topics exactly when its node list covers every node whose name
      topic is retained. */
  lemma StartRightsNamesIff(cfg: Config, s: State, list: seq<Node>, s': State)
    requires Distinct(list) && Started(cfg, s, list, s')
    ensures NameTopicsRight(s') <==> forall id :: NameTopic(id) in s.retained ==> id in Ids(list)
  {
    forall id ensures StartedAs(s, list, s', id) {
      StartedRight(cfg, s, list, s', id);
    }
    if NameTopicsRight(s') {
      forall id | NameTopic(id) in s.retained ensures id in Ids(list) {
        assert StartedAs(s, list, s', id);
      }
    } else {
      var id :| NameTopic(id) in s'.retained && !(id in s'.names && s'.retained[NameTopic(id)] == Word(s'.names[id]));
      assert StartedAs(s, list, s', id);
    }
  }

  ghost predicate StartedAs(s: State, list: seq<Node>, s': State, id: nat) {
    if id in Ids(list) then NameTopic(id) in s'.retained ==> id in s'.names && s'.retained[NameTopic(id)] == Word(s'.names[id])
    else At(s'.retained, NameTopic(id)) == At(s.retained, NameTopic(id)) && id !in s'.names
  }

  lemma StartedRight(cfg: Config, s: State, list: seq<Node>, s': State, id: nat)
    requires Distinct(list) && Started(cfg, s, list, s')
    ensures StartedAs(s, list, s', id)
  {
    var s0 := s.(nodes := Listed(list), names := ListNames(cfg.fold, list), index := s'.index);
    StartFrame(cfg, s, list, s');
    InListIds(list, id);
    ListedKeys(list, id);
    StartedName(cfg, s0, list, s', id);
  }

  lemma StartedName(cfg: Config, s0: State, list: seq<Node>, s': State, id: nat)
    requires NodesPublished(cfg, s0, list, s') && Distinct(list)
    ensures SameView(s0, s')
    ensures
      if InList(list, id) then NameTopic(id) in s'.retained ==> id in s'.names && s'.retained[NameTopic(id)] == Word(s'.names[id])
      else At(s'.retained, NameTopic(id)) == At(s0.retained, NameTopic(id))
  {
    var t := NameTopic(id);
    if InList(list, id) {
      var k :| 0 <= k < |list| && list[k].id == id;
      ListedPublished(cfg, s0, list, s', k, t);
      assert Expects(cfg, s0.names, list[k], t, At(s'.retained, t));
    } else {
      OthersUntouched(cfg, s0, list, s', id, t);
    }
  }

  // ---------- sessions ----------

  /** Each node list covers the nodes whose name topics are retained. */
  ghost predicate Covered(ys: seq<System>, steps: seq<Step>) {
    |ys| == |steps| + 1 &&
    forall i | 0 <= i < |steps| && steps[i].Start? :: forall id :: NameTopic(id) in ys[i].s.retained ==> id in Ids(steps[i].list)
  }

  /** Then the retained name topics are right after every step of every run, clashes or not. */
  lemma {:induction false} RunRightsNames(cfg: Config, ys: seq<System>, steps: seq<Step>, k: nat)
    requires IsRun(cfg, ys, steps) && Covered(ys, steps) && k < |ys|
    ensures NameTopicsRight(ys[k].s)
  {
    if k == 0 {
    } else {
      RunRightsNames(cfg, ys, steps, k - 1);
      NamesRightOn(cfg, ys, steps, k);
    }
  }

  lemma NamesRightOn(cfg: Config, ys: seq<System>, steps: seq<Step>, k: nat)
    requires IsRun(cfg, ys, steps) && Covered(ys, steps) && 0 < k < |ys| && NameTopicsRight(ys[k - 1].s)
    ensures NameTopicsRight(ys[k].s)
  {
    RunKeeps(cfg, ys, steps, k - 1);
    RunStep(cfg, ys, steps, k);
    StepRightsNames(cfg, ys[k - 1], steps[k - 1], ys[k]);
  }

  lemma StepRightsNames(cfg: Config, y: System, step: Step, y': System)
    requires Inv(cfg, y) && Next(cfg, y, step, y') && Fair(step) && NameTopicsRight(y.s)
    requires step.Start? ==> forall id :: NameTopic(id) in y.s.retained ==> id in Ids(step.list)
    ensures NameTopicsRight(y'.s)
  {
    match step
    case Start(list) => StartRightsNamesIff(cfg, y.s, list, y'.s);
    case Handle(ev) => EventRightsNames(cfg, y.s, ev, y'.s, y.adrift);
    case Cleared(id) => ClearedRightsNames(y.s, id, y.adrift);
    case Lost => OfflineRightsNames(y.s, y'.s);
  }

  lemma OfflineRightsNames(s: State, s': State)
    requires MarkedOffline(s, s') && NameTopicsRight(s)
    ensures NameTopicsRight(s')
  {
    assert forall j :: At(s'.retained, NameTopic(j)) == At(s.retained, NameTopic(j));
    SameNameTopics(s, s');
  }

  /** One session of a run, from its node list at step `b` up to step `e`: the list publishes whatever
      was retained, and the events are tidy. Requested removals may clear topics meanwhile. */
  ghost predicate IsSession(cfg: Config, ys: seq<System>, steps: seq<Step>, b: nat, e: nat) {
    && IsRun(cfg, ys, steps) && Unclashed(cfg, ys) && Kept(cfg, ys, steps) && b < e <= |steps|
    && steps[b].Start? && (forall t :: t in ys[b].s.retained ==> ListPublishes(cfg, steps[b].list, t))
    && (forall i :: b < i < e ==> TidyStep(cfg, ys[i], steps[i]))
  }

  predicate TidyStep(cfg: Config, y: System, step: Step) {
    step.Cleared? || (step.Handle? && Tidy(cfg, y.s, step.ev))
  }

  lemma {:induction false} SessionNothingStale(cfg: Config, ys: seq<System>, steps: seq<Step>, b: nat, e: nat, k: nat)
    requires IsSession(cfg, ys, steps, b, e) && b < k <= e
    ensures NothingStale(cfg, ys[k].s) && NameTopicsRight(ys[k].s)
  {
    if k == b + 1 {
      SessionFirst(cfg, ys, steps, b, e);
    } else {
      SessionNothingStale(cfg, ys, steps, b, e, k - 1);
      SessionNext(cfg, ys, steps, b, e, k);
    }
  }

  lemma SessionFirst(cfg: Config, ys: seq<System>, steps: seq<Step>, b: nat, e: nat)
    requires IsSession(cfg, ys, steps, b, e)
    ensures NothingStale(cfg, ys[b + 1].s) && NameTopicsRight(ys[b + 1].s)
  {
    RunStep(cfg, ys, steps, b + 1);
    SessionStarts(cfg, ys[b], steps[b].list, ys[b + 1]);
  }

  lemma SessionNext(cfg: Config, ys: seq<System>, steps: seq<Step>, b: nat, e: nat, k: nat)
    requires IsSession(cfg, ys, steps, b, e) && b + 1 < k <= e
    requires NothingStale(cfg, ys[k - 1].s) && NameTopicsRight(ys[k - 1].s)
    ensures NothingStale(cfg, ys[k].s) && NameTopicsRight(ys[k].s)
  {
    assert TidyStep(cfg, ys[k - 1], steps[k - 1]);
    NextNothingStale(cfg, ys, steps, k);
    NextNamesRight(cfg, ys, steps, k);
  }

  lemma RunFirm(cfg: Config, ys: seq<System>, steps: seq<Step>, k: nat)
    requires IsRun(cfg, ys, steps) && Unclashed(cfg, ys) && Kept(cfg, ys, steps) && k < |ys|
    ensures Named(cfg, ys[k].s) && Firm(ys[k].s, ys[k].adrift)
  {
    RunInjective(cfg, ys, steps, k);
    RunAliased(cfg, ys, steps, k);
  }

  lemma NextNothingStale(cfg: Config, ys: seq<System>, steps: seq<Step>, k: nat)
    requires IsRun(cfg, ys, steps) && Unclashed(cfg, ys) && Kept(cfg, ys, steps) && 0 < k < |ys|
    requires TidyStep(cfg, ys[k - 1], steps[k - 1]) && NothingStale(cfg, ys[k - 1].s)
    ensures NothingStale(cfg, ys[k].s)
  {
    RunFirm(cfg, ys, steps, k - 1);
    RunFirm(cfg, ys, steps, k);
    RunStep(cfg, ys, steps, k);
    var y, y' := ys[k - 1], ys[k];
    match steps[k - 1]
    case Handle(ev) => TidyNothingStale(cfg, y.s, ev, y'.s, y.adrift);
    case Cleared(id) => ClearedNothingStale(cfg, y.s, id);
  }

  lemma NextNamesRight(cfg: Config, ys: seq<System>, steps: seq<Step>, k: nat)
    requires IsRun(cfg, ys, steps) && 0 < k < |ys| && !steps[k - 1].Start? && NameTopicsRight(ys[k - 1].s)
    ensures NameTopicsRight(ys[k].s)
  {
    RunKeeps(cfg, ys, steps, k - 1);
    RunStep(cfg, ys, steps, k);
    StepRightsNames(cfg, ys[k - 1], steps[k - 1], ys[k]);
  }

  lemma SessionStarts(cfg: Config, y: System, list: seq<Node>, y': System)
    requires Next(cfg, y, Start(list), y') && Distinct(list) && forall t :: t in y.s.retained ==> ListPublishes(cfg, list, t)
    ensures NothingStale(cfg, y'.s) && NameTopicsRight(y'.s)
  {
    StartStaleIff(cfg, y.s, list, y'.s);
    ListedNames(cfg, y.s, list);
    StartRightsNamesIff(cfg, y.s, list, y'.s);
  }

  lemma ListedNames(cfg: Config, s: State, list: seq<Node>)
    requires forall t :: t in s.retained ==> ListPublishes(cfg, list, t)
    ensures forall id :: NameTopic(id) in s.retained ==> id in Ids(list)
  {
    forall id | NameTopic(id) in s.retained ensures id in Ids(list) {
      var k :| 0 <= k < |list| && Publishes(cfg, ListNames(cfg.fold, list), list[k], NameTopic(id));
      assert list[k].id == id;
      InListIds(list, id);
    }
  }

  lemma ClearedNothingStale(cfg: Config, s: State, id: nat)
    requires NothingStale(cfg, s)
    ensures NothingStale(cfg, ClearNode(s, id))
  {
    forall t | t in ClearNode(s, id).retained ensures Described(cfg, ClearNode(s, id), t) {
      var j :| j in s.nodes && Publishes(cfg, s.names, s.nodes[j], t);
    }
  }

  /** Throughout such a session the retained tree is exactly the one the cache describes, the topics of
      nodes being removed excepted. */
  lemma SessionExact(cfg: Config, ys: seq<System>, steps: seq<Step>, b: nat, e: nat, k: nat, t: Topic)
    requires IsSession(cfg, ys, steps, b, e) && b < k <= e
    requires forall id :: id in ys[k].removing ==> !Owns(ys[k].s.names, id, t)
    ensures t in ys[k].s.retained <==> Described(cfg, ys[k].s, t) && (t.NameTopic? ==> t.id in ys[k].s.names)
  {
    SessionNothingStale(cfg, ys, steps, b, e, k);
    KeptSeparated(cfg, ys, steps);
    RunSafe(cfg, ys, steps, k);
    ExactTree(cfg, ys[k].s, t, ys[k].removing, ys[k].up);
  }

  /** Every attribute of the node that has an alias is reported under a canonical path. */
  ghost predicate AliasedCanonically(cfg: Config, s: State, id: nat)
    requires id in s.nodes
  {
    forall q :: q in s.nodes[id].attrs && AliasOf(cfg, s.names, id, q).Some? ==> CanonicalPath(q)
  }

  /** With a well-formed model and canonical paths every alias holds the very value of its attribute. */
  lemma AliasExact(cfg: Config, file: ModelFile, s: State, id: nat, path: string, up: bool)
    requires WellFormed(cfg.fold, file) && Loaded(cfg.fold, file, cfg.model)
    requires Keyed(s.nodes) && id in s.nodes && path in s.nodes[id].attrs && NodeAgrees(cfg, s, id, up) && cfg.retain
    requires AliasedCanonically(cfg, s, id)
    requires AliasOf(cfg, s.names, id, path).Some?
    ensures At(s.retained, Alias(s.names[id], AliasOf(cfg, s.names, id, path).value)) == Some(Value(NonNil(s.nodes[id].attrs[path])))
  {
    var a := AliasOf(cfg, s.names, id, path).value;
    var q := AliasHolder(cfg, s, id, path, a, up);
    AliasInjective(cfg.fold, file, cfg.model, path, q);
  }

  /** An alias of a node in agreement holds the value of an attribute that has this alias. */
  lemma AliasHolder(cfg: Config, s: State, id: nat, path: string, alias: string, up: bool) returns (q: string)
    requires Keyed(s.nodes) && id in s.nodes && path in s.nodes[id].attrs && NodeAgrees(cfg, s, id, up) && cfg.retain
    requires AliasOf(cfg, s.names, id, path) == Some(alias)
    ensures id in s.names && q in s.nodes[id].attrs && AliasOf(cfg, s.names, id, q) == Some(alias)
    ensures At(s.retained, Alias(s.names[id], alias)) == Some(Value(NonNil(s.nodes[id].attrs[q])))
  {
    var t := Alias(s.names[id], alias);
    assert Publishes(cfg, s.names, s.nodes[id], t);
    assert AliasedValue(cfg, s.names, View(s.nodes[id], up), alias, At(s.retained, t));
    q :| q in s.nodes[id].attrs && AliasOf(cfg, s.names, id, q) == Some(alias)
      && At(s.retained, t) == Some(Value(NonNil(s.nodes[id].attrs[q])));
  }

  /** Two nodes with one name cannot both agree with the cache: an attribute they share has one alias,
      and the alias holds one value. */
  lemma ClashDisagrees(cfg: Config, file: ModelFile, s: State, i: nat, j: nat, path: string, up: bool)
    requires WellFormed(cfg.fold, file) && Loaded(cfg.fold, file, cfg.model) && Keyed(s.nodes) && cfg.retain
    requires i in s.nodes && j in s.nodes && i in s.names && j in s.names && s.names[i] == s.names[j]
    requires path in s.nodes[i].attrs && path in s.nodes[j].attrs
    requires NonNil(s.nodes[i].attrs[path]) != NonNil(s.nodes[j].attrs[path])
    requires AliasOf(cfg, s.names, i, path).Some?
    requires AliasedCanonically(cfg, s, i)
    requires AliasedCanonically(cfg, s, j)
    ensures !(NodeAgrees(cfg, s, i, up) && NodeAgrees(cfg, s, j, up))
  {
    assert AliasOf(cfg, s.names, i, path) == AliasOf(cfg, s.names, j, path);
    if NodeAgrees(cfg, s, i, up) && NodeAgrees(cfg, s, j, up) {
      AliasExact(cfg, file, s, i, path, up);
      AliasExact(cfg, file, s, j, path, up);
    }
  }
}
