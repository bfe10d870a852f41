/** One event: what it keeps of records and agreement, what a removal leaves, and how many names it
    changes. */
module Runs {
  import opened Text
  import opened Fabric
  import opened Naming
  import opened NameIndex
  import opened DataModel
  import opened Topics
  import opened Retained
  import opened Agreement

  function NextNodes(nodes: Cache, ev: Event): Cache {
    match ev
    case AttributeUpdated(id, path, v) => CacheAttribute(nodes, id, path, v)
    case NodeUpserted(n) => nodes[n.id := n]
    case NodeRemoved(id) => nodes - {id}
    case Unrelated => nodes
  }

  ghost predicate Named(cfg: Config, s: State) {
    Keyed(s.nodes) && s.names == NamesOf(cfg.fold, s.nodes) && IndexOf(cfg.fold, s.names, s.index)
  }

  lemma SameGroup(f: Folding, a: Cache, b: Cache, key: string)
    requires a.Keys == b.Keys && forall id :: id in a ==> BaseName(a[id]) == BaseName(b[id])
    ensures Group(f, a, key) == Group(f, b, key)
  {
    forall id ensures id in Group(f, a, key) <==> id in Group(f, b, key) {
    }
  }

  lemma SameNameOf(f: Folding, a: Cache, b: Cache, id: nat)
    requires a.Keys == b.Keys && forall id :: id in a ==> BaseName(a[id]) == BaseName(b[id])
    ensures NameAt(NamesOf(f, a), id) == NameAt(NamesOf(f, b), id)
  {
    if id in a {
      SameGroup(f, a, b, Fold(f, BaseName(a[id])));
    }
  }

  lemma SameBases(f: Folding, a: Cache, b: Cache)
    requires a.Keys == b.Keys && forall id :: id in a ==> BaseName(a[id]) == BaseName(b[id])
    ensures NamesOf(f, a) == NamesOf(f, b)
  {
    forall id ensures NameAt(NamesOf(f, a), id) == NameAt(NamesOf(f, b), id) {
      SameNameOf(f, a, b, id);
    }
    SameEverywhere(NamesOf(f, a), NamesOf(f, b));
  }

  lemma OtherAttribute(n: Node, path: string, v: Json)
    requires path != NODE_LABEL
    ensures BaseName(WithAttr(n, path, v)) == BaseName(n)
  {
    assert LabelOf(WithAttr(n, path, v)) == LabelOf(n);
  }

  /** Only the label attribute can change a name. */
  lemma LabelUntouched(f: Folding, nodes: Cache, id: nat, path: string, v: Json)
    requires path != NODE_LABEL
    ensures NamesOf(f, CacheAttribute(nodes, id, path, v)) == NamesOf(f, nodes)
  {
    if id in nodes {
      OtherAttribute(nodes[id], path, v);
    }
    SameBases(f, CacheAttribute(nodes, id, path, v), nodes);
  }

  // ---------- one event: records ----------

  lemma ClearNodeTracking(s: State, id: nat, adrift: set<nat>)
    requires Recorded(s, adrift)
    ensures Recorded(ClearNode(s, id), adrift) && (Aliased(s) ==> Aliased(ClearNode(s, id)))
    ensures Unrecorded(ClearNode(s, id)) <= Unrecorded(s)
  {
    var r := ClearNode(s, id);
    forall t | t in r.retained ensures IsTracked(r, t) || IsAdrift(r, adrift, t) {
      if IsTracked(s, t) {
        var j :| j in s.topics && t in s.topics[j];
        assert j in r.topics && t in r.topics[j];
      }
    }
  }

  /** A refresh gives a record to every renamed node that is still cached, and drops none. */
  lemma RefreshedKeys(cfg: Config, s: State, s': State, id: nat)
    requires Keyed(s.nodes) && Refreshed(cfg, s, s')
    ensures id in s'.topics <==> id in s.topics || (id in s.nodes && NameAt(s.names, id) != NameAt(s'.names, id))
  {
    var ids := RefreshIds(cfg, s, s');
    var s0 := Renamed(s, s');
    ClearAllEffect(s0, ids);
    PublishedKeys(cfg, ClearAll(s0, ids), Picked(s.nodes, ids), s');
    InListIds(Picked(s.nodes, ids), id);
    PickedIn(s.nodes, ids, id);
    assert id in ids <==> id in Changed(s.names, s'.names);
  }

  lemma AttributeTracking(cfg: Config, s: State, id: nat, path: string, v: Json, s': State, adrift: set<nat>)
    requires Named(cfg, s) && Recorded(s, adrift) && Handled(cfg, s, AttributeUpdated(id, path, v), s')
    ensures Named(cfg, s') && Recorded(s', adrift) && (Aliased(s) ==> Aliased(s')) && s'.nodes == CacheAttribute(s.nodes, id, path, v)
    ensures Unrecorded(s') <= Unrecorded(s) + {id} && s.topics.Keys <= s'.topics.Keys
  {
    var s1, m := AttributeMiddle(cfg, s, id, path, v, s');
    AttributeTracksVia(cfg, s, s1, id, path, v, m, adrift);
  }

  /** The state between refreshing the names and publishing the attribute. */
  lemma AttributeMiddle(cfg: Config, s: State, id: nat, path: string, v: Json, s': State) returns (s1: State, m: State)
    requires Handled(cfg, s, AttributeUpdated(id, path, v), s')
    ensures s1 == s.(nodes := CacheAttribute(s.nodes, id, path, v))
    ensures Relabelled(cfg, s1, path, m) && s' == PublishAttribute(cfg, m, id, path, v)
  {
    s1 := s.(nodes := CacheAttribute(s.nodes, id, path, v));
    m :| Relabelled(cfg, s1, path, m) && s' == PublishAttribute(cfg, m, id, path, v);
  }

  /** The state between refreshing the names and publishing the node. */
  lemma UpsertMiddle(cfg: Config, s: State, n: Node, s': State) returns (s1: State, m: State)
    requires Handled(cfg, s, NodeUpserted(n), s')
    ensures s1 == s.(nodes := s.nodes[n.id := n])
    ensures Refreshed(cfg, s1, m) && NodePublished(cfg, m, n, s')
  {
    s1 := s.(nodes := s.nodes[n.id := n]);
    m :| Refreshed(cfg, s1, m) && NodePublished(cfg, m, n, s');
  }

  lemma AttributeTracksVia(cfg: Config, s: State, s1: State, id: nat, path: string, v: Json, m: State, adrift: set<nat>)
    requires Named(cfg, s) && Recorded(s, adrift) && s1 == s.(nodes := CacheAttribute(s.nodes, id, path, v))
    requires Relabelled(cfg, s1, path, m)
    ensures var s' := PublishAttribute(cfg, m, id, path, v);
      && Named(cfg, s') && Recorded(s', adrift) && (Aliased(s) ==> Aliased(s')) && s'.nodes == s1.nodes
      && Unrecorded(s') <= Unrecorded(s) + {id} && s.topics.Keys <= s'.topics.Keys
  {
    TrackingIgnoresNodes(s, s1.nodes, adrift);
    RelabelTracking(cfg, s, s1, id, path, v, m, adrift);
    ReportTracks(cfg, m, id, path, v, adrift);
  }

  lemma ReportTracks(cfg: Config, m: State, id: nat, path: string, v: Json, adrift: set<nat>)
    requires Named(cfg, m) && Recorded(m, adrift)
    ensures var s' := PublishAttribute(cfg, m, id, path, v);
      && Named(cfg, s') && Recorded(s', adrift) && (Aliased(m) ==> Aliased(s')) && s'.nodes == m.nodes
      && Unrecorded(s') <= Unrecorded(m) + {id} && m.topics.Keys <= s'.topics.Keys
  {
    PublishAttributeTracking(cfg, m, id, path, v, adrift);
    PublishAttributeEffect(cfg, m, id, path, v, Availability(id));
  }

  lemma RelabelTracking(cfg: Config, s: State, s1: State, id: nat, path: string, v: Json, m: State, adrift: set<nat>)
    requires Named(cfg, s) && Recorded(s1, adrift) && s1 == s.(nodes := CacheAttribute(s.nodes, id, path, v))
    requires Relabelled(cfg, s1, path, m)
    ensures Named(cfg, m) && Recorded(m, adrift) && (Aliased(s1) ==> Aliased(m)) && m.nodes == s1.nodes && s.topics.Keys <= m.topics.Keys
    ensures Unrecorded(m) <= Unrecorded(s)
  {
    if path == NODE_LABEL {
      RefreshTracking(cfg, s1, m, adrift);
      RefreshGrows(cfg, s1, m);
    } else {
      LabelUntouched(cfg.fold, s.nodes, id, path, v);
    }
  }

  lemma RefreshGrows(cfg: Config, s: State, m: State)
    requires Keyed(s.nodes) && Refreshed(cfg, s, m)
    ensures s.topics.Keys <= m.topics.Keys
  {
    forall id | id in s.topics ensures id in m.topics {
      RefreshedKeys(cfg, s, m, id);
    }
  }

  lemma RefreshNamed(cfg: Config, s: State, m: State, adrift: set<nat>)
    requires Keyed(s.nodes) && Recorded(s, adrift) && Refreshed(cfg, s, m)
    ensures Named(cfg, m) && Recorded(m, adrift) && (Aliased(s) ==> Aliased(m)) && m.nodes == s.nodes
    ensures Unrecorded(m) <= Unrecorded(s)
  {
    RefreshTracking(cfg, s, m, adrift);
  }

  lemma PublishedNamed(cfg: Config, m: State, n: Node, s': State)
    requires Named(cfg, m) && NodePublished(cfg, m, n, s')
    ensures Named(cfg, s') && s'.nodes == m.nodes
  {
  }

  lemma UpsertTracking(cfg: Config, s: State, n: Node, s': State, adrift: set<nat>)
    requires Keyed(s.nodes) && Recorded(s, adrift) && Handled(cfg, s, NodeUpserted(n), s')
    ensures Named(cfg, s') && Recorded(s', adrift - {n.id}) && (Aliased(s) ==> Aliased(s')) && s'.nodes == s.nodes[n.id := n]
    ensures Unrecorded(s') <= Unrecorded(s) && s.topics.Keys + {n.id} <= s'.topics.Keys
  {
    var s1, m := UpsertMiddle(cfg, s, n, s');
    UpsertTracksVia(cfg, s, n, s1, m, s', adrift);
  }

  lemma UpsertTracksVia(cfg: Config, s: State, n: Node, s1: State, m: State, s': State, adrift: set<nat>)
    requires Keyed(s.nodes) && Recorded(s, adrift) && s1 == s.(nodes := s.nodes[n.id := n])
    requires Refreshed(cfg, s1, m) && NodePublished(cfg, m, n, s')
    ensures Named(cfg, s') && Recorded(s', adrift - {n.id}) && (Aliased(s) ==> Aliased(s')) && s'.nodes == s1.nodes
    ensures Unrecorded(s') <= Unrecorded(s) && s.topics.Keys + {n.id} <= s'.topics.Keys
  {
    TrackingIgnoresNodes(s, s1.nodes, adrift);
    RefreshNamed(cfg, s1, m, adrift);
    RefreshGrows(cfg, s1, m);
    PublishedNamed(cfg, m, n, s');
    PublishedTracking(cfg, m, n, s', adrift);
  }

  /** The state in which the names are refreshed after a removal. */
  lemma RemovedTracking(s: State, id: nat, adrift: set<nat>) returns (s1: State)
    requires Keyed(s.nodes) && Recorded(s, adrift)
    ensures s1 == ClearNode(s, id).(nodes := s.nodes - {id})
    ensures Keyed(s1.nodes) && Recorded(s1, adrift) && (Aliased(s) ==> Aliased(s1)) && Unrecorded(s1) <= Unrecorded(s)
    ensures Separate(s) ==> Separate(s1)
  {
    s1 := ClearNode(s, id).(nodes := s.nodes - {id});
    ClearNodeTracking(s, id, adrift);
    TrackingIgnoresNodes(ClearNode(s, id), s1.nodes, adrift);
  }

  lemma RemovalTracking(cfg: Config, s: State, id: nat, s': State, adrift: set<nat>)
    requires Keyed(s.nodes) && Recorded(s, adrift) && Handled(cfg, s, NodeRemoved(id), s')
    ensures Named(cfg, s') && Recorded(s', adrift) && (Aliased(s) ==> Aliased(s')) && s'.nodes == s.nodes - {id}
    ensures Unrecorded(s') <= Unrecorded(s) && s.topics.Keys - {id} <= s'.topics.Keys
  {
    var s1 := RemovedTracking(s, id, adrift);
    RefreshNamed(cfg, s1, s', adrift);
    RefreshGrows(cfg, s1, s');
  }

  /** Whatever the labels are, clashes included, an event keeps every record under its owner's
      current name, and the names are those of the new cache. */
  lemma EventTracking(cfg: Config, s: State, ev: Event, s': State, adrift: set<nat>)
    requires Named(cfg, s) && Recorded(s, adrift) && Handled(cfg, s, ev, s')
    ensures Named(cfg, s') && s'.nodes == NextNodes(s.nodes, ev)
    ensures Recorded(s', if ev.NodeUpserted? then adrift - {ev.n.id} else adrift) && (Aliased(s) ==> Aliased(s'))
    ensures Unrecorded(s') <= Unrecorded(s) + if ev.AttributeUpdated? then {ev.id} else {}
    ensures s.topics.Keys - (if ev.NodeRemoved? then {ev.id} else {}) <= s'.topics.Keys
    ensures ev.NodeUpserted? ==> ev.n.id in s'.topics
  {
    match ev
    case AttributeUpdated(id, path, v) => AttributeTracking(cfg, s, id, path, v, s', adrift);
    case NodeUpserted(n) => UpsertTracking(cfg, s, n, s', adrift);
    case NodeRemoved(id) => RemovalTracking(cfg, s, id, s', adrift);
    case Unrelated =>
  }

  // ---------- one event: agreement ----------

  ghost predicate Sound(s: State, adrift: set<nat>) {
    Keyed(s.nodes) && Recorded(s, adrift) && Separate(s)
  }

  lemma AttributeStands(cfg: Config, s: State, names: map<nat, string>, id: nat, path: string, v: Json, t: Topic)
    requires Keyed(s.nodes) && id in s.nodes && NodeAgrees(cfg, s, id, true) && NameAt(s.names, id) == NameAt(names, id)
    requires Publishes(cfg, names, WithAttr(s.nodes[id], path, v), t) && !PathTopic(cfg, names, id, path, t)
    ensures Shows(cfg, names, WithAttr(s.nodes[id], path, v), t, At(s.retained, t)) && Owns(s.names, id, t)
  {
    var p := At(s.retained, t);
    OtherTopicsStand(cfg, names, s.nodes[id], path, v, t, p);
    SameName(cfg, s.names, names, s.nodes[id], t, p);
    PublishesOwns(cfg, s.names, s.nodes[id], t);
  }

  lemma TrackingIgnoresNodes(s: State, nodes: Cache, adrift: set<nat>)
    requires Recorded(s, adrift)
    ensures Recorded(s.(nodes := nodes), adrift) && (Aliased(s) ==> Aliased(s.(nodes := nodes)))
    ensures Separate(s) ==> Separate(s.(nodes := nodes))
  {
    var r := s.(nodes := nodes);
    forall t | t in s.retained ensures IsTracked(r, t) || IsAdrift(r, adrift, t) {
      assert IsTracked(s, t) || IsAdrift(s, adrift, t);
    }
  }

  lemma RefreshShows(cfg: Config, s: State, s': State, id: nat, t: Topic)
    requires Keyed(s.nodes) && Refreshed(cfg, s, s') && id in s.nodes && Exclusive(s'.names, t)
    requires NameAt(s.names, id) != NameAt(s'.names, id) && Publishes(cfg, s'.names, s.nodes[id], t)
    ensures Shows(cfg, s'.names, s.nodes[id], t, At(s'.retained, t))
  {
    RefreshExpects(cfg, s, s', id, t);
  }

  lemma AttributeRelabelled(cfg: Config, s: State, s1: State, id: nat, path: string, v: Json, m: State, t: Topic, adrift: set<nat>)
    requires Sound(s, adrift) && id in s.nodes && NodeAgrees(cfg, s, id, true)
    requires s1 == s.(nodes := s.nodes[id := WithAttr(s.nodes[id], path, v)])
    requires Refreshed(cfg, s1, m) && Injective(m.names)
    requires Publishes(cfg, m.names, s1.nodes[id], t) && !PathTopic(cfg, m.names, id, path, t)
    ensures Shows(cfg, m.names, s1.nodes[id], t, At(m.retained, t))
  {
    TrackingIgnoresNodes(s, s1.nodes, adrift);
    assert Keyed(s1.nodes);
    if NameAt(s.names, id) == NameAt(m.names, id) {
      var p := At(s.retained, t);
      assert Shows(cfg, m.names, s1.nodes[id], t, p) && Owns(s.names, id, t) by {
        AttributeStands(cfg, s, m.names, id, path, v, t);
      }
      assert At(m.retained, t) == p by {
        SeparatePrivate(s1, id, t);
        RefreshKeeps(cfg, s1, m, id, t);
      }
    } else {
      RefreshShows(cfg, s1, m, id, t);
    }
  }

  lemma OwnAttributeAgrees(cfg: Config, s: State, id: nat, path: string, v: Json, s1: State, m: State, adrift: set<nat>)
    requires Sound(s, adrift) && id in s.nodes && NodeAgrees(cfg, s, id, true)
    requires s1 == s.(nodes := s.nodes[id := WithAttr(s.nodes[id], path, v)])
    requires Relabelled(cfg, s1, path, m) && m.nodes == s1.nodes && Injective(m.names)
    ensures NodeAgrees(cfg, PublishAttribute(cfg, m, id, path, v), id, true)
  {
    forall t | Publishes(cfg, m.names, m.nodes[id], t) && !PathTopic(cfg, m.names, id, path, t)
      ensures Shows(cfg, m.names, m.nodes[id], t, At(m.retained, t))
    {
      if path == NODE_LABEL {
        AttributeRelabelled(cfg, s, s1, id, path, v, m, t, adrift);
      } else {
        AttributeStands(cfg, s, m.names, id, path, v, t);
      }
    }
    PublishAttributeAgrees(cfg, m, id, path, true);
  }

  lemma NeighbourAgrees(cfg: Config, s: State, id: nat, path: string, v: Json, s1: State, m: State, j: nat, adrift: set<nat>)
    requires Sound(s, adrift) && j in s.nodes && j != id && NodeAgrees(cfg, s, j, true)
    requires s1 == s.(nodes := CacheAttribute(s.nodes, id, path, v))
    requires Relabelled(cfg, s1, path, m) && m.nodes == s1.nodes && Injective(m.names)
    ensures j in PublishAttribute(cfg, m, id, path, v).nodes && NodeAgrees(cfg, PublishAttribute(cfg, m, id, path, v), j, true)
  {
    assert NodeAgrees(cfg, s1, j, true);
    if path == NODE_LABEL {
      TrackingIgnoresNodes(s, s1.nodes, adrift);
      RefreshAgrees(cfg, s1, m, j, true);
    }
    PublishAttributeOthers(cfg, m, id, path, v, j, true);
  }

  lemma AttributeAgrees(cfg: Config, s: State, id: nat, path: string, v: Json, s': State, j: nat, adrift: set<nat>)
    requires Sound(s, adrift) && j in s.nodes && NodeAgrees(cfg, s, j, true)
    requires Handled(cfg, s, AttributeUpdated(id, path, v), s') && Injective(s'.names)
    ensures j in s'.nodes && NodeAgrees(cfg, s', j, true)
  {
    var s1, m := AttributeMiddle(cfg, s, id, path, v, s');
    AttributeAgreesVia(cfg, s, s1, id, path, v, m, j, adrift);
  }

  lemma AttributeAgreesVia(cfg: Config, s: State, s1: State, id: nat, path: string, v: Json, m: State, j: nat, adrift: set<nat>)
    requires Sound(s, adrift) && j in s.nodes && NodeAgrees(cfg, s, j, true)
    requires s1 == s.(nodes := CacheAttribute(s.nodes, id, path, v)) && Relabelled(cfg, s1, path, m)
    requires Injective(PublishAttribute(cfg, m, id, path, v).names)
    ensures j in PublishAttribute(cfg, m, id, path, v).nodes && NodeAgrees(cfg, PublishAttribute(cfg, m, id, path, v), j, true)
  {
    PublishAttributeEffect(cfg, m, id, path, v, Availability(id));
    if path == NODE_LABEL {
      TrackingIgnoresNodes(s, s1.nodes, adrift);
      RefreshTracking(cfg, s1, m, adrift);
    }
    if j == id {
      OwnAttributeAgrees(cfg, s, id, path, v, s1, m, adrift);
    } else {
      NeighbourAgrees(cfg, s, id, path, v, s1, m, j, adrift);
    }
  }

  lemma UpsertAgrees(cfg: Config, s: State, n: Node, s': State, j: nat, adrift: set<nat>)
    requires Sound(s, adrift) && (j == n.id || (j in s.nodes && NodeAgrees(cfg, s, j, true)))
    requires Handled(cfg, s, NodeUpserted(n), s') && Injective(s'.names)
    ensures j in s'.nodes && NodeAgrees(cfg, s', j, true)
  {
    var s1, m := UpsertMiddle(cfg, s, n, s');
    if j == n.id {
      UpsertedAgrees(cfg, s, n, s1, m, s', adrift);
    } else {
      BystanderAgrees(cfg, s, n, s1, m, s', j, adrift);
    }
  }

  lemma UpsertedAgrees(cfg: Config, s: State, n: Node, s1: State, m: State, s': State, adrift: set<nat>)
    requires Keyed(s.nodes) && Recorded(s, adrift) && s1 == s.(nodes := s.nodes[n.id := n])
    requires Refreshed(cfg, s1, m) && NodePublished(cfg, m, n, s')
    ensures n.id in s'.nodes && NodeAgrees(cfg, s', n.id, true)
  {
    TrackingIgnoresNodes(s, s1.nodes, adrift);
    RefreshNodes(cfg, s1, m);
    PublishedAgrees(cfg, m, n, s');
  }

  lemma BystanderAgrees(cfg: Config, s: State, n: Node, s1: State, m: State, s': State, j: nat, adrift: set<nat>)
    requires Sound(s, adrift) && j != n.id && j in s.nodes && NodeAgrees(cfg, s, j, true)
    requires s1 == s.(nodes := s.nodes[n.id := n])
    requires Refreshed(cfg, s1, m) && NodePublished(cfg, m, n, s') && Injective(s'.names)
    ensures j in s'.nodes && NodeAgrees(cfg, s', j, true)
  {
    TrackingIgnoresNodes(s, s1.nodes, adrift);
    RefreshNodes(cfg, s1, m);
    StandsThrough(cfg, s, s1, m, j, adrift);
    OtherAgrees(cfg, m, n, s', j);
  }

  /** A node cached as before agrees after the others' refresh as it did before it. */
  lemma StandsThrough(cfg: Config, s: State, s1: State, m: State, j: nat, adrift: set<nat>)
    requires Sound(s, adrift) && Keyed(s1.nodes) && j in s.nodes && j in s1.nodes && s1 == s.(nodes := s1.nodes)
    requires s1.nodes[j] == s.nodes[j] && NodeAgrees(cfg, s, j, true)
    requires Refreshed(cfg, s1, m) && Injective(m.names)
    ensures j in m.nodes && NodeAgrees(cfg, m, j, true)
  {
    TrackingIgnoresNodes(s, s1.nodes, adrift);
    assert NodeAgrees(cfg, s1, j, true);
    RefreshAgrees(cfg, s1, m, j, true);
  }

  lemma PublishedAgrees(cfg: Config, m: State, n: Node, s': State)
    requires n.id in m.nodes && m.nodes[n.id] == n && NodePublished(cfg, m, n, s')
    ensures n.id in s'.nodes && NodeAgrees(cfg, s', n.id, true)
  {
  }

  lemma OtherAgrees(cfg: Config, m: State, n: Node, s': State, j: nat)
    requires Keyed(m.nodes) && Injective(m.names) && NodePublished(cfg, m, n, s')
    requires j in m.nodes && j != n.id && NodeAgrees(cfg, m, j, true)
    ensures j in s'.nodes && NodeAgrees(cfg, s', j, true)
  {
    forall t | Publishes(cfg, m.names, m.nodes[j], t) ensures At(s'.retained, t) == At(m.retained, t) {
      PublishesOwns(cfg, m.names, m.nodes[j], t);
      OneOther(cfg, m, n, s', j, t);
    }
  }

  /** Clearing one node leaves every other node's topics as they were. */
  lemma ClearNodeKeeps(s: State, id: nat, j: nat, t: Topic)
    requires Separate(s) && j != id && Owns(s.names, j, t)
    ensures At(ClearNode(s, id).retained, t) == At(s.retained, t)
  {
    SeparatePrivate(s, j, t);
  }

  lemma ClearNodeAgrees(cfg: Config, s: State, id: nat, j: nat, up: bool, adrift: set<nat>)
    requires Sound(s, adrift) && j != id && j in s.nodes && NodeAgrees(cfg, s, j, up)
    ensures NodeAgrees(cfg, ClearNode(s, id), j, up)
  {
    forall t | Publishes(cfg, s.names, s.nodes[j], t) ensures At(ClearNode(s, id).retained, t) == At(s.retained, t) {
      PublishesOwns(cfg, s.names, s.nodes[j], t);
      ClearNodeKeeps(s, id, j, t);
    }
  }

  lemma RemovalAgrees(cfg: Config, s: State, id: nat, s': State, j: nat, adrift: set<nat>)
    requires Sound(s, adrift) && j != id && j in s.nodes && NodeAgrees(cfg, s, j, true)
    requires Handled(cfg, s, NodeRemoved(id), s') && Injective(s'.names)
    ensures j in s'.nodes && NodeAgrees(cfg, s', j, true)
  {
    var s1 := RemovedTracking(s, id, adrift);
    ClearNodeAgrees(cfg, s, id, j, true, adrift);
    assert NodeAgrees(cfg, s1, j, true);
    RefreshAgrees(cfg, s1, s', j, true);
  }

  /** After every event each cached node's retained topics show it as cached, provided names are
      unique before and after. */
  lemma EventAgrees(cfg: Config, s: State, ev: Event, s': State, skip: set<nat>, adrift: set<nat>)
    requires Named(cfg, s) && Sound(s, adrift) && Agree(cfg, s, skip, true) && Handled(cfg, s, ev, s') && Injective(s'.names)
    ensures Agree(cfg, s', if ev.NodeUpserted? then skip - {ev.n.id} else skip, true)
  {
    EventTracking(cfg, s, ev, s', adrift);
    forall j | j in s'.nodes && (j !in skip || (ev.NodeUpserted? && j == ev.n.id)) ensures NodeAgrees(cfg, s', j, true) {
      match ev
      case AttributeUpdated(id, path, v) => AttributeAgrees(cfg, s, id, path, v, s', j, adrift);
      case NodeUpserted(n) => UpsertAgrees(cfg, s, n, s', j, adrift);
      case NodeRemoved(id) => RemovalAgrees(cfg, s, id, s', j, adrift);
      case Unrelated =>
    }
  }

  /** Removal is complete: whatever is retained belongs to another node. One topic can be left, the
      availability topic, exactly when it was retained without being recorded. */
  lemma RemovalComplete(cfg: Config, s: State, id: nat, s': State, t: Topic, adrift: set<nat>)
    requires Keyed(s.nodes) && Recorded(s, adrift) && Handled(cfg, s, NodeRemoved(id), s')
    ensures id !in s'.nodes && id !in s'.topics
    ensures t in s'.retained ==> (exists j :: j != id && Belongs(s', j, t)) || (t == Availability(id) && id in adrift)
    ensures Availability(id) in s'.retained <==> Availability(id) in s.retained && Availability(id) !in Tracked(s, id)
  {
    var s1 := RemovedTracking(s, id, adrift);
    RefreshTracking(cfg, s1, s', adrift);
    RefreshRecords(cfg, s1, s', id);
    UncachedUntouched(cfg, s1, s', id, Availability(id));
    if t in s'.retained {
      if IsTracked(s', t) {
        var j :| j in s'.topics && t in s'.topics[j];
        assert j != id && Belongs(s', j, t);
      } else {
        assert Belongs(s', t.id, t);
      }
    }
  }

  /** The topic is in the node's record, or is its availability topic. */
  predicate Belongs(s: State, id: nat, t: Topic) {
    t in Tracked(s, id) || t == Availability(id)
  }

  /** A refresh touches no numeric topic of a node that is not cached. */
  lemma UncachedUntouched(cfg: Config, s: State, s': State, id: nat, t: Topic)
    requires Keyed(s.nodes) && Refreshed(cfg, s, s') && id !in s.nodes && Owns(s.names, id, t) && !t.Alias?
    ensures At(s'.retained, t) == At(s.retained, t)
  {
    var ids := RefreshIds(cfg, s, s');
    var s0 := Renamed(s, s');
    ClearAllEffect(s0, ids);
    PickedIn(s0.nodes, ids, id);
    OthersUntouched(cfg, ClearAll(s0, ids), Picked(s0.nodes, ids), s', id, t);
  }

  /** Removal disturbs nobody: a peer that is renamed by it is published in full under its new name,
      and every other node's topics stand. */
  lemma RemovalPeers(cfg: Config, s: State, id: nat, s': State, j: nat, t: Topic, adrift: set<nat>)
    requires Sound(s, adrift) && Handled(cfg, s, NodeRemoved(id), s') && Injective(s'.names) && j != id
    ensures j in s'.nodes && NameAt(s.names, j) != NameAt(s'.names, j) && Publishes(cfg, s'.names, s'.nodes[j], t) ==>
      Expects(cfg, s'.names, s'.nodes[j], t, At(s'.retained, t))
    ensures NameAt(s.names, j) == NameAt(s'.names, j) && Owns(s.names, j, t) ==>
      At(s'.retained, t) == At(s.retained, t)
  {
    var s1 := RemovedTracking(s, id, adrift);
    if NameAt(s.names, j) != NameAt(s'.names, j) {
      PeerRenamed(cfg, s1, s', j, t);
    } else if Owns(s.names, j, t) {
      PeerStands(cfg, s, id, s1, s', j, t);
    }
  }

  lemma PeerRenamed(cfg: Config, s1: State, s': State, j: nat, t: Topic)
    requires Keyed(s1.nodes) && Refreshed(cfg, s1, s') && Exclusive(s'.names, t) && NameAt(s1.names, j) != NameAt(s'.names, j)
    ensures j in s'.nodes && Publishes(cfg, s'.names, s'.nodes[j], t) ==> Expects(cfg, s'.names, s'.nodes[j], t, At(s'.retained, t))
  {
    RefreshNodes(cfg, s1, s');
    if j in s'.nodes && Publishes(cfg, s'.names, s'.nodes[j], t) {
      RefreshExpects(cfg, s1, s', j, t);
    }
  }

  lemma PeerStands(cfg: Config, s: State, id: nat, s1: State, s': State, j: nat, t: Topic)
    requires Keyed(s1.nodes) && Separate(s) && s1 == ClearNode(s, id).(nodes := s.nodes - {id}) && Separate(s1)
    requires Refreshed(cfg, s1, s') && Exclusive(s'.names, t) && j != id
    requires NameAt(s.names, j) == NameAt(s'.names, j) && Owns(s.names, j, t)
    ensures At(s'.retained, t) == At(s.retained, t)
  {
    ClearNodeKeeps(s, id, j, t);
    SeparatePrivate(s1, j, t);
    RefreshKeeps(cfg, s1, s', j, t);
  }

  // ---------- how many names one event changes ----------

  function Subject(ev: Event): nat {
    match ev
    case AttributeUpdated(id, _, _) => id
    case NodeUpserted(n) => n.id
    case NodeRemoved(id) => id
    case Unrelated => 0
  }

  lemma AtMost(s: set<nat>, id: nat, a: Option<nat>, b: Option<nat>)
    requires forall j :: j in s ==> j == id || a == Some(j) || b == Some(j)
    ensures |s| <= 1 + (if a.Some? then 1 else 0) + (if b.Some? then 1 else 0)
  {
    var bound := {id} + (if a.Some? then {a.value} else {}) + (if b.Some? then {b.value} else {});
    assert s <= bound;
    SubsetSize(s, bound);
  }

  lemma {:induction false} SubsetSize(a: set<nat>, b: set<nat>)
    requires a <= b
    ensures |a| <= |b|
  {
    if a == {} {
    } else {
      var x :| x in a;
      SubsetSize(a - {x}, b - {x});
    }
  }

  /** One event changes at most three names; a removal, or the arrival of a node that had no name,
      at most two. */
  lemma EventRenames(cfg: Config, s: State, ev: Event, s': State, adrift: set<nat>)
    requires Named(cfg, s) && Recorded(s, adrift) && Handled(cfg, s, ev, s')
    ensures |Changed(s.names, s'.names)| <= 3
    ensures ev.NodeRemoved? || Subject(ev) !in s.names ==> |Changed(s.names, s'.names)| <= 2
  {
    EventTracking(cfg, s, ev, s', adrift);
    NextDiffers(s.nodes, ev);
    RenamesFrom(cfg.fold, s.nodes, s'.nodes, Subject(ev));
  }

  lemma NextDiffers(nodes: Cache, ev: Event)
    ensures DiffersAt(nodes, NextNodes(nodes, ev), Subject(ev))
    ensures ev.NodeRemoved? ==> Subject(ev) !in NextNodes(nodes, ev)
  {
  }

  lemma RenamesFrom(f: Folding, a: Cache, b: Cache, id: nat)
    requires DiffersAt(a, b, id)
    ensures |Changed(NamesOf(f, a), NamesOf(f, b))| <= 3
    ensures !Labelled(b, id) || !Labelled(a, id) ==> |Changed(NamesOf(f, a), NamesOf(f, b))| <= 2
  {
    var loser, gainer := BoundedRename(f, a, b, id);
    AtMost(Changed(NamesOf(f, a), NamesOf(f, b)), id, loser, gainer);
  }
}
