/** The retained store agrees with the cache: what a refresh of the names keeps, however many nodes
    it renames at once, and what one published attribute changes. */
module Agreement {
  import opened Text
  import opened Fabric
  import opened Naming
  import opened NameIndex
  import opened DataModel
  import opened Topics
  import opened Retained

  // ---------- renaming ----------

  /** The state in which renamed nodes are cleared: the new names are already in force. */
  function Renamed(s: State, s': State): State {
    s.(names := s'.names, index := s'.index)
  }

  lemma RefreshIds(cfg: Config, s: State, s': State) returns (ids: seq<nat>)
    requires Refreshed(cfg, s, s')
    ensures Lists(ids, Changed(s.names, s'.names)) && RefreshedVia(cfg, s, ids, s')
  {
    ids :| RefreshedVia(cfg, s, ids, s') && Lists(ids, Changed(s.names, s'.names));
  }

  lemma SameOwner(a: map<nat, string>, b: map<nat, string>, id: nat, t: Topic)
    requires NameAt(a, id) == NameAt(b, id) || !t.Alias?
    ensures Owns(a, id, t) <==> Owns(b, id, t)
  {
  }

  lemma ClearedTracking(s: State, names: map<nat, string>, index: map<string, nat>, ids: seq<nat>, adrift: set<nat>)
    requires Recorded(s, adrift) && Lists(ids, Changed(s.names, names))
    ensures Recorded(ClearAll(s.(names := names, index := index), ids), adrift)
    ensures Aliased(s) ==> Aliased(ClearAll(s.(names := names, index := index), ids))
    ensures Unrecorded(ClearAll(s.(names := names, index := index), ids)) <= Unrecorded(s)
  {
    var s0 := s.(names := names, index := index);
    var c := ClearAll(s0, ids);
    ClearAllEffect(s0, ids);
    forall id, t | id in c.topics && t in c.topics[id] && (!t.Alias? || Aliased(s)) ensures Owns(c.names, id, t) {
      assert t in s.topics[id] && Owns(s.names, id, t);
      SameOwner(s.names, names, id, t);
    }
    forall t | t in c.retained ensures IsTracked(c, t) || IsAdrift(c, adrift, t) {
      assert At(c.retained, t) == Some(c.retained[t]) && !ClearedBy(s0, ids, t) && t in s.retained;
      if IsTracked(s, t) {
        var id :| id in s.topics && t in s.topics[id];
        assert t in c.topics[id];
      }
    }
  }

  lemma RecordedGrows(s: State, a: set<nat>, b: set<nat>)
    requires Recorded(s, a) && a <= b
    ensures Recorded(s, b)
  {
  }

  /** Renaming keeps every record under its owner's current name. */
  lemma RefreshTracking(cfg: Config, s: State, s': State, adrift: set<nat>)
    requires Recorded(s, adrift) && Refreshed(cfg, s, s')
    ensures Recorded(s', adrift) && s'.nodes == s.nodes && (Aliased(s) ==> Aliased(s'))
    ensures Unrecorded(s') <= Unrecorded(s)
  {
    var ids := RefreshIds(cfg, s, s');
    var s0 := Renamed(s, s');
    ClearedTracking(s, s0.names, s0.index, ids, adrift);
    ClearAllEffect(s0, ids);
    AllPublishedTracking(cfg, ClearAll(s0, ids), Picked(s0.nodes, ids), s', adrift);
    RecordedGrows(s', adrift - Ids(Picked(s0.nodes, ids)), adrift);
  }

  /** No topic of a node that keeps its name is touched, though any number of others are renamed at
      the same time. */
  lemma RefreshKeeps(cfg: Config, s: State, s': State, id: nat, t: Topic)
    requires Keyed(s.nodes) && Refreshed(cfg, s, s') && Private(s, id, t) && Exclusive(s'.names, t)
    requires NameAt(s.names, id) == NameAt(s'.names, id) && Owns(s.names, id, t)
    ensures At(s'.retained, t) == At(s.retained, t)
  {
    var ids := RefreshIds(cfg, s, s');
    var s0 := Renamed(s, s');
    assert id !in Changed(s.names, s0.names);
    ClearAllEffect(s0, ids);
    PickedIn(s0.nodes, ids, id);
    SameOwner(s.names, s0.names, id, t);
    OthersUntouched(cfg, ClearAll(s0, ids), Picked(s0.nodes, ids), s', id, t);
  }

  lemma RefreshNodes(cfg: Config, s: State, s': State)
    requires Refreshed(cfg, s, s')
    ensures s'.nodes == s.nodes
  {
    var ids := RefreshIds(cfg, s, s');
    ClearAllEffect(Renamed(s, s'), ids);
    RecordsGrow(cfg, ClearAll(Renamed(s, s'), ids), Picked(s.nodes, ids), s', 0);
  }

  /** A renamed node that is still cached is published in full under its new name. */
  lemma RefreshExpects(cfg: Config, s: State, s': State, id: nat, t: Topic)
    requires Keyed(s.nodes) && Refreshed(cfg, s, s') && id in s.nodes && Exclusive(s'.names, t)
    requires NameAt(s.names, id) != NameAt(s'.names, id) && Publishes(cfg, s'.names, s.nodes[id], t)
    ensures Expects(cfg, s'.names, s.nodes[id], t, At(s'.retained, t))
  {
    var ids := RefreshIds(cfg, s, s');
    RefreshListed(cfg, s, s', ids, id, t);
  }

  /** Clearing leaves no alias under a name that a renamed node is about to take. */
  lemma NoStaleAlias(s: State, names: map<nat, string>, index: map<string, nat>, ids: seq<nat>, id: nat, t: Topic, adrift: set<nat>)
    requires Tracking(s, adrift) && Injective(names) && Lists(ids, Changed(s.names, names))
    requires id in ids && Owns(names, id, t) && t.Alias?
    ensures t !in ClearAll(s.(names := names, index := index), ids).retained
  {
    var s0 := s.(names := names, index := index);
    ClearAllEffect(s0, ids);
    if At(ClearAll(s0, ids).retained, t).Some? {
      assert !ClearedBy(s0, ids, t) && t in s.retained;
      var j :| j in s.topics && t in s.topics[j];
      assert Owns(s.names, j, t) && j !in ids;
      SameOwner(s.names, names, j, t);
      OwnerUnique(names, id, j, t);
    }
  }

  /** Its other numeric topics stand. */
  lemma RefreshLeaves(cfg: Config, s: State, s': State, id: nat, t: Topic)
    requires Keyed(s.nodes) && Refreshed(cfg, s, s') && id in s.nodes && Owns(s.names, id, t) && !t.Alias?
    requires NameAt(s.names, id) != NameAt(s'.names, id) && !Publishes(cfg, s'.names, s.nodes[id], t)
    ensures At(s'.retained, t) == At(s.retained, t)
  {
    var ids := RefreshIds(cfg, s, s');
    RefreshListed(cfg, s, s', ids, id, t);
    ClearAllEffect(Renamed(s, s'), ids);
  }

  /** A renamed node that is still cached is published in full under its new name, and none of its
      aliases outlives the old one. */
  lemma RefreshPublishes(cfg: Config, s: State, s': State, id: nat, t: Topic, adrift: set<nat>)
    requires Tracking(s, adrift) && Keyed(s.nodes) && Refreshed(cfg, s, s') && id in s.nodes
    requires Exclusive(s'.names, t)
    requires NameAt(s.names, id) != NameAt(s'.names, id)
    ensures Publishes(cfg, s'.names, s.nodes[id], t) ==> Expects(cfg, s'.names, s.nodes[id], t, At(s'.retained, t))
    ensures Owns(s'.names, id, t) && t in s'.retained && !Publishes(cfg, s'.names, s.nodes[id], t) ==> !t.Alias? && t in s.retained
    ensures Owns(s'.names, id, t) && !t.Alias? && !Publishes(cfg, s'.names, s.nodes[id], t) ==> At(s'.retained, t) == At(s.retained, t)
  {
    var ids := RefreshIds(cfg, s, s');
    RefreshListed(cfg, s, s', ids, id, t);
    if Owns(s'.names, id, t) && !Publishes(cfg, s'.names, s.nodes[id], t) {
      ClearAllEffect(Renamed(s, s'), ids);
      if t.Alias? {
        assert id in Changed(s.names, s'.names);
        NoStaleAlias(s, s'.names, s'.index, ids, id, t, adrift);
      }
    }
  }

  lemma RefreshListed(cfg: Config, s: State, s': State, ids: seq<nat>, id: nat, t: Topic)
    requires Keyed(s.nodes) && id in s.nodes && Exclusive(s'.names, t)
    requires Lists(ids, Changed(s.names, s'.names)) && RefreshedVia(cfg, s, ids, s')
    requires NameAt(s.names, id) != NameAt(s'.names, id)
    ensures Publishes(cfg, s'.names, s.nodes[id], t) ==> Expects(cfg, s'.names, s.nodes[id], t, At(s'.retained, t))
    ensures Owns(s'.names, id, t) && !Publishes(cfg, s'.names, s.nodes[id], t) ==>
      At(s'.retained, t) == At(ClearAll(Renamed(s, s'), ids).retained, t)
  {
    var s0 := Renamed(s, s');
    assert id in Changed(s.names, s'.names);
    var k := PickedAt(s.nodes, ids, id);
    assert ClearAll(s0, ids).names == s'.names by {
      ClearAllEffect(s0, ids);
    }
    ListedPublished(cfg, ClearAll(s0, ids), Picked(s.nodes, ids), s', k, t);
  }

  lemma PickedAt(nodes: Cache, ids: seq<nat>, id: nat) returns (k: nat)
    requires Keyed(nodes) && Ascending(ids) && id in ids && id in nodes
    ensures k < |Picked(nodes, ids)| && Picked(nodes, ids)[k] == nodes[id] && Distinct(Picked(nodes, ids))
  {
    PickedIn(nodes, ids, id);
    PickedDistinct(nodes, ids);
    k :| 0 <= k < |Picked(nodes, ids)| && Picked(nodes, ids)[k].id == id;
  }

  /** A node that is not cached gains no record by a refresh. */
  lemma RefreshRecords(cfg: Config, s: State, s': State, id: nat)
    requires Keyed(s.nodes) && Refreshed(cfg, s, s') && id !in s.nodes
    ensures Tracked(s', id) <= Tracked(s, id) && (id in s'.topics <==> id in s.topics)
  {
    var ids := RefreshIds(cfg, s, s');
    var s0 := Renamed(s, s');
    ClearAllEffect(s0, ids);
    PickedIn(s0.nodes, ids, id);
    OthersUntouched(cfg, ClearAll(s0, ids), Picked(s0.nodes, ids), s', id, Availability(id));
  }

  // ---------- agreement ----------

  /** Between sessions every node is shown offline. */
  function View(n: Node, up: bool): Node {
    if up then n else n.(available := false)
  }

  /** A retained topic shows the node as cached. The descriptor document carries the current name;
      its attribute part dates from the node's last full publication. */
  ghost predicate Shows(cfg: Config, names: map<nat, string>, n: Node, t: Topic, p: Option<Payload>) {
    if t.Descriptor? then p.Some? && p.value.Document? && p.value.name == NameAt(names, n.id)
    else Expects(cfg, names, n, t, p)
  }

  ghost predicate NodeAgrees(cfg: Config, s: State, id: nat, up: bool)
    requires id in s.nodes
  {
    forall t :: Publishes(cfg, s.names, s.nodes[id], t) ==> Shows(cfg, s.names, View(s.nodes[id], up), t, At(s.retained, t))
  }

  ghost predicate Agree(cfg: Config, s: State, skip: set<nat>, up: bool) {
    forall id :: id in s.nodes && id !in skip ==> NodeAgrees(cfg, s, id, up)
  }

  /** After a refresh every node whose topics agreed with the cache under its old name agrees under
      its new one. */
  lemma RefreshAgrees(cfg: Config, s: State, s': State, id: nat, up: bool)
    requires Keyed(s.nodes) && Refreshed(cfg, s, s') && id in s.nodes && up
    requires Separate(s) && Injective(s'.names)
    requires NodeAgrees(cfg, s, id, up)
    ensures s'.nodes == s.nodes && NodeAgrees(cfg, s', id, up)
  {
    RefreshNodes(cfg, s, s');
    forall t | Publishes(cfg, s'.names, s.nodes[id], t)
      ensures Shows(cfg, s'.names, View(s.nodes[id], up), t, At(s'.retained, t))
    {
      if NameAt(s.names, id) == NameAt(s'.names, id) {
        PublishesOwns(cfg, s.names, s.nodes[id], t);
        SameName(cfg, s.names, s'.names, s.nodes[id], t, At(s.retained, t));
        SeparatePrivate(s, id, t);
        RefreshKeeps(cfg, s, s', id, t);
      } else {
        RefreshExpects(cfg, s, s', id, t);
      }
    }
  }

  lemma SameName(cfg: Config, a: map<nat, string>, b: map<nat, string>, n: Node, t: Topic, p: Option<Payload>)
    requires NameAt(a, n.id) == NameAt(b, n.id)
    ensures Publishes(cfg, a, n, t) <==> Publishes(cfg, b, n, t)
    ensures Shows(cfg, a, n, t, p) <==> Shows(cfg, b, n, t, p)
  {
    assert forall path :: AliasOf(cfg, a, n.id, path) == AliasOf(cfg, b, n.id, path);
  }

  // ---------- one attribute ----------

  /** The topics one attribute is published on. */
  ghost predicate PathTopic(cfg: Config, names: map<nat, string>, id: nat, path: string, t: Topic) {
    match t
    case Attr(i, p) => i == id && p == path
    case Alias(key, a) => id in names && key == names[id] && AliasOf(cfg, names, id, path) == Some(a)
    case _ => false
  }

  function WithAttr(n: Node, path: string, v: Json): Node {
    n.(attrs := n.attrs[path := v])
  }

  lemma OtherAliasStands(cfg: Config, names: map<nat, string>, n: Node, path: string, v: Json, a: string, p: Option<Payload>)
    requires AliasOf(cfg, names, n.id, path) != Some(a)
    ensures AliasedValue(cfg, names, n, a, p) ==> AliasedValue(cfg, names, WithAttr(n, path, v), a, p)
  {
    if AliasedValue(cfg, names, n, a, p) {
      var r :| r in n.attrs && AliasOf(cfg, names, n.id, r) == Some(a) && p == Some(Value(NonNil(n.attrs[r])));
      assert WithAttr(n, path, v).attrs[r] == n.attrs[r];
    }
  }

  lemma OtherTopicsStand(cfg: Config, names: map<nat, string>, n: Node, path: string, v: Json, t: Topic, p: Option<Payload>)
    requires Publishes(cfg, names, WithAttr(n, path, v), t) && !PathTopic(cfg, names, n.id, path, t)
    ensures Publishes(cfg, names, n, t)
    ensures Shows(cfg, names, n, t, p) ==> Shows(cfg, names, WithAttr(n, path, v), t, p)
  {
    if t.Alias? {
      var q :| q in n.attrs[path := v] && AliasOf(cfg, names, n.id, q) == Some(t.path);
      assert q in n.attrs;
      OtherAliasStands(cfg, names, n, path, v, t.path, p);
    }
  }

  lemma PublishTrackedEffect(s: State, id: nat, t: Topic, p: Payload, retain: bool, u: Topic)
    requires !IsEmpty(p)
    ensures var s' := PublishTracked(s, id, t, p, retain);
      SameView(s, s') && At(s'.retained, u) == if retain && u == t then Some(p) else At(s.retained, u)
  {
  }

  lemma PublishAttributeEffect(cfg: Config, s: State, id: nat, path: string, v: Json, t: Topic)
    ensures var s' := PublishAttribute(cfg, s, id, path, v);
      && SameView(s, s')
      && (if cfg.retain && CountSlash(path) == 2 && PathTopic(cfg, s.names, id, path, t)
          then At(s'.retained, t) == Some(Value(NonNil(v)))
          else At(s'.retained, t) == At(s.retained, t))
  {
    if CountSlash(path) == 2 {
      var p := Value(NonNil(v));
      var s1 := PublishTracked(s, id, Attr(id, path), p, cfg.retain);
      PublishTrackedEffect(s, id, Attr(id, path), p, cfg.retain, t);
      var a := AliasOf(cfg, s.names, id, path);
      if a.Some? {
        PublishTrackedEffect(s1, id, Alias(s.names[id], a.value), p, cfg.retain, t);
      }
    }
  }

  lemma PublishAttributeTracking(cfg: Config, s: State, id: nat, path: string, v: Json, adrift: set<nat>)
    requires Recorded(s, adrift)
    ensures Recorded(PublishAttribute(cfg, s, id, path, v), adrift)
    ensures Aliased(s) ==> Aliased(PublishAttribute(cfg, s, id, path, v))
    ensures Unrecorded(PublishAttribute(cfg, s, id, path, v)) ==
      Unrecorded(s) + if id !in s.topics && cfg.retain && CountSlash(path) == 2 then {id} else {}
  {
    if CountSlash(path) == 2 {
      var t := Attr(id, path);
      PublishTrackedTracking(s, id, t, Value(NonNil(v)), cfg.retain, adrift);
      var s1 := PublishTracked(s, id, t, Value(NonNil(v)), cfg.retain);
      var a := AliasOf(cfg, s.names, id, path);
      if a.Some? {
        PublishTrackedTracking(s1, id, Alias(s.names[id], a.value), Value(NonNil(v)), cfg.retain, adrift);
      }
    }
  }

  lemma PublishTrackedTracking(s: State, id: nat, t: Topic, p: Payload, retain: bool, adrift: set<nat>)
    requires Recorded(s, adrift) && Owns(s.names, id, t) && !t.Availability?
    ensures Recorded(PublishTracked(s, id, t, p, retain), adrift)
    ensures Aliased(s) ==> Aliased(PublishTracked(s, id, t, p, retain))
    ensures Unrecorded(PublishTracked(s, id, t, p, retain)) == Unrecorded(s) + if id !in s.topics && retain then {id} else {}
  {
    var s' := PublishTracked(s, id, t, p, retain);
    if retain {
      forall u | u in s'.retained ensures IsTracked(s', u) || IsAdrift(s', adrift, u) {
        if u == t {
          assert t in s'.topics[id];
        } else if IsTracked(s, u) {
          var j :| j in s.topics && u in s.topics[j];
          assert u in s'.topics[j];
        }
      }
    }
  }

  /** Publishing an attribute leaves its node agreeing, if everything else about the node already did. */
  lemma PublishAttributeAgrees(cfg: Config, s: State, id: nat, path: string, up: bool)
    requires id in s.nodes && s.nodes[id].id == id && path in s.nodes[id].attrs
    requires forall t | Publishes(cfg, s.names, s.nodes[id], t) && !PathTopic(cfg, s.names, id, path, t) ::
      Shows(cfg, s.names, View(s.nodes[id], up), t, At(s.retained, t))
    ensures NodeAgrees(cfg, PublishAttribute(cfg, s, id, path, s.nodes[id].attrs[path]), id, up)
  {
    var n, v := s.nodes[id], s.nodes[id].attrs[path];
    var s' := PublishAttribute(cfg, s, id, path, v);
    forall t | Publishes(cfg, s.names, n, t) ensures Shows(cfg, s.names, View(n, up), t, At(s'.retained, t)) {
      PublishAttributeEffect(cfg, s, id, path, v, t);
    }
    PublishAttributeEffect(cfg, s, id, path, v, Availability(id));
  }

  lemma PublishAttributeOthers(cfg: Config, s: State, id: nat, path: string, v: Json, j: nat, up: bool)
    requires Injective(s.names) && Keyed(s.nodes) && j in s.nodes && j != id && NodeAgrees(cfg, s, j, up)
    ensures j in PublishAttribute(cfg, s, id, path, v).nodes && NodeAgrees(cfg, PublishAttribute(cfg, s, id, path, v), j, up)
  {
    var s' := PublishAttribute(cfg, s, id, path, v);
    PublishAttributeEffect(cfg, s, id, path, v, Availability(j));
    forall t | Publishes(cfg, s.names, s.nodes[j], t) ensures At(s'.retained, t) == At(s.retained, t) {
      PublishAttributeEffect(cfg, s, id, path, v, t);
      PublishesOwns(cfg, s.names, s.nodes[j], t);
      if PathTopic(cfg, s.names, id, path, t) {
        OwnerUnique(s.names, id, j, t);
      }
    }
  }
}
