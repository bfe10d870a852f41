/** The bridge as the source has it: an object whose methods update its cache, its name index and
    its record of published topics, and publish to the broker as they go. */
module BridgeObject {
  import opened Text
  import opened Fabric
  import opened Naming
  import opened NameIndex
  import opened DataModel
  import opened Topics
  import opened Retained
  import opened Agreement

  // ---------- a publication under way ----------

  /** Everything but the descriptor has been published for the attributes of `n`. */
  ghost predicate BodyPublished(cfg: Config, s: State, n: Node, s': State) {
    && SameView(s, s')
    && s'.topics.Keys == s.topics.Keys + {n.id}
    && (forall id :: id in s.topics && id != n.id ==> s'.topics[id] == s.topics[id])
    && (forall t :: t in s'.topics[n.id] <==> t in Tracked(s, n.id) || (Publishes(cfg, s.names, n, t) && !t.Descriptor?))
    && (forall t :: Publishes(cfg, s.names, n, t) && !t.Descriptor? ==> Expects(cfg, s.names, n, t, At(s'.retained, t)))
    && (forall t :: !Publishes(cfg, s.names, n, t) || t.Descriptor? ==> At(s'.retained, t) == At(s.retained, t))
  }

  lemma HeadPublished(cfg: Config, s: State, n: Node)
    requires n.attrs == map[]
    ensures
      var s1 := PublishTracked(s, n.id, Availability(n.id), Word(if n.available then "online" else "offline"), true);
      var name := if n.id in s.names then s.names[n.id] else "";
      BodyPublished(cfg, s, n, PublishTracked(s1, n.id, NameTopic(n.id), Word(name), true))
  {
    var p, q := Word(if n.available then "online" else "offline"), Word(if n.id in s.names then s.names[n.id] else "");
    var s1 := PublishTracked(s, n.id, Availability(n.id), p, true);
    var s2 := PublishTracked(s1, n.id, NameTopic(n.id), q, true);
    PublishTrackedRecord(s, n.id, Availability(n.id), p);
    PublishTrackedRecord(s1, n.id, NameTopic(n.id), q);
    forall t ensures
      && (Publishes(cfg, s.names, n, t) && !t.Descriptor? ==> Expects(cfg, s.names, n, t, At(s2.retained, t)))
      && (!Publishes(cfg, s.names, n, t) || t.Descriptor? ==> At(s2.retained, t) == At(s.retained, t))
      && (Publishes(cfg, s.names, n, t) && !t.Descriptor? <==> t == Availability(n.id) || t == NameTopic(n.id))
    {
      EmptyPublishes(cfg, s.names, n, t);
      PutAt(s.retained, Availability(n.id), p, t);
      PutAt(s1.retained, NameTopic(n.id), q, t);
    }
  }

  lemma PutAt(store: map<Topic, Payload>, t: Topic, p: Payload, u: Topic)
    ensures At(Put(store, t, p), u) == if u != t then At(store, u) else if IsEmpty(p) then None else Some(p)
  {
  }

  lemma EmptyPublishes(cfg: Config, names: map<nat, string>, n: Node, t: Topic)
    requires n.attrs == map[]
    ensures Publishes(cfg, names, n, t) && !t.Descriptor? <==> t == Availability(n.id) || t == NameTopic(n.id)
  {
  }

  lemma PublishesMore(cfg: Config, names: map<nat, string>, n: Node, path: string, v: Json, t: Topic)
    requires path !in n.attrs
    ensures Publishes(cfg, names, WithAttr(n, path, v), t)
      <==> Publishes(cfg, names, n, t) || (cfg.retain && CountSlash(path) == 2 && PathTopic(cfg, names, n.id, path, t))
  {
    var n' := WithAttr(n, path, v);
    if t.Alias? {
      if Publishes(cfg, names, n, t) {
        var q :| q in n.attrs && AliasOf(cfg, names, n.id, q) == Some(t.path);
        assert q in n'.attrs;
      }
      if PathTopic(cfg, names, n.id, path, t) {
        assert path in n'.attrs;
      }
    }
  }

  lemma ExpectsMore(cfg: Config, names: map<nat, string>, n: Node, path: string, v: Json, t: Topic, p: Option<Payload>)
    requires path !in n.attrs && Publishes(cfg, names, n, t) && !t.Descriptor? && Expects(cfg, names, n, t, p)
    ensures Expects(cfg, names, WithAttr(n, path, v), t, p)
  {
    if t.Alias? {
      var q :| q in n.attrs && AliasOf(cfg, names, n.id, q) == Some(t.path) && p == Some(Value(NonNil(n.attrs[q])));
      assert q in WithAttr(n, path, v).attrs;
    }
  }

  lemma PublishTrackedRecord(s: State, id: nat, t: Topic, p: Payload)
    ensures var s' := PublishTracked(s, id, t, p, true);
      && s'.topics.Keys == s.topics.Keys + {id}
      && (forall j :: j in s.topics && j != id ==> s'.topics[j] == s.topics[j])
      && (forall u :: u in s'.topics[id] <==> u in Tracked(s, id) || u == t)
  {
  }

  lemma PublishAttributeRecord(cfg: Config, s: State, id: nat, path: string, v: Json)
    requires id in s.topics
    ensures var s' := PublishAttribute(cfg, s, id, path, v);
      && s'.topics.Keys == s.topics.Keys
      && (forall j :: j in s.topics && j != id ==> s'.topics[j] == s.topics[j])
      && (forall u :: u in s'.topics[id] <==>
            u in s.topics[id] || (cfg.retain && CountSlash(path) == 2 && PathTopic(cfg, s.names, id, path, u)))
  {
    if cfg.retain && CountSlash(path) == 2 {
      var p := Value(NonNil(v));
      PublishTrackedRecord(s, id, Attr(id, path), p);
      var a := AliasOf(cfg, s.names, id, path);
      if a.Some? {
        PublishTrackedRecord(PublishTracked(s, id, Attr(id, path), p, true), id, Alias(s.names[id], a.value), p);
      }
    }
  }

  lemma AttributePublished(cfg: Config, s: State, n: Node, m: State, path: string, v: Json)
    requires BodyPublished(cfg, s, n, m) && path !in n.attrs
    ensures BodyPublished(cfg, s, WithAttr(n, path, v), PublishAttribute(cfg, m, n.id, path, v))
  {
    var n', s' := WithAttr(n, path, v), PublishAttribute(cfg, m, n.id, path, v);
    PublishAttributeRecord(cfg, m, n.id, path, v);
    forall t ensures
      && (t in s'.topics[n.id] <==> t in Tracked(s, n.id) || (Publishes(cfg, s.names, n', t) && !t.Descriptor?))
      && (Publishes(cfg, s.names, n', t) && !t.Descriptor? ==> Expects(cfg, s.names, n', t, At(s'.retained, t)))
      && (!Publishes(cfg, s.names, n', t) || t.Descriptor? ==> At(s'.retained, t) == At(s.retained, t))
    {
      AttributePublishedAt(cfg, s, n, m, path, v, t);
    }
    PublishAttributeEffect(cfg, m, n.id, path, v, Availability(n.id));
  }

  lemma AttributePublishedAt(cfg: Config, s: State, n: Node, m: State, path: string, v: Json, t: Topic)
    requires BodyPublished(cfg, s, n, m) && path !in n.attrs
    ensures var n', s' := WithAttr(n, path, v), PublishAttribute(cfg, m, n.id, path, v);
      && n.id in s'.topics
      && (t in s'.topics[n.id] <==> t in Tracked(s, n.id) || (Publishes(cfg, s.names, n', t) && !t.Descriptor?))
      && (Publishes(cfg, s.names, n', t) && !t.Descriptor? ==> Expects(cfg, s.names, n', t, At(s'.retained, t)))
      && (!Publishes(cfg, s.names, n', t) || t.Descriptor? ==> At(s'.retained, t) == At(s.retained, t))
  {
    PublishAttributeRecord(cfg, m, n.id, path, v);
    PublishAttributeEffect(cfg, m, n.id, path, v, t);
    PublishesMore(cfg, s.names, n, path, v, t);
    if cfg.retain && CountSlash(path) == 2 && PathTopic(cfg, s.names, n.id, path, t) {
      assert path in WithAttr(n, path, v).attrs;
    } else if Publishes(cfg, s.names, n, t) && !t.Descriptor? {
      ExpectsMore(cfg, s.names, n, path, v, t, At(m.retained, t));
    }
  }

  lemma DescriptorPublished(cfg: Config, s: State, n: Node, m: State)
    requires BodyPublished(cfg, s, n, m)
    ensures NodePublished(cfg, s, n,
      PublishTracked(m, n.id, Descriptor(n.id), Document(n, NameAt(s.names, n.id)), true))
  {
    PublishTrackedRecord(m, n.id, Descriptor(n.id), Document(n, NameAt(s.names, n.id)));
  }

  lemma PublishedMore(cfg: Config, s: State, list: seq<Node>, m: State, n: Node, s': State)
    requires NodesPublished(cfg, s, list, m) && NodePublished(cfg, m, n, s')
    ensures NodesPublished(cfg, s, list + [n], s')
  {
    assert Front(list + [n]) == list && Last(list + [n]) == n;
  }

  lemma {:induction false} PickedAscending(nodes: Cache, ids: seq<nat>)
    requires Keyed(nodes) && Ascending(ids)
    ensures forall i, j :: 0 <= i < j < |Picked(nodes, ids)| ==> Picked(nodes, ids)[i].id < Picked(nodes, ids)[j].id
  {
    if ids == [] {
    } else {
      var front, last := ids[..|ids| - 1], ids[|ids| - 1];
      PickedAscending(nodes, front);
      forall i | 0 <= i < |Picked(nodes, front)| ensures Picked(nodes, front)[i].id < last {
        PickedIn(nodes, front, Picked(nodes, front)[i].id);
        assert InList(Picked(nodes, front), Picked(nodes, front)[i].id);
      }
    }
  }

  lemma PickedAll(nodes: Cache, ids: seq<nat>)
    requires Keyed(nodes) && Lists(ids, nodes.Keys)
    ensures Listed(Picked(nodes, ids)) == nodes
  {
    var list := Picked(nodes, ids);
    forall id ensures id in Listed(list) <==> id in nodes {
      PickedIn(nodes, ids, id);
      ListedKeys(list, id);
    }
    forall id | id in nodes ensures Listed(list)[id] == nodes[id] {
      PickedIn(nodes, ids, id);
      ListedKeys(list, id);
    }
  }

  // ---------- the object ----------

  class Bridge {
    const cfg: Config
    const namer: Namer
    var nodes: Cache
    var topics: map<nat, set<Topic>>
    /** The broker's retained store. */
    ghost var retained: map<Topic, Payload>

    ghost function State(): State
      reads this, namer
    {
      Retained.State(nodes, namer.resolved, namer.byName, topics, retained)
    }

    ghost predicate Valid()
      reads this, namer
    {
      namer.fold == cfg.fold && namer.Valid() && Keyed(nodes)
    }

    constructor (cfg: Config)
      ensures Valid() && State() == EMPTY && this.cfg == cfg && fresh(namer)
    {
      this.cfg := cfg;
      namer := new Namer(cfg.fold);
      nodes, topics, retained := map[], map[], map[];
    }

    method Publish(t: Topic, p: Payload, retain: bool)
      modifies this`retained
      ensures retained == if retain then Put(old(retained), t, p) else old(retained)
    {
      retained := if retain then Put(retained, t, p) else retained;
    }

    method PublishTrackedTopic(id: nat, t: Topic, p: Payload, retain: bool)
      modifies this`topics, this`retained
      ensures State() == PublishTracked(old(State()), id, t, p, retain)
    {
      ghost var before := State();
      if retain {
        if id !in topics {
          topics := topics[id := {}];
        }
        topics := topics[id := topics[id] + {t}];
        assert topics == before.topics[id := Tracked(before, id) + {t}];
      }
      Publish(t, p, retain);
    }

    method PublishAttributeTopics(id: nat, path: string, v: Json)
      modifies this`topics, this`retained
      ensures State() == PublishAttribute(cfg, old(State()), id, path, v)
    {
      if CountSlash(path) != 2 {
        return;
      }
      var payload := Value(NonNil(v));
      PublishTrackedTopic(id, Attr(id, path), payload, cfg.retain);
      if cfg.publishNames {
        var key := namer.Name(id);
        if key.Some? {
          var a := NamePath(cfg.model, path);
          if a.Some? {
            PublishTrackedTopic(id, Alias(key.value, a.value), payload, cfg.retain);
          }
        }
      }
    }

    method PublishHead(n: Node)
      requires Valid()
      modifies this`topics, this`retained
      ensures Valid() && BodyPublished(cfg, old(State()), n.(attrs := map[]), State())
    {
      HeadPublished(cfg, State(), n.(attrs := map[]));
      PublishTrackedTopic(n.id, Availability(n.id), Word(if n.available then "online" else "offline"), true);
      var name := namer.Name(n.id);
      PublishTrackedTopic(n.id, NameTopic(n.id), Word(if name.Some? then name.value else ""), true);
    }

    method PublishAttributes(n: Node, ghost s0: State)
      requires Valid() && BodyPublished(cfg, s0, n.(attrs := map[]), State())
      modifies this`topics, this`retained
      ensures Valid() && BodyPublished(cfg, s0, n, State())
    {
      ghost var part := n.(attrs := map[]);
      var paths := n.attrs.Keys;
      while paths != {}
        invariant paths <= n.attrs.Keys
        invariant part.attrs.Keys == n.attrs.Keys - paths && part == n.(attrs := part.attrs)
        invariant forall path :: path in part.attrs ==> part.attrs[path] == n.attrs[path]
        invariant Valid() && BodyPublished(cfg, s0, part, State())
      {
        var path :| path in paths;
        paths := paths - {path};
        PublishNext(n.id, path, n.attrs[path], part, s0);
        part := WithAttr(part, path, n.attrs[path]);
      }
      assert part.attrs == n.attrs;
    }

    method PublishNext(id: nat, path: string, v: Json, ghost part: Node, ghost s0: State)
      requires Valid() && part.id == id && BodyPublished(cfg, s0, part, State()) && path !in part.attrs
      modifies this`topics, this`retained
      ensures Valid() && BodyPublished(cfg, s0, WithAttr(part, path, v), State())
    {
      AttributePublished(cfg, s0, part, State(), path, v);
      PublishAttributeTopics(id, path, v);
    }

    method PublishNode(n: Node)
      requires Valid()
      modifies this`topics, this`retained
      ensures Valid() && NodePublished(cfg, old(State()), n, State())
    {
      ghost var s0 := State();
      var name := namer.Name(n.id);
      PublishHead(n);
      PublishAttributes(n, s0);
      DescriptorPublished(cfg, s0, n, State());
      PublishTrackedTopic(n.id, Descriptor(n.id), Document(n, name), true);
    }

    method ClearNodeTopics(id: nat)
      modifies this`topics, this`retained
      ensures State() == ClearNode(old(State()), id)
    {
      var stale := if id in topics then topics[id] else {};
      topics := topics - {id};
      PublishEmpty(stale);
    }

    method ClearNamedTopics(id: nat)
      modifies this`topics, this`retained
      ensures State() == ClearNamed(old(State()), id)
    {
      if id !in topics {
        return;
      }
      var stale := set t | t in topics[id] && t.Alias?;
      topics := topics[id := topics[id] - stale];
      PublishEmpty(stale);
    }

    method PublishEmpty(stale: set<Topic>)
      modifies this`retained
      ensures retained == old(retained) - stale
    {
      var rest := stale;
      while rest != {}
        invariant rest <= stale && retained == old(retained) - (stale - rest)
      {
        var t :| t in rest;
        rest := rest - {t};
        Publish(t, Word(""), true);
      }
    }

    /** A snapshot of the cache, ordered by node id. */
    method Nodes() returns (list: seq<Node>)
      requires Valid()
      ensures Listed(list) == nodes && forall i, j :: 0 <= i < j < |list| ==> list[i].id < list[j].id
    {
      var ids := SortIds(nodes.Keys);
      list := [];
      for i := 0 to |ids|
        invariant list == Picked(nodes, ids[..i])
      {
        assert ids[..i + 1][..i] == ids[..i];
        list := list + [nodes[ids[i]]];
      }
      assert ids[..|ids|] == ids;
      PickedAscending(nodes, ids);
      PickedAll(nodes, ids);
    }

    method ClearChanged(changed: seq<nat>)
      requires Valid()
      modifies this`topics, this`retained
      ensures Valid() && State() == ClearAll(old(State()), changed)
    {
      ghost var s := State();
      for i := 0 to |changed|
        invariant Valid() && State() == ClearAll(s, changed[..i])
      {
        assert changed[..i + 1][..i] == changed[..i];
        ClearNamedTopics(changed[i]);
      }
      assert changed[..|changed|] == changed;
    }

    method PublishChanged(changed: seq<nat>)
      requires Valid()
      modifies this`topics, this`retained
      ensures Valid() && NodesPublished(cfg, old(State()), Picked(nodes, changed), State())
    {
      ghost var s := State();
      for i := 0 to |changed|
        invariant Valid() && NodesPublished(cfg, s, Picked(nodes, changed[..i]), State())
      {
        assert changed[..i + 1][..i] == changed[..i];
        if changed[i] in nodes {
          PublishOneMore(s, Picked(nodes, changed[..i]), nodes[changed[i]]);
          assert Picked(nodes, changed[..i + 1]) == Picked(nodes, changed[..i]) + [nodes[changed[i]]];
        } else {
          assert Picked(nodes, changed[..i + 1]) == Picked(nodes, changed[..i]);
        }
      }
      assert changed[..|changed|] == changed;
    }

    method RefreshNames()
      requires Valid()
      modifies this`topics, this`retained, namer
      ensures Valid() && Refreshed(cfg, old(State()), State())
    {
      ghost var s := State();
      var list := Nodes();
      NamesIgnoreOrder(cfg.fold, list);
      var changed := namer.Recompute(list);
      ghost var s0 := State();
      ClearChanged(changed);
      ClearAllEffect(s0, changed);
      PublishChanged(changed);
      RecordsGrow(cfg, ClearAll(s0, changed), Picked(nodes, changed), State(), 0);
      assert RefreshedVia(cfg, s, changed, State());
    }

    method CacheNode(n: Node)
      requires Valid()
      modifies this`nodes
      ensures Valid() && nodes == old(nodes)[n.id := n]
    {
      nodes := nodes[n.id := n];
    }

    method CacheAttributeValue(id: nat, path: string, v: Json)
      requires Valid()
      modifies this`nodes
      ensures Valid() && nodes == CacheAttribute(old(nodes), id, path, v)
    {
      if id in nodes {
        nodes := nodes[id := WithAttr(nodes[id], path, v)];
      }
    }

    method HandleEvent(ev: Event)
      requires Valid()
      modifies this, namer
      ensures Valid() && Handled(cfg, old(State()), ev, State())
    {
      match ev
      case AttributeUpdated(id, path, v) =>
        CacheAttributeValue(id, path, v);
        ghost var s1 := State();
        if path == NODE_LABEL {
          RefreshNames();
        }
        assert Relabelled(cfg, s1, path, State());
        PublishAttributeTopics(id, path, v);
      case NodeUpserted(n) =>
        CacheNode(n);
        RefreshNames();
        PublishNode(n);
      case NodeRemoved(id) =>
        ClearNodeTopics(id);
        nodes := nodes - {id};
        RefreshNames();
      case Unrelated =>
    }

    method PublishAll(list: seq<Node>)
      requires Valid()
      modifies this`topics, this`retained
      ensures Valid() && NodesPublished(cfg, old(State()), list, State())
    {
      ghost var s := State();
      for i := 0 to |list|
        invariant Valid() && NodesPublished(cfg, s, list[..i], State())
      {
        assert list[..i + 1] == list[..i] + [list[i]];
        PublishOneMore(s, list[..i], list[i]);
      }
      assert list[..|list|] == list;
    }

    method PublishOneMore(ghost s: State, ghost done: seq<Node>, n: Node)
      requires Valid() && NodesPublished(cfg, s, done, State())
      modifies this`topics, this`retained
      ensures Valid() && NodesPublished(cfg, s, done + [n], State())
    {
      ghost var m := State();
      PublishNode(n);
      PublishedMore(cfg, s, done, m, n, State());
    }

    method CacheAll(list: seq<Node>)
      requires Valid()
      modifies this`nodes
      ensures Valid() && nodes == Listed(list)
    {
      nodes := map[];
      for i := 0 to |list|
        invariant Valid() && nodes == Listed(list[..i])
      {
        assert list[..i + 1][..i] == list[..i];
        CacheNode(list[i]);
      }
      assert list[..|list|] == list;
    }

    /** The node-loading part of a session. What `Recompute` reports is not used. */
    method LoadNodes(list: seq<Node>)
      requires Valid()
      modifies this, namer
      ensures Valid() && Started(cfg, old(State()), list, State())
    {
      CacheAll(list);
      var _ := namer.Recompute(list);
      ghost var s0 := State();
      PublishAll(list);
      RecordsGrow(cfg, s0, list, State(), 0);
    }

    method MarkAllUnavailable()
      requires Valid()
      modifies this`retained
      ensures Valid() && MarkedOffline(old(State()), State())
    {
      var ids := topics.Keys;
      while ids != {}
        invariant ids <= topics.Keys
        invariant forall t: Topic | t.Availability? && t.id in topics && t.id !in ids :: At(retained, t) == Some(Word("offline"))
        invariant forall t: Topic | !(t.Availability? && t.id in topics && t.id !in ids) :: At(retained, t) == At(old(retained), t)
      {
        var id :| id in ids;
        ids := ids - {id};
        Publish(Availability(id), Word("offline"), true);
      }
    }
  }
}
