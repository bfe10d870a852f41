/** What the retained tree shows, spelled out topic by topic, and when there is a named mirror of it. */
module Mirror {
  import opened Text
  import opened Fabric
  import opened Naming
  import opened NameIndex
  import opened DataModel
  import opened Topics
  import opened Retained
  import opened Agreement
  import opened Runs
  import opened Sessions
  import opened Exactness

  // ---------- with the mirror off ----------

  /** No alias is recorded or retained. */
  ghost predicate Unmirrored(s: State) {
    && (forall id, t :: id in s.topics && t in s.topics[id] ==> !t.Alias?)
    && (forall t :: t in s.retained ==> !t.Alias?)
  }

  /** Nothing was recorded or retained that was not before, aliases aside. */
  lemma NoNewAlias(s: State, s': State)
    requires Unmirrored(s)
    requires forall id, t :: id in s'.topics && t in s'.topics[id] && t.Alias? ==> t in Tracked(s, id)
    requires forall t: Topic :: t in s'.retained && t.Alias? ==> t in s.retained
    ensures Unmirrored(s')
  {
  }

  lemma PublishedUnmirrored(cfg: Config, s: State, n: Node, s': State)
    requires !cfg.publishNames && Unmirrored(s) && NodePublished(cfg, s, n, s')
    ensures Unmirrored(s')
  {
    forall t | t in s'.retained ensures !t.Alias? {
      assert Publishes(cfg, s.names, n, t) || At(s'.retained, t) == At(s.retained, t);
    }
  }

  lemma {:induction false} AllPublishedUnmirrored(cfg: Config, s: State, list: seq<Node>, s': State)
    requires !cfg.publishNames && Unmirrored(s) && NodesPublished(cfg, s, list, s')
    ensures Unmirrored(s')
    decreases |list|
  {
    if list == [] {
    } else {
      var m := BeforeLast(cfg, s, list, s');
      AllPublishedUnmirrored(cfg, s, Front(list), m);
      PublishedUnmirrored(cfg, m, Last(list), s');
    }
  }

  lemma RefreshUnmirrored(cfg: Config, s: State, m: State)
    requires !cfg.publishNames && Unmirrored(s) && Refreshed(cfg, s, m)
    ensures Unmirrored(m)
  {
    var ids := RefreshIds(cfg, s, m);
    var c := ClearAll(Renamed(s, m), ids);
    ClearAllEffect(Renamed(s, m), ids);
    forall t | t in c.retained ensures t in s.retained {
      assert At(c.retained, t).Some?;
    }
    NoNewAlias(s, c);
    AllPublishedUnmirrored(cfg, c, Picked(s.nodes, ids), m);
  }

  lemma AttributeUnmirrored(cfg: Config, m: State, id: nat, path: string, v: Json)
    requires !cfg.publishNames && Unmirrored(m)
    ensures Unmirrored(PublishAttribute(cfg, m, id, path, v))
  {
    if CountSlash(path) == 2 {
      TrackedUnmirrored(m, id, Attr(id, path), Value(NonNil(v)), cfg.retain);
    }
  }

  lemma TrackedUnmirrored(s: State, id: nat, t: Topic, p: Payload, retain: bool)
    requires Unmirrored(s) && !t.Alias?
    ensures Unmirrored(PublishTracked(s, id, t, p, retain))
  {
  }

  lemma EventUnmirrored(cfg: Config, s: State, ev: Event, s': State)
    requires !cfg.publishNames && Unmirrored(s) && Handled(cfg, s, ev, s')
    ensures Unmirrored(s')
  {
    match ev
    case AttributeUpdated(id, path, v) =>
      var s1, m := AttributeMiddle(cfg, s, id, path, v, s');
      NoNewAlias(s, s1);
      if path == NODE_LABEL {
        RefreshUnmirrored(cfg, s1, m);
      }
      AttributeUnmirrored(cfg, m, id, path, v);
    case NodeUpserted(n) =>
      var s1, m := UpsertMiddle(cfg, s, n, s');
      NoNewAlias(s, s1);
      RefreshUnmirrored(cfg, s1, m);
      PublishedUnmirrored(cfg, m, n, s');
    case NodeRemoved(id) => RemovalUnmirrored(cfg, s, id, s');
    case Unrelated =>
  }

  lemma RemovalUnmirrored(cfg: Config, s: State, id: nat, s': State)
    requires !cfg.publishNames && Unmirrored(s) && Handled(cfg, s, NodeRemoved(id), s')
    ensures Unmirrored(s')
  {
    var s1 := ClearNode(s, id).(nodes := s.nodes - {id});
    NoNewAlias(s, s1);
    RefreshUnmirrored(cfg, s1, s');
  }

  lemma OfflineUnmirrored(s: State, s': State)
    requires Unmirrored(s) && MarkedOffline(s, s')
    ensures Unmirrored(s')
  {
    forall t | t in s'.retained ensures !t.Alias? {
      assert At(s'.retained, t).Some?;
    }
  }

  lemma UnmirroredOn(cfg: Config, ys: seq<System>, steps: seq<Step>, k: nat)
    requires IsRun(cfg, ys, steps) && !cfg.publishNames && 0 < k < |ys| && Unmirrored(ys[k - 1].s)
    ensures Unmirrored(ys[k].s)
  {
    RunStep(cfg, ys, steps, k);
    var s, s' := ys[k - 1].s, ys[k].s;
    match steps[k - 1]
    case Start(list) =>
      var s0 := s.(nodes := Listed(list), names := ListNames(cfg.fold, list), index := s'.index);
      NoNewAlias(s, s0);
      AllPublishedUnmirrored(cfg, s0, list, s');
    case Handle(ev) => EventUnmirrored(cfg, s, ev, s');
    case Cleared(id) => NoNewAlias(s, s');
    case Lost => OfflineUnmirrored(s, s');
  }

  /** With name publishing off no run ever records or retains an alias. */
  lemma {:induction false} RunUnmirrored(cfg: Config, ys: seq<System>, steps: seq<Step>, k: nat)
    requires IsRun(cfg, ys, steps) && !cfg.publishNames && k < |ys|
    ensures forall t :: t in ys[k].s.retained || IsTracked(ys[k].s, t) ==> !t.Alias?
    ensures Unmirrored(ys[k].s)
  {
    if k == 0 {
    } else {
      RunUnmirrored(cfg, ys, steps, k - 1);
      UnmirroredOn(cfg, ys, steps, k);
    }
  }

  // ---------- what a cached node shows ----------

  /** A retained value is the cached one, null standing for none. */
  function Shown(v: Json): Payload {
    if v == NoBytes then Value(Null) else Value(v)
  }

  lemma ShownTopic(cfg: Config, s: State, n: Node, up: bool, t: Topic)
    requires Keyed(s.nodes) && n.id in s.nodes && s.nodes[n.id] == n && NodeAgrees(cfg, s, n.id, up) && Publishes(cfg, s.names, n, t)
    ensures Shows(cfg, s.names, View(n, up), t, At(s.retained, t))
  {
  }

  /** In every run with unique names and separate records, what each cached node shows that is not being
      removed: whether it is online, its name or nothing, a descriptor with its name, and every attribute. */
  lemma RunShows(cfg: Config, ys: seq<System>, steps: seq<Step>, k: nat, id: nat)
    requires IsRun(cfg, ys, steps) && Unclashed(cfg, ys) && Separated(ys) && k < |ys|
    requires id in ys[k].s.nodes && id !in ys[k].removing
    ensures var s, n, up := ys[k].s, ys[k].s.nodes[id], ys[k].up;
      && At(s.retained, Availability(id)) == Some(Word(if up && n.available then "online" else "offline"))
      && At(s.retained, NameTopic(id)) == (if id in s.names then Some(Word(s.names[id])) else None)
      && At(s.retained, Descriptor(id)).Some? && s.retained[Descriptor(id)].Document? && s.retained[Descriptor(id)].name == NameAt(s.names, id)
    ensures cfg.retain ==> forall path | path in ys[k].s.nodes[id].attrs && |Split(path)| == 3 ::
      At(ys[k].s.retained, Attr(id, path)) == Some(Shown(ys[k].s.nodes[id].attrs[path]))
  {
    RunSafe(cfg, ys, steps, k);
    var s, n, up := ys[k].s, ys[k].s.nodes[id], ys[k].up;
    NamesNonEmpty(cfg.fold, s.nodes);
    ShownTopic(cfg, s, n, up, Availability(id));
    ShownTopic(cfg, s, n, up, NameTopic(id));
    ShownTopic(cfg, s, n, up, Descriptor(id));
    if cfg.retain {
      forall path | path in n.attrs && |Split(path)| == 3 ensures At(s.retained, Attr(id, path)) == Some(Shown(n.attrs[path])) {
        JoinSplit(path);
        ShownTopic(cfg, s, n, up, Attr(id, path));
      }
    }
  }

  /** A node report leaves a descriptor of the node as reported, under its name at that time. */
  lemma ReportDescribes(cfg: Config, s: State, n: Node, s': State)
    requires Keyed(s.nodes) && Handled(cfg, s, NodeUpserted(n), s')
    ensures At(s'.retained, Descriptor(n.id)) == Some(Document(n, NameAt(s'.names, n.id)))
    ensures s'.nodes == s.nodes[n.id := n] && s'.names == NamesOf(cfg.fold, s'.nodes)
  {
    var s1, m := UpsertMiddle(cfg, s, n, s');
    RefreshNodes(cfg, s1, m);
    assert Publishes(cfg, m.names, n, Descriptor(n.id));
    assert Expects(cfg, m.names, n, Descriptor(n.id), At(s'.retained, Descriptor(n.id)));
  }

  /** A requested removal leaves no record of the node and nothing its record held. */
  lemma RequestClears(cfg: Config, y: System, id: nat, y': System)
    requires Next(cfg, y, Cleared(id), y')
    ensures id !in y'.s.topics && id in y'.removing && y'.s.nodes == y.s.nodes
    ensures forall t :: At(y'.s.retained, t) == if id in y.s.topics && t in y.s.topics[id] then None else At(y.s.retained, t)
  {
  }

  // ---------- with the mirror on ----------

  /** The alias of an attribute: there is one exactly when names are published, the node has a name, and
      the model file names both the cluster and the attribute. */
  lemma AliasIff(cfg: Config, file: ModelFile, names: map<nat, string>, id: nat, path: string, alias: string)
    requires WellFormed(cfg.fold, file) && Loaded(cfg.fold, file, cfg.model)
    ensures AliasOf(cfg, names, id, path) == Some(alias) <==> cfg.publishNames && id in names && FileAlias(file, path, alias)
  {
    NamePathIff(cfg.fold, file, cfg.model, path, alias);
    JoinSplit(path);
  }

  /** Such an attribute is mirrored under the node's name, with its value. */
  lemma RunMirrored(cfg: Config, file: ModelFile, ys: seq<System>, steps: seq<Step>, k: nat, id: nat, path: string, alias: string)
    requires IsRun(cfg, ys, steps) && Unclashed(cfg, ys) && Separated(ys) && k < |ys|
    requires WellFormed(cfg.fold, file) && Loaded(cfg.fold, file, cfg.model)
    requires id in ys[k].s.nodes && id !in ys[k].removing && path in ys[k].s.nodes[id].attrs
    requires forall q :: q in ys[k].s.nodes[id].attrs && |Split(q)| == 3 ==> CanonicalPath(q) || forall x :: !FileAlias(file, q, x)
    requires cfg.retain && cfg.publishNames && id in ys[k].s.names && FileAlias(file, path, alias)
    ensures At(ys[k].s.retained, Alias(ys[k].s.names[id], alias)) == Some(Shown(ys[k].s.nodes[id].attrs[path]))
  {
    RunSafe(cfg, ys, steps, k);
    CanonicalAliases(cfg, file, ys[k].s, id);
    AliasIff(cfg, file, ys[k].s.names, id, path, alias);
    MirroredAt(cfg, file, ys[k].s, id, path, alias, ys[k].up);
  }

  lemma MirroredAt(cfg: Config, file: ModelFile, s: State, id: nat, path: string, alias: string, up: bool)
    requires WellFormed(cfg.fold, file) && Loaded(cfg.fold, file, cfg.model)
    requires Keyed(s.nodes) && id in s.nodes && path in s.nodes[id].attrs && NodeAgrees(cfg, s, id, up)
    requires AliasedCanonically(cfg, s, id) && cfg.retain && AliasOf(cfg, s.names, id, path) == Some(alias)
    ensures id in s.names && At(s.retained, Alias(s.names[id], alias)) == Some(Shown(s.nodes[id].attrs[path]))
  {
    var q := AliasHolder(cfg, s, id, path, alias, up);
    assert CanonicalPath(path) && CanonicalPath(q);
    AliasInjective(cfg.fold, file, cfg.model, path, q);
  }

  lemma CanonicalAliases(cfg: Config, file: ModelFile, s: State, id: nat)
    requires WellFormed(cfg.fold, file) && Loaded(cfg.fold, file, cfg.model) && id in s.nodes
    requires forall q :: q in s.nodes[id].attrs && |Split(q)| == 3 ==> CanonicalPath(q) || forall x :: !FileAlias(file, q, x)
    ensures AliasedCanonically(cfg, s, id)
  {
    forall q | q in s.nodes[id].attrs && AliasOf(cfg, s.names, id, q).Some? ensures CanonicalPath(q) {
      AliasIff(cfg, file, s.names, id, q, AliasOf(cfg, s.names, id, q).value);
    }
  }

  /** A cached node that is not being removed carries the name and has an attribute the file names so. */
  ghost predicate Mirrors(file: ModelFile, s: State, key: string, alias: string) {
    exists id, path :: MirrorsAs(file, s, key, alias, id, path)
  }

  ghost predicate MirrorsAs(file: ModelFile, s: State, key: string, alias: string, id: nat, path: string) {
    id in s.nodes && id in s.names && s.names[id] == key && path in s.nodes[id].attrs && FileAlias(file, path, alias)
  }

  lemma DescribedAlias(cfg: Config, file: ModelFile, s: State, key: string, alias: string)
    requires WellFormed(cfg.fold, file) && Loaded(cfg.fold, file, cfg.model) && Keyed(s.nodes)
    ensures Described(cfg, s, Alias(key, alias)) <==> cfg.retain && cfg.publishNames && Mirrors(file, s, key, alias)
  {
    var t := Alias(key, alias);
    if Described(cfg, s, t) {
      var id :| id in s.nodes && Publishes(cfg, s.names, s.nodes[id], t);
      var path :| path in s.nodes[id].attrs && AliasOf(cfg, s.names, id, path) == Some(alias);
      AliasIff(cfg, file, s.names, id, path, alias);
      assert MirrorsAs(file, s, key, alias, id, path);
    }
    if cfg.retain && cfg.publishNames && Mirrors(file, s, key, alias) {
      var id, path :| MirrorsAs(file, s, key, alias, id, path);
      AliasIff(cfg, file, s.names, id, path, alias);
      assert Publishes(cfg, s.names, s.nodes[id], t);
    }
  }

  /** Throughout a tidy session an alias is retained exactly when names are published and some cached node
      of that name has an attribute the model file names so, nodes being removed excepted. */
  lemma SessionMirror(cfg: Config, file: ModelFile, ys: seq<System>, steps: seq<Step>, b: nat, e: nat, k: nat, key: string, alias: string)
    requires IsSession(cfg, ys, steps, b, e) && b < k <= e
    requires WellFormed(cfg.fold, file) && Loaded(cfg.fold, file, cfg.model)
    requires forall id :: id in ys[k].removing && id in ys[k].s.names ==> ys[k].s.names[id] != key
    ensures Alias(key, alias) in ys[k].s.retained <==> cfg.retain && cfg.publishNames && Mirrors(file, ys[k].s, key, alias)
  {
    RunKeeps(cfg, ys, steps, k);
    SessionExact(cfg, ys, steps, b, e, k, Alias(key, alias));
    DescribedAlias(cfg, file, ys[k].s, key, alias);
  }
}
