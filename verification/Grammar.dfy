/** What the bridge publishes stays within the topic grammar: over every run each recorded and each
    retained topic has the levels it should, and none is taken for a command. */
module Grammar {
  import opened Text
  import opened Fabric
  import opened Naming
  import opened NameIndex
  import opened DataModel
  import opened Topics
  import opened Retained
  import opened Agreement
  import opened Runs
  import opened Sessions
  import opened Commands

  // ---------- what one publication emits ----------

  ghost predicate PlainNames(names: map<nat, string>) {
    forall id :: id in names ==> NoSlash(names[id])
  }

  lemma NamesOfPlain(f: Folding, nodes: Cache)
    ensures PlainNames(NamesOf(f, nodes))
  {
    forall id | id in NamesOf(f, nodes) ensures NoSlash(NamesOf(f, nodes)[id]) {
      NameSafe(f, nodes, id);
    }
  }

  /** The last level of a path. */
  function LastLevel(path: string): string {
    Split(path)[|Split(path)| - 1]
  }

  /** With `quiet`, nothing may be called `command`. */
  predicate PathOk(path: string, quiet: bool) {
    quiet ==> LastLevel(path) != "command"
  }

  ghost predicate ModelOk(m: Model, quiet: bool) {
    quiet ==> forall c: nat, a: nat :: AttributeName(m, c, a) != "command"
  }

  ghost predicate NodeOk(n: Node, quiet: bool) {
    forall path :: path in n.attrs ==> PathOk(path, quiet)
  }

  /** The topic has the levels it should and, with `quiet`, no command filter matches it. */
  ghost predicate TopicOk(t: Topic, quiet: bool) {
    Publishable(t) && (quiet ==> !IsCommand(Levels(t)))
  }

  /** The topics with a path, and the rest. */
  lemma TopicOkIff(t: Topic, quiet: bool)
    requires Publishable(t)
    ensures TopicOk(t, quiet) <==> (t.Attr? || t.Alias? ==> PathOk(t.path, quiet))
  {
    OwnTopicIsCommand(t);
  }

  ghost predicate Usable(cfg: Config, file: ModelFile, quiet: bool) {
    WellFormed(cfg.fold, file) && Loaded(cfg.fold, file, cfg.model) && ModelOk(cfg.model, quiet)
  }

  /** An alias has three levels, the last of them an attribute name of the model. */
  lemma AliasOk(cfg: Config, file: ModelFile, path: string, quiet: bool)
    requires Usable(cfg, file, quiet) && NamePath(cfg.model, path).Some?
    ensures CountSlash(NamePath(cfg.model, path).value) == 2 && PathOk(NamePath(cfg.model, path).value, quiet)
  {
    var c, a := NamePathParts(cfg.model, path);
    AliasLevels(cfg.fold, file, cfg.model, path, c, a);
    JoinSplit(NamePath(cfg.model, path).value);
  }

  lemma PathTopicOk(cfg: Config, file: ModelFile, names: map<nat, string>, id: nat, path: string, t: Topic, quiet: bool)
    requires Usable(cfg, file, quiet) && PlainNames(names) && PathTopic(cfg, names, id, path, t)
    requires CountSlash(path) == 2 && PathOk(path, quiet)
    ensures TopicOk(t, quiet)
  {
    if t.Alias? {
      AliasOk(cfg, file, path, quiet);
    }
    TopicOkIff(t, quiet);
  }

  /** Whatever a full publication of a node writes stays within the grammar. */
  lemma PublishesOk(cfg: Config, file: ModelFile, names: map<nat, string>, n: Node, t: Topic, quiet: bool)
    requires Usable(cfg, file, quiet) && PlainNames(names) && NodeOk(n, quiet) && Publishes(cfg, names, n, t)
    ensures TopicOk(t, quiet)
  {
    if t.Attr? {
      PathTopicOk(cfg, file, names, n.id, t.path, t, quiet);
    } else if t.Alias? {
      var path :| path in n.attrs && AliasOf(cfg, names, n.id, path) == Some(t.path);
      PathTopicOk(cfg, file, names, n.id, path, t, quiet);
    } else {
      TopicOkIff(t, quiet);
    }
  }

  // ---------- what every step keeps ----------

  ghost predicate TopicsOk(s: State, quiet: bool) {
    && (forall id, t :: id in s.topics && t in s.topics[id] ==> TopicOk(t, quiet))
    && (forall t :: t in s.retained ==> TopicOk(t, quiet))
  }

  ghost predicate CacheOk(nodes: Cache, quiet: bool) {
    forall id :: id in nodes ==> NodeOk(nodes[id], quiet)
  }

  /** Nothing was recorded or retained that was not before. */
  lemma FewerTopicsOk(s: State, s': State, quiet: bool)
    requires TopicsOk(s, quiet)
    requires forall id, t :: id in s'.topics && t in s'.topics[id] ==> t in Tracked(s, id)
    requires forall t :: t in s'.retained ==> t in s.retained
    ensures TopicsOk(s', quiet)
  {
  }

  lemma PublishedOk(cfg: Config, file: ModelFile, s: State, n: Node, s': State, quiet: bool)
    requires Usable(cfg, file, quiet) && PlainNames(s.names) && NodeOk(n, quiet) && TopicsOk(s, quiet)
    requires NodePublished(cfg, s, n, s')
    ensures TopicsOk(s', quiet)
  {
    forall t | Publishes(cfg, s.names, n, t) ensures TopicOk(t, quiet) {
      PublishesOk(cfg, file, s.names, n, t, quiet);
    }
    forall t | t in s'.retained ensures TopicOk(t, quiet) {
      assert Publishes(cfg, s.names, n, t) || At(s'.retained, t) == At(s.retained, t);
    }
  }

  lemma FrontOk(list: seq<Node>, quiet: bool)
    requires list != [] && forall k :: 0 <= k < |list| ==> NodeOk(list[k], quiet)
    ensures NodeOk(Last(list), quiet) && forall k :: 0 <= k < |Front(list)| ==> NodeOk(Front(list)[k], quiet)
  {
    forall k | 0 <= k < |Front(list)| ensures NodeOk(Front(list)[k], quiet) {
      assert Front(list)[k] == list[k];
    }
    assert Last(list) == list[|list| - 1];
  }

  lemma {:induction false} AllPublishedOk(cfg: Config, file: ModelFile, s: State, list: seq<Node>, s': State, quiet: bool)
    requires Usable(cfg, file, quiet) && PlainNames(s.names) && TopicsOk(s, quiet)
    requires forall k :: 0 <= k < |list| ==> NodeOk(list[k], quiet)
    requires NodesPublished(cfg, s, list, s')
    ensures TopicsOk(s', quiet) && SameView(s, s')
    decreases |list|
  {
    if list == [] {
    } else {
      var m := BeforeLast(cfg, s, list, s');
      FrontOk(list, quiet);
      AllPublishedOk(cfg, file, s, Front(list), m, quiet);
      PublishedOk(cfg, file, m, Last(list), s', quiet);
    }
  }

  lemma ClearAllOk(s: State, ids: seq<nat>, quiet: bool)
    requires TopicsOk(s, quiet)
    ensures TopicsOk(ClearAll(s, ids), quiet)
  {
    ClearAllEffect(s, ids);
    var r := ClearAll(s, ids);
    forall t | t in r.retained ensures t in s.retained {
      assert At(r.retained, t).Some?;
    }
    FewerTopicsOk(s, r, quiet);
  }

  lemma RefreshOk(cfg: Config, file: ModelFile, s: State, m: State, quiet: bool)
    requires Usable(cfg, file, quiet) && Keyed(s.nodes) && CacheOk(s.nodes, quiet) && TopicsOk(s, quiet)
    requires Refreshed(cfg, s, m)
    ensures TopicsOk(m, quiet) && PlainNames(m.names)
  {
    var ids := RefreshIds(cfg, s, m);
    NamesOfPlain(cfg.fold, s.nodes);
    ClearAllOk(Renamed(s, m), ids, quiet);
    ClearAllEffect(Renamed(s, m), ids);
    PickedIn(s.nodes, ids, 0);
    AllPublishedOk(cfg, file, ClearAll(Renamed(s, m), ids), Picked(s.nodes, ids), m, quiet);
  }

  lemma TrackedTopicOk(s: State, id: nat, t: Topic, p: Payload, retain: bool, quiet: bool)
    requires TopicsOk(s, quiet) && TopicOk(t, quiet)
    ensures TopicsOk(PublishTracked(s, id, t, p, retain), quiet)
  {
  }

  lemma AttributeOk(cfg: Config, file: ModelFile, m: State, id: nat, path: string, v: Json, quiet: bool)
    requires Usable(cfg, file, quiet) && PlainNames(m.names) && PathOk(path, quiet) && TopicsOk(m, quiet)
    ensures TopicsOk(PublishAttribute(cfg, m, id, path, v), quiet)
  {
    if CountSlash(path) == 2 {
      PathTopicOk(cfg, file, m.names, id, path, Attr(id, path), quiet);
      TrackedTopicOk(m, id, Attr(id, path), Value(NonNil(v)), cfg.retain, quiet);
      var a := AliasOf(cfg, m.names, id, path);
      if a.Some? {
        var t := Alias(m.names[id], a.value);
        PathTopicOk(cfg, file, m.names, id, path, t, quiet);
        TrackedTopicOk(PublishTracked(m, id, Attr(id, path), Value(NonNil(v)), cfg.retain), id, t, Value(NonNil(v)), cfg.retain, quiet);
      }
    }
  }

  /** What an event may bring: paths that are not called `command`, if `quiet` is asked for. */
  ghost predicate EventOk(ev: Event, quiet: bool) {
    match ev
    case AttributeUpdated(_, path, _) => PathOk(path, quiet)
    case NodeUpserted(n) => NodeOk(n, quiet)
    case _ => true
  }

  lemma ReportKeepsOk(cfg: Config, file: ModelFile, s: State, s1: State, id: nat, path: string, v: Json, m: State, quiet: bool)
    requires Usable(cfg, file, quiet) && Named(cfg, s) && CacheOk(s.nodes, quiet) && TopicsOk(s, quiet) && PathOk(path, quiet)
    requires s1 == s.(nodes := CacheAttribute(s.nodes, id, path, v)) && Relabelled(cfg, s1, path, m)
    ensures TopicsOk(PublishAttribute(cfg, m, id, path, v), quiet) && CacheOk(s1.nodes, quiet)
  {
    if path == NODE_LABEL {
      RefreshOk(cfg, file, s1, m, quiet);
    } else {
      NamesOfPlain(cfg.fold, s.nodes);
    }
    AttributeOk(cfg, file, m, id, path, v, quiet);
  }

  lemma MoreCacheOk(nodes: Cache, n: Node, quiet: bool)
    requires CacheOk(nodes, quiet) && NodeOk(n, quiet)
    ensures CacheOk(nodes[n.id := n], quiet)
  {
  }

  lemma UpsertKeepsOk(cfg: Config, file: ModelFile, s: State, n: Node, s1: State, m: State, s': State, quiet: bool)
    requires Usable(cfg, file, quiet) && Named(cfg, s) && CacheOk(s.nodes, quiet) && TopicsOk(s, quiet) && NodeOk(n, quiet)
    requires s1 == s.(nodes := s.nodes[n.id := n]) && Refreshed(cfg, s1, m) && NodePublished(cfg, m, n, s')
    ensures TopicsOk(s', quiet) && CacheOk(s1.nodes, quiet)
  {
    MoreCacheOk(s.nodes, n, quiet);
    RefreshOk(cfg, file, s1, m, quiet);
    PublishedOk(cfg, file, m, n, s', quiet);
  }

  lemma RemovalKeepsOk(cfg: Config, file: ModelFile, s: State, id: nat, s': State, quiet: bool)
    requires Usable(cfg, file, quiet) && Named(cfg, s) && CacheOk(s.nodes, quiet) && TopicsOk(s, quiet)
    requires Handled(cfg, s, NodeRemoved(id), s')
    ensures TopicsOk(s', quiet) && CacheOk(s.nodes - {id}, quiet)
  {
    FewerTopicsOk(s, ClearNode(s, id), quiet);
    RefreshOk(cfg, file, ClearNode(s, id).(nodes := s.nodes - {id}), s', quiet);
  }

  lemma EventKeepsOk(cfg: Config, file: ModelFile, s: State, ev: Event, s': State, quiet: bool)
    requires Usable(cfg, file, quiet) && Named(cfg, s) && CacheOk(s.nodes, quiet) && TopicsOk(s, quiet) && EventOk(ev, quiet)
    requires Handled(cfg, s, ev, s')
    ensures TopicsOk(s', quiet) && CacheOk(NextNodes(s.nodes, ev), quiet)
  {
    match ev
    case AttributeUpdated(id, path, v) =>
      var s1, m := AttributeMiddle(cfg, s, id, path, v, s');
      ReportKeepsOk(cfg, file, s, s1, id, path, v, m, quiet);
    case NodeUpserted(n) =>
      var s1, m := UpsertMiddle(cfg, s, n, s');
      UpsertKeepsOk(cfg, file, s, n, s1, m, s', quiet);
    case NodeRemoved(id) => RemovalKeepsOk(cfg, file, s, id, s', quiet);
    case Unrelated =>
  }

  lemma StartKeepsOk(cfg: Config, file: ModelFile, s: State, list: seq<Node>, s': State, quiet: bool)
    requires Usable(cfg, file, quiet) && TopicsOk(s, quiet) && Distinct(list) && Started(cfg, s, list, s')
    requires forall k :: 0 <= k < |list| ==> NodeOk(list[k], quiet)
    ensures TopicsOk(s', quiet) && CacheOk(s'.nodes, quiet)
  {
    var s0 := s.(nodes := Listed(list), names := ListNames(cfg.fold, list), index := s'.index);
    StartFrame(cfg, s, list, s');
    NamesIgnoreOrder(cfg.fold, list);
    NamesOfPlain(cfg.fold, Listed(list));
    AllPublishedOk(cfg, file, s0, list, s', quiet);
    forall id | id in s'.nodes ensures NodeOk(s'.nodes[id], quiet) {
      ListedKeys(list, id);
    }
  }

  lemma OfflineKeepsOk(s: State, s': State, quiet: bool)
    requires TopicsOk(s, quiet) && MarkedOffline(s, s')
    ensures TopicsOk(s', quiet)
  {
    forall t | t in s'.retained ensures TopicOk(t, quiet) {
      assert At(s'.retained, t).Some?;
      if t.Availability? {
        TopicOkIff(t, quiet);
      }
    }
  }

  // ---------- over whole runs ----------

  ghost predicate StepOk(step: Step, quiet: bool) {
    match step
    case Start(list) => forall k :: 0 <= k < |list| ==> NodeOk(list[k], quiet)
    case Handle(ev) => EventOk(ev, quiet)
    case _ => true
  }

  lemma StepKeepsOk(cfg: Config, file: ModelFile, y: System, step: Step, y': System, quiet: bool)
    requires Usable(cfg, file, quiet) && Inv(cfg, y) && CacheOk(y.s.nodes, quiet) && TopicsOk(y.s, quiet)
    requires Next(cfg, y, step, y') && Fair(step) && StepOk(step, quiet)
    ensures CacheOk(y'.s.nodes, quiet) && TopicsOk(y'.s, quiet)
  {
    match step
    case Start(list) => StartKeepsOk(cfg, file, y.s, list, y'.s, quiet);
    case Handle(ev) =>
      EventTracking(cfg, y.s, ev, y'.s, y.adrift);
      EventKeepsOk(cfg, file, y.s, ev, y'.s, quiet);
    case Cleared(id) => FewerTopicsOk(y.s, y'.s, quiet);
    case Lost => OfflineKeepsOk(y.s, y'.s, quiet);
  }

  lemma {:induction false} RunKeepsOk(cfg: Config, file: ModelFile, ys: seq<System>, steps: seq<Step>, k: nat, quiet: bool)
    requires IsRun(cfg, ys, steps) && k < |ys| && Usable(cfg, file, quiet)
    requires forall i :: 0 <= i < |steps| ==> StepOk(steps[i], quiet)
    ensures CacheOk(ys[k].s.nodes, quiet) && TopicsOk(ys[k].s, quiet)
  {
    if k == 0 {
    } else {
      RunKeepsOk(cfg, file, ys, steps, k - 1, quiet);
      KeepsOkOn(cfg, file, ys, steps, k, quiet);
    }
  }

  lemma KeepsOkOn(cfg: Config, file: ModelFile, ys: seq<System>, steps: seq<Step>, k: nat, quiet: bool)
    requires IsRun(cfg, ys, steps) && 0 < k < |ys| && Usable(cfg, file, quiet) && StepOk(steps[k - 1], quiet)
    requires CacheOk(ys[k - 1].s.nodes, quiet) && TopicsOk(ys[k - 1].s, quiet)
    ensures CacheOk(ys[k].s.nodes, quiet) && TopicsOk(ys[k].s, quiet)
  {
    RunKeeps(cfg, ys, steps, k - 1);
    RunStep(cfg, ys, steps, k);
    StepKeepsOk(cfg, file, ys[k - 1], steps[k - 1], ys[k], quiet);
  }

  lemma AnyStepOk(step: Step)
    ensures StepOk(step, false)
  {
  }

  /** In every run every recorded and every retained topic has the levels of its kind, so the
      retained store keyed by topic is the broker's, keyed by string. */
  lemma RunStoreFaithful(cfg: Config, file: ModelFile, ys: seq<System>, steps: seq<Step>, k: nat, prefix: string, t: Topic, u: Topic)
    requires IsRun(cfg, ys, steps) && k < |ys| && WellFormed(cfg.fold, file) && Loaded(cfg.fold, file, cfg.model)
    requires (t in ys[k].s.retained || IsTracked(ys[k].s, t)) && (u in ys[k].s.retained || IsTracked(ys[k].s, u))
    ensures Publishable(t) && Publishable(u)
    ensures Render(prefix, t) == Render(prefix, u) ==> t == u
  {
    forall i | 0 <= i < |steps| ensures StepOk(steps[i], false) {
      AnyStepOk(steps[i]);
    }
    RunKeepsOk(cfg, file, ys, steps, k, false);
    assert TopicOk(t, false) && TopicOk(u, false);
    if Render(prefix, t) == Render(prefix, u) {
      RenderInjective(prefix, t, u);
    }
  }

  /** If no attribute is called `command`, neither in the model nor by the fabric, no topic the bridge
      records or leaves on the broker is ever heard as a command. */
  lemma RunHearsNoEcho(cfg: Config, file: ModelFile, ys: seq<System>, steps: seq<Step>, k: nat, t: Topic)
    requires IsRun(cfg, ys, steps) && k < |ys| && Usable(cfg, file, true)
    requires forall i :: 0 <= i < |steps| ==> StepOk(steps[i], true)
    requires t in ys[k].s.retained || IsTracked(ys[k].s, t)
    ensures !IsCommand(Levels(t))
  {
    RunKeepsOk(cfg, file, ys, steps, k, true);
    assert TopicOk(t, true);
  }
}
