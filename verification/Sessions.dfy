/** Runs: sessions come and go, events are handled, requested removals clear topics early, and after
    every step the retained tree agrees with the cached fabric. */
module Sessions {
  import opened Text
  import opened Fabric
  import opened Naming
  import opened NameIndex
  import opened DataModel
  import opened Topics
  import opened Retained
  import opened Agreement
  import opened Runs

  // ---------- starting a session ----------

  /** Every alias recorded by an earlier session belongs to a node that still carries that name. */
  ghost predicate KeptNames(s: State, names: map<nat, string>) {
    forall id, t :: id in s.topics && t in s.topics[id] && t.Alias? ==> Owns(names, id, t)
  }

  lemma StartFrame(cfg: Config, s: State, list: seq<Node>, s': State)
    requires Started(cfg, s, list, s') && Distinct(list)
    ensures Named(cfg, s') && s'.nodes == Listed(list)
  {
    var s0 := s.(nodes := Listed(list), names := ListNames(cfg.fold, list), index := s'.index);
    RecordsGrow(cfg, s0, list, s', 0);
    NamesIgnoreOrder(cfg.fold, list);
    forall id | id in s'.nodes ensures s'.nodes[id].id == id {
      ListedKeys(list, id);
    }
  }

  /** A new session publishes without looking at what the last one left, so records stay under
      current names exactly when every node with recorded aliases kept its name meanwhile. Publishing
      a node takes its availability topic back into its record. */
  lemma StartTracksIffKept(cfg: Config, s: State, list: seq<Node>, s': State, adrift: set<nat>)
    requires Recorded(s, adrift) && Distinct(list) && Started(cfg, s, list, s')
    ensures Recorded(s', adrift - Ids(list)) && Unrecorded(s') <= Unrecorded(s)
    ensures Aliased(s') <==> KeptNames(s, NamesOf(cfg.fold, Listed(list)))
  {
    NamesIgnoreOrder(cfg.fold, list);
    var s0 := s.(nodes := Listed(list), names := ListNames(cfg.fold, list), index := s'.index);
    StartTracking(s, s0, adrift);
    AllPublishedTracking(cfg, s0, list, s', adrift);
    if !KeptNames(s, s0.names) {
      StartLosesTrack(cfg, s, s0, list, s');
    }
  }

  lemma StartLosesTrack(cfg: Config, s: State, s0: State, list: seq<Node>, s': State)
    requires NodesPublished(cfg, s0, list, s') && s0.topics == s.topics && !KeptNames(s, s0.names)
    ensures !Aliased(s')
  {
    var id, t :| id in s.topics && t in s.topics[id] && t.Alias? && !Owns(s0.names, id, t);
    RecordsGrow(cfg, s0, list, s', id);
    assert t in s'.topics[id];
  }

  lemma StartTracking(s: State, s0: State, adrift: set<nat>)
    requires Recorded(s, adrift) && s0.topics == s.topics && s0.retained == s.retained
    ensures Recorded(s0, adrift) && Unrecorded(s0) == Unrecorded(s) && (KeptNames(s, s0.names) ==> Aliased(s0))
  {
    forall id, t | id in s0.topics && t in s0.topics[id] && !t.Alias? ensures Owns(s0.names, id, t) {
      SameOwner(s.names, s0.names, id, t);
    }
    forall t | t in s0.retained ensures IsTracked(s0, t) || IsAdrift(s0, adrift, t) {
      assert IsTracked(s, t) || IsAdrift(s, adrift, t);
    }
  }

  /** Every node of the list has a record afterwards. */
  lemma StartRecords(cfg: Config, s: State, list: seq<Node>, s': State)
    requires Distinct(list) && Started(cfg, s, list, s')
    ensures s'.topics.Keys == s.topics.Keys + Ids(list) && s'.nodes.Keys == Ids(list)
  {
    var s0 := s.(nodes := Listed(list), names := ListNames(cfg.fold, list), index := s'.index);
    StartFrame(cfg, s, list, s');
    PublishedKeys(cfg, s0, list, s');
    forall id ensures id in s'.nodes <==> id in Ids(list) {
      ListedKeys(list, id);
      InListIds(list, id);
    }
  }

  /** Every listed node is published and agrees, whatever the store held before. */
  lemma StartAgrees(cfg: Config, s: State, list: seq<Node>, s': State)
    requires Distinct(list) && Started(cfg, s, list, s') && Injective(s'.names)
    ensures Agree(cfg, s', {}, true)
  {
    var s0 := s.(nodes := Listed(list), names := ListNames(cfg.fold, list), index := s'.index);
    RecordsGrow(cfg, s0, list, s', 0);
    forall id | id in s'.nodes ensures NodeAgrees(cfg, s', id, true) {
      ListedKeys(list, id);
      var k :| 0 <= k < |list| && list[k] == s'.nodes[id];
      forall t | Publishes(cfg, s'.names, list[k], t) ensures Shows(cfg, s'.names, list[k], t, At(s'.retained, t)) {
        ListedPublished(cfg, s0, list, s', k, t);
      }
    }
  }

  /** Two sessions, one node: it was `A` before the connection dropped and is `B` after it. The
      alias under `A` is still recorded, and still retained. */
  lemma OfflineRenameLeavesAlias(cfg: Config, s: State, list: seq<Node>, s': State, id: nat, key: string, path: string)
    requires Distinct(list) && Started(cfg, s, list, s')
    requires Alias(key, path) in Tracked(s, id) && Alias(key, path) in s.retained
    requires forall j :: j in s'.names ==> s'.names[j] != key
    ensures !Aliased(s') && Alias(key, path) in s'.retained
  {
    var s0 := s.(nodes := Listed(list), names := ListNames(cfg.fold, list), index := s'.index);
    StartFrame(cfg, s, list, s');
    RecordsGrow(cfg, s0, list, s', id);
    AliasSurvives(cfg, s0, list, s', Alias(key, path));
  }

  /** Worse, if another node takes the name meanwhile: the old owner's record then holds aliases of the
      new one, and will clear them with its own. */
  lemma HandoverEntangles(cfg: Config, s: State, list: seq<Node>, s': State, i: nat, j: nat, key: string, path: string)
    requires Distinct(list) && Started(cfg, s, list, s') && Injective(s'.names)
    requires Alias(key, path) in Tracked(s, i) && j != i && j in s'.nodes && Publishes(cfg, s'.names, s'.nodes[j], Alias(key, path))
    ensures Entangled(cfg, s', i, {})
  {
    var t := Alias(key, path);
    var s0 := s.(nodes := Listed(list), names := ListNames(cfg.fold, list), index := s'.index);
    RecordsGrow(cfg, s0, list, s', i);
    StartAgrees(cfg, s, list, s');
    assert NodeAgrees(cfg, s', j, true);
    assert Shows(cfg, s'.names, View(s'.nodes[j], true), t, At(s'.retained, t));
    assert AliasedValue(cfg, s'.names, View(s'.nodes[j], true), path, At(s'.retained, t));
    assert t in Tracked(s', i) && t in s'.retained;
  }

  lemma {:induction false} AliasSurvives(cfg: Config, s: State, list: seq<Node>, s': State, t: Topic)
    requires NodesPublished(cfg, s, list, s') && t in s.retained
    requires forall id :: !Owns(s.names, id, t)
    ensures SameView(s, s') && t in s'.retained
    decreases |list|
  {
    if list == [] {
    } else {
      var m := BeforeLast(cfg, s, list, s');
      AliasSurvives(cfg, s, Front(list), m, t);
      PublishesOwns(cfg, m.names, Last(list), t);
      assert At(s'.retained, t) == At(m.retained, t);
    }
  }

  // ---------- losing one ----------

  /** Going offline sets adrift exactly the nodes whose record does not hold their availability
      topic. */
  lemma OfflineTracking(s: State, s': State, adrift: set<nat>, adrift': set<nat>)
    requires Recorded(s, adrift) && MarkedOffline(s, s') && adrift <= adrift'
    ensures Recorded(s', adrift') <==> Unrecorded(s) <= adrift'
  {
    if Unrecorded(s) <= adrift' {
      forall t | t in s'.retained ensures IsTracked(s', t) || IsAdrift(s', adrift', t) {
        assert At(s'.retained, t).Some?;
        if t.Availability? && t.id in s.topics {
          assert t in s'.topics[t.id] || t.id in Unrecorded(s);
        } else {
          assert IsTracked(s, t) || IsAdrift(s, adrift, t);
        }
      }
    }
    if Recorded(s', adrift') {
      forall id | id in Unrecorded(s) ensures id in adrift' {
        var t := Availability(id);
        assert At(s'.retained, t).Some?;
        NumericRecord(s', id, t, adrift');
      }
    }
  }

  lemma OfflineAgrees(cfg: Config, s: State, s': State, skip: set<nat>, up: bool)
    requires Keyed(s.nodes) && Agree(cfg, s, skip, up) && s.nodes.Keys - skip <= s.topics.Keys && MarkedOffline(s, s')
    ensures Agree(cfg, s', skip, false)
  {
    forall id | id in s'.nodes && id !in skip ensures NodeAgrees(cfg, s', id, false) {
      forall t | Publishes(cfg, s.names, s.nodes[id], t)
        ensures Shows(cfg, s.names, View(s.nodes[id], false), t, At(s'.retained, t))
      {
        assert id in s.topics && Shows(cfg, s.names, View(s.nodes[id], up), t, At(s.retained, t));
        if t.Alias? {
          assert AliasedValue(cfg, s.names, s.nodes[id], t.path, At(s.retained, t));
          var path :| path in s.nodes[id].attrs && AliasOf(cfg, s.names, id, path) == Some(t.path)
            && At(s.retained, t) == Some(Value(NonNil(s.nodes[id].attrs[path])));
          assert path in View(s.nodes[id], false).attrs;
        }
      }
    }
  }

  /** An attribute report leaves its node with a record that lacks the availability topic exactly
      when the node had no record, the report is retained, and it does not rename a cached node. */
  lemma StrayReport(cfg: Config, s: State, id: nat, path: string, v: Json, s': State, adrift: set<nat>)
    requires Named(cfg, s) && Recorded(s, adrift) && Handled(cfg, s, AttributeUpdated(id, path, v), s') && id !in Unrecorded(s)
    ensures id in Unrecorded(s') <==>
      && id !in s.topics && cfg.retain && CountSlash(path) == 2
      && !(path == NODE_LABEL && id in s.nodes && NameAt(s.names, id) != NameAt(s'.names, id))
  {
    var s1, m := AttributeMiddle(cfg, s, id, path, v, s');
    TrackingIgnoresNodes(s, s1.nodes, adrift);
    RelabelTracking(cfg, s, s1, id, path, v, m, adrift);
    PublishAttributeTracking(cfg, m, id, path, v, adrift);
    PublishAttributeEffect(cfg, m, id, path, v, Availability(id));
    if path == NODE_LABEL {
      RefreshedKeys(cfg, s1, m, id);
    }
  }

  /** A report about a node the bridge neither caches nor has a record of, an end of the session, and
      a removal: the node's availability topic stays on the broker, with nobody to clear it. */
  lemma StrayAvailabilityStays(cfg: Config, s: State, id: nat, path: string, v: Json, s1: State, s2: State, s3: State)
    requires Named(cfg, s) && Recorded(s, {}) && id !in s.nodes && id !in s.topics && cfg.retain && CountSlash(path) == 2
    requires Handled(cfg, s, AttributeUpdated(id, path, v), s1) && MarkedOffline(s1, s2) && Handled(cfg, s2, NodeRemoved(id), s3)
    ensures id !in s3.nodes && id !in s3.topics && At(s3.retained, Availability(id)) == Some(Word("offline"))
  {
    StrayReport(cfg, s, id, path, v, s1, {});
    EventTracking(cfg, s, AttributeUpdated(id, path, v), s1, {});
    assert id in Unrecorded(s1);
    OfflineTracking(s1, s2, {}, Unrecorded(s1));
    assert At(s2.retained, Availability(id)) == Some(Word("offline"));
    RemovalComplete(cfg, s2, id, s3, Availability(id), Unrecorded(s1));
    EventTracking(cfg, s2, NodeRemoved(id), s3, Unrecorded(s1));
    LeftOffline(s3, id, Unrecorded(s1));
  }

  lemma LeftOffline(s: State, id: nat, adrift: set<nat>)
    requires Recorded(s, adrift) && Availability(id) in s.retained && id !in s.topics
    ensures At(s.retained, Availability(id)) == Some(Word("offline"))
  {
    NumericRecord(s, id, Availability(id), adrift);
  }

  // ---------- whole runs ----------

  /** `removing` holds the nodes whose topics a completed `remove_node` request has cleared while
      the fabric still reports them, `adrift` those whose availability topic went offline unrecorded. */
  datatype System = System(s: State, up: bool, removing: set<nat>, adrift: set<nat>)

  /** `Lost` is the end of a session, or of an attempt to open one. */
  datatype Step = Start(list: seq<Node>) | Handle(ev: Event) | Cleared(id: nat) | Lost

  const INITIAL := System(EMPTY, false, {}, {})

  ghost predicate Next(cfg: Config, y: System, step: Step, y': System) {
    match step
    case Start(list) =>
      !y.up && Started(cfg, y.s, list, y'.s) && y'.up && y'.removing == {} && y'.adrift == y.adrift - Ids(list)
    case Handle(ev) =>
      && y.up && Handled(cfg, y.s, ev, y'.s) && y'.up
      && y'.removing == (if ev.NodeUpserted? then y.removing - {ev.n.id} else y.removing)
      && y'.adrift == (if ev.NodeUpserted? then y.adrift - {ev.n.id} else y.adrift)
    case Cleared(id) => y' == System(ClearNode(y.s, id), y.up, y.removing + {id}, y.adrift)
    case Lost =>
      MarkedOffline(y.s, y'.s) && !y'.up && y'.removing == y.removing && y'.adrift == y.adrift + Unrecorded(y.s)
  }

  /** A node list has no duplicates. Nothing else is asked of the world. */
  predicate Fair(step: Step) {
    step.Start? ==> forall i, j :: 0 <= i < j < |step.list| ==> step.list[i].id != step.list[j].id
  }

  /** Names are those of the cache, every retained topic is recorded or adrift, and every cached node
      that is not being removed has a record. */
  ghost predicate Inv(cfg: Config, y: System) {
    Named(cfg, y.s) && Recorded(y.s, y.adrift) && y.s.nodes.Keys - y.removing <= y.s.topics.Keys
  }

  lemma NoClashInjective(cfg: Config, s: State)
    requires Named(cfg, s) && NoClash(cfg.fold, s.nodes)
    ensures Injective(s.names)
  {
    UniqueIffNoClash(cfg.fold, s.nodes);
    FoldUniqueInjective(cfg.fold, s.names);
  }

  lemma HandleKeeps(cfg: Config, y: System, ev: Event, y': System)
    requires Inv(cfg, y) && Next(cfg, y, Handle(ev), y')
    ensures Inv(cfg, y')
  {
    EventTracking(cfg, y.s, ev, y'.s, y.adrift);
  }

  /** Every step keeps them, whatever the labels are, whatever nodes the reports name, and whatever was
      renamed or removed while disconnected. */
  lemma StepKeeps(cfg: Config, y: System, step: Step, y': System)
    requires Inv(cfg, y) && Next(cfg, y, step, y') && Fair(step)
    ensures Inv(cfg, y')
  {
    match step
    case Start(list) =>
      StartTracksIffKept(cfg, y.s, list, y'.s, y.adrift);
      StartFrame(cfg, y.s, list, y'.s);
      StartRecords(cfg, y.s, list, y'.s);
    case Handle(ev) => HandleKeeps(cfg, y, ev, y');
    case Cleared(id) => ClearNodeTracking(y.s, id, y.adrift);
    case Lost => OfflineTracking(y.s, y'.s, y.adrift, y'.adrift);
  }

  /** Another cached node publishes a retained topic that this node's record holds. */
  ghost predicate Entangled(cfg: Config, s: State, id: nat, skip: set<nat>) {
    exists t, j :: t in Tracked(s, id) && t in s.retained && j in s.nodes && j !in skip && j != id && Publishes(cfg, s.names, s.nodes[j], t)
  }

  /** Clearing one node's topics leaves the others in agreement exactly when its record holds nothing of
      theirs. */
  lemma ClearedAgreesIff(cfg: Config, s: State, id: nat, skip: set<nat>, up: bool)
    requires Agree(cfg, s, skip, up)
    ensures Agree(cfg, ClearNode(s, id), skip + {id}, up) <==> !Entangled(cfg, s, id, skip)
  {
    var r := ClearNode(s, id);
    if Entangled(cfg, s, id, skip) {
      var t, j :| t in Tracked(s, id) && t in s.retained && j in s.nodes && j !in skip && j != id && Publishes(cfg, s.names, s.nodes[j], t);
      assert Shows(cfg, s.names, View(s.nodes[j], up), t, At(s.retained, t));
      NothingShown(cfg, s.names, View(s.nodes[j], up), t, At(s.retained, t));
      assert At(r.retained, t) == None;
    } else {
      forall j | j in r.nodes && j !in skip + {id} ensures NodeAgrees(cfg, r, j, up) {
        forall t | Publishes(cfg, s.names, s.nodes[j], t) ensures At(r.retained, t) == At(s.retained, t) {
        }
      }
    }
  }

  lemma NothingShown(cfg: Config, names: map<nat, string>, n: Node, t: Topic, p: Option<Payload>)
    requires Publishes(cfg, names, n, t) && p.Some? && Shows(cfg, names, n, t, p)
    ensures !Shows(cfg, names, n, t, None)
  {
  }

  lemma SeparateUntangled(cfg: Config, s: State, id: nat, skip: set<nat>)
    requires Separate(s) && Keyed(s.nodes)
    ensures !Entangled(cfg, s, id, skip)
  {
    forall t, j | j in s.nodes && j != id && Publishes(cfg, s.names, s.nodes[j], t) ensures t !in Tracked(s, id) {
      PublishesOwns(cfg, s.names, s.nodes[j], t);
      SeparatePrivate(s, j, t);
    }
  }

  ghost predicate RunsOn(cfg: Config, ys: seq<System>, steps: seq<Step>, i: nat)
    requires i < |steps| && |ys| == |steps| + 1
  {
    Next(cfg, ys[i], steps[i], ys[i + 1]) && Fair(steps[i])
  }

  ghost predicate IsRun(cfg: Config, ys: seq<System>, steps: seq<Step>) {
    |ys| == |steps| + 1 && ys[0] == INITIAL && forall i :: 0 <= i < |steps| ==> RunsOn(cfg, ys, steps, i)
  }

  /** Names stay unique throughout. */
  ghost predicate Unclashed(cfg: Config, ys: seq<System>) {
    forall i :: 0 <= i < |ys| ==> NoClash(cfg.fold, ys[i].s.nodes)
  }

  lemma RunStep(cfg: Config, ys: seq<System>, steps: seq<Step>, k: nat)
    requires IsRun(cfg, ys, steps) && 0 < k < |ys|
    ensures Next(cfg, ys[k - 1], steps[k - 1], ys[k]) && Fair(steps[k - 1])
  {
    assert RunsOn(cfg, ys, steps, k - 1);
  }

  lemma KeepsOn(cfg: Config, ys: seq<System>, steps: seq<Step>, k: nat)
    requires IsRun(cfg, ys, steps) && 0 < k < |ys| && Inv(cfg, ys[k - 1])
    ensures Inv(cfg, ys[k])
  {
    RunStep(cfg, ys, steps, k);
    StepKeeps(cfg, ys[k - 1], steps[k - 1], ys[k]);
  }

  /** After every step of every run the names are those of the cached fabric, and every retained topic is
      recorded, or adrift. */
  lemma {:induction false} RunKeeps(cfg: Config, ys: seq<System>, steps: seq<Step>, k: nat)
    requires IsRun(cfg, ys, steps) && k < |ys|
    ensures Inv(cfg, ys[k])
  {
    if k == 0 {
      assert NamesOf(cfg.fold, EMPTY.nodes) == EMPTY.names;
    } else {
      RunKeeps(cfg, ys, steps, k - 1);
      KeepsOn(cfg, ys, steps, k);
    }
  }

  /** No node with recorded aliases was renamed or removed while nobody listened. */
  ghost predicate Kept(cfg: Config, ys: seq<System>, steps: seq<Step>) {
    |ys| == |steps| + 1 &&
    forall i | 0 <= i < |steps| && steps[i].Start? :: KeptNames(ys[i].s, NamesOf(cfg.fold, Listed(steps[i].list)))
  }

  lemma AliasedOn(cfg: Config, ys: seq<System>, steps: seq<Step>, k: nat)
    requires IsRun(cfg, ys, steps) && Kept(cfg, ys, steps) && 0 < k < |ys| && Aliased(ys[k - 1].s)
    ensures Aliased(ys[k].s)
  {
    RunKeeps(cfg, ys, steps, k - 1);
    RunStep(cfg, ys, steps, k);
    var y, y' := ys[k - 1], ys[k];
    match steps[k - 1]
    case Start(list) => StartTracksIffKept(cfg, y.s, list, y'.s, y.adrift);
    case Handle(ev) => EventTracking(cfg, y.s, ev, y'.s, y.adrift);
    case Cleared(id) => ClearNodeTracking(y.s, id, y.adrift);
    case Lost =>
  }

  /** Then every record lies under its owner's current name, clashes or not. */
  lemma {:induction false} RunAliased(cfg: Config, ys: seq<System>, steps: seq<Step>, k: nat)
    requires IsRun(cfg, ys, steps) && Kept(cfg, ys, steps) && k < |ys|
    ensures Aliased(ys[k].s)
  {
    if k == 0 {
    } else {
      RunAliased(cfg, ys, steps, k - 1);
      AliasedOn(cfg, ys, steps, k);
    }
  }

  lemma RunInjective(cfg: Config, ys: seq<System>, steps: seq<Step>, k: nat)
    requires IsRun(cfg, ys, steps) && Unclashed(cfg, ys) && k < |ys|
    ensures Inv(cfg, ys[k]) && Injective(ys[k].s.names)
  {
    RunKeeps(cfg, ys, steps, k);
    NoClashInjective(cfg, ys[k].s);
  }

  /** No record ever holds an alias that another node carries. */
  ghost predicate Separated(ys: seq<System>) {
    forall i :: 0 <= i < |ys| ==> Separate(ys[i].s)
  }

  lemma KeptSeparated(cfg: Config, ys: seq<System>, steps: seq<Step>)
    requires IsRun(cfg, ys, steps) && Unclashed(cfg, ys) && Kept(cfg, ys, steps)
    ensures Separated(ys)
  {
    forall k | 0 <= k < |ys| ensures Separate(ys[k].s) {
      RunAliased(cfg, ys, steps, k);
      RunInjective(cfg, ys, steps, k);
      AliasedSeparate(ys[k].s);
    }
  }

  ghost predicate InAgreement(cfg: Config, y: System) {
    Agree(cfg, y.s, y.removing, y.up)
  }

  /** While names are unique and records separate, no step takes a cached node's topics out of agreement
      with the cache. */
  lemma AgreesOn(cfg: Config, ys: seq<System>, steps: seq<Step>, k: nat)
    requires IsRun(cfg, ys, steps) && Unclashed(cfg, ys) && Separated(ys) && 0 < k < |ys| && InAgreement(cfg, ys[k - 1])
    ensures InAgreement(cfg, ys[k])
  {
    RunInjective(cfg, ys, steps, k - 1);
    RunInjective(cfg, ys, steps, k);
    RunStep(cfg, ys, steps, k);
    var y, y' := ys[k - 1], ys[k];
    match steps[k - 1]
    case Start(list) => StartAgrees(cfg, y.s, list, y'.s);
    case Handle(ev) => EventAgrees(cfg, y.s, ev, y'.s, y.removing, y.adrift);
    case Cleared(id) =>
      SeparateUntangled(cfg, y.s, id, y.removing);
      ClearedAgreesIff(cfg, y.s, id, y.removing, y.up);
    case Lost => OfflineAgrees(cfg, y.s, y'.s, y.removing, y.up);
  }

  lemma {:induction false} RunAgrees(cfg: Config, ys: seq<System>, steps: seq<Step>, k: nat)
    requires IsRun(cfg, ys, steps) && Unclashed(cfg, ys) && Separated(ys) && k < |ys|
    ensures InAgreement(cfg, ys[k])
  {
    if k == 0 {
    } else {
      RunAgrees(cfg, ys, steps, k - 1);
      AgreesOn(cfg, ys, steps, k);
    }
  }

  /** While names are unique and records separate, the tree shows the cache after every step of every
      run. */
  lemma RunSafe(cfg: Config, ys: seq<System>, steps: seq<Step>, k: nat)
    requires IsRun(cfg, ys, steps) && Unclashed(cfg, ys) && Separated(ys) && k < |ys|
    ensures Inv(cfg, ys[k]) && Agree(cfg, ys[k].s, ys[k].removing, ys[k].up)
  {
    RunKeeps(cfg, ys, steps, k);
    RunAgrees(cfg, ys, steps, k);
  }

  /** Every report so far was about a node with a record. */
  ghost predicate Expected(ys: seq<System>, steps: seq<Step>) {
    |ys| == |steps| + 1 &&
    forall i | 0 <= i < |steps| && steps[i].Handle? && steps[i].ev.AttributeUpdated? :: steps[i].ev.id in ys[i].s.topics
  }

  /** Then nothing is ever adrift: every retained topic is recorded. */
  lemma {:induction false} NothingAdrift(cfg: Config, ys: seq<System>, steps: seq<Step>, k: nat)
    requires IsRun(cfg, ys, steps) && Expected(ys, steps) && k < |ys|
    ensures Unrecorded(ys[k].s) == {} && ys[k].adrift == {}
  {
    if k == 0 {
    } else {
      NothingAdrift(cfg, ys, steps, k - 1);
      RecordsOn(cfg, ys, steps, k);
    }
  }

  lemma RecordsOn(cfg: Config, ys: seq<System>, steps: seq<Step>, k: nat)
    requires IsRun(cfg, ys, steps) && Expected(ys, steps) && 0 < k < |ys|
    requires Unrecorded(ys[k - 1].s) == {} && ys[k - 1].adrift == {}
    ensures Unrecorded(ys[k].s) == {} && ys[k].adrift == {}
  {
    RunKeeps(cfg, ys, steps, k - 1);
    RunStep(cfg, ys, steps, k);
    StepRecords(cfg, ys[k - 1], steps[k - 1], ys[k]);
  }

  lemma StepRecords(cfg: Config, y: System, step: Step, y': System)
    requires Inv(cfg, y) && Next(cfg, y, step, y') && Fair(step) && Unrecorded(y.s) == {} && y.adrift == {}
    requires step.Handle? && step.ev.AttributeUpdated? ==> step.ev.id in y.s.topics
    ensures Unrecorded(y'.s) == {} && y'.adrift == {}
  {
    match step
    case Start(list) => StartTracksIffKept(cfg, y.s, list, y'.s, y.adrift);
    case Handle(ev) => ExpectedRecords(cfg, y, ev, y');
    case Cleared(id) => ClearNodeTracking(y.s, id, y.adrift);
    case Lost =>
  }

  lemma ExpectedRecords(cfg: Config, y: System, ev: Event, y': System)
    requires Inv(cfg, y) && Next(cfg, y, Handle(ev), y') && Unrecorded(y.s) == {}
    requires ev.AttributeUpdated? ==> ev.id in y.s.topics
    ensures Unrecorded(y'.s) == {}
  {
    EventTracking(cfg, y.s, ev, y'.s, y.adrift);
    if ev.AttributeUpdated? {
      StrayReport(cfg, y.s, ev.id, ev.path, ev.value, y'.s, y.adrift);
    }
  }
}
