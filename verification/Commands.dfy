/** Writing back: how a topic somebody publishes to is resolved to a node and an attribute path. */
module Commands {
  import opened Text
  import opened Fabric
  import opened Naming
  import opened DataModel
  import opened Topics
  import opened Retained
  import opened Runs

  const I64: nat := 0x8000_0000_0000_0000

  /** A node id, or else a name. */
  function ResolveNode(f: Folding, index: map<string, nat>, s: string): Option<nat> {
    if ParseUint(s, U64).Some? then ParseUint(s, U64) else Resolve(f, index, s)
  }

  /** strconv.Atoi: an optional sign and a 64-bit decimal. */
  function Atoi(s: string): Option<int> {
    if s != [] && s[0] == '-' then
      var m := ParseUint(s[1..], I64 + 1);
      (if m.Some? then Some(-(m.value as int)) else None)
    else
      var m := ParseUint(if s != [] && s[0] == '+' then s[1..] else s, I64);
      if m.Some? then Some(m.value) else None
  }

  datatype Target = Target(node: nat, endpoint: int, cluster: nat)

  function ResolveTarget(cfg: Config, index: map<string, nat>, node: string, endpoint: string, cluster: string): Option<Target> {
    var id, ep, c := ResolveNode(cfg.fold, index, node), Atoi(endpoint), ResolveCluster(cfg.fold, cfg.model, cluster);
    if id.Some? && ep.Some? && c.Some? then Some(Target(id.value, ep.value, c.value)) else None
  }

  /** The topic without the configured prefix, level by level; a foreign topic is split whole. */
  function TopicParts(prefix: string, topic: string): seq<string> {
    Split(if prefix + "/" <= topic then topic[|prefix| + 1..] else topic)
  }

  datatype Write = Write(node: nat, path: string)

  function WriteForParts(cfg: Config, index: map<string, nat>, parts: seq<string>): Option<Write> {
    if |parts| != 6 then None
    else
      var target := ResolveTarget(cfg, index, parts[1], parts[2], parts[3]);
      if target.None? then None
      else
        var attr := ResolveAttribute(cfg.fold, cfg.model, target.value.cluster, parts[4]);
        if attr.None? then None
        else Some(Write(target.value.node, PathOf(Signed(target.value.endpoint), target.value.cluster, attr.value)))
  }

  /** The write a topic asks for, or none: a topic of another shape, an unknown node, a bad endpoint,
      an unknown cluster or an unknown attribute is ignored. */
  function WriteFor(cfg: Config, index: map<string, nat>, prefix: string, topic: string): Option<Write> {
    WriteForParts(cfg, index, TopicParts(prefix, topic))
  }

  // ---------- round trips ----------

  /** The topic to write to: the topic the value is published on, with `/set` after it. */
  function SetTopic(prefix: string, t: Topic): string {
    Render(prefix, t) + "/" + "set"
  }

  lemma SetTopicParts(prefix: string, t: Topic)
    requires Publishable(t)
    ensures TopicParts(prefix, SetTopic(prefix, t)) == Levels(t) + ["set"]
  {
    TailLevels(t);
    SplitConcat(Tail(t), "set");
    SplitPlain("set");
    assert SetTopic(prefix, t) == prefix + "/" + (Tail(t) + "/" + "set");
    assert SetTopic(prefix, t)[|prefix| + 1..] == Tail(t) + "/" + "set";
  }

  lemma NameSafe(f: Folding, nodes: Cache, id: nat)
    requires id in nodes
    ensures NoSlash(NameOf(f, nodes, id))
  {
    SegmentSafe(LabelOf(nodes[id]));
    DecimalNoSlash(id);
  }

  lemma AtoiDecimal(n: nat)
    requires n < I64
    ensures Atoi(Decimal(n)) == Some(n) && Signed(n) == Decimal(n)
  {
    DecimalValue(n);
    ParseDecimal(n, I64);
    assert IsDigit(Decimal(n)[0]);
  }

  /** A minus sign is read, down to the least 64-bit number. */
  lemma AtoiNegative(m: nat)
    ensures m > 0 ==> Signed(-(m as int)) == "-" + Decimal(m)
    ensures Atoi("-" + Decimal(m)) == if m <= I64 then Some(-(m as int)) else None
  {
    ParseDecimal(m, I64 + 1);
    AfterMinus(Decimal(m));
  }

  lemma AfterMinus(digits: string)
    ensures Atoi("-" + digits) ==
      match ParseUint(digits, I64 + 1) { case Some(m) => Some(-(m as int)) case None => None }
  {
    assert ("-" + digits)[1..] == digits;
  }

  /** The widths of node ids, of cluster and attribute ids, and of endpoints. */
  lemma Widths()
    ensures U64 == 18446744073709551616 && U32 == 4294967296 && I64 == 9223372036854775808
  {
  }

  /** A plus sign may be written or not, up to the greatest. */
  lemma AtoiPositive(m: nat)
    ensures Atoi(Decimal(m)) == if m < I64 then Some(m) else None
    ensures Atoi("+" + Decimal(m)) == if m < I64 then Some(m) else None
  {
    DecimalValue(m);
    ParseDecimal(m, I64);
    Unsigned(Decimal(m));
    AfterPlus(Decimal(m));
  }

  lemma Unsigned(digits: string)
    requires digits != [] && IsDigit(digits[0])
    ensures Atoi(digits) == match ParseUint(digits, I64) { case Some(m) => Some(m as int) case None => None }
  {
  }

  lemma AfterPlus(digits: string)
    ensures Atoi("+" + digits) == match ParseUint(digits, I64) { case Some(m) => Some(m as int) case None => None }
  {
    assert ("+" + digits)[1..] == digits;
  }

  /** A topic is its prefix and its parts; a topic without the prefix is all parts. */
  lemma PartsJoin(prefix: string, topic: string)
    ensures Join(TopicParts(prefix, topic)) == if prefix + "/" <= topic then topic[|prefix| + 1..] else topic
    ensures prefix + "/" <= topic ==> topic == prefix + "/" + Join(TopicParts(prefix, topic))
  {
    JoinSplit(if prefix + "/" <= topic then topic[|prefix| + 1..] else topic);
  }

  /** A write is only ever made for a topic of six levels whose node, endpoint, cluster and attribute all
      resolve, and it goes where they resolve to. */
  lemma WriteOnly(cfg: Config, index: map<string, nat>, prefix: string, topic: string)
    ensures var parts := TopicParts(prefix, topic);
      match WriteFor(cfg, index, prefix, topic)
      case Some(w) =>
        && |parts| == 6 && ResolveNode(cfg.fold, index, parts[1]) == Some(w.node)
        && Atoi(parts[2]).Some? && ResolveCluster(cfg.fold, cfg.model, parts[3]).Some?
        && var c := ResolveCluster(cfg.fold, cfg.model, parts[3]).value;
        && ResolveAttribute(cfg.fold, cfg.model, c, parts[4]).Some?
        && Split(w.path) == [Signed(Atoi(parts[2]).value), Decimal(c), Decimal(ResolveAttribute(cfg.fold, cfg.model, c, parts[4]).value)]
      case None =>
        || |parts| != 6 || ResolveNode(cfg.fold, index, parts[1]).None? || Atoi(parts[2]).None?
        || ResolveCluster(cfg.fold, cfg.model, parts[3]).None?
        || ResolveAttribute(cfg.fold, cfg.model, ResolveCluster(cfg.fold, cfg.model, parts[3]).value, parts[4]).None?
  {
    var parts := TopicParts(prefix, topic);
    if WriteFor(cfg, index, prefix, topic).Some? {
      var c := ResolveCluster(cfg.fold, cfg.model, parts[3]).value;
      var a := ResolveAttribute(cfg.fold, cfg.model, c, parts[4]).value;
      SignedNoSlash(Atoi(parts[2]).value);
      DecimalNoSlash(c);
      DecimalNoSlash(a);
      SplitThree(Signed(Atoi(parts[2]).value), Decimal(c), Decimal(a));
    }
  }

  /** A node resolves to its number, or to the node whose name it is up to case. */
  lemma NodeMeans(f: Folding, names: map<nat, string>, index: map<string, nat>, s: string)
    requires IndexOf(f, names, index)
    ensures ParseUint(s, U64).Some? ==> ResolveNode(f, index, s) == ParseUint(s, U64)
    ensures ParseUint(s, U64).None? ==>
      match ResolveNode(f, index, s)
      case Some(id) => id in names && Fold(f, names[id]) == Fold(f, s)
      case None => forall id :: id in names ==> Fold(f, names[id]) != Fold(f, s)
  {
    HitsAndMisses(f, names, index, s);
  }

  /** The bridge hears what is published to the topic of an attribute, numeric or alias, plus `/set`. */
  lemma SetHeard(prefix: string, t: Topic)
    requires Publishable(t) && (t.Attr? || t.Alias?)
    ensures IsCommand(TopicParts(prefix, SetTopic(prefix, t)))
  {
    SetTopicParts(prefix, t);
    PathLevels(t.path);
    CommandsAre(Levels(t) + ["set"]);
  }

  /** A path as the fabric reports it: endpoint, cluster and attribute, each a plain numeral. */
  ghost predicate FabricPath(path: string, ep: nat, c: nat, a: nat) {
    ep < I64 && c < U32 && a < U32 && path == PathOf(Decimal(ep), c, a)
  }

  lemma FabricPathParts(path: string, ep: nat, c: nat, a: nat)
    requires FabricPath(path, ep, c, a)
    ensures Split(path) == [Decimal(ep), Decimal(c), Decimal(a)] && CountSlash(path) == 2 && CanonicalPath(path)
  {
    DecimalNoSlash(ep);
    DecimalNoSlash(c);
    DecimalNoSlash(a);
    SplitThree(Decimal(ep), Decimal(c), Decimal(a));
    JoinSplit(path);
    DecimalCanonical(c);
    DecimalCanonical(a);
  }

  lemma NameResolves(cfg: Config, s: State, id: nat)
    requires Named(cfg, s) && NoClash(cfg.fold, s.nodes) && id in s.names
    ensures var n := ParseUint(s.names[id], U64);
      ResolveNode(cfg.fold, s.index, s.names[id]) == Some(id) <==> n.None? || n == Some(id)
  {
    LookupSound(cfg.fold, s.nodes, s.index, s.names[id]);
  }

  lemma AliasSplits(cfg: Config, file: ModelFile, names: map<nat, string>, id: nat, path: string, ep: nat, c: nat, a: nat)
    requires WellFormed(cfg.fold, file) && Loaded(cfg.fold, file, cfg.model)
    requires FabricPath(path, ep, c, a) && AliasOf(cfg, names, id, path).Some?
    ensures var levels := Split(AliasOf(cfg, names, id, path).value);
      && |levels| == 3 && levels[0] == Decimal(ep)
      && ResolveCluster(cfg.fold, cfg.model, levels[1]) == Some(c)
      && ResolveAttribute(cfg.fold, cfg.model, c, levels[2]) == Some(a)
      && CountSlash(AliasOf(cfg, names, id, path).value) == 2
  {
    FabricPathParts(path, ep, c, a);
    var c', a' := AliasReadsBack(cfg.fold, file, cfg.model, path);
    FabricPathParts(PathOf(Decimal(ep), c, a), ep, c, a);
    DecimalNoSlash(ep);
    DecimalNoSlash(c');
    DecimalNoSlash(a');
    SplitThree(Decimal(ep), Decimal(c'), Decimal(a'));
    DecimalInjective(c, c');
    DecimalInjective(a, a');
    JoinSplit(AliasOf(cfg, names, id, path).value);
  }

  lemma ResolvedWrite(cfg: Config, index: map<string, nat>, parts: seq<string>, ep: nat, c: nat, a: nat)
    requires |parts| == 6 && parts[2] == Decimal(ep) && ep < I64
    requires ResolveCluster(cfg.fold, cfg.model, parts[3]) == Some(c)
    requires ResolveAttribute(cfg.fold, cfg.model, c, parts[4]) == Some(a)
    ensures var node := ResolveNode(cfg.fold, index, parts[1]);
      WriteForParts(cfg, index, parts) == if node.Some? then Some(Write(node.value, PathOf(Decimal(ep), c, a))) else None
  {
    AtoiDecimal(ep);
  }

  function AliasParts(key: string, alias: string): seq<string> {
    ["named", key] + Split(alias) + ["set"]
  }

  lemma AliasWriteResolves(cfg: Config, index: map<string, nat>, key: string, alias: string, levels: seq<string>, ep: nat, c: nat, a: nat)
    requires levels == Split(alias) && |levels| == 3 && levels[0] == Decimal(ep) && ep < I64
    requires ResolveCluster(cfg.fold, cfg.model, levels[1]) == Some(c)
    requires ResolveAttribute(cfg.fold, cfg.model, c, levels[2]) == Some(a)
    ensures var node := ResolveNode(cfg.fold, index, key);
      WriteForParts(cfg, index, AliasParts(key, alias)) == if node.Some? then Some(Write(node.value, PathOf(Decimal(ep), c, a))) else None
  {
    var parts := AliasParts(key, alias);
    assert parts == ["named", key, levels[0], levels[1], levels[2], "set"];
    ResolvedWrite(cfg, index, parts, ep, c, a);
  }

  lemma AliasTopicParts(cfg: Config, s: State, prefix: string, id: nat, alias: string)
    requires Named(cfg, s) && id in s.names && CountSlash(alias) == 2
    ensures TopicParts(prefix, SetTopic(prefix, Alias(s.names[id], alias))) == AliasParts(s.names[id], alias)
  {
    NameSafe(cfg.fold, s.nodes, id);
    SetTopicParts(prefix, Alias(s.names[id], alias));
  }

  /** Writing to a node's alias reaches exactly the node and the attribute the alias was published
      for, unless the node's name is the number of another node. */
  lemma AliasWriteRoundTrip(cfg: Config, file: ModelFile, s: State, prefix: string, id: nat, path: string, ep: nat, c: nat, a: nat)
    requires WellFormed(cfg.fold, file) && Loaded(cfg.fold, file, cfg.model)
    requires Named(cfg, s) && NoClash(cfg.fold, s.nodes) && id in s.names
    requires FabricPath(path, ep, c, a) && AliasOf(cfg, s.names, id, path).Some?
    ensures var t := Alias(s.names[id], AliasOf(cfg, s.names, id, path).value);
      var n := ParseUint(s.names[id], U64);
      WriteFor(cfg, s.index, prefix, SetTopic(prefix, t)) == Some(Write(id, path)) <==> n.None? || n == Some(id)
  {
    var alias := AliasOf(cfg, s.names, id, path).value;
    AliasSplits(cfg, file, s.names, id, path, ep, c, a);
    AliasWriteResolves(cfg, s.index, s.names[id], alias, Split(alias), ep, c, a);
    NameResolves(cfg, s, id);
    AliasTopicParts(cfg, s, prefix, id, alias);
  }

  lemma NumbersResolve(f: Folding, m: Model, index: map<string, nat>, id: nat, c: nat, a: nat)
    requires id < U64 && c < U32 && a < U32
    ensures ResolveNode(f, index, Decimal(id)) == Some(id)
    ensures ResolveCluster(f, m, Decimal(c)) == Some(c)
    ensures ResolveAttribute(f, m, c, Decimal(a)) == Some(a)
  {
    ParseDecimal(id, U64);
    ParseDecimal(c, U32);
    ParseDecimal(a, U32);
  }

  lemma NumericWriteResolves(cfg: Config, index: map<string, nat>, parts: seq<string>, id: nat, ep: nat, c: nat, a: nat)
    requires id < U64 && ep < I64 && c < U32 && a < U32
    requires |parts| == 6 && parts[1] == Decimal(id) && parts[2] == Decimal(ep) && parts[3] == Decimal(c) && parts[4] == Decimal(a)
    ensures WriteForParts(cfg, index, parts) == Some(Write(id, PathOf(Decimal(ep), c, a)))
  {
    NumbersResolve(cfg.fold, cfg.model, index, id, c, a);
    ResolvedWrite(cfg, index, parts, ep, c, a);
  }

  lemma NumericTopicParts(prefix: string, id: nat, path: string)
    requires CountSlash(path) == 2
    ensures TopicParts(prefix, SetTopic(prefix, Attr(id, path))) == ["node", Decimal(id)] + Split(path) + ["set"]
  {
    SetTopicParts(prefix, Attr(id, path));
  }

  /** On the numeric tree a write needs neither a name nor a model entry. */
  lemma NumericWriteRoundTrip(cfg: Config, index: map<string, nat>, prefix: string, id: nat, path: string, ep: nat, c: nat, a: nat)
    requires id < U64 && FabricPath(path, ep, c, a)
    ensures WriteFor(cfg, index, prefix, SetTopic(prefix, Attr(id, path))) == Some(Write(id, path))
  {
    var parts := ["node", Decimal(id)] + Split(path) + ["set"];
    assert CountSlash(path) == 2 && |parts| == 6
      && parts[1] == Decimal(id) && parts[2] == Decimal(ep) && parts[3] == Decimal(c) && parts[4] == Decimal(a) by {
      FabricPathParts(path, ep, c, a);
    }
    NumericWriteResolves(cfg, index, parts, id, ep, c, a);
    NumericTopicParts(prefix, id, path);
  }

  // ---------- writes from Node-RED ----------

  /** What an output node publishes to in `set` mode. */
  function NodeSetTopic(prefix: string, nodeId: string, endpoint: string, cluster: string, attribute: string): string {
    Clean(prefix) + "/" + Join(["node", nodeId, endpoint, cluster, attribute, "set"])
  }

  lemma NodeSetParts(prefix: string, nodeId: string, endpoint: string, cluster: string, attribute: string)
    requires NoSlash(nodeId) && NoSlash(endpoint) && NoSlash(cluster) && NoSlash(attribute)
    ensures TopicParts(Clean(prefix), NodeSetTopic(prefix, nodeId, endpoint, cluster, attribute))
      == ["node", nodeId, endpoint, cluster, attribute, "set"]
  {
    var parts, p := ["node", nodeId, endpoint, cluster, attribute, "set"], Clean(prefix);
    SplitJoin(parts);
    assert (p + "/" + Join(parts))[|p| + 1..] == Join(parts);
  }

  /** The write a cluster and an attribute stand for, if the model knows both or they are numbers. */
  function Requested(cfg: Config, id: nat, ep: nat, cluster: string, attribute: string): Option<Write> {
    var c := ResolveCluster(cfg.fold, cfg.model, cluster);
    if c.None? then None
    else
      var a := ResolveAttribute(cfg.fold, cfg.model, c.value, attribute);
      if a.None? then None else Some(Write(id, PathOf(Decimal(ep), c.value, a.value)))
  }

  /** A bridge whose prefix is the cleaned one hears the write, and makes of it what it resolves the
      cluster and the attribute to, whether they are spelled as names or as numbers. */
  lemma NodeRedWrite(cfg: Config, index: map<string, nat>, prefix: string, id: nat, ep: nat, cluster: string, attribute: string)
    requires id < U64 && ep < I64 && NoSlash(cluster) && NoSlash(attribute)
    ensures var topic := NodeSetTopic(prefix, Decimal(id), Decimal(ep), cluster, attribute);
      && IsCommand(TopicParts(Clean(prefix), topic))
      && WriteFor(cfg, index, Clean(prefix), topic) == Requested(cfg, id, ep, cluster, attribute)
  {
    DecimalNoSlash(id);
    DecimalNoSlash(ep);
    NodeSetParts(prefix, Decimal(id), Decimal(ep), cluster, attribute);
    SetIsCommand(Decimal(id), Decimal(ep), cluster, attribute);
    PartsWritten(cfg, index, id, ep, cluster, attribute);
  }

  lemma SetIsCommand(node: string, endpoint: string, cluster: string, attribute: string)
    ensures IsCommand(["node", node, endpoint, cluster, attribute, "set"])
  {
    assert Matches(COMMAND_FILTERS[0], ["node", node, endpoint, cluster, attribute, "set"]);
  }

  lemma PartsWritten(cfg: Config, index: map<string, nat>, id: nat, ep: nat, cluster: string, attribute: string)
    requires id < U64 && ep < I64
    ensures WriteForParts(cfg, index, ["node", Decimal(id), Decimal(ep), cluster, attribute, "set"])
      == Requested(cfg, id, ep, cluster, attribute)
  {
    ParseDecimal(id, U64);
    AtoiDecimal(ep);
  }

  /** The name of a cluster, in any case. */
  lemma ClusterVariant(f: Folding, file: ModelFile, m: Model, id: nat, s: string)
    requires WellFormed(f, file) && Loaded(f, file, m) && id in m.clusters && Fold(f, s) == Fold(f, m.clusters[id].name)
    ensures ResolveCluster(f, m, s) == Some(id)
  {
    ClusterNameResolves(f, file, m, id);
    NameIsPlain(f, file, m, id);
    SameNumeral(f, s, m.clusters[id].name);
  }

  lemma NameIsPlain(f: Folding, file: ModelFile, m: Model, id: nat)
    requires WellFormed(f, file) && Loaded(f, file, m) && id in m.clusters
    ensures ParseUint(m.clusters[id].name, U32).None?
  {
    var k :| k in file && ParseUint(k, U32) == Some(id) && file[k] == m.clusters[id];
  }

  /** Folding cannot turn a name into a numeral or back. */
  lemma SameNumeral(f: Folding, s: string, t: string)
    requires Fold(f, s) == Fold(f, t)
    ensures ParseUint(s, U32) == ParseUint(t, U32)
  {
    FoldDigits(f, s);
    FoldDigits(f, t);
    assert |Fold(f, s)| == |s| && |Fold(f, t)| == |t|;
  }

  lemma AttributeVariant(f: Folding, file: ModelFile, m: Model, id: nat, attr: nat, s: string)
    requires WellFormed(f, file) && Loaded(f, file, m) && id in m.clusters && attr < U32
    requires AttributeName(m, id, attr) != "" && Fold(f, s) == Fold(f, AttributeName(m, id, attr))
    ensures ResolveAttribute(f, m, id, s) == Some(attr)
  {
    var name := AttributeName(m, id, attr);
    AttributeNameResolves(f, file, m, id, attr);
    AttributePlain(f, file, m, id, attr);
    SameNumeral(f, s, name);
    SameAnswer(f, m, id, s, name);
  }

  lemma SameAnswer(f: Folding, m: Model, id: nat, s: string, t: string)
    requires Fold(f, s) == Fold(f, t) && ParseUint(s, U32).None? && ParseUint(t, U32).None?
    ensures ResolveAttribute(f, m, id, s) == ResolveAttribute(f, m, id, t)
  {
  }

  lemma AttributePlain(f: Folding, file: ModelFile, m: Model, id: nat, attr: nat)
    requires WellFormed(f, file) && Loaded(f, file, m) && id in m.clusters && AttributeName(m, id, attr) != "" && attr < U32
    ensures ParseUint(AttributeName(m, id, attr), U32).None?
  {
    if attr in GLOBALS {
      GlobalNamesPlain(attr);
    } else {
      ClusterNameResolves(f, file, m, id);
      ParseDecimal(attr, U32);
    }
  }

  /** A flow that spells the cluster and the attribute by name, in any case, writes the attribute so
      named on exactly the node it looked up. */
  lemma NodeRedWriteByName(cfg: Config, file: ModelFile, index: map<string, nat>, prefix: string,
                           id: nat, ep: nat, c: nat, a: nat, cluster: string, attribute: string)
    requires WellFormed(cfg.fold, file) && Loaded(cfg.fold, file, cfg.model)
    requires id < U64 && ep < I64 && a < U32 && c in cfg.model.clusters && AttributeName(cfg.model, c, a) != ""
    requires NoSlash(cluster) && NoSlash(attribute)
    requires Fold(cfg.fold, cluster) == Fold(cfg.fold, ClusterName(cfg.model, c))
    requires Fold(cfg.fold, attribute) == Fold(cfg.fold, AttributeName(cfg.model, c, a))
    ensures WriteFor(cfg, index, Clean(prefix), NodeSetTopic(prefix, Decimal(id), Decimal(ep), cluster, attribute))
      == Some(Write(id, PathOf(Decimal(ep), c, a)))
  {
    ClusterVariant(cfg.fold, file, cfg.model, c, cluster);
    AttributeVariant(cfg.fold, file, cfg.model, c, a, attribute);
    NodeRedWrite(cfg, index, prefix, id, ep, cluster, attribute);
  }

  // ---------- one device, end to end ----------

  const KITCHEN := Node(4, true, "", map[NODE_LABEL := Str("Kitchen"), "1/6/0" := Other("true")])

  const KITCHEN_NODES: Cache := map[4 := KITCHEN]

  function KitchenConfig(f: Folding): Config {
    Config(f, OnOffModel(f), true, true)
  }

  function KitchenState(f: Folding): State {
    State(KITCHEN_NODES, NamesOf(f, KITCHEN_NODES), map[Fold(f, "Kitchen") := 4], map[], map[])
  }

  lemma KitchenBase()
    ensures BaseName(KITCHEN) == "Kitchen" && ParseUint("Kitchen", U64).None?
  {
    assert SafeLevel("Kitchen") && Trimmed(IsSpace, "Kitchen") && !IsDigit("Kitchen"[0]);
    PlainLabel(KITCHEN, "Kitchen");
  }

  lemma OnlyNode(f: Folding, nodes: Cache, id: nat, name: string)
    requires nodes.Keys == {id} && BaseName(nodes[id]) == name && name != ""
    ensures NamesOf(f, nodes) == map[id := name] && NoClash(f, nodes)
  {
    AloneInLength(f, nodes, id);
    forall j | j in NamesOf(f, nodes) ensures j == id {
      assert Labelled(nodes, j);
    }
  }

  lemma OnlyIndexed(f: Folding, id: nat, name: string)
    ensures IndexOf(f, map[id := name], map[Fold(f, name) := id])
  {
  }

  lemma KitchenNamed(f: Folding)
    ensures NamesOf(f, KITCHEN_NODES) == map[4 := "Kitchen"]
    ensures Named(KitchenConfig(f), KitchenState(f)) && NoClash(f, KITCHEN_NODES)
  {
    KitchenBase();
    OnlyNode(f, KITCHEN_NODES, 4, "Kitchen");
    OnlyIndexed(f, 4, "Kitchen");
  }

  lemma KitchenPath()
    ensures FabricPath("1/6/0", 1, 6, 0) && Split("1/6/0") == ["1", "6", "0"] && CountSlash("1/6/0") == 2
  {
    assert Decimal(1) == "1" && Decimal(6) == "6" && Decimal(0) == "0";
    assert "1/6/0" == "1" + "/" + "6" + "/" + "0";
    SplitThree("1", "6", "0");
    JoinSplit("1/6/0");
  }

  lemma KitchenAlias(f: Folding)
    ensures NamePath(OnOffModel(f), "1/6/0") == Some("1/OnOff/OnOff")
  {
    KitchenPath();
    KitchenNumbers();
    KitchenNames(f);
    KitchenWords();
    var path, parts := "1/6/0", Split("1/6/0");
    NamePathIs(OnOffModel(f), path, parts, 6, 0);
  }

  lemma KitchenNumbers()
    ensures ParseUint("6", U32) == Some(6) && ParseUint("0", U32) == Some(0)
  {
    OneDigit('6');
    OneDigit('0');
    assert ['6'] == "6" && ['0'] == "0";
  }

  lemma KitchenWords()
    ensures "1" + "/" + "OnOff" + "/" + "OnOff" == "1/OnOff/OnOff" && "OnOff" != ""
  {
    assert |"OnOff"| == 5;
  }

  lemma KitchenNames(f: Folding)
    ensures ClusterName(OnOffModel(f), 6) == "OnOff" && AttributeName(OnOffModel(f), 6, 0) == "OnOff"
  {
    assert Decimal(0) == "0";
  }

  lemma KitchenTopic(prefix: string)
    ensures SetTopic(prefix, Alias("Kitchen", "1/OnOff/OnOff")) == prefix + "/named/Kitchen/1/OnOff/OnOff/set"
  {
    var tail := "named" + "/" + ("Kitchen" + "/" + "1/OnOff/OnOff");
    assert "/" + tail + "/" + "set" == "/named/Kitchen/1/OnOff/OnOff/set";
    assert (prefix + "/" + tail) + "/" + "set" == prefix + ("/" + tail + "/" + "set");
  }

  /** All the conditions hold together: a device labelled `Kitchen` is switched through its alias. */
  lemma KitchenExample(f: Folding, prefix: string)
    ensures Named(KitchenConfig(f), KitchenState(f)) && NoClash(f, KITCHEN_NODES)
    ensures WriteFor(KitchenConfig(f), KitchenState(f).index, prefix, prefix + "/named/Kitchen/1/OnOff/OnOff/set")
      == Some(Write(4, "1/6/0"))
  {
    var cfg, s := KitchenConfig(f), KitchenState(f);
    OnOffLoads(f);
    KitchenNamed(f);
    KitchenBase();
    KitchenPath();
    KitchenAlias(f);
    KitchenTopic(prefix);
    assert AliasOf(cfg, s.names, 4, "1/6/0") == Some("1/OnOff/OnOff");
    AliasWriteRoundTrip(cfg, ON_OFF_FILE, s, prefix, 4, "1/6/0", 1, 6, 0);
  }
}
