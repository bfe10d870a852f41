/** The topic tree: what the bridge publishes, what it subscribes to, and how the Node-RED
    companion reads a topic back. */
module Topics {
  import opened Text
  import opened DataModel

  datatype Topic =
    | Availability(id: nat)
    | NameTopic(id: nat)
    | Descriptor(id: nat)
    | Attr(id: nat, path: string)
    | Alias(key: string, path: string)
    | Occurrence(id: nat, endpoint: int, cluster: nat, event: nat)
    | BridgeState(what: string)
    | Response(command: string)

  function Signed(i: int): string {
    if i < 0 then "-" + Decimal(-i) else Decimal(i)
  }

  /** What follows the prefix and its slash. */
  function Tail(t: Topic): string {
    match t
    case Availability(id) => "node" + "/" + (Decimal(id) + "/" + "availability")
    case NameTopic(id) => "node" + "/" + (Decimal(id) + "/" + "name")
    case Descriptor(id) => "node" + "/" + (Decimal(id) + "/" + "descriptor")
    case Attr(id, path) => "node" + "/" + (Decimal(id) + "/" + path)
    case Alias(key, path) => "named" + "/" + (key + "/" + path)
    case Occurrence(id, endpoint, cluster, event) =>
      "node" + "/" + (Decimal(id) + "/" + ("event" + "/" + (Signed(endpoint) + "/" + (Decimal(cluster) + "/" + Decimal(event)))))
    case BridgeState(what) => "bridge" + "/" + what
    case Response(command) => "bridge" + "/" + ("response" + "/" + command)
  }

  /** The topic string. */
  function Render(prefix: string, t: Topic): string {
    prefix + "/" + Tail(t)
  }

  /** An attribute path has exactly two slashes; a name, a command and a state word have none. */
  predicate Publishable(t: Topic) {
    match t
    case Attr(_, path) => CountSlash(path) == 2
    case Alias(key, path) => NoSlash(key) && CountSlash(path) == 2
    case BridgeState(what) => NoSlash(what)
    case Response(command) => NoSlash(command)
    case _ => true
  }

  function Levels(t: Topic): seq<string> {
    match t
    case Availability(id) => ["node", Decimal(id), "availability"]
    case NameTopic(id) => ["node", Decimal(id), "name"]
    case Descriptor(id) => ["node", Decimal(id), "descriptor"]
    case Attr(id, path) => ["node", Decimal(id)] + Split(path)
    case Alias(key, path) => ["named", key] + Split(path)
    case Occurrence(id, endpoint, cluster, event) =>
      ["node", Decimal(id), "event", Signed(endpoint), Decimal(cluster), Decimal(event)]
    case BridgeState(what) => ["bridge", what]
    case Response(command) => ["bridge", "response", command]
  }

  // ---------- rendering loses nothing ----------

  lemma DecimalNoSlash(n: nat)
    ensures NoSlash(Decimal(n)) && Decimal(n) != []
  {
    DecimalValue(n);
  }

  lemma SignedNoSlash(i: int)
    ensures NoSlash(Signed(i))
  {
    DecimalNoSlash(if i < 0 then -i else i);
  }

  lemma SignedInjective(i: int, j: int)
    requires Signed(i) == Signed(j)
    ensures i == j
  {
    var m, n := if i < 0 then -i else i, if j < 0 then -j else j;
    DecimalValue(m);
    DecimalValue(n);
    if i < 0 && j < 0 {
      assert Signed(i)[1..] == Decimal(m) && Signed(j)[1..] == Decimal(n);
    } else {
      assert IsDigit(Decimal(m)[0]) && IsDigit(Decimal(n)[0]);
    }
    DecimalInjective(m, n);
  }

  lemma SplitPrepend(a: string, rest: string, parts: seq<string>)
    requires NoSlash(a) && Split(rest) == parts
    ensures Split(a + "/" + rest) == [a] + parts
  {
    SplitAtSlash(a, rest);
  }

  lemma NodeTail(id: nat, rest: string, parts: seq<string>)
    requires Split(rest) == parts
    ensures Split("node" + "/" + (Decimal(id) + "/" + rest)) == ["node", Decimal(id)] + parts
  {
    DecimalNoSlash(id);
    SplitPrepend(Decimal(id), rest, parts);
    SplitPrepend("node", Decimal(id) + "/" + rest, [Decimal(id)] + parts);
  }

  lemma TailLevels(t: Topic)
    requires Publishable(t)
    ensures Split(Tail(t)) == Levels(t)
  {
    match t
    case Availability(id) => SplitPlain("availability"); NodeTail(id, "availability", ["availability"]);
    case NameTopic(id) => SplitPlain("name"); NodeTail(id, "name", ["name"]);
    case Descriptor(id) => SplitPlain("descriptor"); NodeTail(id, "descriptor", ["descriptor"]);
    case Attr(id, path) => NodeTail(id, path, Split(path));
    case Alias(key, path) =>
      SplitPrepend(key, path, Split(path));
      SplitPrepend("named", key + "/" + path, [key] + Split(path));
    case Occurrence(id, endpoint, cluster, event) => OccurrenceLevels(id, endpoint, cluster, event);
    case BridgeState(what) => SplitPlain(what); SplitPrepend("bridge", what, [what]);
    case Response(command) =>
      SplitPlain(command);
      SplitPrepend("response", command, [command]);
      SplitPrepend("bridge", "response" + "/" + command, ["response", command]);
  }

  /** Splitting what follows the prefix gives the levels. */
  lemma RenderedLevels(prefix: string, t: Topic)
    requires Publishable(t)
    ensures prefix + "/" <= Render(prefix, t)
    ensures Split(Render(prefix, t)[|prefix| + 1..]) == Levels(t)
  {
    TailLevels(t);
    assert Render(prefix, t)[|prefix| + 1..] == Tail(t);
  }

  lemma OccurrenceLevels(id: nat, endpoint: int, cluster: nat, event: nat)
    ensures Split(Tail(Occurrence(id, endpoint, cluster, event))) == Levels(Occurrence(id, endpoint, cluster, event))
  {
    EventLevels(endpoint, cluster, event);
    NodeTail(id, "event" + "/" + (Signed(endpoint) + "/" + (Decimal(cluster) + "/" + Decimal(event))),
      ["event", Signed(endpoint), Decimal(cluster), Decimal(event)]);
  }

  lemma EventLevels(endpoint: int, cluster: nat, event: nat)
    ensures Split("event" + "/" + (Signed(endpoint) + "/" + (Decimal(cluster) + "/" + Decimal(event))))
      == ["event", Signed(endpoint), Decimal(cluster), Decimal(event)]
  {
    DecimalNoSlash(cluster);
    DecimalNoSlash(event);
    SignedNoSlash(endpoint);
    var tail := Decimal(cluster) + "/" + Decimal(event);
    SplitPlain(Decimal(event));
    SplitPrepend(Decimal(cluster), Decimal(event), [Decimal(event)]);
    SplitPrepend(Signed(endpoint), tail, [Decimal(cluster), Decimal(event)]);
    SplitPrepend("event", Signed(endpoint) + "/" + tail, [Signed(endpoint), Decimal(cluster), Decimal(event)]);
  }

  lemma PathLevels(path: string)
    requires CountSlash(path) == 2
    ensures |Split(path)| == 3 && Join(Split(path)) == path
  {
    JoinSplit(path);
  }

  lemma LevelsInjective(t: Topic, u: Topic)
    requires Publishable(t) && Publishable(u) && Levels(t) == Levels(u)
    ensures t == u
  {
    if t.Attr? || t.Alias? {
      PathLevels(t.path);
    }
    if u.Attr? || u.Alias? {
      PathLevels(u.path);
    }
    assert t.Alias? == u.Alias? by {
      assert Levels(t)[0] == Levels(u)[0];
      assert "node"[1] != "named"[1] && "bridge"[0] != "named"[0];
    }
    assert (t.BridgeState? || t.Response?) == (u.BridgeState? || u.Response?) by {
      assert Levels(t)[0] == Levels(u)[0];
      assert "node"[0] != "bridge"[0] && "bridge"[0] != "named"[0];
    }
    if t.Alias? {
      assert Levels(t)[1] == Levels(u)[1];
      assert Levels(t)[2..] == Split(t.path) && Levels(u)[2..] == Split(u.path);
    } else if t.BridgeState? || t.Response? {
      assert Levels(t)[|Levels(t)| - 1] == Levels(u)[|Levels(u)| - 1];
    } else {
      assert Levels(t)[1] == Levels(u)[1];
      DecimalInjective(t.id, u.id);
      NodeTopicsInjective(t, u);
    }
  }

  lemma NodeTopicsInjective(t: Topic, u: Topic)
    requires !t.Alias? && !t.BridgeState? && !t.Response? && !u.Alias? && !u.BridgeState? && !u.Response?
    requires Publishable(t) && Publishable(u) && Levels(t) == Levels(u) && t.id == u.id
    ensures t == u
  {
    if t.Attr? {
      PathLevels(t.path);
    }
    if u.Attr? {
      PathLevels(u.path);
    }
    assert Levels(t)[2] == Levels(u)[2];
    if t.Attr? {
      assert Levels(t)[2..] == Split(t.path) && Levels(u)[2..] == Split(u.path);
    } else if t.Occurrence? {
      assert Levels(t)[3] == Levels(u)[3] && Levels(t)[4] == Levels(u)[4] && Levels(t)[5] == Levels(u)[5];
      SignedInjective(t.endpoint, u.endpoint);
      DecimalInjective(t.cluster, u.cluster);
      DecimalInjective(t.event, u.event);
    } else {
      assert |"availability"| == 12 && |"name"| == 4 && |"descriptor"| == 10;
    }
  }

  /** Distinct topics have distinct strings, so a store keyed by topic is the broker's store keyed
      by string. */
  lemma RenderInjective(prefix: string, t: Topic, u: Topic)
    requires Publishable(t) && Publishable(u) && Render(prefix, t) == Render(prefix, u)
    ensures t == u
  {
    RenderedLevels(prefix, t);
    RenderedLevels(prefix, u);
    LevelsInjective(t, u);
  }

  /** The topics of node 4, spelled out. */
  lemma Spelled()
    ensures Render("matter", Availability(4)) == "matter/node/4/availability"
    ensures Render("matter", NameTopic(4)) == "matter/node/4/name"
    ensures Render("matter", Descriptor(4)) == "matter/node/4/descriptor"
    ensures Render("matter", Attr(4, "1/1026/0")) == "matter/node/4/1/1026/0"
    ensures Render("matter", Alias("Lamp", "1/OnOff/OnOff")) == "matter/named/Lamp/1/OnOff/OnOff"
    ensures Render("matter", Occurrence(4, 1, 59, 2)) == "matter/node/4/event/1/59/2"
    ensures Render("matter", BridgeState("availability")) == "matter/bridge/availability"
    ensures Render("matter", Response("ping")) == "matter/bridge/response/ping"
  {
    assert Decimal(4) == "4" && Decimal(1) == "1" && Decimal(2) == "2" && Decimal(59) == "59" by {
      assert Decimal(5) == "5";
    }
    SpelledNode("availability", "matter/node/4/availability");
    SpelledNode("name", "matter/node/4/name");
    SpelledNode("descriptor", "matter/node/4/descriptor");
    SpelledNode("1/1026/0", "matter/node/4/1/1026/0");
    SpelledEvent();
    SpelledRest();
  }

  lemma SpelledNode(rest: string, topic: string)
    requires topic == "matter/node/4/" + rest
    ensures "matter" + "/" + ("node" + "/" + ("4" + "/" + rest)) == topic
  {
    assert "matter" + "/" + ("node" + "/" + ("4" + "/")) == "matter/node/4/";
  }

  lemma SpelledEvent()
    ensures "matter" + "/" + ("node" + "/" + ("4" + "/" + ("event" + "/" + ("1" + "/" + ("59" + "/" + "2"))))) == "matter/node/4/event/1/59/2"
  {
    assert "event" + "/" + ("1" + "/" + ("59" + "/" + "2")) == "event/1/59/2";
    SpelledNode("event/1/59/2", "matter/node/4/event/1/59/2");
  }

  lemma SpelledRest()
    ensures "matter" + "/" + ("named" + "/" + ("Lamp" + "/" + "1/OnOff/OnOff")) == "matter/named/Lamp/1/OnOff/OnOff"
    ensures "matter" + "/" + ("bridge" + "/" + "availability") == "matter/bridge/availability"
    ensures "matter" + "/" + ("bridge" + "/" + ("response" + "/" + "ping")) == "matter/bridge/response/ping"
  {
  }

  lemma NotPrefix(p: string, s: string, k: nat)
    requires k < |p| && k < |s| && p[k] != s[k]
    ensures !(p <= s)
  {
  }

  lemma TailSecond(t: Topic)
    requires !t.Alias?
    ensures |Tail(t)| > 1 && Tail(t)[1] != 'a'
  {
    assert "node"[1] == 'o' && "bridge"[1] == 'r';
  }

  lemma AfterSlash(prefix: string, tail: string)
    requires |tail| > 1
    ensures |prefix + "/" + tail| > |prefix| + 2 && (prefix + "/" + tail)[|prefix| + 2] == tail[1]
  {
  }

  lemma OtherTail(prefix: string, t: Topic)
    requires !t.Alias?
    ensures !(prefix + "/named/" <= Render(prefix, t))
  {
    var named := prefix + "/named/";
    TailSecond(t);
    AfterSlash(prefix, Tail(t));
    assert named[|prefix| + 2] == 'a';
    NotPrefix(named, Render(prefix, t), |prefix| + 2);
  }

  /** The prefix test that selects a node's named topics selects exactly the aliases. */
  lemma NamedPrefix(prefix: string, t: Topic)
    ensures prefix + "/named/" <= Render(prefix, t) <==> t.Alias?
  {
    var s, named := Render(prefix, t), prefix + "/named/";
    if t.Alias? {
      assert "/named/" == "/" + "named" + "/";
      assert s == named + (t.key + "/" + t.path);
    } else {
      OtherTail(prefix, t);
    }
  }

  // ---------- command subscriptions (section 4.7.1 of MQTT 3.1.1) ----------

  /** `+` matches exactly one level. */
  predicate Matches(filter: seq<string>, levels: seq<string>) {
    |filter| == |levels| && forall i :: 0 <= i < |filter| ==> filter[i] == "+" || filter[i] == levels[i]
  }

  const COMMAND_FILTERS: seq<seq<string>> := [
    ["node", "+", "+", "+", "+", "set"],
    ["node", "+", "+", "+", "command"],
    ["named", "+", "+", "+", "+", "set"],
    ["named", "+", "+", "+", "command"],
    ["bridge", "request", "+"]]

  ghost predicate IsCommand(levels: seq<string>) {
    exists i :: 0 <= i < |COMMAND_FILTERS| && Matches(COMMAND_FILTERS[i], levels)
  }

  /** The bridge hears its own publication as a command only if an attribute is called `command`. */
  lemma OwnTopicIsCommand(t: Topic)
    requires Publishable(t)
    ensures IsCommand(Levels(t)) <==> (t.Attr? || t.Alias?) && Split(t.path)[|Split(t.path)| - 1] == "command"
  {
    CommandsAre(Levels(t));
    if t.Attr? || t.Alias? {
      PathLevels(t.path);
      FiveLevelsOwn(t);
    } else {
      OtherLevels(t);
    }
  }

  lemma FiveLevelsOwn(t: Topic)
    requires (t.Attr? || t.Alias?) && |Split(t.path)| == 3
    ensures |Levels(t)| == 5 && (Levels(t)[0] == "node" || Levels(t)[0] == "named") && Levels(t)[4] == Split(t.path)[2]
  {
  }

  lemma OtherLevels(t: Topic)
    requires !t.Attr? && !t.Alias?
    ensures |Levels(t)| != 5
    ensures |Levels(t)| == 6 ==> Levels(t)[5] != "set"
    ensures |Levels(t)| == 3 ==> !(Levels(t)[0] == "bridge" && Levels(t)[1] == "request")
  {
    assert |"node"| == 4 && |"bridge"| == 6 && |"response"| == 8 && |"request"| == 7;
    if t.Occurrence? {
      DecimalValue(t.event);
      assert IsDigit(Decimal(t.event)[0]) && !IsDigit("set"[0]);
    }
  }

  /** What the bridge hears as a command, level by level. */
  lemma CommandsAre(levels: seq<string>)
    ensures IsCommand(levels) <==>
      || (|levels| == 6 && (levels[0] == "node" || levels[0] == "named") && levels[5] == "set")
      || (|levels| == 5 && (levels[0] == "node" || levels[0] == "named") && levels[4] == "command")
      || (|levels| == 3 && levels[0] == "bridge" && levels[1] == "request")
  {
    PlainWords();
    forall i | 0 <= i < |COMMAND_FILTERS| && Matches(COMMAND_FILTERS[i], levels)
      ensures |levels| == 6 || |levels| == 5 || |levels| == 3
    {
    }
    if |levels| == 6 {
      SixLevels(levels);
    } else if |levels| == 5 {
      FiveLevels(levels);
    } else if |levels| == 3 {
      ThreeLevels(levels);
    }
  }

  lemma PlainWords()
    ensures "node" != "+" && "named" != "+" && "bridge" != "+" && "request" != "+" && "set" != "+" && "command" != "+"
  {
    assert |"node"| == 4 && |"named"| == 5 && |"bridge"| == 6 && |"request"| == 7 && |"set"| == 3 && |"command"| == 7;
  }

  lemma SixLevels(levels: seq<string>)
    requires |levels| == 6
    ensures IsCommand(levels) <==> (levels[0] == "node" || levels[0] == "named") && levels[5] == "set"
  {
    PlainWords();
    forall i | 0 <= i < |COMMAND_FILTERS| && Matches(COMMAND_FILTERS[i], levels)
      ensures (levels[0] == "node" || levels[0] == "named") && levels[5] == "set"
    {
      assert i == 0 || i == 2;
      assert COMMAND_FILTERS[i][5] == "set";
    }
    if levels[0] == "node" && levels[5] == "set" {
      assert Matches(COMMAND_FILTERS[0], levels);
    }
    if levels[0] == "named" && levels[5] == "set" {
      assert Matches(COMMAND_FILTERS[2], levels);
    }
  }

  lemma FiveLevels(levels: seq<string>)
    requires |levels| == 5
    ensures IsCommand(levels) <==> (levels[0] == "node" || levels[0] == "named") && levels[4] == "command"
  {
    PlainWords();
    forall i | 0 <= i < |COMMAND_FILTERS| && Matches(COMMAND_FILTERS[i], levels)
      ensures (levels[0] == "node" || levels[0] == "named") && levels[4] == "command"
    {
      assert i == 1 || i == 3;
      assert COMMAND_FILTERS[i][4] == "command";
    }
    if levels[0] == "node" && levels[4] == "command" {
      assert Matches(COMMAND_FILTERS[1], levels);
    }
    if levels[0] == "named" && levels[4] == "command" {
      assert Matches(COMMAND_FILTERS[3], levels);
    }
  }

  lemma ThreeLevels(levels: seq<string>)
    requires |levels| == 3
    ensures IsCommand(levels) <==> levels[0] == "bridge" && levels[1] == "request"
  {
    PlainWords();
    forall i | 0 <= i < |COMMAND_FILTERS| && Matches(COMMAND_FILTERS[i], levels)
      ensures levels[0] == "bridge" && levels[1] == "request"
    {
      assert i == 4;
      assert COMMAND_FILTERS[i][1] == "request";
    }
    if levels[0] == "bridge" && levels[1] == "request" {
      assert Matches(COMMAND_FILTERS[4], levels);
    }
  }

  // ---------- the Node-RED reader ----------

  const NODE_META: seq<string> := ["node", "+", "+"]
  const BRIDGE_STATUS: seq<string> := ["bridge", "+"]
  const BRIDGE_RESPONSES: seq<string> := ["bridge", "response", "+"]

  function NodeAttributes(id: nat): seq<string> {
    ["node", Decimal(id), "+", "+", "+"]
  }

  lemma HeadWords(t: Topic)
    ensures |Levels(t)| > 0 && (Levels(t)[0] == "bridge" <==> t.BridgeState? || t.Response?)
    ensures Levels(t)[0] == "node" <==> !t.Alias? && !t.BridgeState? && !t.Response?
  {
    var word := Levels(t)[0];
    assert word[0] == if t.BridgeState? || t.Response? then 'b' else 'n';
    assert word[1] == if t.BridgeState? || t.Response? then 'r' else if t.Alias? then 'a' else 'o';
  }

  /** The four filters of the reader split what it reads: each selects one kind of topic, and the
      attribute filter of a node selects that node's attributes and no other's. */
  lemma FiltersSelect(t: Topic, id: nat)
    requires Publishable(t)
    ensures Matches(NODE_META, Levels(t)) <==> t.Availability? || t.NameTopic? || t.Descriptor?
    ensures Matches(NodeAttributes(id), Levels(t)) <==> t.Attr? && t.id == id
    ensures Matches(BRIDGE_STATUS, Levels(t)) <==> t.BridgeState?
    ensures Matches(BRIDGE_RESPONSES, Levels(t)) <==> t.Response?
  {
    HeadWords(t);
    if t.Attr? || t.Alias? {
      PathLevels(t.path);
    }
    MetaSelects(t);
    AttributesSelect(t, id);
    BridgeSelects(t);
  }

  lemma MetaSelects(t: Topic)
    requires |Levels(t)| == 3 ==> (Levels(t)[0] == "node" <==> t.Availability? || t.NameTopic? || t.Descriptor?)
    requires |Levels(t)| > 0 && (t.Availability? || t.NameTopic? || t.Descriptor? ==> |Levels(t)| == 3)
    ensures Matches(NODE_META, Levels(t)) <==> t.Availability? || t.NameTopic? || t.Descriptor?
  {
    assert |"node"| == 4 && NODE_META[0] == "node" && NODE_META[0] != "+";
  }

  lemma AttributesSelect(t: Topic, id: nat)
    requires |Levels(t)| == 5 ==> (Levels(t)[0] == "node" <==> t.Attr?)
    requires |Levels(t)| > 0 && (t.Attr? ==> |Levels(t)| == 5)
    ensures Matches(NodeAttributes(id), Levels(t)) <==> t.Attr? && t.id == id
  {
    var filter, levels := NodeAttributes(id), Levels(t);
    NotWildcards(id);
    assert Matches(filter, levels) <==> |levels| == 5 && levels[0] == "node" && levels[1] == Decimal(id);
    if t.Attr? && Levels(t)[1] == Decimal(id) {
      DecimalInjective(t.id, id);
    }
  }

  lemma NotWildcards(id: nat)
    ensures "node" != "+" && Decimal(id) != "+"
  {
    DecimalValue(id);
    assert |"node"| == 4 && IsDigit(Decimal(id)[0]);
  }

  lemma BridgeSelects(t: Topic)
    requires |Levels(t)| > 0 && (Levels(t)[0] == "bridge" <==> t.BridgeState? || t.Response?)
    ensures Matches(BRIDGE_STATUS, Levels(t)) <==> t.BridgeState?
    ensures Matches(BRIDGE_RESPONSES, Levels(t)) <==> t.Response?
  {
    assert |"bridge"| == 6 && |"response"| == 8;
    assert BRIDGE_STATUS[0] != "+" && BRIDGE_RESPONSES[0] != "+" && BRIDGE_RESPONSES[1] != "+";
  }

  predicate IsSlash(c: char) {
    c == '/'
  }

  /** A configured prefix without leading or trailing slashes. */
  function Clean(prefix: string): string {
    Trim(IsSlash, prefix)
  }

  datatype Parsed =
    | Meta(nodeId: string, what: string)
    | Attribute(nodeId: string, endpoint: nat, cluster: nat, attribute: nat)
    | Bridge(what: string)
    | Reply(command: string)
    | Foreign

  predicate Numeral(s: string) {
    s != [] && AllDigits(s)
  }

  function ParseLevels(parts: seq<string>): Parsed
    requires parts != []
  {
    if parts[0] == "bridge" then
      if |parts| == 2 then Bridge(parts[1])
      else if |parts| == 3 && parts[1] == "response" then Reply(parts[2])
      else Foreign
    else if parts[0] != "node" || |parts| < 2 || !Numeral(parts[1]) then Foreign
    else if |parts| == 3 then
      if parts[2] == "name" || parts[2] == "availability" || parts[2] == "descriptor" then Meta(parts[1], parts[2])
      else Foreign
    else if |parts| == 5 && Numeral(parts[2]) && Numeral(parts[3]) && Numeral(parts[4]) then
      Attribute(parts[1], NumeralValue(parts[2]), NumeralValue(parts[3]), NumeralValue(parts[4]))
    else Foreign
  }

  function Parse(prefix: string, topic: string): Parsed {
    var p := Clean(prefix);
    if p + "/" <= topic then ParseLevels(Split(topic[|p| + 1..])) else Foreign
  }

  /** An attribute topic whose path is numeric throughout. */
  predicate NumericPath(path: string) {
    var parts := Split(path);
    |parts| == 3 && Numeral(parts[0]) && Numeral(parts[1]) && Numeral(parts[2])
  }

  lemma ParseRendered(prefix: string, t: Topic)
    requires Publishable(t) && Clean(prefix) == prefix
    ensures Parse(prefix, Render(prefix, t)) == ParseLevels(Levels(t))
  {
    RenderedLevels(prefix, t);
  }

  lemma NumericPathLevels(id: nat, path: string)
    requires CountSlash(path) == 2
    ensures var parts, r := Split(path), ParseLevels(Levels(Attr(id, path)));
      && |parts| == 3
      && (if NumericPath(path) then
           r == Attribute(Decimal(id), NumeralValue(parts[0]), NumeralValue(parts[1]), NumeralValue(parts[2]))
         else r == Foreign)
  {
    PathLevels(path);
    DecimalValue(id);
    var parts, levels := Split(path), Levels(Attr(id, path));
    assert levels == ["node", Decimal(id), parts[0], parts[1], parts[2]];
    assert "node"[0] != "bridge"[0];
  }

  lemma CanonicalPathParts(path: string)
    requires NumericPath(path) && CanonicalPath(path) && Canonical(Split(path)[0])
    ensures var parts := Split(path);
      path == PathOf(Decimal(NumeralValue(parts[0])), NumeralValue(parts[1]), NumeralValue(parts[2]))
  {
    JoinThree(path);
  }

  /** Cleaning takes leading and trailing slashes off a prefix, all of them and nothing else. */
  lemma CleanSound(prefix: string)
    ensures var p := Clean(prefix);
      && (p != [] ==> p[0] != '/' && p[|p| - 1] != '/')
      && exists i, j :: 0 <= i <= j <= |prefix| && p == prefix[i..j]
           && (forall k :: 0 <= k < i || j <= k < |prefix| ==> prefix[k] == '/')
    ensures Clean(Clean(prefix)) == Clean(prefix)
  {
    TrimSound(IsSlash, prefix);
    TrimSound(IsSlash, Clean(prefix));
    var i, j :| 0 <= i <= j <= |prefix| && Trim(IsSlash, prefix) == prefix[i..j] && AllSpace(IsSlash, prefix[..i]) && AllSpace(IsSlash, prefix[j..]);
    forall k | 0 <= k < i || j <= k < |prefix| ensures prefix[k] == '/' {
      if k < i {
        assert IsSlash(prefix[..i][k]);
      } else {
        assert IsSlash(prefix[j..][k - j]);
      }
    }
  }

  /** Nothing else is recognised: whatever the reader makes of a topic, it is under the prefix and has the
      levels of that kind. */
  lemma ParsedOnly(prefix: string, topic: string)
    ensures var r, p := Parse(prefix, topic), Clean(prefix);
      r != Foreign ==> p + "/" <= topic && ShapedAs(Split(topic[|p| + 1..]), r)
  {
  }

  predicate ShapedAs(levels: seq<string>, r: Parsed) {
    match r
    case Meta(nodeId, what) => levels == ["node", nodeId, what] && Numeral(nodeId) && what in ["name", "availability", "descriptor"]
    case Attribute(nodeId, e, c, a) =>
      && |levels| == 5 && levels[..2] == ["node", nodeId] && Numeral(nodeId)
      && Numeral(levels[2]) && NumeralValue(levels[2]) == e
      && Numeral(levels[3]) && NumeralValue(levels[3]) == c
      && Numeral(levels[4]) && NumeralValue(levels[4]) == a
    case Bridge(what) => levels == ["bridge", what]
    case Reply(command) => levels == ["bridge", "response", command]
    case Foreign => true
  }

  /** An attribute topic gives back its node and its path; a path that is not numeric is rejected. */
  lemma ParseRecoversAttribute(prefix: string, id: nat, path: string)
    requires CountSlash(path) == 2 && Clean(prefix) == prefix
    ensures var r := Parse(prefix, Render(prefix, Attr(id, path)));
      if NumericPath(path) then
        r.Attribute? && r.nodeId == Decimal(id)
        && (CanonicalPath(path) && Canonical(Split(path)[0]) ==> path == PathOf(Decimal(r.endpoint), r.cluster, r.attribute))
      else r == Foreign
  {
    ParseRendered(prefix, Attr(id, path));
    NumericPathLevels(id, path);
    if NumericPath(path) && CanonicalPath(path) && Canonical(Split(path)[0]) {
      CanonicalPathParts(path);
    }
  }

  lemma MetaLevels(id: nat, what: string)
    requires what == "name" || what == "availability" || what == "descriptor"
    ensures ParseLevels(["node", Decimal(id), what]) == Meta(Decimal(id), what)
  {
    DecimalValue(id);
    assert "node"[0] != "bridge"[0];
  }

  /** What the reader makes of a topic that is not an attribute's. */
  function Recovered(t: Topic): Parsed {
    match t
    case Availability(id) => Meta(Decimal(id), "availability")
    case NameTopic(id) => Meta(Decimal(id), "name")
    case Descriptor(id) => Meta(Decimal(id), "descriptor")
    case BridgeState(what) => Bridge(what)
    case Response(command) => Reply(command)
    case _ => Foreign
  }

  lemma LevelsRecovered(t: Topic)
    requires !t.Attr?
    ensures ParseLevels(Levels(t)) == Recovered(t)
  {
    match t
    case Availability(id) => MetaLevels(id, "availability");
    case NameTopic(id) => MetaLevels(id, "name");
    case Descriptor(id) => MetaLevels(id, "descriptor");
    case Occurrence(_, _, _, _) => NotConsumed(t);
    case Alias(_, _) => NotConsumed(t);
    case BridgeState(what) => BridgeLevels(what);
    case Response(command) => BridgeLevels(command);
  }

  lemma BridgeLevels(word: string)
    ensures ParseLevels(["bridge", word]) == Bridge(word)
    ensures ParseLevels(["bridge", "response", word]) == Reply(word)
  {
  }

  /** Metadata, bridge and response topics are recovered; occurrences and aliases are rejected. */
  lemma ParseRecovers(prefix: string, t: Topic)
    requires Publishable(t) && Clean(prefix) == prefix && !t.Attr?
    ensures Parse(prefix, Render(prefix, t)) == Recovered(t)
  {
    ParseRendered(prefix, t);
    LevelsRecovered(t);
  }

  lemma NotConsumed(t: Topic)
    requires t.Occurrence? || t.Alias?
    ensures ParseLevels(Levels(t)) == Foreign
  {
    var head := Levels(t)[0];
    assert head[0] == 'n' && "bridge"[0] == 'b';
    if t.Alias? {
      assert head[1] == 'a' && "node"[1] == 'o';
    }
  }

  /** What the bridge hears as a command is never read back as state, in either tree. */
  lemma CommandsAreForeign(levels: seq<string>)
    requires IsCommand(levels)
    ensures levels != [] && ParseLevels(levels) == Foreign
  {
    var i :| 0 <= i < |COMMAND_FILTERS| && Matches(COMMAND_FILTERS[i], levels);
    assert "node" != "+" && "named" != "+" && "bridge" != "+" && "command" != "+" && "request" != "+" by {
      assert |"node"| == 4 && |"named"| == 5 && |"bridge"| == 6 && |"command"| == 7 && |"request"| == 7 && |"+"| == 1;
    }
    FilterHeads(i, levels);
  }

  lemma FilterHeads(i: nat, levels: seq<string>)
    requires i < |COMMAND_FILTERS| && Matches(COMMAND_FILTERS[i], levels)
    ensures |levels| == 6 || |levels| == 5 || (|levels| == 3 && levels[0] == "bridge" && levels[1] == "request")
    ensures |levels| == 6 || |levels| == 5 ==> levels[0] == "node" || levels[0] == "named"
    ensures |levels| == 5 ==> levels[4] == "command"
  {
    var filter := COMMAND_FILTERS[i];
    assert filter[0] == "node" || filter[0] == "named" || (filter[0] == "bridge" && filter[1] == "request");
    assert |"node"| == 4 && |"named"| == 5 && |"bridge"| == 6 && |"command"| == 7 && |"request"| == 7;
    assert filter[0] == levels[0];
    if |levels| == 5 {
      assert filter[4] == "command" && filter[4] == levels[4];
    }
  }
}
