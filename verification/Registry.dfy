/** Discovery by name on the Node-RED side: the index built from retained metadata, and how it
    resolves a name. */
module Discovery {
  import opened Text
  import opened Fabric
  import opened Naming
  import opened DataModel
  import opened Topics
  import opened Retained
  import opened Agreement
  import opened Runs
  import opened Sessions
  import opened Exactness
  import Mirror
  import opened Commands

  datatype Device = Device(nodeId: string, name: string, available: Option<bool>, descriptor: Option<Payload>)

  /** A metadata message: which node, which of its metadata topics, and the payload as text or as an
      object. An empty payload is the empty text. */
  datatype Meta = Meta(nodeId: string, what: string, text: string, doc: Option<Payload>)

  // ---------- the device list, in insertion order ----------

  function IndexIn(devs: seq<Device>, nodeId: string): Option<nat> {
    if devs == [] then None
    else if devs[|devs| - 1].nodeId == nodeId then Some(|devs| - 1)
    else IndexIn(devs[..|devs| - 1], nodeId)
  }

  ghost predicate DistinctDevices(devs: seq<Device>) {
    forall i, j :: 0 <= i < j < |devs| ==> devs[i].nodeId != devs[j].nodeId
  }

  function WithDevice(devs: seq<Device>, nodeId: string): seq<Device> {
    if IndexIn(devs, nodeId).Some? then devs else devs + [Device(nodeId, "", None, None)]
  }

  function Entry(d: Device, m: Meta): Device {
    if m.what == "name" then d.(name := m.text)
    else if m.what == "availability" then d.(available := Some(m.text == "online"))
    else if m.what == "descriptor" && m.doc.Some? then d.(descriptor := m.doc)
    else d
  }

  /** The entry of one node, if there is one. */
  function Look(devs: seq<Device>, nodeId: string): Option<Device> {
    var i := IndexIn(devs, nodeId);
    if i.Some? then Some(EntryAt(devs, nodeId)) else None
  }

  function EntryAt(devs: seq<Device>, nodeId: string): Device
    requires IndexIn(devs, nodeId).Some?
  {
    if devs[|devs| - 1].nodeId == nodeId then devs[|devs| - 1] else EntryAt(devs[..|devs| - 1], nodeId)
  }

  lemma {:induction false} IndexFinds(devs: seq<Device>, nodeId: string)
    ensures match IndexIn(devs, nodeId)
      case Some(i) => i < |devs| && devs[i].nodeId == nodeId && EntryAt(devs, nodeId) == devs[i]
      case None => forall i :: 0 <= i < |devs| ==> devs[i].nodeId != nodeId
  {
    if devs == [] || devs[|devs| - 1].nodeId == nodeId {
    } else {
      IndexFinds(devs[..|devs| - 1], nodeId);
      assert forall i :: 0 <= i < |devs| - 1 ==> devs[i] == devs[..|devs| - 1][i];
    }
  }

  lemma LookAt(devs: seq<Device>, i: nat)
    requires DistinctDevices(devs) && i < |devs|
    ensures Look(devs, devs[i].nodeId) == Some(devs[i])
  {
    IndexFinds(devs, devs[i].nodeId);
  }

  // ---------- resolving a name ----------

  /** String.prototype.trim */
  predicate IsJsSpace(c: char) {
    var u := c as int;
    || 0x09 <= u <= 0x0D || u == 0x20 || u == 0xA0 || u == 0xFEFF || u == 0x1680
    || 0x2000 <= u <= 0x200A || u == 0x2028 || u == 0x2029 || u == 0x202F || u == 0x205F || u == 0x3000
  }

  function FirstNamed(f: char -> char, devs: seq<Device>, wanted: string): Option<string> {
    if devs == [] then None
    else if devs[0].name != "" && Fold(f, devs[0].name) == wanted then Some(devs[0].nodeId)
    else FirstNamed(f, devs[1..], wanted)
  }

  function Verbatim(c: char): char {
    c
  }

  /** A node id that is known, else the first device with exactly this name, else the first one
      whose name folds to it. */
  function LookupName(f: Folding, devs: seq<Device>, name: string): Option<string> {
    var wanted := Trim(IsJsSpace, name);
    if wanted == "" then None
    else if Numeral(wanted) && Look(devs, wanted).Some? then Some(wanted)
    else
      var exact := FirstNamed(Verbatim, devs, wanted);
      if exact.Some? then exact else FirstNamed(f, devs, Fold(f, wanted))
  }

  lemma {:induction false} FirstNamedSound(f: char -> char, devs: seq<Device>, wanted: string)
    ensures match FirstNamed(f, devs, wanted)
      case Some(id) => exists i :: 0 <= i < |devs| && devs[i].nodeId == id && devs[i].name != "" && Fold(f, devs[i].name) == wanted
      case None => forall i :: 0 <= i < |devs| && devs[i].name != "" ==> Fold(f, devs[i].name) != wanted
  {
    if devs == [] {
    } else {
      if devs[0].name != "" && Fold(f, devs[0].name) == wanted {
        assert devs[0].nodeId == FirstNamed(f, devs, wanted).value;
      } else {
        FirstNamedSound(f, devs[1..], wanted);
        if FirstNamed(f, devs, wanted).Some? {
          var i :| 0 <= i < |devs| - 1 && devs[1..][i].nodeId == FirstNamed(f, devs, wanted).value
            && devs[1..][i].name != "" && Fold(f, devs[1..][i].name) == wanted;
          assert devs[i + 1] == devs[1..][i];
        } else {
          assert forall i :: 0 < i < |devs| ==> devs[i] == devs[1..][i - 1];
        }
      }
    }
  }

  /** The search takes the first match in the list. */
  lemma {:induction false} FirstNamedFirst(f: char -> char, devs: seq<Device>, wanted: string, i: nat)
    requires i < |devs| && devs[i].name != "" && Fold(f, devs[i].name) == wanted
    requires forall j :: 0 <= j < i ==> devs[j].name == "" || Fold(f, devs[j].name) != wanted
    ensures FirstNamed(f, devs, wanted) == Some(devs[i].nodeId)
  {
    if i == 0 {
    } else {
      assert devs[0].name == "" || Fold(f, devs[0].name) != wanted;
      forall j | 0 <= j < i - 1 ensures devs[1..][j].name == "" || Fold(f, devs[1..][j].name) != wanted {
        assert devs[1..][j] == devs[j + 1];
      }
      FirstNamedFirst(f, devs[1..], wanted, i - 1);
    }
  }

  /** An exact match is preferred to one that only differs in case, whatever else is listed. */
  lemma ExactPreferred(f: Folding, devs: seq<Device>, w: string)
    requires w != "" && Trimmed(IsJsSpace, w) && !(Numeral(w) && Look(devs, w).Some?)
    requires exists i :: 0 <= i < |devs| && devs[i].name == w
    ensures LookupName(f, devs, w).Some?
    ensures exists i :: 0 <= i < |devs| && devs[i].name == w && LookupName(f, devs, w) == Some(devs[i].nodeId)
  {
    TrimSound(IsJsSpace, w);
    FirstNamedSound(Verbatim, devs, w);
    forall i | 0 <= i < |devs| ensures Fold(Verbatim, devs[i].name) == devs[i].name {
      FoldVerbatim(devs[i].name);
    }
  }

  /** The one difference between the two languages' white space is U+0085, which only Go trims, and U+FEFF. */
  lemma SpacesDiffer(c: char)
    ensures IsJsSpace(c) != IsSpace(c) <==> c == '\U{0085}' || c == '\U{FEFF}'
  {
  }

  lemma FoldVerbatim(s: string)
    ensures Fold(Verbatim, s) == s
  {
    var same: char -> char := Verbatim;
    forall i | 0 <= i < |s| ensures Fold(Verbatim, s)[i] == s[i] {
      assert same(s[i]) == Verbatim(s[i]) == s[i];
    }
  }

  // ---------- replaying retained metadata ----------

  /** One metadata message, folded into the list. */
  function Applied(devs: seq<Device>, m: Meta): seq<Device> {
    var all := WithDevice(devs, m.nodeId);
    var i := IndexIn(all, m.nodeId);
    if i.Some? && i.value < |all| then all[i.value := Entry(all[i.value], m)] else all
  }

  lemma AppliedEffect(devs: seq<Device>, m: Meta, nodeId: string)
    requires DistinctDevices(devs)
    ensures DistinctDevices(Applied(devs, m))
    ensures Look(Applied(devs, m), nodeId) ==
      if nodeId != m.nodeId then Look(devs, nodeId)
      else Some(Entry(if Look(devs, nodeId).Some? then Look(devs, nodeId).value else Device(nodeId, "", None, None), m))
  {
    DeviceAdded(devs, m.nodeId, nodeId);
    var all := WithDevice(devs, m.nodeId);
    IndexFinds(all, m.nodeId);
    EntryReplaced(all, IndexIn(all, m.nodeId).value, m, nodeId);
  }

  /** What each metadata topic sets. A descriptor that is no object, and any other topic, change nothing. */
  lemma EntryMeans(d: Device, nodeId: string, text: string, doc: Option<Payload>, what: string)
    ensures Entry(d, Meta.Meta(nodeId, "name", text, doc)) == d.(name := text)
    ensures Entry(d, Meta.Meta(nodeId, "availability", text, doc)) == d.(available := Some(text == "online"))
    ensures Entry(d, Meta.Meta(nodeId, "descriptor", text, doc)) == if doc.Some? then d.(descriptor := doc) else d
    ensures what != "name" && what != "availability" && what != "descriptor" ==> Entry(d, Meta.Meta(nodeId, what, text, doc)) == d
  {
    assert |"name"| == 4 && |"availability"| == 12 && |"descriptor"| == 10;
  }

  /** Devices keep their places; a new one goes last. */
  lemma AppliedOrder(devs: seq<Device>, m: Meta, i: nat)
    requires i < |devs|
    ensures |devs| <= |Applied(devs, m)| <= |devs| + 1 && Applied(devs, m)[i].nodeId == devs[i].nodeId
    ensures |Applied(devs, m)| > |devs| ==> Applied(devs, m)[|devs|].nodeId == m.nodeId
  {
    IndexFinds(devs, m.nodeId);
    IndexFinds(WithDevice(devs, m.nodeId), m.nodeId);
  }

  lemma DeviceAdded(devs: seq<Device>, added: string, nodeId: string)
    requires DistinctDevices(devs)
    ensures var all := WithDevice(devs, added);
      && DistinctDevices(all) && IndexIn(all, added).Some?
      && Look(all, nodeId) == if nodeId == added && Look(devs, added).None? then Some(Device(added, "", None, None)) else Look(devs, nodeId)
  {
    IndexFinds(devs, added);
    if IndexIn(devs, added).None? {
      assert (devs + [Device(added, "", None, None)])[..|devs|] == devs;
    }
  }

  lemma EntryReplaced(all: seq<Device>, i: nat, m: Meta, nodeId: string)
    requires DistinctDevices(all) && i < |all| && all[i].nodeId == m.nodeId
    ensures var after := all[i := Entry(all[i], m)];
      DistinctDevices(after) && Look(after, nodeId) == if nodeId == m.nodeId then Some(Entry(all[i], m)) else Look(all, nodeId)
    ensures Look(all, m.nodeId) == Some(all[i])
  {
    var after := all[i := Entry(all[i], m)];
    assert forall j :: 0 <= j < |all| ==> after[j].nodeId == all[j].nodeId;
    LookAt(all, i);
    LookAt(after, i);
    IndexFinds(all, nodeId);
    IndexFinds(after, nodeId);
    if nodeId != m.nodeId && IndexIn(all, nodeId).Some? {
      LookAt(after, IndexIn(all, nodeId).value);
    }
  }

  function Replayed(msgs: seq<Meta>): seq<Device> {
    if msgs == [] then [] else Applied(Replayed(msgs[..|msgs| - 1]), msgs[|msgs| - 1])
  }

  function KeyOf(m: Meta): (string, string) {
    (m.nodeId, m.what)
  }

  /** What the store holds for one node's metadata. */
  function Stored(store: map<(string, string), Meta>, nodeId: string): Option<Device> {
    var n, a, d := (nodeId, "name"), (nodeId, "availability"), (nodeId, "descriptor");
    if n !in store && a !in store && d !in store then None
    else Some(Device(nodeId,
      if n in store then store[n].text else "",
      if a in store then Some(store[a].text == "online") else None,
      if d in store then store[d].doc else None))
  }

  ghost predicate IsMeta(m: Meta) {
    m.what == "name" || m.what == "availability" || m.what == "descriptor"
  }

  /** The messages are the store's entries, each once, in some order. */
  ghost predicate Enumerates(msgs: seq<Meta>, store: map<(string, string), Meta>) {
    && (forall i :: 0 <= i < |msgs| ==> IsMeta(msgs[i]) && KeyOf(msgs[i]) in store && store[KeyOf(msgs[i])] == msgs[i])
    && (forall i, j :: 0 <= i < j < |msgs| ==> KeyOf(msgs[i]) != KeyOf(msgs[j]))
    && (forall k :: k in store ==> exists i :: 0 <= i < |msgs| && KeyOf(msgs[i]) == k)
  }

  lemma StoredStep(store: map<(string, string), Meta>, m: Meta, nodeId: string)
    requires IsMeta(m) && KeyOf(m) in store && store[KeyOf(m)] == m
    ensures var before := Stored(store - {KeyOf(m)}, nodeId);
      Stored(store, nodeId) ==
        if nodeId != m.nodeId then before
        else Some(Entry(if before.Some? then before.value else Device(nodeId, "", None, None), m))
  {
    assert "name" != "availability" && "name" != "descriptor" && "availability" != "descriptor" by {
      assert |"name"| == 4 && |"availability"| == 12 && |"descriptor"| == 10;
    }
  }

  /** A fresh registry ends up with exactly what the store holds, in whatever order the broker
      replays it. */
  lemma {:induction false} ReplayConfluent(msgs: seq<Meta>, store: map<(string, string), Meta>, nodeId: string)
    requires Enumerates(msgs, store)
    ensures DistinctDevices(Replayed(msgs))
    ensures Look(Replayed(msgs), nodeId) == Stored(store, nodeId)
  {
    if msgs == [] {
      assert (nodeId, "name") !in store && (nodeId, "availability") !in store && (nodeId, "descriptor") !in store;
    } else {
      var front, m := msgs[..|msgs| - 1], msgs[|msgs| - 1];
      var rest := store - {KeyOf(m)};
      FrontEnumerates(msgs, store);
      ReplayConfluent(front, rest, nodeId);
      StoredStep(store, m, nodeId);
      AppliedEffect(Replayed(front), m, nodeId);
    }
  }

  lemma FrontEnumerates(msgs: seq<Meta>, store: map<(string, string), Meta>)
    requires Enumerates(msgs, store) && msgs != []
    ensures Enumerates(msgs[..|msgs| - 1], store - {KeyOf(msgs[|msgs| - 1])})
  {
    var front, m := msgs[..|msgs| - 1], msgs[|msgs| - 1];
    forall k | k in store - {KeyOf(m)} ensures exists i :: 0 <= i < |front| && KeyOf(front[i]) == k {
      var i :| 0 <= i < |msgs| && KeyOf(msgs[i]) == k;
      assert front[i] == msgs[i];
    }
  }

  // ---------- agreement with the bridge ----------

  /** Device entries with a name are named nodes of the bridge, and every named node is listed, those
      in `skip` excepted. */
  ghost predicate Mirrors(devs: seq<Device>, names: map<nat, string>, skip: set<nat>) {
    && (forall i :: 0 <= i < |devs| && devs[i].name != "" ==> NamedAs(names, devs[i]))
    && (forall id :: id in names && id !in skip ==> ListedAs(devs, Decimal(id), names[id]))
  }

  ghost predicate NamedAs(names: map<nat, string>, d: Device) {
    exists id :: id in names && d.nodeId == Decimal(id) && d.name == names[id]
  }

  ghost predicate ListedAs(devs: seq<Device>, nodeId: string, name: string) {
    exists i :: 0 <= i < |devs| && devs[i].nodeId == nodeId && devs[i].name == name
  }

  /** The bridge's names as both sides use them: unique up to case, indexed, and never empty. */
  ghost predicate NamesOk(f: Folding, names: map<nat, string>, index: map<string, nat>) {
    IndexOf(f, names, index) && FoldUnique(f, names) && forall id :: id in names ==> names[id] != ""
  }

  /** The registry's answer for the node the bridge means. */
  ghost function Known(devs: seq<Device>, names: map<nat, string>, r: Option<nat>): Option<string> {
    if r.Some? && r.value in names && ListedAs(devs, Decimal(r.value), names[r.value]) then Some(Decimal(r.value)) else None
  }

  ghost predicate Matching(f: Folding, d: Device, w: string) {
    d.name != "" && (Fold(f, d.name) == Fold(f, w) || Fold(Verbatim, d.name) == w)
  }

  lemma MatchFolds(f: Folding, d: Device, w: string)
    requires Matching(f, d, w)
    ensures Fold(f, d.name) == Fold(f, w)
  {
    FoldVerbatim(d.name);
  }

  /** A matching device is the node the bridge means. */
  lemma MatchMeans(f: Folding, devs: seq<Device>, names: map<nat, string>, index: map<string, nat>, skip: set<nat>, w: string, i: nat)
    requires Mirrors(devs, names, skip) && NamesOk(f, names, index) && i < |devs| && Matching(f, devs[i], w)
    ensures Known(devs, names, Resolve(f, index, w)) == Some(devs[i].nodeId)
  {
    MatchFolds(f, devs[i], w);
    var id :| id in names && devs[i].nodeId == Decimal(id) && devs[i].name == names[id];
    assert Fold(f, names[id]) == Fold(f, w) && Fold(f, w) in index;
    assert ListedAs(devs, Decimal(id), names[id]);
  }

  lemma KnownMatches(f: Folding, devs: seq<Device>, names: map<nat, string>, index: map<string, nat>, w: string) returns (i: nat)
    requires NamesOk(f, names, index) && Known(devs, names, Resolve(f, index, w)).Some?
    ensures i < |devs| && devs[i].name != "" && Fold(f, devs[i].name) == Fold(f, w)
  {
    var id := Resolve(f, index, w).value;
    i :| 0 <= i < |devs| && devs[i].nodeId == Decimal(id) && devs[i].name == names[id];
  }

  /** What a lookup means, for every input: a known node id, else the node the bridge's index has for
      the trimmed name, if the registry lists it. */
  lemma LookupMeans(f: Folding, devs: seq<Device>, names: map<nat, string>, index: map<string, nat>, skip: set<nat>, w: string)
    requires Mirrors(devs, names, skip) && NamesOk(f, names, index)
    ensures var v := Trim(IsJsSpace, w);
      LookupName(f, devs, w) ==
        if v == "" then None
        else if Numeral(v) && Look(devs, v).Some? then Some(v)
        else Known(devs, names, Resolve(f, index, v))
  {
    var v := Trim(IsJsSpace, w);
    var exact, folded := FirstNamed(Verbatim, devs, v), FirstNamed(f, devs, Fold(f, v));
    FirstNamedSound(Verbatim, devs, v);
    FirstNamedSound(f, devs, Fold(f, v));
    if exact.Some? {
      var i :| 0 <= i < |devs| && devs[i].nodeId == exact.value && devs[i].name != "" && Fold(Verbatim, devs[i].name) == v;
      MatchMeans(f, devs, names, index, skip, v, i);
    } else if folded.Some? {
      var i :| 0 <= i < |devs| && devs[i].nodeId == folded.value && devs[i].name != "" && Fold(f, devs[i].name) == Fold(f, v);
      MatchMeans(f, devs, names, index, skip, v, i);
    } else if Known(devs, names, Resolve(f, index, v)).Some? {
      var i := KnownMatches(f, devs, names, index, v);
    }
  }

  /** What the bridge answers for a name, as the registry would print it. */
  function BridgeAnswer(f: Folding, index: map<string, nat>, w: string): Option<string> {
    match ResolveNode(f, index, w)
    case Some(id) => Some(Decimal(id))
    case None => None
  }

  /** The registry and the bridge resolve every name alike, hit or miss. */
  lemma LookupAgrees(f: Folding, devs: seq<Device>, names: map<nat, string>, index: map<string, nat>, skip: set<nat>, w: string)
    requires Mirrors(devs, names, skip) && NamesOk(f, names, index)
    requires w != "" && Trimmed(IsJsSpace, w) && !Numeral(w)
    requires forall id :: id in skip ==> Resolve(f, index, w) != Some(id)
    ensures LookupName(f, devs, w) == BridgeAnswer(f, index, w)
  {
    TrimSound(IsJsSpace, w);
    LookupMeans(f, devs, names, index, skip, w);
    var r := Resolve(f, index, w);
    assert r.Some? ==> r.value in names && r.value !in skip && ListedAs(devs, Decimal(r.value), names[r.value]);
  }

  lemma NumeralTrimmed(w: string)
    requires Numeral(w)
    ensures Trim(IsJsSpace, w) == w
  {
    assert IsDigit(w[0]) && IsDigit(w[|w| - 1]);
    TrimSound(IsJsSpace, w);
  }

  /** A numeral is a node id to the bridge whether or not it knows the node, and to the registry only
      if it does. They agree on a numeral exactly when it is a known node's id, printed without
      leading zeros, or the name of the very node with that id. */
  lemma NumeralAgrees(f: Folding, devs: seq<Device>, names: map<nat, string>, index: map<string, nat>, skip: set<nat>, w: string)
    requires Mirrors(devs, names, skip) && NamesOk(f, names, index) && ParseUint(w, U64).Some?
    ensures LookupName(f, devs, w) == BridgeAnswer(f, index, w) <==>
      if Look(devs, w).Some? then Canonical(w)
      else Known(devs, names, Resolve(f, index, w)) == Some(Decimal(NumeralValue(w)))
  {
    NumeralTrimmed(w);
    LookupMeans(f, devs, names, index, skip, w);
  }

  lemma TrimWhole(space: char -> bool, s: string)
    ensures |Trim(space, s)| == |s| ==> Trim(space, s) == s
  {
    TrimSound(space, s);
    var i, j :| 0 <= i <= j <= |s| && Trim(space, s) == s[i..j];
    assert s[0..|s|] == s;
  }

  /** A listed node is found under its own name exactly when the name has no JavaScript white space at
      either end. What the bridge trims from a label is almost the same, but not quite. */
  lemma OwnNameFound(f: Folding, devs: seq<Device>, names: map<nat, string>, index: map<string, nat>, skip: set<nat>, id: nat)
    requires Mirrors(devs, names, skip) && NamesOk(f, names, index) && id in names && id !in skip
    requires !Numeral(Trim(IsJsSpace, names[id]))
    ensures LookupName(f, devs, names[id]) == Some(Decimal(id)) <==> Trimmed(IsJsSpace, names[id])
  {
    var w, v := names[id], Trim(IsJsSpace, names[id]);
    TrimSound(IsJsSpace, w);
    LookupMeans(f, devs, names, index, skip, w);
    assert Fold(f, w) in index && Resolve(f, index, w) == Some(id);
    if !Trimmed(IsJsSpace, w) {
      TrimWhole(IsJsSpace, w);
      assert |Fold(f, v)| != |Fold(f, w)|;
      forall j | Resolve(f, index, v) == Some(j) ensures Decimal(j) != Decimal(id) {
        if Decimal(j) == Decimal(id) {
          DecimalInjective(j, id);
        }
      }
    }
  }

  const MARKED: string := "\U{FEFF}Lamp"

  lemma MarkedTrimmed()
    ensures SafeLevel(MARKED) && Trimmed(IsSpace, MARKED) && !Trimmed(IsJsSpace, MARKED)
    ensures !Numeral(Trim(IsJsSpace, MARKED)) && MARKED != ""
  {
    assert |MARKED| == 5 && MARKED[1..] == "Lamp" && !IsJsSpace("Lamp"[0]) && !IsJsSpace("Lamp"[3]);
    assert TrimLeft(IsJsSpace, MARKED) == "Lamp";
    assert !IsDigit("Lamp"[0]);
  }

  lemma MarkedNamed(f: Folding, n: Node)
    requires NODE_LABEL in n.attrs && n.attrs[NODE_LABEL] == Str(MARKED)
    ensures NamesOf(f, map[4 := n]) == map[4 := MARKED]
  {
    MarkedTrimmed();
    PlainLabel(n, MARKED);
    OnlyNode(f, map[4 := n], 4, MARKED);
  }

  lemma MarkedMissed(f: Folding, devs: seq<Device>)
    requires Mirrors(devs, map[4 := MARKED], {})
    ensures LookupName(f, devs, MARKED) != Some(Decimal(4))
  {
    var names: map<nat, string> := map[4 := MARKED];
    MarkedTrimmed();
    OnlyIndexed(f, 4, MARKED);
    OwnNameFound(f, devs, names, map[Fold(f, MARKED) := 4], {}, 4);
  }

  /** Such a label exists: U+FEFF survives what the bridge trims, and not what JavaScript does. */
  lemma MarkedName(f: Folding, n: Node)
    requires NODE_LABEL in n.attrs && n.attrs[NODE_LABEL] == Str(MARKED)
    ensures NamesOf(f, map[4 := n]) == map[4 := MARKED]
    ensures forall devs :: Mirrors(devs, map[4 := MARKED], {}) ==> LookupName(f, devs, MARKED) != Some(Decimal(4))
  {
    MarkedNamed(f, n);
    forall devs | Mirrors(devs, map[4 := MARKED], {}) ensures LookupName(f, devs, MARKED) != Some(Decimal(4)) {
      MarkedMissed(f, devs);
    }
  }

  /** A retained metadata topic as the registry receives it. */
  ghost predicate Carries(m: Meta, t: Topic, p: Payload) {
    match t
    case Availability(id) => p.Word? && m == Meta.Meta(Decimal(id), "availability", p.w, None)
    case NameTopic(id) => p.Word? && m == Meta.Meta(Decimal(id), "name", p.w, None)
    case Descriptor(id) => m.nodeId == Decimal(id) && m.what == "descriptor" && m.doc == Some(p)
    case _ => false
  }

  /** The metadata part of the broker's retained store. */
  ghost predicate StoreOf(store: map<(string, string), Meta>, s: State) {
    && (forall t: Topic | t in s.retained && (t.Availability? || t.NameTopic? || t.Descriptor?) ::
          exists k :: k in store && KeyOf(store[k]) == k && Carries(store[k], t, s.retained[t]))
    && (forall k :: k in store ==> exists t :: t in s.retained && KeyOf(store[k]) == k && Carries(store[k], t, s.retained[t]))
  }

  /** Whatever the tree holds besides, up or down: the name topic of a node that is not being removed
      is retained exactly when the node has a name, and holds it. */
  lemma NameShown(cfg: Config, s: State, skip: set<nat>, up: bool, id: nat)
    requires Named(cfg, s) && Agree(cfg, s, skip, up) && NameTopicsRight(s) && id !in skip
    ensures NameTopic(id) in s.retained <==> id in s.names
    ensures NameTopic(id) in s.retained ==> s.retained[NameTopic(id)] == Word(s.names[id])
  {
    NamesNonEmpty(cfg.fold, s.nodes);
    if id in s.names {
      var t := NameTopic(id);
      assert Publishes(cfg, s.names, s.nodes[id], t);
      assert Shows(cfg, s.names, View(s.nodes[id], up), t, At(s.retained, t));
    }
  }

  lemma CarriesName(m: Meta, t: Topic, p: Payload)
    requires Carries(m, t, p) && m.what == "name"
    ensures t == NameTopic(t.id) && m.nodeId == Decimal(t.id) && p == Word(m.text)
  {
    assert |"name"| == 4 && |"availability"| == 12 && |"descriptor"| == 10;
  }

  lemma NameInStore(s: State, store: map<(string, string), Meta>, nodeId: string) returns (t: Topic)
    requires StoreOf(store, s) && Stored(store, nodeId).Some? && Stored(store, nodeId).value.name != ""
    ensures t.NameTopic? && nodeId == Decimal(t.id) && t in s.retained && s.retained[t] == Word(Stored(store, nodeId).value.name)
  {
    var k := (nodeId, "name");
    t :| t in s.retained && KeyOf(store[k]) == k && Carries(store[k], t, s.retained[t]);
    CarriesName(store[k], t, s.retained[t]);
  }

  lemma NameStored(s: State, store: map<(string, string), Meta>, nodeId: string)
    requires NameTopicsRight(s) && StoreOf(store, s)
    requires Stored(store, nodeId).Some? && Stored(store, nodeId).value.name != ""
    ensures NamedAs(s.names, Stored(store, nodeId).value)
  {
    var t := NameInStore(s, store, nodeId);
    assert t.id in s.names;
  }

  lemma NameReachesStore(s: State, store: map<(string, string), Meta>, id: nat)
    requires StoreOf(store, s) && NameTopic(id) in s.retained && s.retained[NameTopic(id)].Word?
    ensures Stored(store, Decimal(id)).Some? && Stored(store, Decimal(id)).value.name == s.retained[NameTopic(id)].w
  {
    var t := NameTopic(id);
    var k :| k in store && KeyOf(store[k]) == k && Carries(store[k], t, s.retained[t]);
    assert k == (Decimal(id), "name");
  }

  /** Replaying the retained metadata in any order gives a registry that mirrors the bridge's names. */
  lemma ReplayMirrors(cfg: Config, s: State, skip: set<nat>, up: bool, msgs: seq<Meta>, store: map<(string, string), Meta>)
    requires Named(cfg, s) && Agree(cfg, s, skip, up) && NameTopicsRight(s)
    requires StoreOf(store, s) && Enumerates(msgs, store)
    ensures Mirrors(Replayed(msgs), s.names, skip)
  {
    var devs := Replayed(msgs);
    ReplayConfluent(msgs, store, "");
    forall i | 0 <= i < |devs| && devs[i].name != "" ensures NamedAs(s.names, devs[i]) {
      ReplayNamed(s, msgs, store, i);
    }
    forall id | id in s.names && id !in skip ensures ListedAs(devs, Decimal(id), s.names[id]) {
      NameShown(cfg, s, skip, up, id);
      ReplayListed(s, msgs, store, id);
    }
  }

  lemma ReplayNamed(s: State, msgs: seq<Meta>, store: map<(string, string), Meta>, i: nat)
    requires NameTopicsRight(s) && StoreOf(store, s) && Enumerates(msgs, store) && DistinctDevices(Replayed(msgs))
    requires i < |Replayed(msgs)| && Replayed(msgs)[i].name != ""
    ensures NamedAs(s.names, Replayed(msgs)[i])
  {
    var d := Replayed(msgs)[i];
    ReplayConfluent(msgs, store, d.nodeId);
    LookAt(Replayed(msgs), i);
    NameStored(s, store, d.nodeId);
  }

  lemma ReplayListed(s: State, msgs: seq<Meta>, store: map<(string, string), Meta>, id: nat)
    requires StoreOf(store, s) && Enumerates(msgs, store) && NameTopic(id) in s.retained && s.retained[NameTopic(id)].Word?
    ensures ListedAs(Replayed(msgs), Decimal(id), s.retained[NameTopic(id)].w)
  {
    NameReachesStore(s, store, id);
    ReplayConfluent(msgs, store, Decimal(id));
    IndexFinds(Replayed(msgs), Decimal(id));
  }

  // ---------- whole runs ----------

  /** In every reachable state, session up or down, a registry filled from the broker mirrors the
      bridge's names. */
  lemma RunMirrors(cfg: Config, ys: seq<System>, steps: seq<Step>, k: nat, msgs: seq<Meta>, store: map<(string, string), Meta>)
    requires IsRun(cfg, ys, steps) && Unclashed(cfg, ys) && Separated(ys) && Covered(ys, steps) && k < |ys|
    requires StoreOf(store, ys[k].s) && Enumerates(msgs, store)
    ensures Mirrors(Replayed(msgs), ys[k].s.names, ys[k].removing) && NamesOk(cfg.fold, ys[k].s.names, ys[k].s.index)
  {
    RunSafe(cfg, ys, steps, k);
    RunRightsNames(cfg, ys, steps, k);
    UniqueIffNoClash(cfg.fold, ys[k].s.nodes);
    NamesNonEmpty(cfg.fold, ys[k].s.nodes);
    ReplayMirrors(cfg, ys[k].s, ys[k].removing, ys[k].up, msgs, store);
  }

  /** So it resolves every name that is not a numeral to the node the bridge resolves it to, unless
      that node is being removed. */
  lemma RunLookupAgrees(cfg: Config, ys: seq<System>, steps: seq<Step>, k: nat, msgs: seq<Meta>, store: map<(string, string), Meta>, w: string)
    requires IsRun(cfg, ys, steps) && Unclashed(cfg, ys) && Separated(ys) && Covered(ys, steps) && k < |ys|
    requires StoreOf(store, ys[k].s) && Enumerates(msgs, store)
    requires w != "" && Trimmed(IsJsSpace, w) && !Numeral(w)
    requires forall id :: id in ys[k].removing ==> Resolve(cfg.fold, ys[k].s.index, w) != Some(id)
    ensures LookupName(cfg.fold, Replayed(msgs), w) == BridgeAnswer(cfg.fold, ys[k].s.index, w)
  {
    RunMirrors(cfg, ys, steps, k, msgs, store);
    LookupAgrees(cfg.fold, Replayed(msgs), ys[k].s.names, ys[k].s.index, ys[k].removing, w);
  }

  lemma CarriesOther(m: Meta, t: Topic, p: Payload)
    requires Carries(m, t, p)
    ensures m.what == "availability" ==> t == Availability(t.id) && m.nodeId == Decimal(t.id) && p == Word(m.text)
    ensures m.what == "descriptor" ==> t == Descriptor(t.id) && m.nodeId == Decimal(t.id) && m.doc == Some(p)
  {
    assert |"name"| == 4 && |"availability"| == 12 && |"descriptor"| == 10;
  }

  /** What the store has for one topic: there if the topic is retained, and then its payload. */
  lemma StoredTopic(s: State, store: map<(string, string), Meta>, t: Topic, what: string)
    requires StoreOf(store, s)
    requires (t.NameTopic? && what == "name") || (t.Availability? && what == "availability") || (t.Descriptor? && what == "descriptor")
    ensures (Decimal(t.id), what) in store <==> t in s.retained
    ensures t in s.retained ==> Carries(store[(Decimal(t.id), what)], t, s.retained[t])
  {
    var key := (Decimal(t.id), what);
    if t in s.retained {
      var k :| k in store && KeyOf(store[k]) == k && Carries(store[k], t, s.retained[t]);
      assert k == key;
    }
    if key in store {
      var u :| u in s.retained && KeyOf(store[key]) == key && Carries(store[key], u, s.retained[u]);
      CarriesOther(store[key], u, s.retained[u]);
      if what == "name" {
        CarriesName(store[key], u, s.retained[u]);
      }
      DecimalInjective(u.id, t.id);
    }
  }

  /** What a registry filled from the broker has for a cached node that is not being removed: its name,
      whether it is online, and its descriptor. */
  lemma RunDevice(cfg: Config, ys: seq<System>, steps: seq<Step>, k: nat, msgs: seq<Meta>, store: map<(string, string), Meta>, id: nat)
    requires IsRun(cfg, ys, steps) && Unclashed(cfg, ys) && Separated(ys) && k < |ys|
    requires StoreOf(store, ys[k].s) && Enumerates(msgs, store)
    requires id in ys[k].s.nodes && id !in ys[k].removing
    ensures var s := ys[k].s;
      && Descriptor(id) in s.retained
      && Look(Replayed(msgs), Decimal(id)) == Some(Device(Decimal(id), if id in s.names then s.names[id] else "",
           Some(ys[k].up && s.nodes[id].available), Some(s.retained[Descriptor(id)])))
  {
    var s := ys[k].s;
    Mirror.RunShows(cfg, ys, steps, k, id);
    StoredTopic(s, store, NameTopic(id), "name");
    StoredTopic(s, store, Availability(id), "availability");
    StoredTopic(s, store, Descriptor(id), "descriptor");
    ReplayConfluent(msgs, store, Decimal(id));
    assert "online" != "offline" by {
      assert |"online"| == 6 && |"offline"| == 7;
    }
  }
}
