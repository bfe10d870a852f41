/** How a device gets its name: NodeLabel, made safe for a topic level, and suffixed with the node
    id when another device's label folds to the same thing. Everything here is a function of the
    cached fabric; `Namer` computes the same functions incrementally. */
module Naming {
  import opened Text
  import opened Fabric

  const NODE_LABEL := "0/40/5"
  const MAX_SEGMENT: nat := 128

  // ---------- sanitising a label ----------

  /** unicode.IsSpace */
  predicate IsSpace(c: char) {
    var u := c as int;
    || 0x09 <= u <= 0x0D || u == 0x20 || u == 0x85 || u == 0xA0 || u == 0x1680
    || 0x2000 <= u <= 0x200A || u == 0x2028 || u == 0x2029 || u == 0x202F || u == 0x205F || u == 0x3000
  }

  /** unicode.IsControl, and the replacement character. */
  predicate IsDropped(c: char) {
    var u := c as int;
    0 <= u <= 0x1F || 0x7F <= u <= 0x9F || u == 0xFFFD
  }

  predicate IsReserved(c: char) {
    c == '/' || c == '+' || c == '#'
  }

  function Sanitise(s: string, room: nat): string
    decreases |s|
  {
    if s == [] || room == 0 then []
    else if IsReserved(s[0]) then ['-'] + Sanitise(s[1..], room - 1)
    else if IsDropped(s[0]) then Sanitise(s[1..], room)
    else [s[0]] + Sanitise(s[1..], room - 1)
  }

  function TopicSegment(text: string): string {
    Trim(IsSpace, Sanitise(Trim(IsSpace, text), MAX_SEGMENT))
  }

  /** What MQTT can carry in one topic level. */
  predicate SafeLevel(s: string) {
    forall i :: 0 <= i < |s| ==> !IsReserved(s[i]) && !IsDropped(s[i])
  }

  lemma {:induction false} SanitiseSafe(s: string, room: nat)
    ensures SafeLevel(Sanitise(s, room)) && |Sanitise(s, room)| <= room
    ensures SafeLevel(s) && |s| <= room ==> Sanitise(s, room) == s
    decreases |s|
  {
    if s == [] || room == 0 {
    } else {
      SanitiseSafe(s[1..], if !IsReserved(s[0]) && IsDropped(s[0]) then room else room - 1);
    }
  }

  /** A sanitised label is one safe topic level of at most 128 characters with no space around it,
      and sanitising it again changes nothing. */
  lemma SegmentSafe(text: string)
    ensures var r := TopicSegment(text);
      && SafeLevel(r) && NoSlash(r) && |r| <= MAX_SEGMENT && Trimmed(IsSpace, r)
      && TopicSegment(r) == r
    ensures SafeLevel(text) && |text| <= MAX_SEGMENT && Trimmed(IsSpace, text) ==> TopicSegment(text) == text
  {
    SegmentShaped(text);
    Untouched(TopicSegment(text));
    if SafeLevel(text) && |text| <= MAX_SEGMENT && Trimmed(IsSpace, text) {
      Untouched(text);
    }
  }

  lemma SegmentShaped(text: string)
    ensures var r := TopicSegment(text); SafeLevel(r) && NoSlash(r) && |r| <= MAX_SEGMENT && Trimmed(IsSpace, r)
  {
    var clean := Sanitise(Trim(IsSpace, text), MAX_SEGMENT);
    SanitiseSafe(Trim(IsSpace, text), MAX_SEGMENT);
    TrimSound(IsSpace, clean);
    var i, j :| 0 <= i <= j <= |clean| && Trim(IsSpace, clean) == clean[i..j];
    PieceSafe(clean, i, j);
  }

  lemma PieceSafe(s: string, i: nat, j: nat)
    requires SafeLevel(s) && i <= j <= |s|
    ensures SafeLevel(s[i..j]) && NoSlash(s[i..j]) && |s[i..j]| <= |s|
  {
    assert forall k :: 0 <= k < j - i ==> s[i..j][k] == s[i + k];
  }

  lemma Untouched(s: string)
    requires SafeLevel(s) && |s| <= MAX_SEGMENT && Trimmed(IsSpace, s)
    ensures TopicSegment(s) == s
  {
    TrimSound(IsSpace, s);
    SanitiseSafe(s, MAX_SEGMENT);
  }

  const SPACES: set<int> :=
    {9, 10, 11, 12, 13, 32, 133, 160, 5760, 8192, 8193, 8194, 8195, 8196, 8197, 8198, 8199, 8200, 8201, 8202, 8232, 8233, 8239, 8287, 12288}

  /** What sets the special characters apart. */
  lemma SpecialCharacters(c: char)
    ensures IsReserved(c) <==> c in "/+#"
    ensures IsDropped(c) <==> c as int < 32 || 127 <= c as int < 160 || c == '\U{FFFD}'
    ensures IsSpace(c) <==> c as int in SPACES
  {
  }

  /** The text without its control and replacement characters. */
  function Carried(s: string): string {
    if s == [] then []
    else
      var u := s[0] as int;
      (if u < 32 || 127 <= u < 160 || u == 0xFFFD then [] else [s[0]]) + Carried(s[1..])
  }

  /** Character by character: of the characters carried over, the first ones there is room for, each as
      it is, or a dash if it is a separator or a wildcard. */
  lemma {:induction false} SanitiseCharacters(s: string, room: nat)
    ensures var kept, r := Carried(s), Sanitise(s, room);
      && |r| == (if |kept| < room then |kept| else room)
      && forall i :: 0 <= i < |r| ==> r[i] == if kept[i] == '/' || kept[i] == '+' || kept[i] == '#' then '-' else kept[i]
    decreases |s|
  {
    if s == [] || room == 0 {
    } else {
      SanitiseCharacters(s[1..], if !IsReserved(s[0]) && IsDropped(s[0]) then room else room - 1);
    }
  }

  /** A label becomes a name by trimming it, carrying over at most 128 characters, and trimming again. */
  lemma SegmentCharacters(text: string) returns (r: string)
    ensures TopicSegment(text) == Trim(IsSpace, r)
    ensures var kept := Carried(Trim(IsSpace, text));
      && |r| == (if |kept| < 128 then |kept| else 128)
      && forall i :: 0 <= i < |r| ==> r[i] == if kept[i] == '/' || kept[i] == '+' || kept[i] == '#' then '-' else kept[i]
  {
    r := Sanitise(Trim(IsSpace, text), MAX_SEGMENT);
    SanitiseCharacters(Trim(IsSpace, text), MAX_SEGMENT);
  }

  // ---------- names of a cached fabric ----------

  /** A missing, null or non-string label counts as no label. */
  function LabelOf(n: Node): string {
    if NODE_LABEL in n.attrs && n.attrs[NODE_LABEL].Str? then Trim(IsSpace, n.attrs[NODE_LABEL].s) else ""
  }

  function BaseName(n: Node): string {
    TopicSegment(LabelOf(n))
  }

  predicate Labelled(nodes: Cache, id: nat) {
    id in nodes && BaseName(nodes[id]) != ""
  }

  function Group(f: Folding, nodes: Cache, folded: string): set<nat> {
    set id | id in nodes && Labelled(nodes, id) && Fold(f, BaseName(nodes[id])) == folded
  }

  /** Another node's label folds to the same name. */
  predicate Crowded(f: Folding, nodes: Cache, id: nat)
    requires id in nodes
  {
    |Group(f, nodes, Fold(f, BaseName(nodes[id])))| > 1
  }

  function NameOf(f: Folding, nodes: Cache, id: nat): string
    requires id in nodes
  {
    var base := BaseName(nodes[id]);
    if Crowded(f, nodes, id) then Suffixed(base, id) else base
  }

  function NamesOf(f: Folding, nodes: Cache): map<nat, string> {
    map id | id in nodes && Labelled(nodes, id) :: NameOf(f, nodes, id)
  }

  /** The label attribute decides the name, if it holds a string; nothing else does. */
  lemma NameFromLabel(n: Node)
    ensures "0/40/5" in n.attrs && n.attrs["0/40/5"].Str? ==> BaseName(n) == TopicSegment(n.attrs["0/40/5"].s)
    ensures !("0/40/5" in n.attrs && n.attrs["0/40/5"].Str?) ==> BaseName(n) == ""
  {
    if NODE_LABEL in n.attrs && n.attrs[NODE_LABEL].Str? {
      TrimSound(IsSpace, n.attrs[NODE_LABEL].s);
      TrimSound(IsSpace, LabelOf(n));
    } else {
      TrimSound(IsSpace, "");
    }
  }

  function NameAt(names: map<nat, string>, id: nat): Option<string> {
    if id in names then Some(names[id]) else None
  }

  lemma SameEverywhere(a: map<nat, string>, b: map<nat, string>)
    requires forall id :: NameAt(a, id) == NameAt(b, id)
    ensures a == b
  {
    forall id ensures id in a <==> id in b {
      assert NameAt(a, id) == NameAt(b, id);
    }
    forall id | id in a ensures a[id] == b[id] {
      assert NameAt(a, id) == NameAt(b, id);
    }
  }

  /** Names a node gained, lost or changed. */
  function Changed(before: map<nat, string>, after: map<nat, string>): set<nat> {
    set id | id in before.Keys + after.Keys && NameAt(before, id) != NameAt(after, id)
  }

  ghost predicate FoldUnique(f: Folding, names: map<nat, string>) {
    forall i, j :: i in names && j in names && i != j ==> Fold(f, names[i]) != Fold(f, names[j])
  }

  ghost predicate Injective(names: map<nat, string>) {
    forall i, j :: i in names && j in names && i != j ==> names[i] != names[j]
  }

  lemma FoldUniqueInjective(f: Folding, names: map<nat, string>)
    requires FoldUnique(f, names)
    ensures Injective(names)
  {
    forall i, j | i in names && j in names && i != j ensures names[i] != names[j] {
      assert Fold(f, names[i]) != Fold(f, names[j]);
    }
  }

  /** The reverse index: every folded name has an entry, and every entry names a node whose name
      folds to the key. */
  ghost predicate IndexOf(f: Folding, names: map<nat, string>, index: map<string, nat>) {
    && (forall id :: id in names ==> Fold(f, names[id]) in index)
    && (forall key :: key in index ==> index[key] in names && Fold(f, names[index[key]]) == key)
  }

  function Resolve(f: Folding, index: map<string, nat>, name: string): Option<nat> {
    var key := Fold(f, name);
    if key in index then Some(index[key]) else None
  }

  // ---------- uniqueness ----------

  /** No bare name folds to a name another node carries with its suffix. */
  ghost predicate NoClash(f: Folding, nodes: Cache) {
    forall i, j :: Labelled(nodes, i) && Labelled(nodes, j) && i != j
      && !Crowded(f, nodes, i) && Crowded(f, nodes, j)
      ==> Fold(f, BaseName(nodes[i])) != Suffixed(Fold(f, BaseName(nodes[j])), j)
  }

  lemma SameFoldCrowded(f: Folding, nodes: Cache, i: nat, j: nat)
    requires Labelled(nodes, i) && Labelled(nodes, j) && i != j
    requires Fold(f, BaseName(nodes[i])) == Fold(f, BaseName(nodes[j]))
    ensures Crowded(f, nodes, i) && Crowded(f, nodes, j)
  {
    var g := Group(f, nodes, Fold(f, BaseName(nodes[i])));
    assert i in g && j in g - {i};
    assert |g| == |g - {i}| + 1;
  }

  /** A node is suffixed exactly when another node has a label that folds to the same name. */
  lemma CrowdedIff(f: Folding, nodes: Cache, i: nat)
    requires Labelled(nodes, i)
    ensures Crowded(f, nodes, i) <==>
      exists j :: j != i && Labelled(nodes, j) && Fold(f, BaseName(nodes[j])) == Fold(f, BaseName(nodes[i]))
  {
    var g := Group(f, nodes, Fold(f, BaseName(nodes[i])));
    if Crowded(f, nodes, i) {
      assert |g - {i}| == |g| - 1 > 0;
      var j :| j in g - {i};
    }
    if j :| j != i && Labelled(nodes, j) && Fold(f, BaseName(nodes[j])) == Fold(f, BaseName(nodes[i])) {
      SameFoldCrowded(f, nodes, i, j);
    }
  }

  /** Two folded names can coincide only when exactly one of the two carries a suffix. */
  lemma CoincidenceNeedsOneSuffix(f: Folding, nodes: Cache, i: nat, j: nat)
    requires Labelled(nodes, i) && Labelled(nodes, j) && i != j
    requires Fold(f, NameOf(f, nodes, i)) == Fold(f, NameOf(f, nodes, j))
    ensures Crowded(f, nodes, i) != Crowded(f, nodes, j)
  {
    if !Crowded(f, nodes, i) && !Crowded(f, nodes, j) {
      SameFoldCrowded(f, nodes, i, j);
    } else if Crowded(f, nodes, i) && Crowded(f, nodes, j) {
      FoldSuffixed(f, BaseName(nodes[i]), i);
      FoldSuffixed(f, BaseName(nodes[j]), j);
      SuffixedInjective(Fold(f, BaseName(nodes[i])), i, Fold(f, BaseName(nodes[j])), j);
    }
  }

  /** Names are unique up to case exactly when no bare name clashes with a suffixed one. */
  lemma UniqueIffNoClash(f: Folding, nodes: Cache)
    ensures FoldUnique(f, NamesOf(f, nodes)) <==> NoClash(f, nodes)
  {
    var names := NamesOf(f, nodes);
    if NoClash(f, nodes) {
      forall i, j | i in names && j in names && i != j ensures Fold(f, names[i]) != Fold(f, names[j]) {
        if Fold(f, names[i]) == Fold(f, names[j]) {
          CoincidenceNeedsOneSuffix(f, nodes, i, j);
          FoldSuffixed(f, BaseName(nodes[i]), i);
          FoldSuffixed(f, BaseName(nodes[j]), j);
        }
      }
    }
    if FoldUnique(f, names) {
      forall i, j | Labelled(nodes, i) && Labelled(nodes, j) && i != j && !Crowded(f, nodes, i) && Crowded(f, nodes, j)
        ensures Fold(f, BaseName(nodes[i])) != Suffixed(Fold(f, BaseName(nodes[j])), j)
      {
        FoldSuffixed(f, BaseName(nodes[j]), j);
        assert Fold(f, names[i]) != Fold(f, names[j]);
      }
    }
  }

  lemma PlainLabel(n: Node, text: string)
    requires NODE_LABEL in n.attrs && n.attrs[NODE_LABEL] == Str(text)
    requires SafeLevel(text) && |text| <= MAX_SEGMENT && Trimmed(IsSpace, text)
    ensures BaseName(n) == text
  {
    TrimSound(IsSpace, text);
    SegmentSafe(text);
  }

  lemma AloneInLength(f: Folding, nodes: Cache, k: nat)
    requires Labelled(nodes, k)
    requires forall id :: id in nodes && id != k ==> |BaseName(nodes[id])| != |BaseName(nodes[k])|
    ensures !Crowded(f, nodes, k)
  {
    var g := Group(f, nodes, Fold(f, BaseName(nodes[k])));
    forall id | id in g ensures id == k {
      assert |Fold(f, BaseName(nodes[id]))| == |BaseName(nodes[id])|;
    }
    assert g == {k};
  }

  lemma SuffixedLonger(stem: string, n: nat)
    ensures |Suffixed(stem, n)| > |stem|
  {
  }

  /** A bare label that spells another node's suffixed name, with no third label of that length. */
  lemma ClashFromBases(f: Folding, nodes: Cache, i: nat, j: nat, k: nat)
    requires i in nodes && j in nodes && k in nodes && i != j && i != k && j != k
    requires Labelled(nodes, i) && Labelled(nodes, j) && Labelled(nodes, k) && BaseName(nodes[i]) == BaseName(nodes[j])
    requires BaseName(nodes[k]) == Suffixed(BaseName(nodes[i]), i)
    requires forall id :: id in nodes && id != k ==> |BaseName(nodes[id])| != |BaseName(nodes[k])|
    ensures NameOf(f, nodes, i) == BaseName(nodes[k]) && NameOf(f, nodes, k) == BaseName(nodes[k])
  {
    SameFoldCrowded(f, nodes, i, j);
    AloneInLength(f, nodes, k);
  }

  lemma SensorFour()
    ensures Suffixed("Sensor", 4) == "Sensor-4"
    ensures SafeLevel("Sensor") && SafeLevel("Sensor-4") && Trimmed(IsSpace, "Sensor") && Trimmed(IsSpace, "Sensor-4")
  {
    assert Decimal(4) == "4";
  }

  lemma ClashOfThree(f: Folding, nodes: Cache, i: nat, j: nat, k: nat, stem: string)
    requires nodes.Keys == {i, j, k} && i != j && i != k && j != k && stem != ""
    requires BaseName(nodes[i]) == stem && BaseName(nodes[j]) == stem && BaseName(nodes[k]) == Suffixed(stem, i)
    ensures NameOf(f, nodes, i) == NameOf(f, nodes, k)
  {
    SuffixedLonger(stem, i);
    forall id | id in nodes && id != k ensures |BaseName(nodes[id])| != |BaseName(nodes[k])| {
      assert id == i || id == j;
    }
    ClashFromBases(f, nodes, i, j, k);
  }

  /** Two nodes labelled `Sensor`, and a third labelled `Sensor-4`: nodes 4 and 7 end up with one name. */
  lemma ClashExample(f: Folding, nodes: Cache)
    requires nodes.Keys == {4, 9, 7}
    requires nodes[4].attrs == map[NODE_LABEL := Str("Sensor")] && nodes[9].attrs == map[NODE_LABEL := Str("Sensor")]
    requires nodes[7].attrs == map[NODE_LABEL := Str("Sensor-4")]
    ensures NameOf(f, nodes, 4) == NameOf(f, nodes, 7)
  {
    SensorFour();
    PlainLabel(nodes[4], "Sensor");
    PlainLabel(nodes[9], "Sensor");
    PlainLabel(nodes[7], "Sensor-4");
    ClashOfThree(f, nodes, 4, 9, 7, "Sensor");
  }

  lemma HitsAndMisses(f: Folding, names: map<nat, string>, index: map<string, nat>, name: string)
    requires IndexOf(f, names, index)
    ensures match Resolve(f, index, name)
      case Some(id) => id in names && Fold(f, names[id]) == Fold(f, name)
      case None => forall id :: id in names ==> Fold(f, names[id]) != Fold(f, name)
  {
  }

  lemma UniqueHit(f: Folding, names: map<nat, string>, index: map<string, nat>, name: string, id: nat)
    requires IndexOf(f, names, index) && FoldUnique(f, names) && id in names && Fold(f, names[id]) == Fold(f, name)
    ensures Resolve(f, index, name) == Some(id)
  {
    HitsAndMisses(f, names, index, name);
    forall hit | hit in names && Fold(f, names[hit]) == Fold(f, name) ensures hit == id {
    }
  }

  /** Any hit names a node whose own name matches up to case; under `NoClash` every case variant of
      a node's name finds that node. */
  lemma LookupSound(f: Folding, nodes: Cache, index: map<string, nat>, name: string)
    requires IndexOf(f, NamesOf(f, nodes), index)
    ensures var names := NamesOf(f, nodes);
      match Resolve(f, index, name)
      case Some(id) => id in names && Fold(f, names[id]) == Fold(f, name)
      case None => forall id :: id in names ==> Fold(f, names[id]) != Fold(f, name)
    ensures NoClash(f, nodes) ==>
      forall id | id in NamesOf(f, nodes) && Fold(f, NamesOf(f, nodes)[id]) == Fold(f, name) ::
        Resolve(f, index, name) == Some(id)
  {
    var names := NamesOf(f, nodes);
    HitsAndMisses(f, names, index, name);
    if NoClash(f, nodes) {
      UniqueIffNoClash(f, nodes);
      forall id | id in names && Fold(f, names[id]) == Fold(f, name) ensures Resolve(f, index, name) == Some(id) {
        UniqueHit(f, names, index, name, id);
      }
    }
  }

  // ---------- how far one event reaches ----------

  /** The two caches agree on every node but `id`. */
  ghost predicate DiffersAt(a: Cache, b: Cache, id: nat) {
    forall j :: j != id ==> (j in a <==> j in b) && (j in a ==> a[j] == b[j])
  }

  lemma TwoElements(ga: set<nat>, gb: set<nat>, id: nat, j: nat)
    requires j != id && j in ga && j in gb && |ga| > 1 && |gb| <= 1
    requires forall k :: k != id ==> (k in ga <==> k in gb)
    ensures ga == {id, j}
  {
    assert |gb - {j}| == |gb| - 1;
    assert gb == {j};
    assert ga - {id} == {j};
  }

  /** Node `j` carries a suffix before the change and none after it. */
  predicate LosesSuffix(f: Folding, a: Cache, b: Cache, j: nat) {
    j in a && j in b && Labelled(a, j) && a[j] == b[j] && Crowded(f, a, j) && !Crowded(f, b, j)
  }

  /** A peer that loses its suffix shared its folded label with the node that changed, and with no
      other node. */
  lemma LastCompanion(f: Folding, a: Cache, b: Cache, id: nat, j: nat)
    requires DiffersAt(a, b, id) && j != id && LosesSuffix(f, a, b, j)
    ensures Labelled(a, id) && Group(f, a, Fold(f, BaseName(a[id]))) == {id, j}
  {
    var key := Fold(f, BaseName(a[j]));
    var ga, gb := Group(f, a, key), Group(f, b, key);
    TwoElements(ga, gb, id, j);
    assert id in ga;
  }

  lemma OnlyLoser(f: Folding, a: Cache, b: Cache, id: nat) returns (peer: Option<nat>)
    requires DiffersAt(a, b, id)
    ensures forall j :: j != id && LosesSuffix(f, a, b, j) ==> peer == Some(j)
    ensures peer.Some? ==> peer.value != id && LosesSuffix(f, a, b, peer.value)
    ensures !Labelled(a, id) ==> peer == None
  {
    if j :| j in a && j != id && LosesSuffix(f, a, b, j) {
      peer := Some(j);
      LastCompanion(f, a, b, id, j);
      forall k | k != id && LosesSuffix(f, a, b, k) ensures k == j {
        LastCompanion(f, a, b, id, k);
        assert k in {id, j};
      }
    } else {
      peer := None;
    }
  }

  lemma RenamedPeer(f: Folding, a: Cache, b: Cache, id: nat, j: nat)
    requires DiffersAt(a, b, id) && j != id
    requires NameAt(NamesOf(f, a), j) != NameAt(NamesOf(f, b), j)
    ensures LosesSuffix(f, a, b, j) || LosesSuffix(f, b, a, j)
  {
  }

  /** Changing one node renames at most that node, one peer that loses its suffix and one peer
      that gains one. A node that had no name before takes no suffix away, and a node that has
      none afterwards adds none. */
  lemma BoundedRename(f: Folding, a: Cache, b: Cache, id: nat) returns (loser: Option<nat>, gainer: Option<nat>)
    requires DiffersAt(a, b, id)
    ensures forall j :: j in Changed(NamesOf(f, a), NamesOf(f, b)) ==> j == id || loser == Some(j) || gainer == Some(j)
    ensures loser.Some? ==> Labelled(a, id) && LosesSuffix(f, a, b, loser.value)
    ensures gainer.Some? ==> Labelled(b, id) && LosesSuffix(f, b, a, gainer.value)
  {
    loser := OnlyLoser(f, a, b, id);
    gainer := OnlyLoser(f, b, a, id);
    forall j | j in Changed(NamesOf(f, a), NamesOf(f, b)) && j != id
      ensures loser == Some(j) || gainer == Some(j)
    {
      RenamedPeer(f, a, b, id, j);
    }
  }
}
