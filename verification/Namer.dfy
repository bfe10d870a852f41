/** The name index the bridge keeps: `Recompute` rebuilds it from a node list and reports which
    names moved. */
module NameIndex {
  import opened Text
  import opened Fabric
  import opened Naming

  // ---------- ascending id lists (sort.Slice) ----------

  ghost predicate Ascending(ids: seq<nat>) {
    forall i, j :: 0 <= i < j < |ids| ==> ids[i] < ids[j]
  }

  ghost predicate Lists(ids: seq<nat>, s: set<nat>) {
    Ascending(ids) && (forall id :: id in ids <==> id in s)
  }

  method Least(s: set<nat>) returns (m: nat)
    requires s != {}
    ensures m in s && forall k :: k in s ==> m <= k
  {
    m :| m in s;
    var rest := s - {m};
    while rest != {}
      invariant rest <= s && m in s && m !in rest
      invariant forall k :: k in s && k !in rest ==> m <= k
    {
      var k :| k in rest;
      rest := rest - {k};
      if k < m {
        m := k;
      }
    }
  }

  method SortIds(s: set<nat>) returns (ids: seq<nat>)
    ensures Lists(ids, s)
  {
    ids := [];
    var rest := s;
    while rest != {}
      invariant rest <= s && Ascending(ids)
      invariant forall id :: id in s <==> id in ids || id in rest
      invariant forall i, k :: 0 <= i < |ids| && k in rest ==> ids[i] < k
    {
      var m := Least(rest);
      ids, rest := ids + [m], rest - {m};
    }
  }

  // ---------- naming a list of nodes ----------

  function Listed(list: seq<Node>): Cache {
    if list == [] then map[]
    else var last := list[|list| - 1]; Listed(list[..|list| - 1])[last.id := last]
  }

  function ListBase(list: seq<Node>): map<nat, string> {
    if list == [] then map[]
    else
      var last, before := list[|list| - 1], ListBase(list[..|list| - 1]);
      if BaseName(last) == "" then before else before[last.id := BaseName(last)]
  }

  function ListCount(f: Folding, list: seq<Node>, key: string): nat {
    if list == [] then 0
    else
      var base := BaseName(list[|list| - 1]);
      ListCount(f, list[..|list| - 1], key) + if base != "" && Fold(f, base) == key then 1 else 0
  }

  /** A node listed twice is counted twice. */
  function ListNames(f: Folding, list: seq<Node>): map<nat, string> {
    var base := ListBase(list);
    map id | id in base :: if ListCount(f, list, Fold(f, base[id])) > 1 then Suffixed(base[id], id) else base[id]
  }

  ghost predicate Distinct(list: seq<Node>) {
    forall i, j :: 0 <= i < j < |list| ==> list[i].id != list[j].id
  }

  lemma {:induction false} ListedKeys(list: seq<Node>, id: nat)
    ensures id in Listed(list) <==> exists i :: 0 <= i < |list| && list[i].id == id
    ensures id in Listed(list) ==> Listed(list)[id] in list && Listed(list)[id].id == id
  {
    if list == [] {
    } else {
      ListedKeys(list[..|list| - 1], id);
      if list[|list| - 1].id == id {
        assert list[|list| - 1].id == id;
      } else if id in Listed(list) {
        var i :| 0 <= i < |list| - 1 && list[..|list| - 1][i].id == id;
        assert list[i].id == id;
      }
    }
  }

  lemma {:induction false} ListBaseIsCached(list: seq<Node>, id: nat)
    requires Distinct(list)
    ensures id in ListBase(list) <==> Labelled(Listed(list), id)
    ensures id in ListBase(list) ==> ListBase(list)[id] == BaseName(Listed(list)[id])
  {
    if list == [] {
    } else {
      var front := list[..|list| - 1];
      assert Distinct(front);
      ListBaseIsCached(front, id);
      ListedKeys(front, list[|list| - 1].id);
      ListBaseIsCached(front, list[|list| - 1].id);
    }
  }

  lemma GroupGrows(f: Folding, nodes: Cache, n: Node, key: string)
    requires n.id !in nodes
    ensures Group(f, nodes[n.id := n], key)
         == Group(f, nodes, key) + if BaseName(n) != "" && Fold(f, BaseName(n)) == key then {n.id} else {}
    ensures |Group(f, nodes[n.id := n], key)|
         == |Group(f, nodes, key)| + if BaseName(n) != "" && Fold(f, BaseName(n)) == key then 1 else 0
  {
    var before, after := Group(f, nodes, key), Group(f, nodes[n.id := n], key);
    var more := if BaseName(n) != "" && Fold(f, BaseName(n)) == key then {n.id} else {};
    forall id ensures id in after <==> id in before + more {
      GroupMember(f, nodes, n, key, id);
    }
    assert after == before + more;
    assert n.id !in before;
  }

  lemma GroupMember(f: Folding, nodes: Cache, n: Node, key: string, id: nat)
    requires n.id !in nodes
    ensures id in Group(f, nodes[n.id := n], key)
      <==> id in Group(f, nodes, key) || (id == n.id && BaseName(n) != "" && Fold(f, BaseName(n)) == key)
  {
  }

  lemma {:induction false} ListCountIsGroup(f: Folding, list: seq<Node>, key: string)
    requires Distinct(list)
    ensures ListCount(f, list, key) == |Group(f, Listed(list), key)|
  {
    if list == [] {
      assert Group(f, Listed(list), key) == {};
    } else {
      var front, last := list[..|list| - 1], list[|list| - 1];
      assert Distinct(front);
      ListCountIsGroup(f, front, key);
      ListedKeys(front, last.id);
      GroupGrows(f, Listed(front), last, key);
    }
  }

  /** Names depend only on which nodes are cached, not on the order they were listed in. */
  lemma NamesIgnoreOrder(f: Folding, list: seq<Node>)
    requires Distinct(list)
    ensures ListNames(f, list) == NamesOf(f, Listed(list))
  {
    forall id ensures NameAt(ListNames(f, list), id) == NameAt(NamesOf(f, Listed(list)), id) {
      ListNameAt(f, list, id);
    }
    SameEverywhere(ListNames(f, list), NamesOf(f, Listed(list)));
  }

  lemma ListNameAt(f: Folding, list: seq<Node>, id: nat)
    requires Distinct(list)
    ensures NameAt(ListNames(f, list), id) == NameAt(NamesOf(f, Listed(list)), id)
  {
    ListBaseIsCached(list, id);
    if id in ListBase(list) {
      ListCountIsGroup(f, list, Fold(f, ListBase(list)[id]));
    }
  }

  /** Only an unusable label gives an empty name, so a missing name and an empty one never differ. */
  lemma ListNamesNonEmpty(f: Folding, list: seq<Node>)
    ensures forall id :: id in ListNames(f, list) ==> ListNames(f, list)[id] != ""
  {
    ListBaseNonEmpty(list);
  }

  lemma {:induction false} ListBaseNonEmpty(list: seq<Node>)
    ensures forall id :: id in ListBase(list) ==> ListBase(list)[id] != ""
  {
    if list == [] {
    } else {
      ListBaseNonEmpty(list[..|list| - 1]);
    }
  }

  lemma IndexGrows(f: Folding, names: map<nat, string>, index: map<string, nat>, id: nat, name: string)
    requires IndexOf(f, names, index) && id !in names
    ensures IndexOf(f, names[id := name], index[Fold(f, name) := id])
  {
  }

  /** A node listed twice is suffixed though it is alone under its label. */
  lemma DuplicateSuffixes(f: Folding, n: Node)
    requires BaseName(n) != ""
    ensures Listed([n, n]) == map[n.id := n] && NamesOf(f, map[n.id := n]) == map[n.id := BaseName(n)]
    ensures ListNames(f, [n, n]) == map[n.id := Suffixed(BaseName(n), n.id)]
  {
    var key := Fold(f, BaseName(n));
    ListedOnce(f, n, key);
    ListedTwice(f, n, key);
    var names := ListNames(f, [n, n]);
    assert names.Keys == {n.id} && names[n.id] == Suffixed(BaseName(n), n.id);
    AloneNamed(f, n);
  }

  lemma ListedOnce(f: Folding, n: Node, key: string)
    requires BaseName(n) != "" && Fold(f, BaseName(n)) == key
    ensures Listed([n]) == map[n.id := n] && ListBase([n]) == map[n.id := BaseName(n)] && ListCount(f, [n], key) == 1
  {
    assert [n][..0] == [];
  }

  lemma ListedTwice(f: Folding, n: Node, key: string)
    requires BaseName(n) != "" && Fold(f, BaseName(n)) == key
    ensures Listed([n, n]) == map[n.id := n] && ListBase([n, n]) == map[n.id := BaseName(n)] && ListCount(f, [n, n], key) == 2
  {
    ListedOnce(f, n, key);
    assert [n, n][..1] == [n];
  }

  lemma AloneNamed(f: Folding, n: Node)
    requires BaseName(n) != ""
    ensures NamesOf(f, map[n.id := n]) == map[n.id := BaseName(n)]
  {
    AloneInLength(f, map[n.id := n], n.id);
  }

  // ---------- colliding labels ----------

  /** The ids listed under labels that fold to the key, in list order; a node listed twice is there twice. */
  function Members(f: Folding, list: seq<Node>, key: string): seq<nat> {
    if list == [] then []
    else
      var last := list[|list| - 1];
      Members(f, list[..|list| - 1], key) + if BaseName(last) != "" && Fold(f, BaseName(last)) == key then [last.id] else []
  }

  lemma {:induction false} MembersCounted(f: Folding, list: seq<Node>, key: string)
    ensures |Members(f, list, key)| == ListCount(f, list, key)
  {
    if list == [] {
    } else {
      MembersCounted(f, list[..|list| - 1], key);
    }
  }

  lemma {:induction false} MembersIn(f: Folding, list: seq<Node>, key: string, id: nat)
    requires Distinct(list)
    ensures id in Members(f, list, key) <==> id in Group(f, Listed(list), key)
  {
    if list == [] {
    } else {
      var front, last := list[..|list| - 1], list[|list| - 1];
      assert Distinct(front);
      MembersIn(f, front, key, id);
      ListedKeys(front, last.id);
      GroupMember(f, Listed(front), last, key, id);
    }
  }

  /** On a list without duplicates the keys with several members are those of the suffixed nodes, and
      the members are the nodes that share the label. */
  lemma MembersAreGroup(f: Folding, list: seq<Node>, key: string)
    requires Distinct(list)
    ensures ListCount(f, list, key) > 1 <==> |Group(f, Listed(list), key)| > 1
    ensures forall id :: id in Members(f, list, key) <==> id in Group(f, Listed(list), key)
    ensures forall id :: Labelled(Listed(list), id) ==>
      (Crowded(f, Listed(list), id) <==> ListCount(f, list, Fold(f, BaseName(Listed(list)[id]))) > 1)
  {
    ListCountIsGroup(f, list, key);
    forall id ensures id in Members(f, list, key) <==> id in Group(f, Listed(list), key) {
      MembersIn(f, list, key, id);
    }
    forall id | Labelled(Listed(list), id)
      ensures Crowded(f, Listed(list), id) <==> ListCount(f, list, Fold(f, BaseName(Listed(list)[id]))) > 1
    {
      ListCountIsGroup(f, list, Fold(f, BaseName(Listed(list)[id])));
    }
  }

  function MembersAt(groups: map<string, seq<nat>>, key: string): seq<nat> {
    if key in groups then groups[key] else []
  }

  ghost predicate GroupsOf(f: Folding, groups: map<string, seq<nat>>, list: seq<Node>) {
    forall key :: MembersAt(groups, key) == Members(f, list, key)
  }

  lemma MembersNext(f: Folding, list: seq<Node>, i: nat, key: string)
    requires i < |list|
    ensures Members(f, list[..i + 1], key) == Members(f, list[..i], key)
      + if BaseName(list[i]) != "" && Fold(f, BaseName(list[i])) == key then [list[i].id] else []
  {
    assert list[..i + 1][..i] == list[..i];
  }

  function WithMember(groups: map<string, seq<nat>>, key: string, id: nat): map<string, seq<nat>> {
    groups[key := MembersAt(groups, key) + [id]]
  }

  lemma GroupsNext(f: Folding, groups: map<string, seq<nat>>, list: seq<Node>, i: nat)
    requires i < |list| && GroupsOf(f, groups, list[..i])
    ensures var name := BaseName(list[i]);
      GroupsOf(f, if name == "" then groups else WithMember(groups, Fold(f, name), list[i].id), list[..i + 1])
  {
    var name := BaseName(list[i]);
    var next := if name == "" then groups else WithMember(groups, Fold(f, name), list[i].id);
    forall key ensures MembersAt(next, key) == Members(f, list[..i + 1], key) {
      MembersNext(f, list, i, key);
      assert MembersAt(groups, key) == Members(f, list[..i], key);
    }
  }

  predicate InOrder(ids: seq<nat>) {
    forall i, j :: 0 <= i < j < |ids| ==> ids[i] <= ids[j]
  }

  function Inserted(ids: seq<nat>, id: nat): seq<nat> {
    if ids == [] || ids[|ids| - 1] <= id then ids + [id]
    else Inserted(ids[..|ids| - 1], id) + [ids[|ids| - 1]]
  }

  lemma {:induction false} InsertedHolds(ids: seq<nat>, id: nat)
    ensures multiset(Inserted(ids, id)) == multiset(ids) + multiset{id}
  {
    if ids == [] || ids[|ids| - 1] <= id {
    } else {
      var front, last := ids[..|ids| - 1], ids[|ids| - 1];
      assert ids == front + [last];
      InsertedHolds(front, id);
    }
  }

  lemma InsertedBelow(ids: seq<nat>, id: nat, bound: nat)
    requires id <= bound && forall i :: 0 <= i < |ids| ==> ids[i] <= bound
    ensures forall i :: 0 <= i < |Inserted(ids, id)| ==> Inserted(ids, id)[i] <= bound
  {
    InsertedHolds(ids, id);
    forall i | 0 <= i < |Inserted(ids, id)| ensures Inserted(ids, id)[i] <= bound {
      assert Inserted(ids, id)[i] in multiset(Inserted(ids, id));
    }
  }

  lemma {:induction false} InsertedInOrder(ids: seq<nat>, id: nat)
    requires InOrder(ids)
    ensures InOrder(Inserted(ids, id))
  {
    if ids == [] || ids[|ids| - 1] <= id {
    } else {
      var front, last := ids[..|ids| - 1], ids[|ids| - 1];
      InsertedInOrder(front, id);
      InsertedBelow(front, id, last);
    }
  }

  method SortAll(ids: seq<nat>) returns (sorted: seq<nat>)
    ensures InOrder(sorted) && multiset(sorted) == multiset(ids)
  {
    sorted := [];
    for i := 0 to |ids|
      invariant InOrder(sorted) && multiset(sorted) == multiset(ids[..i])
    {
      assert ids[..i + 1] == ids[..i] + [ids[i]];
      InsertedInOrder(sorted, ids[i]);
      InsertedHolds(sorted, ids[i]);
      sorted := Inserted(sorted, ids[i]);
    }
    assert ids[..|ids|] == ids;
  }

  /** The keys with several members, each with its members in order. */
  ghost predicate SortedGroups(f: Folding, list: seq<Node>, groups: map<string, seq<nat>>) {
    && (forall key :: key in groups <==> ListCount(f, list, key) > 1)
    && (forall key :: key in groups ==> InOrder(groups[key]) && multiset(groups[key]) == multiset(Members(f, list, key)))
  }

  class Namer {
    const fold: Folding
    var resolved: map<nat, string>
    var byName: map<string, nat>

    ghost predicate Valid()
      reads this
    {
      && IndexOf(fold, resolved, byName)
      && forall id :: id in resolved ==> resolved[id] != ""
    }

    constructor (fold: Folding)
      ensures Valid() && this.fold == fold && resolved == map[] && byName == map[]
    {
      this.fold := fold;
      resolved, byName := map[], map[];
    }

    method Name(id: nat) returns (name: Option<string>)
      ensures name == NameAt(resolved, id)
      ensures Valid() && name.Some? ==> name.value != "" && Resolve(fold, byName, name.value).Some?
    {
      name := if id in resolved then Some(resolved[id]) else None;
    }

    method Lookup(name: string) returns (id: Option<nat>)
      ensures id == Resolve(fold, byName, name)
      ensures Valid() ==>
        match id
        case Some(i) => i in resolved && Fold(fold, resolved[i]) == Fold(fold, name)
        case None => forall i :: i in resolved ==> Fold(fold, resolved[i]) != Fold(fold, name)
    {
      var key := Fold(fold, name);
      id := if key in byName then Some(byName[key]) else None;
    }

    /** The names become those of the list, whatever they were before, and exactly the ids whose
        name was gained, lost or altered come back, in ascending order. */
    method Recompute(nodes: seq<Node>) returns (changed: seq<nat>)
      requires Valid()
      modifies this
      ensures Valid()
      ensures resolved == ListNames(fold, nodes)
      ensures Lists(changed, Changed(old(resolved), resolved))
    {
      var base, counts := Tally(nodes);
      var next, byName' := Disambiguate(base, counts, nodes);
      ListNamesNonEmpty(fold, nodes);
      changed := Moved(next);
      resolved, byName := next, byName';
    }

    method Tally(nodes: seq<Node>) returns (base: map<nat, string>, counts: map<string, nat>)
      ensures base == ListBase(nodes)
      ensures forall key :: (if key in counts then counts[key] else 0) == ListCount(fold, nodes, key)
    {
      base, counts := map[], map[];
      for i := 0 to |nodes|
        invariant base == ListBase(nodes[..i])
        invariant forall key :: (if key in counts then counts[key] else 0) == ListCount(fold, nodes[..i], key)
      {
        assert nodes[..i + 1][..i] == nodes[..i];
        var name := BaseName(nodes[i]);
        if name == "" {
          continue;
        }
        base := base[nodes[i].id := name];
        var key := Fold(fold, name);
        counts := counts[key := 1 + if key in counts then counts[key] else 0];
      }
      assert nodes[..|nodes|] == nodes;
    }

    method Moved(next: map<nat, string>) returns (changed: seq<nat>)
      requires Valid() && forall id :: id in next ==> next[id] != ""
      ensures Lists(changed, Changed(resolved, next))
    {
      var moved: set<nat> := {};
      var all := next.Keys + resolved.Keys;
      var seen := all;
      while seen != {}
        invariant seen <= all
        invariant forall id :: id in moved <==> id in all && id !in seen && NameAt(resolved, id) != NameAt(next, id)
      {
        var id :| id in seen;
        seen := seen - {id};
        if (if id in resolved then resolved[id] else "") != (if id in next then next[id] else "") {
          moved := moved + {id};
        }
      }
      changed := SortIds(moved);
    }

    method Disambiguate(base: map<nat, string>, counts: map<string, nat>, ghost nodes: seq<Node>)
      returns (next: map<nat, string>, index: map<string, nat>)
      requires base == ListBase(nodes)
      requires forall key :: (if key in counts then counts[key] else 0) == ListCount(fold, nodes, key)
      ensures next == ListNames(fold, nodes)
      ensures IndexOf(fold, next, index)
    {
      next, index := map[], map[];
      var ids := base.Keys;
      while ids != {}
        invariant ids <= base.Keys && next.Keys == base.Keys - ids
        invariant forall id :: id in next ==> next[id] == ListNames(fold, nodes)[id]
        invariant IndexOf(fold, next, index)
      {
        var id :| id in ids;
        ids := ids - {id};
        var name := base[id];
        var key := Fold(fold, name);
        if (if key in counts then counts[key] else 0) > 1 {
          name := Suffixed(name, id);
        }
        IndexGrows(fold, next, index, id, name);
        next, index := next[id := name], index[Fold(fold, name) := id];
      }
    }

    /** The groups of nodes whose labels fold together. */
    method Collisions(nodes: seq<Node>) returns (groups: map<string, seq<nat>>)
      ensures SortedGroups(fold, nodes, groups)
    {
      groups := map[];
      for i := 0 to |nodes|
        invariant GroupsOf(fold, groups, nodes[..i])
      {
        GroupsNext(fold, groups, nodes, i);
        var name := BaseName(nodes[i]);
        if name != "" {
          groups := WithMember(groups, Fold(fold, name), nodes[i].id);
        }
      }
      assert nodes[..|nodes|] == nodes;
      groups := Crowds(nodes, groups);
    }

    /** Lone members go, the rest is put in order. */
    method Crowds(ghost nodes: seq<Node>, all: map<string, seq<nat>>) returns (groups: map<string, seq<nat>>)
      requires GroupsOf(fold, all, nodes)
      ensures SortedGroups(fold, nodes, groups)
    {
      groups := all;
      var keys := all.Keys;
      while keys != {}
        invariant keys <= all.Keys && groups.Keys <= all.Keys
        invariant forall key :: key in keys ==> key in groups && groups[key] == all[key]
        invariant forall key :: key in all && key !in keys ==> (key in groups <==> |all[key]| > 1)
        invariant forall key :: key in groups && key !in keys ==> InOrder(groups[key]) && multiset(groups[key]) == multiset(all[key])
      {
        var key :| key in keys;
        keys := keys - {key};
        if |all[key]| < 2 {
          groups := groups - {key};
        } else {
          var sorted := SortAll(all[key]);
          groups := groups[key := sorted];
        }
      }
      forall key ensures |MembersAt(all, key)| == ListCount(fold, nodes, key) && MembersAt(all, key) == Members(fold, nodes, key) {
        MembersCounted(fold, nodes, key);
      }
    }
  }
}
