/** The Matter data model: numeric cluster and attribute ids to names and back. */
module DataModel {
  import opened Text

  datatype ClusterDef = ClusterDef(name: string, attributes: map<string, string>)

  /** The cluster section of the model file, keyed by numerals. */
  type ModelFile = map<string, ClusterDef>

  datatype Model = Model(
    clusters: map<nat, ClusterDef>,
    clusterByName: map<string, nat>,
    attrByName: map<nat, map<string, nat>>)

  /** Global attributes, present on every cluster. */
  const GLOBALS: map<nat, string> := map[
    65528 := "GeneratedCommandList",
    65529 := "AcceptedCommandList",
    65530 := "EventList",
    65531 := "AttributeList",
    65532 := "FeatureMap",
    65533 := "ClusterRevision"]

  // ---------- lookups ----------

  function ClusterName(m: Model, id: nat): string {
    if id in m.clusters then m.clusters[id].name else ""
  }

  function AttributeName(m: Model, cluster: nat, attr: nat): string {
    if attr in GLOBALS then GLOBALS[attr]
    else if cluster !in m.clusters then ""
    else
      var names := m.clusters[cluster].attributes;
      if Decimal(attr) in names then names[Decimal(attr)] else ""
  }

  function ResolveCluster(f: Folding, m: Model, s: string): Option<nat> {
    if ParseUint(s, U32).Some? then ParseUint(s, U32)
    else if Fold(f, s) in m.clusterByName then Some(m.clusterByName[Fold(f, s)])
    else None
  }

  function ResolveAttribute(f: Folding, m: Model, cluster: nat, s: string): Option<nat> {
    if ParseUint(s, U32).Some? then ParseUint(s, U32)
    else if cluster !in m.attrByName then None
    else if Fold(f, s) in m.attrByName[cluster] then Some(m.attrByName[cluster][Fold(f, s)])
    else None
  }

  function NamePath(m: Model, path: string): Option<string> {
    var parts := Split(path);
    if |parts| != 3 then None
    else
      var cluster, attr := ParseUint(parts[1], U32), ParseUint(parts[2], U32);
      if cluster.None? || attr.None? then None
      else
        var cName, aName := ClusterName(m, cluster.value), AttributeName(m, cluster.value, attr.value);
        if cName == "" || aName == "" then None else Some(parts[0] + "/" + cName + "/" + aName)
  }

  // ---------- building the indexes ----------

  /** `rev` lists exactly the folded attribute names of one cluster, a global one taking precedence. */
  ghost predicate ReverseOf(f: Folding, attrs: map<string, string>, rev: map<string, nat>) {
    && (forall a :: a in GLOBALS ==> Fold(f, GLOBALS[a]) in rev && rev[Fold(f, GLOBALS[a])] == a)
    && (forall k :: k in attrs && ParseUint(k, U32).Some? ==> Fold(f, attrs[k]) in rev)
    && (forall name :: name in rev ==> Justified(f, attrs, name, rev[name]))
  }

  ghost predicate Justified(f: Folding, attrs: map<string, string>, name: string, id: nat) {
    || (id in GLOBALS && Fold(f, GLOBALS[id]) == name)
    || ((forall a :: a in GLOBALS ==> Fold(f, GLOBALS[a]) != name) && FromKey(f, attrs, name, id))
  }

  ghost predicate FromKey(f: Folding, attrs: map<string, string>, name: string, id: nat) {
    exists k :: k in attrs && ParseUint(k, U32) == Some(id) && Fold(f, attrs[k]) == name
  }

  ghost predicate HasCluster(file: ModelFile, id: nat, def: ClusterDef) {
    exists k :: k in file && ParseUint(k, U32) == Some(id) && file[k] == def
  }

  ghost predicate NamedCluster(f: Folding, file: ModelFile, name: string, id: nat) {
    exists k :: k in file && ParseUint(k, U32) == Some(id) && Fold(f, file[k].name) == name
  }

  ghost predicate ClustersOf(file: ModelFile, clusters: map<nat, ClusterDef>) {
    && (forall k :: k in file && ParseUint(k, U32).Some? ==> ParseUint(k, U32).value in clusters)
    && (forall id :: id in clusters ==> HasCluster(file, id, clusters[id]))
  }

  ghost predicate NamesIn(f: Folding, file: ModelFile, byName: map<string, nat>) {
    && (forall k :: k in file && ParseUint(k, U32).Some? ==> Fold(f, file[k].name) in byName)
    && (forall name :: name in byName ==> NamedCluster(f, file, name, byName[name]))
  }

  ghost predicate ReversesOf(f: Folding, clusters: map<nat, ClusterDef>, attrByName: map<nat, map<string, nat>>) {
    && attrByName.Keys == clusters.Keys
    && (forall id :: id in clusters ==> ReverseOf(f, clusters[id].attributes, attrByName[id]))
  }

  /** Every entry with a numeral key is indexed under its id and under its folded name, and nothing
      else is. Entries with other keys are skipped. */
  ghost predicate Loaded(f: Folding, file: ModelFile, m: Model) {
    && ClustersOf(file, m.clusters)
    && NamesIn(f, file, m.clusterByName)
    && ReversesOf(f, m.clusters, m.attrByName)
  }

  /** Global names stay apart whatever the folding, because folding keeps lengths. */
  lemma GlobalsFoldApart(f: Folding, a: nat, b: nat)
    requires a in GLOBALS && b in GLOBALS && Fold(f, GLOBALS[a]) == Fold(f, GLOBALS[b])
    ensures a == b
  {
    assert |GLOBALS[a]| == |GLOBALS[b]|;
  }

  method ReverseAttributes(f: Folding, attrs: map<string, string>) returns (rev: map<string, nat>)
    ensures ReverseOf(f, attrs, rev)
  {
    rev := map[];
    var keys := attrs.Keys;
    while keys != {}
      invariant keys <= attrs.Keys
      invariant forall k :: k in attrs && k !in keys && ParseUint(k, U32).Some? ==> Fold(f, attrs[k]) in rev
      invariant forall name :: name in rev ==> FromKey(f, attrs, name, rev[name])
    {
      var k :| k in keys;
      keys := keys - {k};
      var id := ParseUint(k, U32);
      if id.Some? {
        rev := rev[Fold(f, attrs[k]) := id.value];
        assert FromKey(f, attrs, Fold(f, attrs[k]), id.value);
      }
    }
    var own := rev;
    var globals := GLOBALS.Keys;
    while globals != {}
      invariant globals <= GLOBALS.Keys && own.Keys <= rev.Keys
      invariant forall a :: a in GLOBALS && a !in globals ==> Fold(f, GLOBALS[a]) in rev && rev[Fold(f, GLOBALS[a])] == a
      invariant forall name :: name in rev ==>
        || (rev[name] in GLOBALS && Fold(f, GLOBALS[rev[name]]) == name)
        || (name in own && rev[name] == own[name] && forall a :: a in GLOBALS && a !in globals ==> Fold(f, GLOBALS[a]) != name)
    {
      var a :| a in globals;
      globals := globals - {a};
      forall b | b in GLOBALS && Fold(f, GLOBALS[a]) == Fold(f, GLOBALS[b]) ensures a == b {
        GlobalsFoldApart(f, a, b);
      }
      rev := rev[Fold(f, GLOBALS[a]) := a];
    }
  }

  method LoadModel(f: Folding, file: ModelFile) returns (m: Model)
    ensures Loaded(f, file, m)
  {
    m := Model(map[], map[], map[]);
    var keys := file.Keys;
    ghost var done: ModelFile := map[];
    while keys != {}
      invariant keys <= file.Keys && done.Keys == file.Keys - keys
      invariant forall k :: k in done ==> done[k] == file[k]
      invariant Loaded(f, done, m)
    {
      var k :| k in keys;
      keys := keys - {k};
      m := AddCluster(f, done, m, k, file[k]);
      done := done[k := file[k]];
    }
    assert done == file;
  }

  method AddCluster(f: Folding, ghost done: ModelFile, m: Model, k: string, def: ClusterDef) returns (r: Model)
    requires Loaded(f, done, m) && k !in done
    ensures Loaded(f, done[k := def], r)
  {
    var id := ParseUint(k, U32);
    ClustersStep(done, m.clusters, k, def, id);
    NamesStep(f, done, m.clusterByName, k, def, id);
    if id.None? {
      return m;
    }
    var rev := ReverseAttributes(f, def.attributes);
    ReversesStep(f, m.clusters, m.attrByName, id.value, def, rev);
    r := Model(m.clusters[id.value := def], m.clusterByName[Fold(f, def.name) := id.value], m.attrByName[id.value := rev]);
  }

  lemma ReversesStep(f: Folding, clusters: map<nat, ClusterDef>, attrByName: map<nat, map<string, nat>>,
                     id: nat, def: ClusterDef, rev: map<string, nat>)
    requires ReversesOf(f, clusters, attrByName) && ReverseOf(f, def.attributes, rev)
    ensures ReversesOf(f, clusters[id := def], attrByName[id := rev])
  {
  }

  lemma ClustersStep(done: ModelFile, clusters: map<nat, ClusterDef>, k: string, def: ClusterDef, id: Option<nat>)
    requires ClustersOf(done, clusters) && k !in done && id == ParseUint(k, U32)
    ensures ClustersOf(done[k := def], if id.Some? then clusters[id.value := def] else clusters)
  {
    var after := done[k := def];
    var next := if id.Some? then clusters[id.value := def] else clusters;
    forall i | i in next ensures HasCluster(after, i, next[i]) {
      if id == Some(i) {
        assert after[k] == def;
      } else {
        assert HasCluster(done, i, clusters[i]);
        var j :| j in done && ParseUint(j, U32) == Some(i) && done[j] == clusters[i];
        assert after[j] == done[j];
      }
    }
  }

  lemma NamesStep(f: Folding, done: ModelFile, byName: map<string, nat>, k: string, def: ClusterDef, id: Option<nat>)
    requires NamesIn(f, done, byName) && k !in done && id == ParseUint(k, U32)
    ensures NamesIn(f, done[k := def], if id.Some? then byName[Fold(f, def.name) := id.value] else byName)
  {
    var after := done[k := def];
    var next := if id.Some? then byName[Fold(f, def.name) := id.value] else byName;
    forall name | name in next ensures NamedCluster(f, after, name, next[name]) {
      if id.Some? && Fold(f, def.name) == name {
        assert after[k] == def;
      } else {
        assert NamedCluster(f, done, name, byName[name]);
        var j :| j in done && ParseUint(j, U32) == Some(byName[name]) && Fold(f, done[j].name) == name;
        assert after[j] == done[j];
      }
    }
  }

  // ---------- names lead back to ids ----------

  predicate PlainName(s: string) {
    NoSlash(s) && ParseUint(s, U32).None?
  }

  /** No two clusters share an id or a folded name, no two attributes of a cluster share a folded
      name or fold onto a global attribute, and no name is a numeral or holds a slash. */
  ghost predicate WellFormed(f: Folding, file: ModelFile) {
    && (forall k :: k in file && ParseUint(k, U32).Some? ==> PlainName(file[k].name) && WellFormedCluster(f, file[k].attributes))
    && (forall k, j | k in file && j in file && ParseUint(k, U32).Some? && ParseUint(j, U32).Some? ::
          Fold(f, file[k].name) == Fold(f, file[j].name) || ParseUint(k, U32) == ParseUint(j, U32) ==> k == j)
  }

  ghost predicate WellFormedCluster(f: Folding, attrs: map<string, string>) {
    && (forall k :: k in attrs && ParseUint(k, U32).Some? ==>
          PlainName(attrs[k]) && forall a :: a in GLOBALS ==> Fold(f, GLOBALS[a]) != Fold(f, attrs[k]))
    && (forall k, j | k in attrs && j in attrs && ParseUint(k, U32).Some? && ParseUint(j, U32).Some? ::
          Fold(f, attrs[k]) == Fold(f, attrs[j]) ==> ParseUint(k, U32) == ParseUint(j, U32))
  }

  lemma ClusterNameResolves(f: Folding, file: ModelFile, m: Model, id: nat)
    requires WellFormed(f, file) && Loaded(f, file, m) && id in m.clusters
    ensures ResolveCluster(f, m, m.clusters[id].name) == Some(id)
    ensures NoSlash(m.clusters[id].name) && WellFormedCluster(f, m.clusters[id].attributes)
  {
    var k :| k in file && ParseUint(k, U32) == Some(id) && file[k] == m.clusters[id];
    var name := Fold(f, m.clusters[id].name);
    assert name in m.clusterByName;
    assert NamedCluster(f, file, name, m.clusterByName[name]);
    var j :| j in file && ParseUint(j, U32) == Some(m.clusterByName[name]) && Fold(f, file[j].name) == name;
  }

  lemma GlobalNamesPlain(a: nat)
    requires a in GLOBALS
    ensures GLOBALS[a] != "" && PlainName(GLOBALS[a])
  {
    var s := GLOBALS[a];
    assert !IsDigit(s[0]);
    assert forall i :: 0 <= i < |s| ==> s[i] != '/';
  }

  lemma AttributeNameResolves(f: Folding, file: ModelFile, m: Model, id: nat, attr: nat)
    requires WellFormed(f, file) && Loaded(f, file, m) && id in m.clusters && attr < U32
    requires AttributeName(m, id, attr) != ""
    ensures ResolveAttribute(f, m, id, AttributeName(m, id, attr)) == Some(attr)
    ensures NoSlash(AttributeName(m, id, attr))
  {
    ClusterNameResolves(f, file, m, id);
    var attrs, rev := m.clusters[id].attributes, m.attrByName[id];
    var name := AttributeName(m, id, attr);
    assert ReverseOf(f, attrs, rev);
    if attr in GLOBALS {
      GlobalNamesPlain(attr);
    } else {
      var k := Decimal(attr);
      ParseDecimal(attr, U32);
      assert Fold(f, name) in rev && Justified(f, attrs, Fold(f, name), rev[Fold(f, name)]);
      assert FromKey(f, attrs, Fold(f, name), rev[Fold(f, name)]);
      var j :| j in attrs && ParseUint(j, U32) == Some(rev[Fold(f, name)]) && Fold(f, attrs[j]) == Fold(f, name);
    }
  }

  // ---------- attribute paths ----------

  /** The path is spelled the way the bridge prints one: the cluster and attribute carry no
      leading zeros. */
  predicate CanonicalPath(path: string) {
    var parts := Split(path);
    |parts| == 3 && Canonical(parts[1]) && Canonical(parts[2])
  }

  function PathOf(endpoint: string, cluster: nat, attr: nat): string {
    endpoint + "/" + Decimal(cluster) + "/" + Decimal(attr)
  }

  lemma SplitThree(a: string, b: string, c: string)
    requires NoSlash(a) && NoSlash(b) && NoSlash(c)
    ensures Split(a + "/" + b + "/" + c) == [a, b, c]
  {
    assert a + "/" + b + "/" + c == a + "/" + (b + "/" + c);
    SplitAtSlash(a, b + "/" + c);
    SplitAtSlash(b, c);
    SplitPlain(c);
  }

  lemma JoinThree(path: string)
    requires |Split(path)| == 3
    ensures var parts := Split(path);
      path == parts[0] + "/" + parts[1] + "/" + parts[2] && NoSlash(parts[0]) && NoSlash(parts[1]) && NoSlash(parts[2])
  {
    var parts := Split(path);
    JoinSplit(path);
    assert parts[1..][1..] == [parts[2]];
    assert Join(parts[1..]) == parts[1] + "/" + parts[2];
    assert Join(parts) == parts[0] + "/" + (parts[1] + "/" + parts[2]);
  }

  lemma PathFromParts(path: string, c: nat, a: nat)
    requires CanonicalPath(path)
    requires ParseUint(Split(path)[1], U32) == Some(c) && ParseUint(Split(path)[2], U32) == Some(a)
    ensures path == PathOf(Split(path)[0], c, a) && NoSlash(Split(path)[0])
  {
    JoinThree(path);
  }

  /** Everything in an alias can be read back: its three levels resolve to the very ids it was
      printed from. */
  lemma AliasReadsBack(f: Folding, file: ModelFile, m: Model, path: string) returns (cluster: nat, attr: nat)
    requires WellFormed(f, file) && Loaded(f, file, m)
    requires CanonicalPath(path) && NamePath(m, path).Some?
    ensures var levels := Split(NamePath(m, path).value);
      && |levels| == 3
      && levels[0] == Split(path)[0]
      && ResolveCluster(f, m, levels[1]) == Some(cluster)
      && ResolveAttribute(f, m, cluster, levels[2]) == Some(attr)
      && path == PathOf(levels[0], cluster, attr)
  {
    cluster, attr := NamePathParts(m, path);
    PathFromParts(path, cluster, attr);
    AliasLevels(f, file, m, path, cluster, attr);
  }

  /** Where the names in an alias come from. */
  ghost predicate NamedBy(m: Model, path: string, cluster: nat, attr: nat) {
    var parts := Split(path);
    && |parts| == 3 && ParseUint(parts[1], U32) == Some(cluster) && ParseUint(parts[2], U32) == Some(attr)
    && cluster in m.clusters && attr < U32 && AttributeName(m, cluster, attr) != ""
    && NamePath(m, path) == Some(parts[0] + "/" + ClusterName(m, cluster) + "/" + AttributeName(m, cluster, attr))
  }

  lemma NamePathIs(m: Model, path: string, parts: seq<string>, cluster: nat, attr: nat)
    requires Split(path) == parts && |parts| == 3
    requires ParseUint(parts[1], U32) == Some(cluster) && ParseUint(parts[2], U32) == Some(attr)
    requires ClusterName(m, cluster) != "" && AttributeName(m, cluster, attr) != ""
    ensures NamePath(m, path) == Some(parts[0] + "/" + ClusterName(m, cluster) + "/" + AttributeName(m, cluster, attr))
  {
  }

  lemma NamePathParts(m: Model, path: string) returns (cluster: nat, attr: nat)
    requires NamePath(m, path).Some?
    ensures NamedBy(m, path, cluster, attr)
  {
    var parts := Split(path);
    cluster, attr := ParseUint(parts[1], U32).value, ParseUint(parts[2], U32).value;
  }

  lemma AliasLevels(f: Folding, file: ModelFile, m: Model, path: string, cluster: nat, attr: nat)
    requires WellFormed(f, file) && Loaded(f, file, m) && NamedBy(m, path, cluster, attr)
    ensures Split(NamePath(m, path).value) == [Split(path)[0], ClusterName(m, cluster), AttributeName(m, cluster, attr)]
    ensures ResolveCluster(f, m, ClusterName(m, cluster)) == Some(cluster)
    ensures ResolveAttribute(f, m, cluster, AttributeName(m, cluster, attr)) == Some(attr)
  {
    JoinThree(path);
    ClusterNameResolves(f, file, m, cluster);
    AttributeNameResolves(f, file, m, cluster, attr);
    SplitThree(Split(path)[0], ClusterName(m, cluster), AttributeName(m, cluster, attr));
  }

  /** Two canonical paths never share an alias. */
  lemma AliasInjective(f: Folding, file: ModelFile, m: Model, p: string, q: string)
    requires WellFormed(f, file) && Loaded(f, file, m)
    requires CanonicalPath(p) && CanonicalPath(q)
    requires NamePath(m, p).Some? && NamePath(m, p) == NamePath(m, q)
    ensures p == q
  {
    var c, a := AliasReadsBack(f, file, m, p);
    var d, b := AliasReadsBack(f, file, m, q);
  }

  // ---------- what the model file says ----------

  /** A cluster resolves to its number, or to the id of an entry whose name folds to the same thing; it is
      unknown exactly when there is none. */
  lemma ClusterMeans(f: Folding, file: ModelFile, m: Model, s: string)
    requires Loaded(f, file, m)
    ensures ParseUint(s, U32).Some? ==> ResolveCluster(f, m, s) == ParseUint(s, U32)
    ensures ParseUint(s, U32).None? ==>
      match ResolveCluster(f, m, s)
      case Some(id) => exists k :: k in file && ParseUint(k, U32) == Some(id) && Fold(f, file[k].name) == Fold(f, s)
      case None => forall k :: k in file && ParseUint(k, U32).Some? ==> Fold(f, file[k].name) != Fold(f, s)
  {
    if ParseUint(s, U32).None? && Fold(f, s) in m.clusterByName {
      assert NamedCluster(f, file, Fold(f, s), m.clusterByName[Fold(f, s)]);
    }
  }

  /** An attribute resolves to its number, to a global attribute, or to an entry of its cluster whose name
      folds to the same thing; it is unknown exactly when there is neither. */
  lemma AttributeMeans(f: Folding, file: ModelFile, m: Model, cluster: nat, s: string)
    requires Loaded(f, file, m)
    ensures ParseUint(s, U32).Some? ==> ResolveAttribute(f, m, cluster, s) == ParseUint(s, U32)
    ensures ParseUint(s, U32).None? && cluster !in m.clusters ==> ResolveAttribute(f, m, cluster, s) == None
    ensures ParseUint(s, U32).None? && cluster in m.clusters ==>
      match ResolveAttribute(f, m, cluster, s)
      case Some(id) => (id in GLOBALS && Fold(f, GLOBALS[id]) == Fold(f, s)) || FromKey(f, m.clusters[cluster].attributes, Fold(f, s), id)
      case None =>
        && (forall a :: a in GLOBALS ==> Fold(f, GLOBALS[a]) != Fold(f, s))
        && (forall k | k in m.clusters[cluster].attributes && ParseUint(k, U32).Some? ::
              Fold(f, m.clusters[cluster].attributes[k]) != Fold(f, s))
  {
    if ParseUint(s, U32).None? && cluster in m.clusters {
      var rev := m.attrByName[cluster];
      assert ReverseOf(f, m.clusters[cluster].attributes, rev);
      if Fold(f, s) in rev {
        assert Justified(f, m.clusters[cluster].attributes, Fold(f, s), rev[Fold(f, s)]);
      }
    }
  }

  lemma GlobalNames()
    ensures GLOBALS.Keys == {65528, 65529, 65530, 65531, 65532, 65533}
    ensures GLOBALS[65528] == "GeneratedCommandList" && GLOBALS[65529] == "AcceptedCommandList" && GLOBALS[65530] == "EventList"
    ensures GLOBALS[65531] == "AttributeList" && GLOBALS[65532] == "FeatureMap" && GLOBALS[65533] == "ClusterRevision"
  {
  }

  /** The name the file has for an attribute of one of its clusters; a global attribute keeps its own. */
  function FileName(def: ClusterDef, attr: nat): string {
    if attr in GLOBALS then GLOBALS[attr]
    else if Decimal(attr) in def.attributes then def.attributes[Decimal(attr)]
    else ""
  }

  /** The file names both the cluster and the attribute of the path, and this is the path in names. */
  ghost predicate FileAlias(file: ModelFile, path: string, alias: string) {
    exists k :: k in file && AliasFrom(file[k], k, path, alias)
  }

  predicate AliasFrom(def: ClusterDef, k: string, path: string, alias: string) {
    var parts := Split(path);
    && |parts| == 3 && ParseUint(k, U32).Some? && ParseUint(parts[1], U32) == ParseUint(k, U32) && ParseUint(parts[2], U32).Some?
    && def.name != "" && FileName(def, ParseUint(parts[2], U32).value) != ""
    && alias == parts[0] + "/" + def.name + "/" + FileName(def, ParseUint(parts[2], U32).value)
  }

  /** A path has an alias exactly when the file names its cluster and its attribute. */
  lemma NamePathIff(f: Folding, file: ModelFile, m: Model, path: string, alias: string)
    requires WellFormed(f, file) && Loaded(f, file, m)
    ensures NamePath(m, path) == Some(alias) <==> FileAlias(file, path, alias)
  {
    if NamePath(m, path) == Some(alias) {
      var c, a := NamePathParts(m, path);
      var k :| k in file && ParseUint(k, U32) == Some(c) && file[k] == m.clusters[c];
      assert AliasFrom(file[k], k, path, alias);
    }
    if FileAlias(file, path, alias) {
      var k :| k in file && AliasFrom(file[k], k, path, alias);
      FileCluster(f, file, m, k);
      NamePathIs(m, path, Split(path), ParseUint(k, U32).value, ParseUint(Split(path)[2], U32).value);
    }
  }

  lemma FileCluster(f: Folding, file: ModelFile, m: Model, k: string)
    requires WellFormed(f, file) && Loaded(f, file, m) && k in file && ParseUint(k, U32).Some?
    ensures ParseUint(k, U32).value in m.clusters && m.clusters[ParseUint(k, U32).value] == file[k]
  {
    var id := ParseUint(k, U32).value;
    assert HasCluster(file, id, m.clusters[id]);
    var j :| j in file && ParseUint(j, U32) == Some(id) && file[j] == m.clusters[id];
  }

  // ---------- a small model ----------

  const ON_OFF := ClusterDef("OnOff", map["0" := "OnOff"])

  const ON_OFF_FILE: ModelFile := map["6" := ON_OFF]

  function OnOffModel(f: Folding): Model {
    Model(map[6 := ON_OFF], map[Fold(f, "OnOff") := 6], map[6 := OnOffNames(f)])
  }

  function OnOffNames(f: Folding): map<string, nat> {
    map[
      Fold(f, "OnOff") := 0,
      Fold(f, "GeneratedCommandList") := 65528,
      Fold(f, "AcceptedCommandList") := 65529,
      Fold(f, "EventList") := 65530,
      Fold(f, "AttributeList") := 65531,
      Fold(f, "FeatureMap") := 65532,
      Fold(f, "ClusterRevision") := 65533]
  }

  lemma OneDigit(c: char)
    requires IsDigit(c)
    ensures ParseUint([c], U32) == Some(c as int - '0' as int)
  {
    var s := [c];
    assert s[..|s| - 1] == [];
    assert NumeralValue(s) == c as int - '0' as int;
  }

  lemma OnOffPlain(f: Folding)
    ensures PlainName("OnOff")
    ensures forall a :: a in GLOBALS ==> Fold(f, GLOBALS[a]) != Fold(f, "OnOff")
  {
    assert !IsDigit("OnOff"[0]) && |"OnOff"| == 5;
    forall a | a in GLOBALS ensures Fold(f, GLOBALS[a]) != Fold(f, "OnOff") {
      assert |Fold(f, GLOBALS[a])| == |GLOBALS[a]| > 5;
    }
  }

  lemma OnOffReverse(f: Folding)
    ensures ReverseOf(f, ON_OFF.attributes, OnOffNames(f))
  {
    OnOffGlobals(f);
    OnOffPlain(f);
    OnOffOwn(f);
    forall name | name in OnOffNames(f) ensures Justified(f, ON_OFF.attributes, name, OnOffNames(f)[name]) {
      OnOffJustified(f, name);
    }
  }

  lemma OnOffJustified(f: Folding, name: string)
    requires name in OnOffNames(f)
    ensures Justified(f, ON_OFF.attributes, name, OnOffNames(f)[name])
  {
    OnOffGlobals(f);
    OnOffPlain(f);
    OnOffOwn(f);
  }

  lemma OnOffOwn(f: Folding)
    ensures FromKey(f, ON_OFF.attributes, Fold(f, "OnOff"), 0)
  {
    OneDigit('0');
    assert "0" in ON_OFF.attributes && ON_OFF.attributes["0"] == "OnOff";
  }

  lemma OnOffGlobals(f: Folding)
    ensures OnOffNames(f)[Fold(f, "OnOff")] == 0
    ensures forall a :: a in GLOBALS ==> Fold(f, GLOBALS[a]) in OnOffNames(f) && OnOffNames(f)[Fold(f, GLOBALS[a])] == a
  {
    assert |"OnOff"| == 5;
    assert |GLOBALS[65528]| == 20 && |GLOBALS[65529]| == 19 && |GLOBALS[65530]| == 9;
    assert |GLOBALS[65531]| == 13 && |GLOBALS[65532]| == 10 && |GLOBALS[65533]| == 15;
  }

  lemma OnOffIndexed(f: Folding)
    ensures ClustersOf(ON_OFF_FILE, OnOffModel(f).clusters) && NamesIn(f, ON_OFF_FILE, OnOffModel(f).clusterByName)
  {
    OneDigit('6');
    assert HasCluster(ON_OFF_FILE, 6, ON_OFF) by {
      assert "6" in ON_OFF_FILE && ON_OFF_FILE["6"] == ON_OFF;
    }
    assert NamedCluster(f, ON_OFF_FILE, Fold(f, "OnOff"), 6) by {
      assert "6" in ON_OFF_FILE && ON_OFF_FILE["6"] == ON_OFF;
    }
  }

  lemma OnOffWellFormed(f: Folding)
    ensures WellFormed(f, ON_OFF_FILE)
  {
    OnOffPlain(f);
    assert WellFormedCluster(f, ON_OFF.attributes);
    assert forall k :: k in ON_OFF_FILE ==> k == "6";
  }

  /** The conditions on a model can be met: one cluster with one attribute of its own is well
      formed, and loads. */
  lemma OnOffLoads(f: Folding)
    ensures WellFormed(f, ON_OFF_FILE) && Loaded(f, ON_OFF_FILE, OnOffModel(f))
  {
    OnOffWellFormed(f);
    OnOffIndexed(f);
    OnOffReverses(f);
  }

  lemma OnOffReverses(f: Folding)
    ensures ReversesOf(f, OnOffModel(f).clusters, OnOffModel(f).attrByName)
  {
    OnOffReverse(f);
  }
}
