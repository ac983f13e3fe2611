/**
 * The mapping layer of the D3 graph visualisation: query-result nodes and
 * relationships become visualisation nodes and relationships with their
 * property values turned into strings (`mapProperties`, `mapNodes`,
 * `mapRelationships`, `createGraph`), and `getGraphStats` counts labels and
 * relationship types for the legend.
 *
 * A JavaScript property object is a `map<string, V>`; the `toString()` of a
 * property value is the parameter `str`. The `'*'` entries of the statistics
 * are modelled as the source writes them, including the case where a label
 * or relationship type is itself called `'*'`.
 */
module Mapper {
  import opened Wrappers

  /** A node as it arrives from a query result. */
  datatype RawNode<V> = RawNode(id: string, labels: seq<string>, properties: map<string, V>)

  /** A relationship as it arrives from a query result. */
  datatype RawRelationship<V> =
    RawRelationship(id: string, startNodeId: string, endNodeId: string, relType: string, properties: map<string, V>)

  /** A visualisation node (`neo.models.Node`). */
  datatype Node = Node(id: string, labels: seq<string>, propertyMap: map<string, string>)

  /** A visualisation relationship (`neo.models.Relationship`); a missing end is `None`. */
  datatype Relationship =
    Relationship(id: string, source: Option<Node>, target: Option<Node>, relType: string, propertyMap: map<string, string>)

  datatype Display = Display(initialNodeDisplay: int, nodeCount: int)

  const InitialNodeDisplay: int := 300
  const InitialNodeCount: int := 1

  // ---------------------------------------------------------------------
  // mapProperties / stringifyValues
  // ---------------------------------------------------------------------

  /** The object with the keys of `obj`, each value stringified: what `mapProperties` builds. */
  function MapProperties<V>(obj: map<string, V>, str: V -> string): (r: map<string, string>)
    ensures r.Keys == obj.Keys
    ensures forall k :: k in r ==> r[k] == str(obj[k])
  {
    map k | k in obj :: str(obj[k])
  }

  /** `stringifyValues`: one single-key object per key, in the order `keys` lists them. */
  function StringifyValues<V>(obj: map<string, V>, keys: seq<string>, str: V -> string): (r: seq<map<string, string>>)
    requires forall k :: k in keys ==> k in obj
    ensures |r| == |keys|
  {
    if keys == [] then [] else [map[keys[0] := str(obj[keys[0]])]] + StringifyValues(obj, keys[1..], str)
  }

  /** `Object.assign(target, ...sources)`: copies the sources left to right, later keys winning. */
  function Assign(target: map<string, string>, sources: seq<map<string, string>>): map<string, string>
    decreases sources
  {
    if sources == [] then target else Assign(target + sources[0], sources[1..])
  }

  /** `Object.assign({}, ...stringifyValues(obj))` with `keys` the enumeration `Object.keys(obj)`. */
  function AssignStringified<V>(obj: map<string, V>, keys: seq<string>, str: V -> string): (r: map<string, string>)
    requires forall k :: k in keys ==> k in obj
    ensures r == map k | k in keys :: str(obj[k])
  {
    AssignStringifiedFrom(map[], obj, keys, str);
    assert map[] + (map k | k in keys :: str(obj[k])) == map k | k in keys :: str(obj[k]);
    Assign(map[], StringifyValues(obj, keys, str))
  }

  /** `stringifyValues` makes, for the i-th key, the object with that one key and its stringified value. */
  lemma {:induction false} StringifyValuesSpec<V>(obj: map<string, V>, keys: seq<string>, str: V -> string)
    requires forall k :: k in keys ==> k in obj
    ensures forall i :: 0 <= i < |keys| ==> StringifyValues(obj, keys, str)[i] == map[keys[i] := str(obj[keys[i]])]
  {
    if keys != [] {
      StringifyValuesSpec(obj, keys[1..], str);
      StringifyValuesCons(obj, keys, str);
      assert forall i :: 1 <= i < |keys| ==> keys[i] == keys[1..][i - 1];
    }
  }

  lemma StringifyValuesCons<V>(obj: map<string, V>, keys: seq<string>, str: V -> string)
    requires keys != [] && forall k :: k in keys ==> k in obj
    ensures StringifyValues(obj, keys, str) == [map[keys[0] := str(obj[keys[0]])]] + StringifyValues(obj, keys[1..], str)
  {
  }

  lemma AssignCons(t: map<string, string>, m: map<string, string>, ms: seq<map<string, string>>)
    ensures Assign(t, [m] + ms) == Assign(t + m, ms)
  {
    assert ([m] + ms)[1..] == ms;
  }

  lemma {:induction false} AssignStringifiedFrom<V>(t: map<string, string>, obj: map<string, V>, keys: seq<string>, str: V -> string)
    requires forall k :: k in keys ==> k in obj
    ensures Assign(t, StringifyValues(obj, keys, str)) == t + map k | k in keys :: str(obj[k])
    decreases keys
  {
    if keys == [] {
      assert t + map[] == t;
    } else {
      var single := map[keys[0] := str(obj[keys[0]])];
      var restMap := map k | k in keys[1..] :: str(obj[k]);
      calc {
        Assign(t, StringifyValues(obj, keys, str));
        { StringifyValuesCons(obj, keys, str); }
        Assign(t, [single] + StringifyValues(obj, keys[1..], str));
        { AssignCons(t, single, StringifyValues(obj, keys[1..], str)); }
        Assign(t + single, StringifyValues(obj, keys[1..], str));
        { AssignStringifiedFrom(t + single, obj, keys[1..], str); }
        t + single + restMap;
        { UnionAssoc(t, single, restMap); }
        t + (single + restMap);
        { StringifiedKeysCons(obj, keys, str); }
        t + map k | k in keys :: str(obj[k]);
      }
    }
  }

  lemma UnionAssoc(a: map<string, string>, b: map<string, string>, c: map<string, string>)
    ensures a + b + c == a + (b + c)
  {
  }

  /** The stringified map over a key list is its first key's entry overridden by the rest's. */
  lemma StringifiedKeysCons<V>(obj: map<string, V>, keys: seq<string>, str: V -> string)
    requires keys != [] && forall k :: k in keys ==> k in obj
    ensures (map k | k in keys :: str(obj[k]))
      == map[keys[0] := str(obj[keys[0]])] + (map k | k in keys[1..] :: str(obj[k]))
  {
    forall k | k in keys ensures k == keys[0] || k in keys[1..] {
      if k != keys[0] {
        var i :| 0 <= i < |keys| && keys[i] == k;
        assert keys[1..][i - 1] == k;
      }
    }
  }

  /** `mapProperties` keeps exactly the keys of its input and maps each to its stringified value,
      whatever order `Object.keys` enumerates them in. */
  lemma MapPropertiesAnyKeyOrder<V>(obj: map<string, V>, keys: seq<string>, str: V -> string)
    requires forall k :: k in keys <==> k in obj
    ensures AssignStringified(obj, keys, str) == MapProperties(obj, str)
    ensures AssignStringified(obj, keys, str).Keys == obj.Keys
    ensures forall k :: k in obj ==> AssignStringified(obj, keys, str)[k] == str(obj[k])
  {
    assert (map k | k in keys :: str(obj[k])) == MapProperties(obj, str);
  }

  // ---------------------------------------------------------------------
  // mapNodes / mapRelationships
  // ---------------------------------------------------------------------

  function MapNode<V>(n: RawNode<V>, str: V -> string): Node {
    Node(n.id, n.labels, MapProperties(n.properties, str))
  }

  /** `mapNodes`: `nodes.map(...)`. */
  function MapNodes<V>(nodes: seq<RawNode<V>>, str: V -> string): (r: seq<Node>)
    ensures |r| == |nodes|
  {
    if nodes == [] then [] else [MapNode(nodes[0], str)] + MapNodes(nodes[1..], str)
  }

  /** `graph.findNode(id)`: the first node of the graph with that id, if any. */
  function FindNode(nodes: seq<Node>, id: string): (r: Option<Node>)
    ensures r.Some? ==> r.value in nodes && r.value.id == id
  {
    if nodes == [] then None
    else if nodes[0].id == id then Some(nodes[0])
    else FindNode(nodes[1..], id)
  }

  function MapRelationship<V>(r: RawRelationship<V>, graphNodes: seq<Node>, str: V -> string): Relationship {
    Relationship(r.id, FindNode(graphNodes, r.startNodeId), FindNode(graphNodes, r.endNodeId),
                 r.relType, MapProperties(r.properties, str))
  }

  /** `mapRelationships(relationships, graph)`, the graph given by its nodes. */
  function MapRelationships<V>(rels: seq<RawRelationship<V>>, graphNodes: seq<Node>, str: V -> string): (r: seq<Relationship>)
    ensures |r| == |rels|
  {
    if rels == [] then [] else [MapRelationship(rels[0], graphNodes, str)] + MapRelationships(rels[1..], graphNodes, str)
  }

  /** `mapNodes` keeps length and order, ids and labels, and stringifies the properties. */
  lemma {:induction false} MapNodesPreserves<V>(nodes: seq<RawNode<V>>, str: V -> string)
    ensures |MapNodes(nodes, str)| == |nodes|
    ensures forall i :: 0 <= i < |nodes| ==>
      && MapNodes(nodes, str)[i].id == nodes[i].id
      && MapNodes(nodes, str)[i].labels == nodes[i].labels
      && MapNodes(nodes, str)[i].propertyMap == MapProperties(nodes[i].properties, str)
  {
    if nodes != [] {
      MapNodesPreserves(nodes[1..], str);
      assert forall i :: 1 <= i < |nodes| ==> MapNodes(nodes, str)[i] == MapNodes(nodes[1..], str)[i - 1];
    }
  }

  /** `mapRelationships` keeps length and order, ids and types, stringifies the properties and
      looks up both ends in the graph. */
  lemma {:induction false} MapRelationshipsPreserves<V>(rels: seq<RawRelationship<V>>, graphNodes: seq<Node>, str: V -> string)
    ensures |MapRelationships(rels, graphNodes, str)| == |rels|
    ensures forall i :: 0 <= i < |rels| ==>
      && MapRelationships(rels, graphNodes, str)[i].id == rels[i].id
      && MapRelationships(rels, graphNodes, str)[i].relType == rels[i].relType
      && MapRelationships(rels, graphNodes, str)[i].propertyMap == MapProperties(rels[i].properties, str)
      && MapRelationships(rels, graphNodes, str)[i].source == FindNode(graphNodes, rels[i].startNodeId)
      && MapRelationships(rels, graphNodes, str)[i].target == FindNode(graphNodes, rels[i].endNodeId)
  {
    if rels != [] {
      MapRelationshipsPreserves(rels[1..], graphNodes, str);
      assert forall i :: 1 <= i < |rels| ==>
        MapRelationships(rels, graphNodes, str)[i] == MapRelationships(rels[1..], graphNodes, str)[i - 1];
    }
  }

  /** A lookup finds a node exactly when the graph has one with that id, and what it finds has that id. */
  lemma {:induction false} FindNodeSpec(nodes: seq<Node>, id: string)
    ensures FindNode(nodes, id).Some? <==> exists i :: 0 <= i < |nodes| && nodes[i].id == id
    ensures FindNode(nodes, id).Some? ==> FindNode(nodes, id).value.id == id && FindNode(nodes, id).value in nodes
  {
    if nodes != [] && nodes[0].id != id {
      FindNodeSpec(nodes[1..], id);
      if exists i :: 0 <= i < |nodes| && nodes[i].id == id {
        var i :| 0 <= i < |nodes| && nodes[i].id == id;
        assert nodes[1..][i - 1].id == id;
      }
    }
  }

  // ---------------------------------------------------------------------
  // createGraph
  // ---------------------------------------------------------------------

  /** The part of `neo.models.Graph` that `createGraph` uses. */
  class Graph {
    var nodes: seq<Node>
    var relationships: seq<Relationship>
    var display: Option<Display>

    constructor ()
      ensures nodes == [] && relationships == [] && display == None
    {
      nodes, relationships, display := [], [], None;
    }

    method AddNodes(ns: seq<Node>)
      modifies this
      ensures nodes == old(nodes) + ns
      ensures relationships == old(relationships) && display == old(display)
    {
      nodes := nodes + ns;
    }

    method AddRelationships(rs: seq<Relationship>)
      modifies this
      ensures relationships == old(relationships) + rs
      ensures nodes == old(nodes) && display == old(display)
    {
      relationships := relationships + rs;
    }
  }

  /** `createGraph(nodes, relationships)`: the nodes go in first, so the relationships' ends are
      looked up among them; the display starts at 300 nodes and a node count of 1. */
  method CreateGraph<V>(nodes: seq<RawNode<V>>, rels: seq<RawRelationship<V>>, str: V -> string) returns (graph: Graph)
    ensures fresh(graph)
    ensures graph.nodes == MapNodes(nodes, str)
    ensures graph.relationships == MapRelationships(rels, MapNodes(nodes, str), str)
    ensures graph.display == Some(Display(InitialNodeDisplay, InitialNodeCount))
  {
    graph := new Graph();
    graph.AddNodes(MapNodes(nodes, str));
    graph.AddRelationships(MapRelationships(rels, graph.nodes, str));
    graph.display := Some(Display(InitialNodeDisplay, InitialNodeCount));
  }

  /** In a created graph, a relationship's source is found exactly when some input node has its
      start id, and the source found is that node, mapped; the same for the target. */
  lemma CreatedEndsResolve<V>(nodes: seq<RawNode<V>>, rels: seq<RawRelationship<V>>, str: V -> string, i: nat)
    requires i < |rels|
    ensures var mapped := MapNodes(nodes, str);
      var r := MapRelationships(rels, mapped, str)[i];
      && (r.source.Some? <==> exists j :: 0 <= j < |nodes| && nodes[j].id == rels[i].startNodeId)
      && (r.source.Some? ==> r.source.value.id == rels[i].startNodeId && r.source.value in mapped)
      && (r.target.Some? <==> exists j :: 0 <= j < |nodes| && nodes[j].id == rels[i].endNodeId)
      && (r.target.Some? ==> r.target.value.id == rels[i].endNodeId && r.target.value in mapped)
  {
    var mapped := MapNodes(nodes, str);
    MapNodesPreserves(nodes, str);
    MapRelationshipsPreserves(rels, mapped, str);
    FindNodeSpec(mapped, rels[i].startNodeId);
    FindNodeSpec(mapped, rels[i].endNodeId);
  }

  // ---------------------------------------------------------------------
  // getGraphStats
  // ---------------------------------------------------------------------

  /** The key of the aggregate entries. */
  const Star: string := "*"

  datatype LabelStat = LabelStat(count: nat, properties: map<string, string>)

  datatype RelTypeStat = RelTypeStat(count: nat, countActive: nat, properties: map<string, string>, active: bool)

  /** One (node, label) pair, in the order the nested `forEach` visits them. */
  datatype LabelOccurrence = LabelOccurrence(name: string, properties: map<string, string>)

  function LabelOccurrences(labels: seq<string>, properties: map<string, string>): seq<LabelOccurrence> {
    if labels == [] then []
    else LabelOccurrences(labels[..|labels| - 1], properties) + [LabelOccurrence(labels[|labels| - 1], properties)]
  }

  /** All (node, label) pairs of the nodes, node by node and label by label. */
  function Occurrences(nodes: seq<Node>): seq<LabelOccurrence> {
    if nodes == [] then []
    else Occurrences(nodes[..|nodes| - 1]) + LabelOccurrences(nodes[|nodes| - 1].labels, nodes[|nodes| - 1].propertyMap)
  }

  /** How many of the occurrences carry label `l`. */
  function LabelCount(occ: seq<LabelOccurrence>, l: string): nat {
    if occ == [] then 0
    else LabelCount(occ[..|occ| - 1], l) + (if occ[|occ| - 1].name == l then 1 else 0)
  }

  /** The property maps of the occurrences of `l`, merged left to right, later ones overriding. */
  function LabelProperties(occ: seq<LabelOccurrence>, l: string): map<string, string> {
    if occ == [] then map[]
    else LabelProperties(occ[..|occ| - 1], l) + (if occ[|occ| - 1].name == l then occ[|occ| - 1].properties else map[])
  }

  /** Whether `getGraphStats` makes an entry for label `l`: `'*'` once any label occurs, any
      other label once it occurs. */
  predicate HasLabelEntry(occ: seq<LabelOccurrence>, l: string) {
    (l == Star && |occ| > 0) || LabelCount(occ, l) > 0
  }

  /** The entry `getGraphStats` makes for label `l`: its number of occurrences and its nodes'
      merged properties. The `'*'` entry counts every occurrence, and once more each occurrence
      of a label that is itself called `'*'`. */
  function LabelEntry(occ: seq<LabelOccurrence>, l: string): LabelStat {
    if l == Star then LabelStat(|occ| + LabelCount(occ, Star), LabelProperties(occ, Star))
    else LabelStat(LabelCount(occ, l), LabelProperties(occ, l))
  }

  ghost predicate LabelEntryAgrees(stats: map<string, LabelStat>, occ: seq<LabelOccurrence>, l: string) {
    (l in stats <==> HasLabelEntry(occ, l)) && (l in stats ==> stats[l] == LabelEntry(occ, l))
  }

  /** The label statistics are exactly the entries `LabelEntry` gives. */
  ghost predicate LabelStatsOf(stats: map<string, LabelStat>, occ: seq<LabelOccurrence>) {
    forall l :: LabelEntryAgrees(stats, occ, l)
  }

  function TypeCount(rels: seq<Relationship>, t: string): nat {
    if rels == [] then 0
    else TypeCount(rels[..|rels| - 1], t) + (if rels[|rels| - 1].relType == t then 1 else 0)
  }

  function TypeProperties(rels: seq<Relationship>, t: string): map<string, string> {
    if rels == [] then map[]
    else TypeProperties(rels[..|rels| - 1], t) + (if rels[|rels| - 1].relType == t then rels[|rels| - 1].propertyMap else map[])
  }

  /** Whether `getGraphStats` makes an entry for type `t` from `rels`. */
  predicate HasTypeEntry(rels: seq<Relationship>, t: string) {
    (t == Star && |rels| > 0) || TypeCount(rels, t) > 0
  }

  /** The entry `getGraphStats` makes for type `t`. A type's count is the number of its relationships,
      its active count that number unless the type is inactive, and it is active unless inactive.
      The `'*'` entry counts every relationship, its active count is the number of visible
      relationships and it is active; only when the last relationship is itself of type `'*'`
      does that relationship's own update show in it. */
  function TypeEntry(rels: seq<Relationship>, t: string, visibleRelCount: nat, inactiveTypes: set<string>): RelTypeStat {
    if t == Star then
      var lastIsStar := |rels| > 0 && rels[|rels| - 1].relType == Star;
      RelTypeStat(
        |rels| + TypeCount(rels, Star),
        visibleRelCount + (if lastIsStar && Star !in inactiveTypes then 1 else 0),
        TypeProperties(rels, Star),
        if lastIsStar then Star !in inactiveTypes else true)
    else
      RelTypeStat(
        TypeCount(rels, t),
        if t in inactiveTypes then 0 else TypeCount(rels, t),
        TypeProperties(rels, t),
        t !in inactiveTypes)
  }

  ghost predicate TypeEntryAgrees(stats: map<string, RelTypeStat>, rels: seq<Relationship>, t: string,
                                  visibleRelCount: nat, inactiveTypes: set<string>) {
    (t in stats <==> HasTypeEntry(rels, t))
    && (t in stats ==> stats[t] == TypeEntry(rels, t, visibleRelCount, inactiveTypes))
  }

  /** The relationship-type statistics are exactly the entries `TypeEntry` gives. */
  ghost predicate RelTypeStatsOf(stats: map<string, RelTypeStat>, rels: seq<Relationship>,
                                 visibleRelCount: nat, inactiveTypes: set<string>) {
    forall t :: TypeEntryAgrees(stats, rels, t, visibleRelCount, inactiveTypes)
  }

  lemma LabelOccurrencesSnoc(labels: seq<string>, properties: map<string, string>, j: nat)
    requires j < |labels|
    ensures LabelOccurrences(labels[..j + 1], properties)
      == LabelOccurrences(labels[..j], properties) + [LabelOccurrence(labels[j], properties)]
  {
    assert labels[..j + 1][..j] == labels[..j];
  }

  lemma OccurrencesSnoc(nodes: seq<Node>, i: nat)
    requires i < |nodes|
    ensures Occurrences(nodes[..i + 1]) == Occurrences(nodes[..i]) + LabelOccurrences(nodes[i].labels, nodes[i].propertyMap)
  {
    assert nodes[..i + 1][..i] == nodes[..i];
  }

  lemma LabelSnoc(occ: seq<LabelOccurrence>, x: LabelOccurrence, l: string)
    ensures |occ + [x]| == |occ| + 1
    ensures LabelCount(occ + [x], l) == LabelCount(occ, l) + (if x.name == l then 1 else 0)
    ensures LabelProperties(occ + [x], l) == LabelProperties(occ, l) + (if x.name == l then x.properties else map[])
  {
    assert (occ + [x])[..|occ + [x]| - 1] == occ;
  }

  /** A label that never occurs has the empty merged property map. */
  lemma {:induction false} LabelPropertiesWithoutLabel(occ: seq<LabelOccurrence>, l: string)
    requires LabelCount(occ, l) == 0
    ensures LabelProperties(occ, l) == map[]
  {
    if occ != [] {
      LabelPropertiesWithoutLabel(occ[..|occ| - 1], l);
      var empty: map<string, string> := map[];
      assert empty + empty == empty;
    }
  }

  /** The update of `labelStats` for one (node, label) pair `x`, as the loop body performs it. */
  ghost predicate LabelUpdate(before: map<string, LabelStat>, x: LabelOccurrence,
                              mid: map<string, LabelStat>, after: map<string, LabelStat>) {
    && mid == (if Star in before then before[Star := before[Star].(count := before[Star].count + 1)]
               else before[Star := LabelStat(1, map[])])
    && after == (if x.name in mid
                 then mid[x.name := LabelStat(mid[x.name].count + 1, mid[x.name].properties + x.properties)]
                 else mid[x.name := LabelStat(1, x.properties)])
  }

  /** One step of the label loop for the `'*'` key. */
  lemma LabelStepStar(before: map<string, LabelStat>, occ: seq<LabelOccurrence>, x: LabelOccurrence,
                      mid: map<string, LabelStat>, after: map<string, LabelStat>)
    requires LabelEntryAgrees(before, occ, Star)
    requires LabelUpdate(before, x, mid, after)
    ensures LabelEntryAgrees(after, occ + [x], Star)
  {
    LabelSnoc(occ, x, Star);
    if Star !in before {
      LabelPropertiesWithoutLabel(occ, Star);
    }
    var empty: map<string, string> := map[];
    assert empty + x.properties == x.properties;
    assert LabelProperties(occ, Star) + empty == LabelProperties(occ, Star);
  }

  /** One step of the label loop for the occurrence's own label, when it is not `'*'`. */
  lemma LabelStepOwn(before: map<string, LabelStat>, occ: seq<LabelOccurrence>, x: LabelOccurrence,
                     mid: map<string, LabelStat>, after: map<string, LabelStat>)
    requires x.name != Star
    requires LabelEntryAgrees(before, occ, x.name)
    requires LabelUpdate(before, x, mid, after)
    ensures LabelEntryAgrees(after, occ + [x], x.name)
  {
    var l := x.name;
    LabelSnoc(occ, x, l);
    assert l in mid <==> l in before;
    if l in before {
      assert mid[l] == before[l];
    } else {
      LabelPropertiesWithoutLabel(occ, l);
      var empty: map<string, string> := map[];
      assert empty + x.properties == x.properties;
    }
  }

  /** One step of the label loop for a key that is neither `'*'` nor the occurrence's label. */
  lemma LabelStepUntouched(before: map<string, LabelStat>, occ: seq<LabelOccurrence>, x: LabelOccurrence,
                           mid: map<string, LabelStat>, after: map<string, LabelStat>, l: string)
    requires l != Star && l != x.name
    requires LabelEntryAgrees(before, occ, l)
    requires LabelUpdate(before, x, mid, after)
    ensures LabelEntryAgrees(after, occ + [x], l)
  {
    LabelSnoc(occ, x, l);
    assert (l in after <==> l in before) && (l in before ==> after[l] == before[l]);
    var empty: map<string, string> := map[];
    assert LabelProperties(occ, l) + empty == LabelProperties(occ, l);
  }

  /** One step of the label loop: the statistics of `occ` plus the tally of one more occurrence. */
  lemma LabelStep(before: map<string, LabelStat>, occ: seq<LabelOccurrence>, x: LabelOccurrence,
                  mid: map<string, LabelStat>, after: map<string, LabelStat>)
    requires LabelStatsOf(before, occ)
    requires LabelUpdate(before, x, mid, after)
    ensures LabelStatsOf(after, occ + [x])
  {
    forall l
      ensures LabelEntryAgrees(after, occ + [x], l)
    {
      if l == Star {
        LabelStepStar(before, occ, x, mid, after);
      } else if l == x.name {
        LabelStepOwn(before, occ, x, mid, after);
      } else {
        LabelStepUntouched(before, occ, x, mid, after, l);
      }
    }
  }

  lemma {:induction false} TypePropertiesWithoutType(rels: seq<Relationship>, t: string)
    requires TypeCount(rels, t) == 0
    ensures TypeProperties(rels, t) == map[]
  {
    if rels != [] {
      TypePropertiesWithoutType(rels[..|rels| - 1], t);
      var empty: map<string, string> := map[];
      assert empty + empty == empty;
    }
  }

  lemma TypeSnoc(rs: seq<Relationship>, x: Relationship, t: string)
    ensures |rs + [x]| == |rs| + 1 && (rs + [x])[|rs|] == x
    ensures TypeCount(rs + [x], t) == TypeCount(rs, t) + (if x.relType == t then 1 else 0)
    ensures TypeProperties(rs + [x], t) == TypeProperties(rs, t) + (if x.relType == t then x.propertyMap else map[])
  {
    assert (rs + [x])[..|rs + [x]| - 1] == rs;
  }

  /** The update of `relTypeStats` for one relationship `x`, as the loop body performs it. */
  ghost predicate RelTypeUpdate(before: map<string, RelTypeStat>, x: Relationship, visibleRelCount: nat,
                                inactiveTypes: set<string>, mid: map<string, RelTypeStat>, after: map<string, RelTypeStat>) {
    && mid == (var created := if Star in before then before[Star := before[Star].(count := before[Star].count + 1)]
                              else before[Star := RelTypeStat(1, 1, map[], false)];
               created[Star := created[Star].(countActive := visibleRelCount, active := true)])
    && after == (var t := x.relType;
                 var isActive := t !in inactiveTypes;
                 if t in mid
                 then mid[t := RelTypeStat(mid[t].count + 1, mid[t].countActive + (if isActive then 1 else 0),
                                           mid[t].properties + x.propertyMap, isActive)]
                 else mid[t := RelTypeStat(1, if isActive then 1 else 0, x.propertyMap, isActive)])
  }

  /** One step of the relationship loop for the `'*'` key. */
  lemma RelTypeStepStar(before: map<string, RelTypeStat>, rs: seq<Relationship>, x: Relationship,
                        visibleRelCount: nat, inactiveTypes: set<string>,
                        mid: map<string, RelTypeStat>, after: map<string, RelTypeStat>)
    requires TypeEntryAgrees(before, rs, Star, visibleRelCount, inactiveTypes)
    requires RelTypeUpdate(before, x, visibleRelCount, inactiveTypes, mid, after)
    ensures TypeEntryAgrees(after, rs + [x], Star, visibleRelCount, inactiveTypes)
  {
    TypeSnoc(rs, x, Star);
    if Star !in before {
      TypePropertiesWithoutType(rs, Star);
    }
    var empty: map<string, string> := map[];
    assert empty + x.propertyMap == x.propertyMap;
    assert TypeProperties(rs, Star) + empty == TypeProperties(rs, Star);
  }

  /** One step of the relationship loop for the type of the relationship itself, when it is not `'*'`. */
  lemma RelTypeStepOwn(before: map<string, RelTypeStat>, rs: seq<Relationship>, x: Relationship,
                       visibleRelCount: nat, inactiveTypes: set<string>,
                       mid: map<string, RelTypeStat>, after: map<string, RelTypeStat>)
    requires x.relType != Star
    requires TypeEntryAgrees(before, rs, x.relType, visibleRelCount, inactiveTypes)
    requires RelTypeUpdate(before, x, visibleRelCount, inactiveTypes, mid, after)
    ensures TypeEntryAgrees(after, rs + [x], x.relType, visibleRelCount, inactiveTypes)
  {
    var t := x.relType;
    TypeSnoc(rs, x, t);
    assert t in mid <==> t in before;
    if t in before {
      assert mid[t] == before[t];
    } else {
      TypePropertiesWithoutType(rs, t);
      var empty: map<string, string> := map[];
      assert empty + x.propertyMap == x.propertyMap;
    }
  }

  /** One step of the relationship loop for a key that is neither `'*'` nor the relationship's type. */
  lemma RelTypeStepUntouched(before: map<string, RelTypeStat>, rs: seq<Relationship>, x: Relationship,
                             visibleRelCount: nat, inactiveTypes: set<string>,
                             mid: map<string, RelTypeStat>, after: map<string, RelTypeStat>, t: string)
    requires t != Star && t != x.relType
    requires TypeEntryAgrees(before, rs, t, visibleRelCount, inactiveTypes)
    requires RelTypeUpdate(before, x, visibleRelCount, inactiveTypes, mid, after)
    ensures TypeEntryAgrees(after, rs + [x], t, visibleRelCount, inactiveTypes)
  {
    TypeSnoc(rs, x, t);
    assert (t in after <==> t in before) && (t in before ==> after[t] == before[t]);
    var empty: map<string, string> := map[];
    assert TypeProperties(rs, t) + empty == TypeProperties(rs, t);
  }

  /** One step of the relationship loop: the statistics of `rs` plus the tally of one more relationship. */
  lemma RelTypeStep(before: map<string, RelTypeStat>, rs: seq<Relationship>, x: Relationship,
                    visibleRelCount: nat, inactiveTypes: set<string>,
                    mid: map<string, RelTypeStat>, after: map<string, RelTypeStat>)
    requires RelTypeStatsOf(before, rs, visibleRelCount, inactiveTypes)
    requires RelTypeUpdate(before, x, visibleRelCount, inactiveTypes, mid, after)
    ensures RelTypeStatsOf(after, rs + [x], visibleRelCount, inactiveTypes)
  {
    forall t
      ensures TypeEntryAgrees(after, rs + [x], t, visibleRelCount, inactiveTypes)
    {
      if t == Star {
        RelTypeStepStar(before, rs, x, visibleRelCount, inactiveTypes, mid, after);
      } else if t == x.relType {
        RelTypeStepOwn(before, rs, x, visibleRelCount, inactiveTypes, mid, after);
      } else {
        RelTypeStepUntouched(before, rs, x, visibleRelCount, inactiveTypes, mid, after, t);
      }
    }
  }

  /** How many times label `l` appears in the nodes' label lists. */
  function LabelTally(nodes: seq<Node>, l: string): nat {
    if nodes == [] then 0
    else LabelTally(nodes[..|nodes| - 1], l) + multiset(nodes[|nodes| - 1].labels)[l]
  }

  /** The total length of the nodes' label lists. */
  function TotalLabels(nodes: seq<Node>): nat {
    if nodes == [] then 0
    else TotalLabels(nodes[..|nodes| - 1]) + |nodes[|nodes| - 1].labels|
  }

  lemma {:induction false} LabelCountAppend(a: seq<LabelOccurrence>, b: seq<LabelOccurrence>, l: string)
    ensures LabelCount(a + b, l) == LabelCount(a, l) + LabelCount(b, l)
    decreases |b|
  {
    if b == [] {
      assert a + b == a;
    } else {
      LabelCountAppend(a, b[..|b| - 1], l);
      assert (a + b)[..|a + b| - 1] == a + b[..|b| - 1];
    }
  }

  lemma {:induction false} LabelOccurrencesCount(labels: seq<string>, properties: map<string, string>, l: string)
    ensures |LabelOccurrences(labels, properties)| == |labels|
    ensures LabelCount(LabelOccurrences(labels, properties), l) == multiset(labels)[l]
    decreases |labels|
  {
    if labels != [] {
      var n := |labels| - 1;
      LabelOccurrencesCount(labels[..n], properties, l);
      LabelCountAppend(LabelOccurrences(labels[..n], properties), [LabelOccurrence(labels[n], properties)], l);
      assert labels == labels[..n] + [labels[n]];
    }
  }

  /** The occurrences the label loop visits are one per label of each node. */
  lemma {:induction false} OccurrencesCount(nodes: seq<Node>, l: string)
    ensures |Occurrences(nodes)| == TotalLabels(nodes)
    ensures LabelCount(Occurrences(nodes), l) == LabelTally(nodes, l)
    decreases |nodes|
  {
    if nodes != [] {
      var last := nodes[|nodes| - 1];
      OccurrencesCount(nodes[..|nodes| - 1], l);
      LabelOccurrencesCount(last.labels, last.propertyMap, l);
      LabelCountAppend(Occurrences(nodes[..|nodes| - 1]), LabelOccurrences(last.labels, last.propertyMap), l);
    }
  }

  lemma {:induction false} LabelTallyPositive(nodes: seq<Node>, l: string)
    ensures LabelTally(nodes, l) > 0 <==> exists i :: 0 <= i < |nodes| && l in nodes[i].labels
    decreases |nodes|
  {
    if nodes != [] {
      var prefix := nodes[..|nodes| - 1];
      LabelTallyPositive(prefix, l);
      if exists i :: 0 <= i < |nodes| && l in nodes[i].labels {
        var i :| 0 <= i < |nodes| && l in nodes[i].labels;
        if i < |nodes| - 1 {
          assert prefix[i] == nodes[i];
        }
      }
      if exists i :: 0 <= i < |prefix| && l in prefix[i].labels {
        var i :| 0 <= i < |prefix| && l in prefix[i].labels;
        assert nodes[i] == prefix[i];
      }
    }
  }

  /** A label other than `'*'` has an entry exactly when some node carries it, and its count is the
      number of times the nodes carry it. */
  lemma LabelEntryOfNodes(nodes: seq<Node>, l: string)
    requires l != Star
    ensures HasLabelEntry(Occurrences(nodes), l) <==> exists i :: 0 <= i < |nodes| && l in nodes[i].labels
    ensures LabelEntry(Occurrences(nodes), l).count == LabelTally(nodes, l)
  {
    OccurrencesCount(nodes, l);
    LabelTallyPositive(nodes, l);
  }

  /** When no node has a label named `'*'`, the `'*'` entry exists exactly when some node has a label,
      counts all labels of all nodes, and has no properties. */
  lemma StarLabelEntry(nodes: seq<Node>)
    requires forall i :: 0 <= i < |nodes| ==> Star !in nodes[i].labels
    ensures HasLabelEntry(Occurrences(nodes), Star) <==> TotalLabels(nodes) > 0
    ensures LabelEntry(Occurrences(nodes), Star) == LabelStat(TotalLabels(nodes), map[])
  {
    OccurrencesCount(nodes, Star);
    LabelTallyPositive(nodes, Star);
    LabelPropertiesWithoutLabel(Occurrences(nodes), Star);
  }

  lemma {:induction false} TypeCountPositive(rels: seq<Relationship>, t: string)
    ensures TypeCount(rels, t) > 0 <==> exists i :: 0 <= i < |rels| && rels[i].relType == t
    decreases |rels|
  {
    if rels != [] {
      var prefix := rels[..|rels| - 1];
      TypeCountPositive(prefix, t);
      if exists i :: 0 <= i < |rels| && rels[i].relType == t {
        var i :| 0 <= i < |rels| && rels[i].relType == t;
        if i < |rels| - 1 {
          assert prefix[i] == rels[i];
        }
      }
      if exists i :: 0 <= i < |prefix| && prefix[i].relType == t {
        var i :| 0 <= i < |prefix| && prefix[i].relType == t;
        assert rels[i] == prefix[i];
      }
    }
  }

  /** A type other than `'*'` has an entry exactly when some relationship has it; when the type is
      not inactive every one of its relationships counts as active. */
  lemma TypeEntryOfRelationships(rels: seq<Relationship>, t: string, visibleRelCount: nat, inactiveTypes: set<string>)
    requires t != Star
    ensures HasTypeEntry(rels, t) <==> exists i :: 0 <= i < |rels| && rels[i].relType == t
    ensures var e := TypeEntry(rels, t, visibleRelCount, inactiveTypes);
      && e.active == (t !in inactiveTypes)
      && e.countActive == (if t in inactiveTypes then 0 else e.count)
  {
    TypeCountPositive(rels, t);
  }

  /** When no relationship has type `'*'`, the `'*'` entry exists exactly when there is a relationship,
      counts all relationships, counts the visible ones as active, is active and has no properties. */
  lemma StarTypeEntry(rels: seq<Relationship>, visibleRelCount: nat, inactiveTypes: set<string>)
    requires forall i :: 0 <= i < |rels| ==> rels[i].relType != Star
    ensures HasTypeEntry(rels, Star) <==> |rels| > 0
    ensures TypeEntry(rels, Star, visibleRelCount, inactiveTypes) == RelTypeStat(|rels|, visibleRelCount, map[], true)
  {
    TypeCountPositive(rels, Star);
    TypePropertiesWithoutType(rels, Star);
  }

  /** The node half of `getGraphStats`: the nested `forEach` over nodes and their labels. */
  method LabelStats(nodes: seq<Node>) returns (labels: map<string, LabelStat>)
    ensures LabelStatsOf(labels, Occurrences(nodes))
  {
    labels := map[];
    var i := 0;
    while i < |nodes|
      invariant 0 <= i <= |nodes|
      invariant LabelStatsOf(labels, Occurrences(nodes[..i]))
    {
      var node := nodes[i];
      ghost var done := Occurrences(nodes[..i]);
      var j := 0;
      assert done + LabelOccurrences(node.labels[..j], node.propertyMap) == done;
      while j < |node.labels|
        invariant 0 <= j <= |node.labels|
        invariant LabelStatsOf(labels, done + LabelOccurrences(node.labels[..j], node.propertyMap))
      {
        var name := node.labels[j];
        ghost var before := labels;
        if Star in labels {
          labels := labels[Star := labels[Star].(count := labels[Star].count + 1)];
        } else {
          labels := labels[Star := LabelStat(1, map[])];
        }
        ghost var mid := labels;
        if name in labels {
          labels := labels[name := LabelStat(labels[name].count + 1, labels[name].properties + node.propertyMap)];
        } else {
          labels := labels[name := LabelStat(1, node.propertyMap)];
        }
        ghost var x := LabelOccurrence(name, node.propertyMap);
        LabelStep(before, done + LabelOccurrences(node.labels[..j], node.propertyMap), x, mid, labels);
        LabelOccurrencesSnoc(node.labels, node.propertyMap, j);
        assert done + LabelOccurrences(node.labels[..j], node.propertyMap) + [x]
          == done + LabelOccurrences(node.labels[..j + 1], node.propertyMap);
        j := j + 1;
      }
      assert node.labels[..j] == node.labels;
      OccurrencesSnoc(nodes, i);
      i := i + 1;
    }
    assert nodes[..i] == nodes;
  }

  /** The relationship half of `getGraphStats`: the `forEach` over all relationships. */
  method RelTypeStats(rels: seq<Relationship>, visibleRelCount: nat, inactiveTypes: set<string>)
    returns (relTypes: map<string, RelTypeStat>)
    ensures RelTypeStatsOf(relTypes, rels, visibleRelCount, inactiveTypes)
  {
    relTypes := map[];
    var k := 0;
    while k < |rels|
      invariant 0 <= k <= |rels|
      invariant RelTypeStatsOf(relTypes, rels[..k], visibleRelCount, inactiveTypes)
    {
      var rel := rels[k];
      ghost var before := relTypes;
      if Star in relTypes {
        relTypes := relTypes[Star := relTypes[Star].(count := relTypes[Star].count + 1)];
      } else {
        // created without `active`, which the very next statement sets
        relTypes := relTypes[Star := RelTypeStat(1, 1, map[], false)];
      }
      relTypes := relTypes[Star := relTypes[Star].(countActive := visibleRelCount, active := true)];
      ghost var mid := relTypes;
      var isActive := rel.relType !in inactiveTypes;
      if rel.relType in relTypes {
        relTypes := relTypes[rel.relType := RelTypeStat(
          relTypes[rel.relType].count + 1,
          relTypes[rel.relType].countActive + (if isActive then 1 else 0),
          relTypes[rel.relType].properties + rel.propertyMap,
          isActive)];
      } else {
        relTypes := relTypes[rel.relType := RelTypeStat(1, if isActive then 1 else 0, rel.propertyMap, isActive)];
      }
      RelTypeStep(before, rels[..k], rel, visibleRelCount, inactiveTypes, mid, relTypes);
      assert rels[..k + 1] == rels[..k] + [rel];
      k := k + 1;
    }
    assert rels[..k] == rels;
  }

  /** `getGraphStats(graph)`, with the graph given by `graph.nodesTotal()`, `graph.relationshipsTotal()`,
      `graph.relationships().length` and `graph.inactiveRelationshipsSet()`. */
  method GetGraphStats(nodes: seq<Node>, rels: seq<Relationship>, visibleRelCount: nat, inactiveTypes: set<string>)
    returns (labels: map<string, LabelStat>, relTypes: map<string, RelTypeStat>)
    ensures LabelStatsOf(labels, Occurrences(nodes))
    ensures RelTypeStatsOf(relTypes, rels, visibleRelCount, inactiveTypes)
  {
    labels := LabelStats(nodes);
    relTypes := RelTypeStats(rels, visibleRelCount, inactiveTypes);
  }
}
