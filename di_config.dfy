/**
 * The module's `etc/di.xml`: a `config` root whose children include
 * `preference` elements binding an interface (`for`) to the class the object
 * manager supplies for it (`type`). A run adds the three bindings of the new
 * model, each only when the document has no preference for that interface
 * yet, always as the last child of `config`.
 */
module DiConfig {
  import opened Naming

  const SchemaLocation := "urn:magento:framework:ObjectManager/etc/config.xsd"

  /** A child of `config`: a preference, or any other element, kept as it is. */
  datatype Node = Preference(forType: string, implType: string) | Element(tag: string)

  /** The document: the attributes and the children of its `config` root. */
  datatype Document = Document(attributes: seq<(string, string)>, children: seq<Node>)

  /** The document started when the module has no `di.xml` yet: an empty `config` bound to the schema. */
  function NewDocument(): (d: Document)
    ensures d.children == []
  {
    Document([("xmlns:xsi", "http://www.w3.org/2001/XMLSchema-instance"),
              ("xsi:noNamespaceSchemaLocation", SchemaLocation)], [])
  }

  /** `//preference[@for="forType"]` finds a node. */
  predicate HasPreferenceFor(nodes: seq<Node>, forType: string) {
    exists i :: 0 <= i < |nodes| && nodes[i].Preference? && nodes[i].forType == forType
  }

  predicate AllPreferences(edges: seq<Node>) {
    forall k :: 0 <= k < |edges| ==> edges[k].Preference?
  }

  /** The three bindings of a model, in the order they are merged. */
  function ModulePreferences(moduleName: string, modelName: string): (edges: seq<Node>)
    ensures |edges| == 3 && AllPreferences(edges)
  {
    [Preference(DataInterfaceFqn(moduleName, modelName), ModelFqn(moduleName, modelName)),
     Preference(RepositoryInterfaceFqn(moduleName, modelName), RepositoryFqn(moduleName, modelName)),
     Preference(SearchResultsInterfaceFqn(moduleName, modelName), SearchResults)]
  }

  /** One guarded append: the edge goes last unless its interface already has a preference. */
  function AddPreference(nodes: seq<Node>, edge: Node): seq<Node>
    requires edge.Preference?
  {
    if HasPreferenceFor(nodes, edge.forType) then nodes else nodes + [edge]
  }

  /** The edges merged one after another, in order. */
  function MergePreferences(nodes: seq<Node>, edges: seq<Node>): seq<Node>
    requires AllPreferences(edges)
    decreases |edges|
  {
    if edges == [] then nodes
    else MergePreferences(AddPreference(nodes, edges[0]), edges[1..])
  }

  /** Merging keeps every existing child where it is and adds at most one child per edge. */
  lemma {:induction false} MergeExtends(nodes: seq<Node>, edges: seq<Node>)
    requires AllPreferences(edges)
    ensures var merged := MergePreferences(nodes, edges);
      |nodes| <= |merged| <= |nodes| + |edges| && merged[..|nodes|] == nodes
    decreases |edges|
  {
    if edges != [] {
      var next := AddPreference(nodes, edges[0]);
      MergeExtends(next, edges[1..]);
      assert next[..|nodes|] == nodes;
    }
  }

  /**
   * Every added child is one of the edges, and at the point it was appended
   * the document had no preference for its interface.
   */
  lemma {:induction false} MergeAddsOnlyMissing(nodes: seq<Node>, edges: seq<Node>)
    requires AllPreferences(edges)
    ensures var merged := MergePreferences(nodes, edges);
      forall k :: |nodes| <= k < |merged| ==>
        merged[k] in edges && merged[k].Preference? && !HasPreferenceFor(merged[..k], merged[k].forType)
    decreases |edges|
  {
    if edges != [] {
      var next := AddPreference(nodes, edges[0]);
      var merged := MergePreferences(nodes, edges);
      MergeAddsOnlyMissing(next, edges[1..]);
      MergeExtends(next, edges[1..]);
      forall k | |nodes| <= k < |merged|
        ensures merged[k] in edges && merged[k].Preference? && !HasPreferenceFor(merged[..k], merged[k].forType)
      {
        if k < |next| {
          assert k == |nodes| && next == nodes + [edges[0]];
          assert merged[..k] == next[..k] == nodes;
          assert merged[k] == next[k] == edges[0];
        } else {
          assert merged[k] in edges[1..];
        }
      }
    }
  }

  lemma HasPreferenceInPrefix(nodes: seq<Node>, longer: seq<Node>, forType: string)
    requires |nodes| <= |longer| && longer[..|nodes|] == nodes
    requires HasPreferenceFor(nodes, forType)
    ensures HasPreferenceFor(longer, forType)
  {
    var i :| 0 <= i < |nodes| && nodes[i].Preference? && nodes[i].forType == forType;
    assert longer[i] == nodes[i];
  }

  /** After merging, every edge's interface has a preference. */
  lemma {:induction false} MergeCovers(nodes: seq<Node>, edges: seq<Node>)
    requires AllPreferences(edges)
    ensures forall k :: 0 <= k < |edges| ==> HasPreferenceFor(MergePreferences(nodes, edges), edges[k].forType)
    decreases |edges|
  {
    if edges != [] {
      var next := AddPreference(nodes, edges[0]);
      var merged := MergePreferences(nodes, edges);
      MergeCovers(next, edges[1..]);
      MergeExtends(next, edges[1..]);
      if !HasPreferenceFor(nodes, edges[0].forType) {
        assert next[|nodes|] == edges[0];
      }
      HasPreferenceInPrefix(next, merged, edges[0].forType);
      forall k | 1 <= k < |edges| ensures HasPreferenceFor(merged, edges[k].forType) {
        assert edges[k] == edges[1..][k - 1];
      }
    }
  }

  /** When every edge's interface already has a preference, merging changes nothing. */
  lemma {:induction false} MergeNothingMissing(nodes: seq<Node>, edges: seq<Node>)
    requires AllPreferences(edges)
    requires forall k :: 0 <= k < |edges| ==> HasPreferenceFor(nodes, edges[k].forType)
    ensures MergePreferences(nodes, edges) == nodes
  {
    if edges != [] {
      assert HasPreferenceFor(nodes, edges[0].forType);
      forall k | 0 <= k < |edges| - 1 ensures HasPreferenceFor(nodes, edges[1..][k].forType) {
        assert edges[1..][k] == edges[k + 1];
      }
      MergeNothingMissing(nodes, edges[1..]);
    }
  }

  /** Merging the same edges into the merged document adds nothing. */
  lemma MergeIdempotent(nodes: seq<Node>, edges: seq<Node>)
    requires AllPreferences(edges)
    ensures MergePreferences(MergePreferences(nodes, edges), edges) == MergePreferences(nodes, edges)
  {
    MergeCovers(nodes, edges);
    MergeNothingMissing(MergePreferences(nodes, edges), edges);
  }

  /** Edges for distinct interfaces that are all missing are appended as they are. */
  lemma {:induction false} MergeAllMissing(nodes: seq<Node>, edges: seq<Node>)
    requires AllPreferences(edges)
    requires forall k :: 0 <= k < |edges| ==> !HasPreferenceFor(nodes, edges[k].forType)
    requires forall j, k :: 0 <= j < k < |edges| ==> edges[j].forType != edges[k].forType
    ensures MergePreferences(nodes, edges) == nodes + edges
    decreases |edges|
  {
    if edges != [] {
      var next := nodes + [edges[0]];
      assert AddPreference(nodes, edges[0]) == next;
      forall k | 0 <= k < |edges| - 1 ensures !HasPreferenceFor(next, edges[1..][k].forType) {
        assert edges[1..][k] == edges[k + 1];
        assert edges[0].forType != edges[k + 1].forType;
        forall i | 0 <= i < |next|
          ensures !(next[i].Preference? && next[i].forType == edges[k + 1].forType)
        {
          if i < |nodes| {
            assert next[i] == nodes[i];
          }
        }
      }
      MergeAllMissing(next, edges[1..]);
      assert next + edges[1..] == nodes + edges;
    }
  }

  /** Merging three edges is three guarded appends in order. */
  lemma MergeThree(nodes: seq<Node>, edges: seq<Node>)
    requires |edges| == 3 && AllPreferences(edges)
    ensures MergePreferences(nodes, edges)
         == AddPreference(AddPreference(AddPreference(nodes, edges[0]), edges[1]), edges[2])
  {
    var first := AddPreference(nodes, edges[0]);
    var second := AddPreference(first, edges[1]);
    assert edges[1..][0] == edges[1] && edges[1..][1..] == edges[2..];
    assert edges[2..][0] == edges[2] && edges[2..][1..] == [];
    assert MergePreferences(second, edges[2..]) == AddPreference(second, edges[2]);
    assert MergePreferences(first, edges[1..]) == MergePreferences(second, edges[2..]);
  }

  /** The three bindings of a model are for three different interfaces. */
  lemma ModulePreferencesDistinct(moduleName: string, modelName: string)
    ensures var edges := ModulePreferences(moduleName, modelName);
      forall j, k :: 0 <= j < k < |edges| ==> edges[j].forType != edges[k].forType
  {
    assert |DataInterfaceFqn(moduleName, modelName)| == |moduleName| + |modelName| + 19;
    assert |RepositoryInterfaceFqn(moduleName, modelName)| == |moduleName| + |modelName| + 24;
    assert |SearchResultsInterfaceFqn(moduleName, modelName)| == |moduleName| + |modelName| + 32;
  }

  /** A module without a `di.xml` ends up with exactly the model's three bindings, in order. */
  lemma FreshConfigGetsThreeBindings(moduleName: string, modelName: string)
    ensures MergePreferences(NewDocument().children, ModulePreferences(moduleName, modelName))
         == ModulePreferences(moduleName, modelName)
  {
    ModulePreferencesDistinct(moduleName, modelName);
    MergeAllMissing([], ModulePreferences(moduleName, modelName));
  }

  /** The in-memory DOM of `di.xml` that the merge appends to. */
  class ConfigDocument {
    const attributes: seq<(string, string)>
    var children: seq<Node>

    /** Loads a document. */
    constructor (document: Document)
      ensures attributes == document.attributes && children == document.children
    {
      attributes := document.attributes;
      children := document.children;
    }

    /** The document as it now stands, as handed to the validator and written. */
    function Current(): Document
      reads this
    {
      Document(attributes, children)
    }

    /** The XPath lookup `//preference[@for="forType"]`. */
    method FindPreference(forType: string) returns (found: bool)
      ensures found <==> HasPreferenceFor(children, forType)
    {
      found := false;
      var i := 0;
      while i < |children| && !found
        invariant 0 <= i <= |children|
        invariant found <==> HasPreferenceFor(children[..i], forType)
      {
        if children[i].Preference? && children[i].forType == forType {
          found := true;
          assert children[..i + 1][i] == children[i];
        } else {
          assert forall j :: 0 <= j < i ==> children[..i + 1][j] == children[..i][j];
        }
        i := i + 1;
      }
      if found {
        HasPreferenceInPrefix(children[..i], children, forType);
      } else {
        assert children[..i] == children;
      }
    }

    /** `appendChild` on `config`. */
    method AppendChild(node: Node)
      modifies this
      ensures children == old(children) + [node]
    {
      children := children + [node];
    }

    /** One guarded block of `dumpDiConfig`: look the interface up, append the edge if it is missing. */
    method MergePreference(edge: Node)
      requires edge.Preference?
      modifies this
      ensures children == AddPreference(old(children), edge)
    {
      var found := FindPreference(edge.forType);
      if !found {
        AppendChild(edge);
      }
    }
  }
}
