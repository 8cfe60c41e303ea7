/**
 * The import list of a generated file: the names the caller passes, then
 * the names the structure's own declaration refers to, sorted with PHP's
 * `sort`. Nothing is removed, so a name passed and also declared appears
 * twice.
 */
module Imports {
  import opened Wrappers
  import opened Ordering
  import opened Declarations

  /**
   * The names a declaration refers to, in the order they are appended: the
   * interfaces a contract extends; the parent of a class, if it has one, then
   * the interfaces it implements.
   */
  function DeclaredNames(structure: Structure): seq<string> {
    match structure
    case Contract(_, extended, _, _) => extended
    case Object(_, parent, implements, _, _) =>
      (match parent case Some(p) => [p] case None => []) + implements
  }

  function ImportList(fqns: seq<string>, structure: Structure): seq<string> {
    Sort(fqns + DeclaredNames(structure))
  }

  /**
   * The import list is in order and holds each given and each declared name
   * exactly as often as they occur together; a name is listed iff it was
   * given or declared.
   */
  lemma ImportListContents(fqns: seq<string>, structure: Structure)
    ensures var names := ImportList(fqns, structure);
      && Sorted(names)
      && |names| == |fqns| + |DeclaredNames(structure)|
      && multiset(names) == multiset(fqns) + multiset(DeclaredNames(structure))
      && (forall x :: x in names <==> x in fqns || x in DeclaredNames(structure))
  {
    var names := ImportList(fqns, structure);
    var all := fqns + DeclaredNames(structure);
    SortSpec(all);
    assert multiset(all) == multiset(fqns) + multiset(DeclaredNames(structure));
    forall x ensures x in names <==> x in fqns || x in DeclaredNames(structure) {
      calc {
        x in names;
        x in multiset(names);
        x in multiset(all);
        x in all;
      }
    }
  }

  /** The order the caller lists its names in does not change the import list. */
  lemma ImportListIgnoresOrder(fqns: seq<string>, reordered: seq<string>, structure: Structure)
    requires multiset(fqns) == multiset(reordered)
    ensures ImportList(fqns, structure) == ImportList(reordered, structure)
  {
    assert multiset(fqns + DeclaredNames(structure)) == multiset(reordered + DeclaredNames(structure));
    SortIgnoresOrder(fqns + DeclaredNames(structure), reordered + DeclaredNames(structure));
  }

  /** An ordered list holding the given and the declared names is the import list. */
  lemma ImportListDetermined(names: seq<string>, fqns: seq<string>, structure: Structure)
    requires Sorted(names)
    requires multiset(names) == multiset(fqns + DeclaredNames(structure))
    ensures names == ImportList(fqns, structure)
  {
    SortSpec(fqns + DeclaredNames(structure));
    SortedUnique(names, ImportList(fqns, structure));
  }

  /** The name collection of `dumpContract`: the given names, each extended interface, sorted. */
  method CollectContractImports(contract: Structure, fqns: seq<string>) returns (names: seq<string>)
    requires contract.Contract?
    ensures Sorted(names)
    ensures multiset(names) == multiset(fqns) + multiset(contract.extended)
  {
    names := fqns;
    for i := 0 to |contract.extended|
      invariant names == fqns + contract.extended[..i]
    {
      names := names + [contract.extended[i]];
    }
    assert contract.extended[..|contract.extended|] == contract.extended;
    SortSpec(names);
    names := Sort(names);
  }

  /**
   * The name collection of `dumpObject`: the given names, the parent if there
   * is one, each implemented interface, sorted.
   */
  method CollectObjectImports(declaration: Structure, fqns: seq<string>) returns (names: seq<string>)
    requires declaration.Object?
    ensures Sorted(names)
    ensures declaration.parent.Some? ==>
      multiset(names) == multiset(fqns) + multiset{declaration.parent.value} + multiset(declaration.implements)
    ensures declaration.parent.None? ==>
      multiset(names) == multiset(fqns) + multiset(declaration.implements)
  {
    names := fqns;
    if declaration.parent.Some? {
      names := names + [declaration.parent.value];
    }
    var start := names;
    for i := 0 to |declaration.implements|
      invariant names == start + declaration.implements[..i]
    {
      names := names + [declaration.implements[i]];
    }
    assert declaration.implements[..|declaration.implements|] == declaration.implements;
    SortSpec(names);
    names := Sort(names);
  }
}
