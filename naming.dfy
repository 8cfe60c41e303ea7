/**
 * The naming conventions every artifact shares: a class or interface name is
 * a '/'-separated path under the module with each '/' turned into '\', and a
 * file path is the same path under the module directory.
 */
module Naming {
  import opened Text

  const AbstractModel := "Magento\\Framework\\Model\\AbstractModel"
  const AbstractDb := "Magento\\Framework\\Model\\ResourceModel\\Db\\AbstractDb"
  const AbstractCollection := "Magento\\Framework\\Model\\ResourceModel\\Db\\Collection\\AbstractCollection"
  const BaseSearchResultsInterface := "Magento\\Framework\\Api\\SearchResultsInterface"
  const SearchResults := "Magento\\Framework\\Api\\SearchResults"

  /** `str_replace('/', '\\', path)` */
  function Fqn(path: string): (r: string)
    ensures '/' !in r && |r| == |path|
  {
    Replace(path, '/', "\\")
  }

  /**
   * A path as it is written inside a PHP single-quoted literal:
   * `str_replace('/', '\\\\', path)`, each separator an escaped backslash.
   */
  function QuotedName(path: string): string {
    Replace(path, '/', "\\\\")
  }

  /** Memio's short name of a class or interface: the part after the last '\'. */
  function ShortName(fqn: string): (r: string)
    ensures '\\' !in r
  {
    AfterLast(fqn, '\\')
  }

  /** A name under the module: `<module>/<rel>`. */
  function ModulePath(moduleName: string, rel: string): string {
    moduleName + "/" + rel
  }

  /** The class or interface at `rel` under the module. */
  function ClassFqn(moduleName: string, rel: string): string {
    Fqn(ModulePath(moduleName, rel))
  }

  // The generated classes and interfaces, by their path under the module.

  function DataInterfaceRel(modelName: string): string { "Api/Data/" + modelName + "Interface" }

  function SearchResultsInterfaceRel(modelName: string): string { "Api/Data/" + modelName + "SearchResultsInterface" }

  function ModelRel(modelName: string): string { "Model/" + modelName }

  function ResourceModelRel(modelName: string): string { "Model/ResourceModel/" + modelName }

  function CollectionRel(modelName: string): string { "Model/ResourceModel/" + modelName + "/Collection" }

  function CollectionFactoryRel(modelName: string): string { "Model/ResourceModel/" + modelName + "/CollectionFactory" }

  function RepositoryInterfaceRel(modelName: string): string { "Api/" + modelName + "RepositoryInterface" }

  function RepositoryRel(modelName: string): string { "Model/" + modelName + "Repository" }

  function SearchResultsFactoryRel(modelName: string): string { "Api/Data/" + modelName + "SearchResultsInterfaceFactory" }

  function DataFactoryRel(modelName: string): string { "Api/Data/" + modelName + "InterfaceFactory" }

  function DataInterfaceFqn(moduleName: string, modelName: string): string {
    ClassFqn(moduleName, DataInterfaceRel(modelName))
  }

  function SearchResultsInterfaceFqn(moduleName: string, modelName: string): string {
    ClassFqn(moduleName, SearchResultsInterfaceRel(modelName))
  }

  function ModelFqn(moduleName: string, modelName: string): string {
    ClassFqn(moduleName, ModelRel(modelName))
  }

  function ResourceModelPath(moduleName: string, modelName: string): string {
    ModulePath(moduleName, ResourceModelRel(modelName))
  }

  function ResourceModelFqn(moduleName: string, modelName: string): string {
    ClassFqn(moduleName, ResourceModelRel(modelName))
  }

  function CollectionFqn(moduleName: string, modelName: string): string {
    ClassFqn(moduleName, CollectionRel(modelName))
  }

  function CollectionFactoryFqn(moduleName: string, modelName: string): string {
    ClassFqn(moduleName, CollectionFactoryRel(modelName))
  }

  function RepositoryInterfaceFqn(moduleName: string, modelName: string): string {
    ClassFqn(moduleName, RepositoryInterfaceRel(modelName))
  }

  function RepositoryFqn(moduleName: string, modelName: string): string {
    ClassFqn(moduleName, RepositoryRel(modelName))
  }

  function SearchResultsFactoryFqn(moduleName: string, modelName: string): string {
    ClassFqn(moduleName, SearchResultsFactoryRel(modelName))
  }

  function DataFactoryFqn(moduleName: string, modelName: string): string {
    ClassFqn(moduleName, DataFactoryRel(modelName))
  }

  /** The short name of the class at `<path>/<name>` is `name`. */
  lemma ShortNameOfPath(path: string, name: string)
    requires '/' !in name && '\\' !in name
    ensures ShortName(Fqn(path + "/" + name)) == name
  {
    ReplaceAppend(path + "/", name, '/', "\\");
    ReplaceAppend(path, "/", '/', "\\");
    ReplaceAbsent(name, '/', "\\");
    assert Replace("/", '/', "\\") == "\\";
    var front := Replace(path, '/', "\\") + "\\";
    assert Fqn(path + "/" + name) == front + name;
    AfterLastOfSuffix(front, name, '\\');
  }

  /** For a plain model name, the data interface's short name is `<model>Interface`. */
  lemma DataInterfaceShortName(moduleName: string, modelName: string)
    requires '/' !in modelName && '\\' !in modelName
    ensures ShortName(DataInterfaceFqn(moduleName, modelName)) == modelName + "Interface"
  {
    assert ModulePath(moduleName, DataInterfaceRel(modelName)) == (moduleName + "/Api/Data") + "/" + (modelName + "Interface");
    ShortNameOfPath(moduleName + "/Api/Data", modelName + "Interface");
  }

  /** For a plain model name, the search-results interface's short name is `<model>SearchResultsInterface`. */
  lemma SearchResultsInterfaceShortName(moduleName: string, modelName: string)
    requires '/' !in modelName && '\\' !in modelName
    ensures ShortName(SearchResultsInterfaceFqn(moduleName, modelName)) == modelName + "SearchResultsInterface"
  {
    assert ModulePath(moduleName, SearchResultsInterfaceRel(modelName))
        == (moduleName + "/Api/Data") + "/" + (modelName + "SearchResultsInterface");
    ShortNameOfPath(moduleName + "/Api/Data", modelName + "SearchResultsInterface");
  }

  /** A class name joins the class names of its parts with `\\`. */
  lemma FqnJoin(a: string, b: string)
    ensures Fqn(a + "/" + b) == Fqn(a) + "\\" + Fqn(b)
  {
    ReplaceAppend(a + "/", b, '/', "\\");
    ReplaceAppend(a, "/", '/', "\\");
    assert Replace("/", '/', "\\") == "\\";
  }

  /** `getTableName`: module and model names, '/' as '_', lower case, joined by '_'. */
  function TableName(moduleName: string, modelName: string): string {
    Lower(Replace(moduleName, '/', "_")) + "_" + Lower(Replace(modelName, '/', "_"))
  }

  /** The table name is lower case, has no '/', and one character per input character plus the joint. */
  lemma TableNameShape(moduleName: string, modelName: string)
    ensures var t := TableName(moduleName, modelName);
      && NoUpper(t) && '/' !in t
      && |t| == |moduleName| + |modelName| + 1
      && t[|moduleName|] == '_'
  {
    var a := Replace(moduleName, '/', "_");
    var b := Replace(modelName, '/', "_");
    LowerKeepsAbsent(a, '/');
    LowerKeepsAbsent(b, '/');
  }

  lemma LowerKeepsAbsent(s: string, c: char)
    requires c !in s && !IsUpper(c) && !IsLower(c)
    ensures c !in Lower(s)
  {
  }

  /** The table name of a two-part module name `vendor/name` and a plain model name. */
  lemma TableNameOfParts(vendor: string, moduleName: string, modelName: string)
    requires '/' !in vendor && '/' !in moduleName && '/' !in modelName
    ensures TableName(vendor + "/" + moduleName, modelName)
         == Lower(vendor) + "_" + Lower(moduleName) + "_" + Lower(modelName)
  {
    var a := Replace(vendor + "/" + moduleName, '/', "_");
    ReplaceAppend(vendor + "/", moduleName, '/', "_");
    ReplaceAppend(vendor, "/", '/', "_");
    ReplaceAbsent(vendor, '/', "_");
    ReplaceAbsent(moduleName, '/', "_");
    ReplaceAbsent(modelName, '/', "_");
    assert Replace("/", '/', "_") == "_";
    assert a == vendor + "_" + moduleName;
    LowerAppend(vendor + "_", moduleName);
    LowerAppend(vendor, "_");
    assert Lower("_") == "_";
    assert Lower(a) == Lower(vendor) + "_" + Lower(moduleName);
  }

  lemma LowerAppend(a: string, b: string)
    ensures Lower(a + b) == Lower(a) + Lower(b)
  {
  }

  /** Inside a single-quoted literal the doubled separators read back as the namespace name. */
  lemma {:induction false} QuotedNameReadsAsFqn(path: string)
    requires '\\' !in path && '\'' !in path
    ensures UnquoteSingle(QuotedName(path)) == Fqn(path)
  {
    if path != [] {
      var rest := path[1..];
      assert '\\' !in rest && '\'' !in rest by {
        assert forall c :: c in rest ==> c in path;
      }
      QuotedNameReadsAsFqn(rest);
      assert path[0] in path;
      if path[0] == '/' {
        assert QuotedName(path) == ['\\', '\\'] + QuotedName(rest);
      } else {
        assert QuotedName(path) == [path[0]] + QuotedName(rest);
      }
    }
  }
}
