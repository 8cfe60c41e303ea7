/**
 * The worked example of a generation run: module `Demo/Hello`, model `Item`,
 * one field `title` of type `string`.
 */
module Scenario {
  import opened Text
  import opened NameConverter
  import opened Declarations
  import opened Naming
  import opened Fields
  import opened Builders
  import opened DiConfig

  /** `getTableName("Demo/Hello", "Item")` is `demo_hello_item`. */
  lemma TableNameExample(moduleName: string, modelName: string)
    requires moduleName == "Demo/Hello" && modelName == "Item"
    ensures TableName(moduleName, modelName) == "demo_hello_item"
  {
    assert moduleName == "Demo" + "/" + "Hello";
    TableNameOfParts("Demo", "Hello", "Item");
    LowerExample();
    JoinExample();
  }

  lemma JoinExample()
    ensures "demo" + "_" + "hello" + "_" + "item" == "demo_hello_item"
  {
  }

  lemma LowerExample()
    ensures Lower("Demo") == "demo" && Lower("Hello") == "hello" && Lower("Item") == "item"
  {
  }

  /** The field `title` is kept as it is, after the three mandatory fields. */
  lemma PreparedFieldsExample(fields: seq<Field>)
    requires fields == [Field("title", "string")]
    ensures PreparedFields(fields)
         == [Field("id", "integer"), Field("created_at", "integer"), Field("updated_at", "integer"),
             Field("title", "string")]
  {
    TitleKept(fields[0].name);
    assert NormalizedFields(fields) == fields;
  }

  /** `title` has no `_` and no upper-case letter, so normalising keeps it. */
  lemma TitleKept(name: string)
    requires name == "title"
    ensures NormalizeFieldName(name) == name
  {
    NormalizeFieldNameCases(name);
    assert '_' !in name;
    assert NoUpper(name);
    SnakeOfLower(name);
  }

  lemma UpperExample()
    ensures Upper("id") == "ID" && Upper("created_at") == "CREATED_AT"
    ensures Upper("updated_at") == "UPDATED_AT" && Upper("title") == "TITLE"
  {
  }

  lemma QuotedExample()
    ensures "'" + "id" + "'" == "'id'" && "'" + "created_at" + "'" == "'created_at'"
    ensures "'" + "updated_at" + "'" == "'updated_at'" && "'" + "title" + "'" == "'title'"
  {
  }

  /** The data interface of the example declares `ID`, `CREATED_AT`, `UPDATED_AT` and `TITLE`, in that order. */
  lemma DataInterfaceConstantsExample(moduleName: string, modelName: string, fields: seq<Field>)
    requires moduleName == "Demo/Hello" && modelName == "Item" && fields == [Field("title", "string")]
    ensures DataInterface(moduleName, modelName, PreparedFields(fields)).constants
         == [Constant("ID", "'id'"), Constant("CREATED_AT", "'created_at'"),
             Constant("UPDATED_AT", "'updated_at'"), Constant("TITLE", "'title'")]
  {
    var prepared := PreparedFields(fields);
    PreparedFieldsExample(fields);
    DataInterfaceConstants(moduleName, modelName, prepared);
    UpperExample();
    QuotedExample();
    var constants := DataInterface(moduleName, modelName, prepared).constants;
    assert constants[0] == Constant(Upper("id"), "'" + "id" + "'");
    assert constants[1] == Constant(Upper("created_at"), "'" + "created_at" + "'");
    assert constants[2] == Constant(Upper("updated_at"), "'" + "updated_at" + "'");
    assert constants[3] == Constant(Upper("title"), "'" + "title" + "'");
  }

  /** A class under a two-part module name `vendor/name`. */
  lemma ClassFqnOfParts(vendor: string, name: string, rel: string)
    requires '/' !in vendor && '/' !in name
    ensures ClassFqn(vendor + "/" + name, rel) == (vendor + "\\" + name + "\\") + Fqn(rel)
  {
    FqnJoin(vendor + "/" + name, rel);
    FqnJoin(vendor, name);
    ReplaceAbsent(vendor, '/', "\\");
    ReplaceAbsent(name, '/', "\\");
  }

  /** `<dir>/<name>` as a class name, for a one-part directory. */
  lemma DirFqn(dir: string, name: string)
    requires '/' !in dir && '/' !in name
    ensures Fqn(dir + "/" + name) == (dir + "\\") + name
  {
    FqnJoin(dir, name);
    ReplaceAbsent(dir, '/', "\\");
    ReplaceAbsent(name, '/', "\\");
  }

  /** `Api/Data/<name>` as a class name. */
  lemma ApiDataFqn(api: string, data: string, name: string)
    requires api == "Api" && data == "Data" && '/' !in name
    ensures Fqn("Api/Data/" + name) == "Api\\Data\\" + name
  {
    assert "Api/Data/" + name == api + "/" + (data + "/" + name);
    FqnJoin(api, data + "/" + name);
    DirFqn(data, name);
    ReplaceAbsent(api, '/', "\\");
    assert api + "\\" + ((data + "\\") + name) == (api + "\\" + data + "\\") + name;
  }

  /** The class prefix of the example module. */
  lemma DemoPrefix(moduleName: string, vendor: string, name: string, rel: string)
    requires moduleName == "Demo/Hello" && vendor == "Demo" && name == "Hello"
    ensures ClassFqn(moduleName, rel) == "Demo\\Hello\\" + Fqn(rel)
  {
    assert moduleName == vendor + "/" + name;
    ClassFqnOfParts(vendor, name, rel);
  }

  lemma DataInterfaceFqnExample(moduleName: string, modelName: string)
    requires moduleName == "Demo/Hello" && modelName == "Item"
    ensures DataInterfaceFqn(moduleName, modelName) == "Demo\\Hello\\Api\\Data\\ItemInterface"
  {
    DemoPrefix(moduleName, "Demo", "Hello", DataInterfaceRel(modelName));
    assert DataInterfaceRel(modelName) == "Api/Data/" + (modelName + "Interface");
    ApiDataFqn("Api", "Data", modelName + "Interface");
    assert modelName + "Interface" == "ItemInterface";
    DataInterfaceFqnExampleText();
  }

  lemma DataInterfaceFqnExampleText()
    ensures "Demo\\Hello\\" + ("Api\\Data\\" + "ItemInterface") == "Demo\\Hello\\Api\\Data\\ItemInterface"
  {
    assert "Api\\Data\\" + "ItemInterface" == "Api\\Data\\ItemInterface";
  }

  lemma SearchResultsInterfaceFqnExample(moduleName: string, modelName: string)
    requires moduleName == "Demo/Hello" && modelName == "Item"
    ensures SearchResultsInterfaceFqn(moduleName, modelName) == "Demo\\Hello\\Api\\Data\\ItemSearchResultsInterface"
  {
    DemoPrefix(moduleName, "Demo", "Hello", SearchResultsInterfaceRel(modelName));
    assert SearchResultsInterfaceRel(modelName) == "Api/Data/" + (modelName + "SearchResultsInterface");
    ApiDataFqn("Api", "Data", modelName + "SearchResultsInterface");
    assert modelName + "SearchResultsInterface" == "ItemSearchResultsInterface";
    SearchResultsInterfaceFqnExampleText();
  }

  lemma SearchResultsInterfaceFqnExampleText()
    ensures "Demo\\Hello\\" + ("Api\\Data\\" + "ItemSearchResultsInterface") == "Demo\\Hello\\Api\\Data\\ItemSearchResultsInterface"
  {
    assert "Api\\Data\\" + "ItemSearchResultsInterface" == "Api\\Data\\ItemSearchResultsInterface";
  }

  lemma ModelFqnExample(moduleName: string, modelName: string)
    requires moduleName == "Demo/Hello" && modelName == "Item"
    ensures ModelFqn(moduleName, modelName) == "Demo\\Hello\\Model\\Item"
  {
    DemoPrefix(moduleName, "Demo", "Hello", ModelRel(modelName));
    assert ModelRel(modelName) == "Model" + "/" + modelName;
    DirFqn("Model", modelName);
    assert modelName == "Item";
    ModelFqnExampleText();
  }

  lemma ModelFqnExampleText()
    ensures "Demo\\Hello\\" + ("Model\\" + "Item") == "Demo\\Hello\\Model\\Item"
  {
    assert "Model\\" + "Item" == "Model\\Item";
  }

  lemma RepositoryFqnExample(moduleName: string, modelName: string)
    requires moduleName == "Demo/Hello" && modelName == "Item"
    ensures RepositoryFqn(moduleName, modelName) == "Demo\\Hello\\Model\\ItemRepository"
  {
    DemoPrefix(moduleName, "Demo", "Hello", RepositoryRel(modelName));
    assert RepositoryRel(modelName) == "Model" + "/" + (modelName + "Repository");
    DirFqn("Model", modelName + "Repository");
    assert modelName + "Repository" == "ItemRepository";
    RepositoryFqnExampleText();
  }

  lemma RepositoryFqnExampleText()
    ensures "Demo\\Hello\\" + ("Model\\" + "ItemRepository") == "Demo\\Hello\\Model\\ItemRepository"
  {
    assert "Model\\" + "ItemRepository" == "Model\\ItemRepository";
  }

  lemma RepositoryInterfaceFqnExample(moduleName: string, modelName: string)
    requires moduleName == "Demo/Hello" && modelName == "Item"
    ensures RepositoryInterfaceFqn(moduleName, modelName) == "Demo\\Hello\\Api\\ItemRepositoryInterface"
  {
    DemoPrefix(moduleName, "Demo", "Hello", RepositoryInterfaceRel(modelName));
    assert RepositoryInterfaceRel(modelName) == "Api" + "/" + (modelName + "RepositoryInterface");
    DirFqn("Api", modelName + "RepositoryInterface");
    assert modelName + "RepositoryInterface" == "ItemRepositoryInterface";
    RepositoryInterfaceFqnExampleText();
  }

  lemma RepositoryInterfaceFqnExampleText()
    ensures "Demo\\Hello\\" + ("Api\\" + "ItemRepositoryInterface") == "Demo\\Hello\\Api\\ItemRepositoryInterface"
  {
    assert "Api\\" + "ItemRepositoryInterface" == "Api\\ItemRepositoryInterface";
  }

  /** The three bindings of the example, as class names. */
  lemma ModulePreferencesExample(moduleName: string, modelName: string)
    requires moduleName == "Demo/Hello" && modelName == "Item"
    ensures ModulePreferences(moduleName, modelName)
         == [Preference("Demo\\Hello\\Api\\Data\\ItemInterface", "Demo\\Hello\\Model\\Item"),
             Preference("Demo\\Hello\\Api\\ItemRepositoryInterface", "Demo\\Hello\\Model\\ItemRepository"),
             Preference("Demo\\Hello\\Api\\Data\\ItemSearchResultsInterface", SearchResults)]
  {
    DataInterfaceFqnExample(moduleName, modelName);
    SearchResultsInterfaceFqnExample(moduleName, modelName);
    ModelFqnExample(moduleName, modelName);
    RepositoryInterfaceFqnExample(moduleName, modelName);
    RepositoryFqnExample(moduleName, modelName);
  }

  /** A `Demo/Hello` module without a `di.xml` ends up with the example's three bindings. */
  lemma FreshConfigExample(moduleName: string, modelName: string)
    requires moduleName == "Demo/Hello" && modelName == "Item"
    ensures MergePreferences(NewDocument().children, ModulePreferences(moduleName, modelName))
         == [Preference("Demo\\Hello\\Api\\Data\\ItemInterface", "Demo\\Hello\\Model\\Item"),
             Preference("Demo\\Hello\\Api\\ItemRepositoryInterface", "Demo\\Hello\\Model\\ItemRepository"),
             Preference("Demo\\Hello\\Api\\Data\\ItemSearchResultsInterface", SearchResults)]
  {
    FreshConfigGetsThreeBindings(moduleName, modelName);
    ModulePreferencesExample(moduleName, modelName);
  }
}
