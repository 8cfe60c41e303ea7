/**
 * The seven declarations of a generation run: the data interface, the
 * search-results interface, the model, the resource model, the collection,
 * the repository interface and the repository. Each is given as a function
 * of the module name, the model name and (for the data interface and the
 * model) the prepared field list; the two that loop over the fields also
 * have a builder method that accumulates constants and methods field by
 * field and is proved to produce that value.
 */
module Builders {
  import opened Wrappers
  import opened Text
  import opened NameConverter
  import opened Declarations
  import opened Naming

  /** `str_repeat(' ', 8)`: the indentation of a generated method body. */
  const Indent := "        "

  const LocalizedException := "\\Magento\\Framework\\Exception\\LocalizedException"
  const NoSuchEntityException := "\\Magento\\Framework\\Exception\\NoSuchEntityException"
  const SearchCriteriaInterface := "\\Magento\\Framework\\Api\\SearchCriteriaInterface"

  // The framework names the repository imports.
  const DataObjectHelper := "Magento\\Framework\\Api\\DataObjectHelper"
  const DataObjectProcessor := "Magento\\Framework\\Reflection\\DataObjectProcessor"
  const SortOrder := "Magento\\Framework\\Api\\SortOrder"
  const StoreManagerInterface := "Magento\\Store\\Model\\StoreManagerInterface"
  const NoSuchEntityExceptionName := "Magento\\Framework\\Exception\\NoSuchEntityException"
  const SearchCriteriaInterfaceName := "Magento\\Framework\\Api\\SearchCriteriaInterface"

  function SetterName(fieldName: string): string {
    Denormalize("set_" + fieldName)
  }

  function GetterName(fieldName: string): string {
    Denormalize("get_" + fieldName)
  }

  /** One constant per field: `UPPER_NAME = 'name'`. */
  function FieldConstant(f: Field): Constant {
    Constant(Upper(f.name), "'" + f.name + "'")
  }

  function FieldConstants(fields: seq<Field>): (r: seq<Constant>)
    ensures |r| == |fields|
    ensures forall i :: 0 <= i < |fields| ==> r[i] == FieldConstant(fields[i])
  {
    seq(|fields|, i requires 0 <= i < |fields| => FieldConstant(fields[i]))
  }

  /** Accessors are declared on the data interface (no body) or defined on the model. */
  datatype AccessorKind = OnInterface | OnModel

  /** The setter of a field: one argument `value` of the field's type; returns `returnType`. */
  function Setter(kind: AccessorKind, returnType: string, f: Field): Method {
    Method(SetterName(f.name), [Argument(f.fieldType, "value")], None,
      [ParameterTag(f.fieldType, "value")], Some(returnType), [],
      if kind.OnModel? then Some(Code(Indent + "return $this->setData(self::" + Upper(f.name) + ", $value);"))
      else None)
  }

  /** The getter of a field: no argument; returns the field's type. */
  function Getter(kind: AccessorKind, f: Field): Method {
    Method(GetterName(f.name), [], None, [], Some(f.fieldType), [],
      if kind.OnModel? then Some(Code(Indent + "return $this->getData(self::" + Upper(f.name) + ");"))
      else None)
  }

  /** The setter then the getter of every field, in field order. */
  function Accessors(kind: AccessorKind, returnType: string, fields: seq<Field>): (r: seq<Method>)
    ensures |r| == 2 * |fields|
  {
    if fields == [] then []
    else
      var last := fields[|fields| - 1];
      Accessors(kind, returnType, fields[..|fields| - 1])
        + [Setter(kind, returnType, last), Getter(kind, last)]
  }

  lemma {:induction false} AccessorsAt(kind: AccessorKind, returnType: string, fields: seq<Field>, i: nat)
    requires i < |fields|
    ensures Accessors(kind, returnType, fields)[2 * i] == Setter(kind, returnType, fields[i])
    ensures Accessors(kind, returnType, fields)[2 * i + 1] == Getter(kind, fields[i])
  {
    var front := fields[..|fields| - 1];
    if i < |fields| - 1 {
      AccessorsAt(kind, returnType, front, i);
      assert front[i] == fields[i];
    }
  }

  // ----- data interface -----

  function DataInterface(moduleName: string, modelName: string, fields: seq<Field>): Structure {
    var fqn := DataInterfaceFqn(moduleName, modelName);
    Contract(fqn, [], FieldConstants(fields), Accessors(OnInterface, ShortName(fqn), fields))
  }

  /** `generateDataObjectInterface`: a constant, a setter and a getter per field. */
  method BuildDataInterface(moduleName: string, modelName: string, fields: seq<Field>)
    returns (contract: Structure)
    ensures contract == DataInterface(moduleName, modelName, fields)
  {
    var fqn := DataInterfaceFqn(moduleName, modelName);
    var constants: seq<Constant> := [];
    var methods: seq<Method> := [];
    for i := 0 to |fields|
      invariant constants == FieldConstants(fields[..i])
      invariant methods == Accessors(OnInterface, ShortName(fqn), fields[..i])
    {
      var field := fields[i];
      constants := constants + [Constant(Upper(field.name), "'" + field.name + "'")];
      methods := methods + [Setter(OnInterface, ShortName(fqn), field)];
      methods := methods + [Getter(OnInterface, field)];
      assert fields[..i + 1][..i] == fields[..i];
    }
    assert fields[..|fields|] == fields;
    contract := Contract(fqn, [], constants, methods);
  }

  /**
   * For each field in order, the data interface has exactly one constant
   * `strtoupper(name) = 'name'`; it extends nothing.
   */
  lemma DataInterfaceConstants(moduleName: string, modelName: string, fields: seq<Field>)
    ensures var c := DataInterface(moduleName, modelName, fields);
      && c.Contract? && c.fqn == DataInterfaceFqn(moduleName, modelName) && c.extended == []
      && |c.constants| == |fields|
      && (forall i :: 0 <= i < |fields| ==>
            c.constants[i] == Constant(Upper(fields[i].name), "'" + fields[i].name + "'"))
  {
  }

  /**
   * For each field in order, the data interface declares a setter and then a
   * getter: the setter takes one argument `value` of the field's type,
   * documented by a `@param` tag of that type, and returns the interface, the getter takes none and returns the field's
   * type. No method has a body.
   */
  lemma DataInterfaceMethods(moduleName: string, modelName: string, fields: seq<Field>)
    ensures var c := DataInterface(moduleName, modelName, fields);
      && |c.methods| == 2 * |fields|
      && (forall i :: 0 <= i < |fields| ==>
            && c.methods[2 * i].name == SetterName(fields[i].name)
            && c.methods[2 * i].args == [Argument(fields[i].fieldType, "value")]
            && c.methods[2 * i].paramTags == [ParameterTag(fields[i].fieldType, "value")]
            && c.methods[2 * i].returnTag == Some(ShortName(c.fqn))
            && c.methods[2 * i + 1].name == GetterName(fields[i].name)
            && c.methods[2 * i + 1].args == []
            && c.methods[2 * i + 1].returnTag == Some(fields[i].fieldType))
      && (forall k :: 0 <= k < |c.methods| ==> c.methods[k].body == None)
  {
    var c := DataInterface(moduleName, modelName, fields);
    var returnType := ShortName(c.fqn);
    assert c.methods == Accessors(OnInterface, returnType, fields);
    forall i | 0 <= i < |fields|
      ensures c.methods[2 * i] == Setter(OnInterface, returnType, fields[i])
      ensures c.methods[2 * i + 1] == Getter(OnInterface, fields[i])
    {
      AccessorsAt(OnInterface, returnType, fields, i);
    }
    forall k | 0 <= k < |c.methods| ensures c.methods[k].body == None {
      AccessorAt(OnInterface, returnType, fields, k);
    }
  }

  /** The k-th accessor: the setter of field k/2 at even k, its getter at odd k. */
  lemma AccessorAt(kind: AccessorKind, returnType: string, fields: seq<Field>, k: nat)
    requires k < 2 * |fields|
    ensures Accessors(kind, returnType, fields)[k]
         == if k % 2 == 0 then Setter(kind, returnType, fields[k / 2]) else Getter(kind, fields[k / 2])
  {
    AccessorsAt(kind, returnType, fields, k / 2);
  }

  /** What a caller relies on of each method: its name and its arguments. */
  function Signatures(methods: seq<Method>): (r: seq<(string, seq<Argument>)>)
    ensures |r| == |methods|
    ensures forall k :: 0 <= k < |methods| ==> r[k] == (methods[k].name, methods[k].args)
  {
    seq(|methods|, k requires 0 <= k < |methods| => (methods[k].name, methods[k].args))
  }

  lemma SignaturesAppend(a: seq<Method>, b: seq<Method>)
    ensures Signatures(a + b) == Signatures(a) + Signatures(b)
  {
  }

  /** Declared and defined accessors have the same names and arguments, in the same order. */
  lemma {:induction false} AccessorSignaturesAgree(interfaceName: string, className: string, fields: seq<Field>)
    ensures Signatures(Accessors(OnModel, className, fields))
         == Signatures(Accessors(OnInterface, interfaceName, fields))
  {
    if fields != [] {
      var front := fields[..|fields| - 1];
      var last := fields[|fields| - 1];
      AccessorSignaturesAgree(interfaceName, className, front);
      SignaturesAppend(Accessors(OnModel, className, front), [Setter(OnModel, className, last), Getter(OnModel, last)]);
      SignaturesAppend(Accessors(OnInterface, interfaceName, front),
        [Setter(OnInterface, interfaceName, last), Getter(OnInterface, last)]);
    }
  }

  // ----- search-results interface -----

  /** `generateDataSearchResultInterface`: item accessors typed to the data interface; no field appears. */
  function SearchResultsInterface(moduleName: string, modelName: string): Structure {
    var modelContractName := BaseName(modelName) + "Interface";
    Contract(SearchResultsInterfaceFqn(moduleName, modelName), [BaseSearchResultsInterface], [], [
      Method("getItems", [], None, [], Some(modelContractName + "[]"), [], None),
      Method("setItems", [Argument("array", "items")], None,
        [ParameterTag(modelContractName + "[]", "items")],
        Some(BaseName(modelName) + "SearchResultsInterface"), [], None)
    ])
  }

  /**
   * The search-results interface extends the framework's and declares no
   * constant. Its items, read by `getItems` and written by `setItems`, are
   * arrays of the data interface; `setItems` returns the search-results
   * interface itself. Neither method has a body.
   */
  lemma SearchResultsInterfaceItems(moduleName: string, modelName: string)
    requires '/' !in modelName && '\\' !in modelName
    ensures var c := SearchResultsInterface(moduleName, modelName);
      var items := ShortName(DataInterfaceFqn(moduleName, modelName)) + "[]";
      && c.Contract? && c.extended == [BaseSearchResultsInterface] && c.constants == []
      && |c.methods| == 2
      && c.methods[0].name == "getItems" && c.methods[0].args == []
      && c.methods[0].returnTag == Some(items)
      && c.methods[1].name == "setItems" && c.methods[1].args == [Argument("array", "items")]
      && c.methods[1].paramTags == [ParameterTag(items, "items")]
      && c.methods[1].returnTag == Some(ShortName(c.fqn))
      && c.methods[0].body == None && c.methods[1].body == None
  {
    DataInterfaceShortName(moduleName, modelName);
    SearchResultsInterfaceShortName(moduleName, modelName);
  }

  // ----- model -----

  /** The model's `_construct`, binding it to its resource model by name. */
  function ModelInit(moduleName: string, modelName: string): Method {
    Method("_construct", [], Some("Initialize resource model(s)"), [], None, [],
      Some(Code(Indent + "$this->_init('" + QuotedName(ResourceModelPath(moduleName, modelName)) + "');")))
  }

  function ModelClass(moduleName: string, modelName: string, fields: seq<Field>): Structure {
    var fqn := ModelFqn(moduleName, modelName);
    Object(fqn, Some(AbstractModel), [DataInterfaceFqn(moduleName, modelName)], [],
      [ModelInit(moduleName, modelName)] + Accessors(OnModel, ShortName(fqn), fields))
  }

  /** `generateModelStructure`: `_construct`, then a setter and a getter per field. */
  method BuildModel(moduleName: string, modelName: string, fields: seq<Field>)
    returns (model: Structure)
    ensures model == ModelClass(moduleName, modelName, fields)
  {
    var fqn := ModelFqn(moduleName, modelName);
    var methods: seq<Method> := [ModelInit(moduleName, modelName)];
    for i := 0 to |fields|
      invariant methods == [ModelInit(moduleName, modelName)] + Accessors(OnModel, ShortName(fqn), fields[..i])
    {
      var field := fields[i];
      methods := methods + [Setter(OnModel, ShortName(fqn), field)];
      methods := methods + [Getter(OnModel, field)];
      assert fields[..i + 1][..i] == fields[..i];
    }
    assert fields[..|fields|] == fields;
    model := Object(fqn, Some(AbstractModel), [DataInterfaceFqn(moduleName, modelName)], [], methods);
  }

  /**
   * The model implements the data interface: after `_construct` it has the
   * interface's methods with the same names and arguments in the same order.
   */
  lemma ModelMatchesDataInterface(moduleName: string, modelName: string, fields: seq<Field>)
    ensures var c := DataInterface(moduleName, modelName, fields);
      var o := ModelClass(moduleName, modelName, fields);
      && o.Object? && o.parent == Some(AbstractModel) && o.implements == [c.fqn]
      && |o.methods| == |c.methods| + 1 && o.methods[0].name == "_construct"
      && Signatures(o.methods[1..]) == Signatures(c.methods)
  {
    var c := DataInterface(moduleName, modelName, fields);
    var o := ModelClass(moduleName, modelName, fields);
    assert o.methods[1..] == Accessors(OnModel, ShortName(o.fqn), fields);
    AccessorSignaturesAgree(ShortName(c.fqn), ShortName(o.fqn), fields);
  }

  /**
   * Each accessor the model defines reads or writes the data under the
   * interface constant of its field: `self::NAME`.
   */
  lemma ModelAccessorBodies(moduleName: string, modelName: string, fields: seq<Field>)
    ensures var c := DataInterface(moduleName, modelName, fields);
      var o := ModelClass(moduleName, modelName, fields);
      && |o.methods| == 2 * |fields| + 1 && |c.constants| == |fields|
      && (forall i :: 0 <= i < |fields| ==>
            && o.methods[2 * i + 1].body == Some(Code(Indent + "return $this->setData(self::" + c.constants[i].name + ", $value);"))
            && o.methods[2 * i + 2].body == Some(Code(Indent + "return $this->getData(self::" + c.constants[i].name + ");")))
  {
    var c := DataInterface(moduleName, modelName, fields);
    var o := ModelClass(moduleName, modelName, fields);
    var defined := Accessors(OnModel, ShortName(o.fqn), fields);
    assert o.methods == [ModelInit(moduleName, modelName)] + defined;
    forall i | 0 <= i < |fields|
      ensures o.methods[2 * i + 1] == Setter(OnModel, ShortName(o.fqn), fields[i])
      ensures o.methods[2 * i + 2] == Getter(OnModel, fields[i])
      ensures c.constants[i].name == Upper(fields[i].name)
    {
      AccessorsAt(OnModel, ShortName(o.fqn), fields, i);
      assert o.methods[2 * i + 1] == defined[2 * i];
      assert o.methods[2 * i + 2] == defined[2 * i + 1];
    }
  }

  // ----- resource model -----

  /** `generateResourceModelStructure`: binds the table name and the key column `id`. */
  function ResourceModel(moduleName: string, modelName: string): Structure {
    Object(ResourceModelFqn(moduleName, modelName), Some(AbstractDb), [], [], [
      Method("_construct", [], Some("Initialize table name and id field"), [], None, [],
        Some(Code(Indent + "$this->_init('" + TableName(moduleName, modelName) + "', 'id');")))
    ])
  }

  /**
   * The name the model's `_construct` passes to `_init`, read as the PHP
   * literal it is written in, is the resource model's class name.
   */
  lemma ModelBindsResourceModel(moduleName: string, modelName: string, fields: seq<Field>)
    requires '\\' !in moduleName && '\'' !in moduleName
    requires '\\' !in modelName && '\'' !in modelName
    ensures var literal := QuotedName(ResourceModelPath(moduleName, modelName));
      && ModelClass(moduleName, modelName, fields).methods[0].body
           == Some(Code(Indent + "$this->_init('" + literal + "');"))
      && '\'' !in literal
      && UnquoteSingle(literal) == ResourceModel(moduleName, modelName).fqn
  {
    var path := ResourceModelPath(moduleName, modelName);
    assert '\\' !in path && '\'' !in path;
    QuotedNameReadsAsFqn(path);
    ReplaceAbsentChar(path, '/', "\\\\", '\'');
  }

  // ----- collection -----

  /**
   * `generateResourceCollectionStructure`: binds the model and resource model
   * class names. Its class is `<ResourceModel>\<Model>\Collection`.
   */
  function Collection(moduleName: string, modelName: string): Structure {
    Object(CollectionFqn(moduleName, modelName), Some(AbstractCollection), [], [], [
      Method("_construct", [], Some("Initialize table name and id field"), [], None, [],
        Some(Code(Indent + "$this->_init('" + ModelFqn(moduleName, modelName) + "', '"
          + ResourceModelFqn(moduleName, modelName) + "');")))
    ])
  }

  // ----- repository interface -----

  function RepositoryInterface(moduleName: string, modelName: string): Structure {
    var argumentName := Lower(BaseName(modelName));
    var modelContractName := BaseName(modelName) + "Interface";
    var searchResultsName := BaseName(modelName) + "SearchResultsInterface";
    Contract(RepositoryInterfaceFqn(moduleName, modelName), [], [], [
      Method("getById", [Argument("int", "id")], None, [ParameterTag("int", "id")],
        Some(modelContractName), [LocalizedException], None),
      Method("getList", [Argument("SearchCriteriaInterface", "searchCriteria")], None,
        [ParameterTag("SearchCriteriaInterface", "searchCriteria")],
        Some(searchResultsName), [LocalizedException], None),
      Method("save", [Argument(modelContractName, argumentName)], None,
        [ParameterTag(modelContractName, argumentName)],
        Some(modelContractName), [LocalizedException], None),
      Method("delete", [Argument(modelContractName, argumentName)], None,
        [ParameterTag(modelContractName, argumentName)],
        Some("bool"), [LocalizedException], None),
      Method("deleteById", [Argument("int", "id")], None, [ParameterTag("int", "id")],
        Some("bool"), [LocalizedException, NoSuchEntityException], None)
    ])
  }

  /** The names `generateRepositoryInterface` passes on to be imported. */
  function RepositoryInterfaceImports(moduleName: string, modelName: string): seq<string> {
    [DataInterfaceFqn(moduleName, modelName), SearchResultsInterfaceFqn(moduleName, modelName),
     SearchCriteriaInterface]
  }

  // ----- repository -----

  /** The PHP text of each fixed repository body. */
  function RepositoryCodeText(operation: RepositoryOperation): string {
    match operation
    case Construct =>
      "        $this->resource = $resource;\n"
      + "        $this->factory              = $factory;\n"
      + "        $this->collectionFactory    = $collectionFactory;\n"
      + "        $this->searchResultsFactory = $searchResultsFactory;\n"
      + "        $this->dataFactory          = $dataFactory;\n"
      + "        $this->dataObjectHelper     = $dataObjectHelper;\n"
      + "        $this->dataObjectProcessor  = $dataObjectProcessor;\n"
      + "        $this->storeManager         = $storeManager;"
    case GetById =>
      "        $object = $this->factory->create();\n"
      + "        $this->resource->load($object, $id);\n"
      + "        if (!$object->getId()) {\n"
      + "            throw new NoSuchEntityException(\"Object not found\");\n"
      + "        }\n"
      + "\n"
      + "        return $object;"
    case Save =>
      "        $this->resource->save($object);\n\n        return $object;"
    case GetList(dataContractName, dataContractFqn) =>
      "        $searchResults = $this->searchResultsFactory->create();\n"
      + "        $searchResults->setSearchCriteria($criteria);\n"
      + "\n"
      + "        $collection = $this->collectionFactory->create();\n"
      + "        foreach ($criteria->getFilterGroups() as $filterGroup) {\n"
      + "            foreach ($filterGroup->getFilters() as $filter) {\n"
      + "                $condition = $filter->getConditionType() ?: 'eq';\n"
      + "                $collection->addFieldToFilter($filter->getField(), [$condition => $filter->getValue()]);\n"
      + "            }\n"
      + "        }\n"
      + "        $searchResults->setTotalCount($collection->getSize());\n"
      + "        $sortOrders = $criteria->getSortOrders();\n"
      + "        if ($sortOrders) {\n"
      + "            /** @var SortOrder $sortOrder */\n"
      + "            foreach ($sortOrders as $sortOrder) {\n"
      + "                $collection->addOrder(\n"
      + "                    $sortOrder->getField(),\n"
      + "                    ($sortOrder->getDirection() == SortOrder::SORT_ASC) ? 'ASC' : 'DESC'\n"
      + "                );\n"
      + "            }\n"
      + "        }\n"
      + "        $collection->setCurPage($criteria->getCurrentPage());\n"
      + "        $collection->setPageSize($criteria->getPageSize());\n"
      + "        $objects = [];\n"
      + "        /** @var " + dataContractName + " $object */\n"
      + "        foreach ($collection as $object) {\n"
      + "            $data = $this->dataFactory->create();\n"
      + "            $this->dataObjectHelper->populateWithArray(\n"
      + "                $data,\n"
      + "                $object->getData(),\n"
      + "                '" + dataContractFqn + "'\n"
      + "            );\n"
      + "            $objects[] = $this->dataObjectProcessor->buildOutputDataArray(\n"
      + "                $data,\n"
      + "                '" + dataContractFqn + "'\n"
      + "            );\n"
      + "        }\n"
      + "        $searchResults->setItems($objects);\n"
      + "\n"
      + "        return $searchResults;"
    case Delete =>
      "        $this->resource->delete($object);\n\n        return true;"
    case DeleteById =>
      "        return $this->resource->delete($this->getById($id));"
  }

  /** The injected collaborators: each is a protected property and a constructor argument. */
  function RepositoryDependencies(modelName: string): seq<Argument> {
    var base := BaseName(modelName);
    [Argument(base, "resource"),
     Argument(base + "Factory", "factory"),
     Argument("CollectionFactory", "collectionFactory"),
     Argument(base + "SearchResultsInterfaceFactory", "searchResultsFactory"),
     Argument(base + "InterfaceFactory", "dataFactory"),
     Argument("DataObjectHelper", "dataObjectHelper"),
     Argument("DataObjectProcessor", "dataObjectProcessor"),
     Argument("StoreManagerInterface", "storeManager")]
  }

  /** A protected property per collaborator, typed by its `@var` tag. */
  function DependencyProperties(dependencies: seq<Argument>): (r: seq<Property>)
    ensures |r| == |dependencies|
    ensures forall i :: 0 <= i < |r| ==> r[i] == Property(dependencies[i].name, dependencies[i].argType)
  {
    if dependencies == [] then []
    else [Property(dependencies[0].name, dependencies[0].argType)] + DependencyProperties(dependencies[1..])
  }

  /** A `@param` tag per constructor argument. */
  function DependencyTags(dependencies: seq<Argument>): (r: seq<ParameterTag>)
    ensures |r| == |dependencies|
    ensures forall i :: 0 <= i < |r| ==> r[i] == ParameterTag(dependencies[i].argType, dependencies[i].name)
  {
    if dependencies == [] then []
    else [ParameterTag(dependencies[0].argType, dependencies[0].name)] + DependencyTags(dependencies[1..])
  }

  function Repository(moduleName: string, modelName: string): Structure {
    var dependencies := RepositoryDependencies(modelName);
    var dataContractName := BaseName(modelName) + "Interface";
    var searchResultsName := BaseName(modelName) + "SearchResultsInterface";
    Object(RepositoryFqn(moduleName, modelName), None, [RepositoryInterfaceFqn(moduleName, modelName)],
      DependencyProperties(dependencies),
      [
        Method("__construct", dependencies, None,
          DependencyTags(dependencies),
          None, [], Some(RepositoryCode(Construct))),
        Method("getById", [Argument("int", "id")], None, [ParameterTag("int", "id")],
          Some(dataContractName), ["NoSuchEntityException"], Some(RepositoryCode(GetById))),
        Method("save", [Argument(dataContractName, "object")], None,
          [ParameterTag(dataContractName, "object")], Some(dataContractName), [], Some(RepositoryCode(Save))),
        Method("getList", [Argument("SearchCriteriaInterface", "criteria")], None,
          [ParameterTag("SearchCriteriaInterface", "criteria")], Some(searchResultsName), [],
          Some(RepositoryCode(GetList(dataContractName, DataInterfaceFqn(moduleName, modelName))))),
        Method("delete", [Argument(dataContractName, "object")], None,
          [ParameterTag(dataContractName, "object")], Some("bool"), [], Some(RepositoryCode(Delete))),
        Method("deleteById", [Argument("int", "id")], None, [ParameterTag("int", "id")],
          Some("bool"), [], Some(RepositoryCode(DeleteById)))
      ])
  }

  /** The names `generateRepositoryModel` passes on to be imported. */
  function RepositoryImports(moduleName: string, modelName: string): seq<string> {
    [ResourceModelFqn(moduleName, modelName),
     CollectionFactoryFqn(moduleName, modelName),
     SearchResultsFactoryFqn(moduleName, modelName),
     DataFactoryFqn(moduleName, modelName),
     DataInterfaceFqn(moduleName, modelName),
     SearchResultsInterfaceFqn(moduleName, modelName),
     DataObjectHelper, DataObjectProcessor, SortOrder, StoreManagerInterface,
     NoSuchEntityExceptionName, SearchCriteriaInterfaceName]
  }

  function ArgumentTypes(args: seq<Argument>): (r: seq<string>)
    ensures |r| == |args|
  {
    seq(|args|, i requires 0 <= i < |args| => args[i].argType)
  }

  /** `methods` has a method of `m`'s name whose arguments have `m`'s types. */
  predicate Provides(methods: seq<Method>, m: Method) {
    exists j :: 0 <= j < |methods| && methods[j].name == m.name
      && ArgumentTypes(methods[j].args) == ArgumentTypes(m.args)
  }

  /**
   * The repository implements the repository interface, and for each of the
   * interface's five operations it defines a method of the same name taking
   * arguments of the same types.
   */
  lemma RepositoryImplementsInterface(moduleName: string, modelName: string)
    ensures var contract := RepositoryInterface(moduleName, modelName);
      var repository := Repository(moduleName, modelName);
      && repository.implements == [contract.fqn]
      && |contract.methods| == 5
      && forall k :: 0 <= k < |contract.methods| ==> Provides(repository.methods, contract.methods[k])
  {
    var contract := RepositoryInterface(moduleName, modelName);
    var repository := Repository(moduleName, modelName);
    var implementing := [1, 3, 2, 4, 5];
    forall k | 0 <= k < 5 ensures Provides(repository.methods, contract.methods[k]) {
      var j := implementing[k];
      assert repository.methods[j].name == contract.methods[k].name;
      assert ArgumentTypes(repository.methods[j].args) == ArgumentTypes(contract.methods[k].args);
    }
  }
}
