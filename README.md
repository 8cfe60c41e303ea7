# m2gen model generator, in Dafny

This project models the model generator of m2gen, a code generator for
Magento 2 modules. You name a module (`Vendor/Module`), a model (`Item`) and a
list of typed fields. A run first checks that the module directory exists.
It then normalises the field names to snake case and puts the three mandatory
fields `id`, `created_at` and `updated_at` in front. Next it writes seven PHP
source files, each a declaration wrapped with a sorted import list:

- the data interface;
- the search-results interface;
- the model;
- the resource model;
- the collection;
- the repository interface;
- the repository.

Last, it merges three object-manager preferences into the module's
`etc/di.xml`. It writes that document only when the schema validator reports
no error. Otherwise the run fails with the errors, one per line.

The model is organised by modules:

- **Text**: character and string helpers. These are `strtolower`, `strtoupper`, `lcfirst`, `ucfirst`, `str_replace` of one character, `basename` and `implode`.
- **NameConverter**: the camel-case / snake-case converter used for field keys and accessor names.
- **Ordering**: PHP's `sort` on names. It is byte-wise lexicographic order, computed by insertion sort.
- **Declarations**: interfaces ("contracts"), classes ("objects"), methods, constants, properties and files, as values.
- **Naming**: class names, file paths and the table name.
- **Fields**: `normalizeFields` and `addMandatoryFields`.
- **Builders**: the seven declarations. The data interface and the model are built field by field in a loop, and each loop is proved to produce the declaration's specification function.
- **Imports**: the import list of `dumpContract` and `dumpObject`.
- **DiConfig**: the `di.xml` document and its preference merge.
- **Generator**: the `ModelGenerator` class. Its fields are the code path, the validator, the existing directories, and the files on disk, kept as maps from path to content.
- **Scenario**: a worked example with module `Demo/Hello`, model `Item` and one field `title`. It covers the table name, the prepared fields, the data interface's constants and the three bindings.

## Model

| member | source | states |
|---|---|---|
| Generator.ModelGenerator.constructor | src/Generators/Type/Model.php:41-47 | the generator keeps the code root it is given, the schema validator and the state of the disk |
| NameConverter.Normalize | src/Generators/Type/Model.php:60 | a normalised name has no upper-case letter |
| NameConverter.RoundTrip | src/Generators/Type/Model.php:57-60 | for a name with no `_`, denormalize(normalize(x)) is x with a lower-case first letter |
| NameConverter.NormalizeIdempotent | src/Generators/Type/Model.php:60 | normalising an already normalised name changes nothing |
| NameConverter.DenormalizeNormalizeFixes | src/Generators/Type/Model.php:57-60 | a name with `_` only as its first or last character, whose first letter is not upper case (the shape `denormalize` returns), comes back from denormalize(normalize(x)) unchanged |
| NameConverter.Denormalize | src/Generators/Type/Model.php:107 | the result is never longer than the name, and the name's first character is always kept (a letter in lower case), so a leading `_` stays |
| NameConverter.DenormalizeShape | src/Generators/Type/Model.php:107 | in `denormalize`'s result `_` can only be the first or the last character, and the first letter is never upper case |
| NameConverter.LeadingSeparatorKept | src/Generators/Type/Model.php:107 | `_ab` stays `_ab`, `__ab` becomes `_Ab`, `__` stays `__` and `a__` becomes `a_`, as the regular expression replaces them |
| NameConverter.DenormalizeNormalizeStable | src/Generators/Type/Model.php:57-60 | denormalize(normalize(x)) is stable for every name, those with `_` included: applying it again to its result changes nothing |
| NameConverter.AccessorOfCamelName | src/Generators/Type/Model.php:106-117 | `denormalize(prefix + "_" + normalize(x))` is the prefix followed by x with an upper-case first letter, e.g. `get_` and `orderTotal` give `getOrderTotal` |
| Fields.NormalizeFieldNameCases | src/Generators/Type/Model.php:57-61 | a name whose first `_` is not at index 0 is only lower-cased; any other name (no `_`, or a leading `_`) goes through the converter |
| Fields.NormalizedNameIsCanonical | src/Generators/Type/Model.php:53-65 | a normalised field name has no upper-case letter, and normalising it again changes nothing |
| Fields.LeadingSeparatorQuirk | src/Generators/Type/Model.php:57 | because `strpos` returns 0 (falsy) for a leading `_`, `_Title` becomes `__title` and not `_title` |
| Fields.NormalizeFields | src/Generators/Type/Model.php:53-65 | each field's name is replaced by its normalised name; order, count and types are kept |
| Fields.AddMandatoryFields | src/Generators/Type/Model.php:71-89 | the result is `id`, `created_at` and `updated_at` (all `integer`), followed by the caller's fields in order |
| Ordering.InsertSpec | src/Generators/Type/Model.php:592 | inserting into an ordered list keeps it ordered and adds exactly that one name |
| Ordering.SortSpec | src/Generators/Type/Model.php:592 | `sort` returns an ordered permutation of its input |
| Ordering.SortedUnique | src/Generators/Type/Model.php:619 | two ordered lists holding the same names are equal, so the sort result is unique |
| Ordering.SortIgnoresOrder | src/Generators/Type/Model.php:619 | the sorted list depends only on the multiset of names |
| Ordering.SortIdempotent | src/Generators/Type/Model.php:592 | sorting a sorted list changes nothing |
| Imports.ImportListContents | src/Generators/Type/Model.php:585-628 | the import list is ordered; it holds the given names plus the declared ones, with their multiplicities (no de-duplication); a name appears in it iff it was given or declared |
| Imports.ImportListIgnoresOrder | src/Generators/Type/Model.php:585-628 | the order in which the caller lists its names does not change the import list |
| Imports.ImportListDetermined | src/Generators/Type/Model.php:585-628 | any ordered list holding the given and the declared names is the import list |
| Imports.CollectContractImports | src/Generators/Type/Model.php:587-592 | the collected names are ordered and are the given names plus each extended interface |
| Imports.CollectObjectImports | src/Generators/Type/Model.php:611-619 | the collected names are ordered and are the given names, plus the parent when there is one, plus each implemented interface |
| Naming.Fqn | src/Generators/Type/Model.php:100 | a class name built from a path has no `/` and the same length as the path |
| Naming.QuotedNameReadsAsFqn | src/Generators/Type/Model.php:185-187 | the doubled separators inside a single-quoted PHP literal read back as the class name |
| Naming.TableNameShape | src/Generators/Type/Model.php:237-240 | the table name is lower case with no `/`, has one character per input character plus a `_` joint, and that joint sits at the end of the module part |
| Naming.TableNameOfParts | src/Generators/Type/Model.php:237-240 | for `vendor/module` and a plain model name, the table name is `vendor_module_model` in lower case |
| Scenario.TableNameExample | src/Generators/Type/Model.php:237-240 | `Demo/Hello` and `Item` give `demo_hello_item` |
| Scenario.PreparedFieldsExample | src/Generators/Type/Model.php:710-711 | the field `title` of type `string` is prepared as `id`, `created_at`, `updated_at`, `title` |
| Scenario.DataInterfaceConstantsExample | src/Generators/Type/Model.php:98-105 | the example's data interface declares `ID = 'id'`, `CREATED_AT = 'created_at'`, `UPDATED_AT = 'updated_at'` and `TITLE = 'title'`, in that order |
| Scenario.ModulePreferencesExample | src/Generators/Type/Model.php:652-679 | the example's three bindings are `Demo\Hello\Api\Data\ItemInterface` to `Demo\Hello\Model\Item`, `Demo\Hello\Api\ItemRepositoryInterface` to `Demo\Hello\Model\ItemRepository`, and `Demo\Hello\Api\Data\ItemSearchResultsInterface` to `Magento\Framework\Api\SearchResults` |
| Scenario.FreshConfigExample | src/Generators/Type/Model.php:638-685 | a `Demo/Hello` module without a `di.xml` ends up with exactly those three bindings, in that order |
| Naming.DataInterfaceShortName | src/Generators/Type/Model.php:141 | for a plain model name, the data interface's short name is `<model>Interface`, the name the other declarations use for it |
| Naming.SearchResultsInterfaceShortName | src/Generators/Type/Model.php:140 | for a plain model name, the search-results interface's short name is `<model>SearchResultsInterface` |
| Builders.SearchResultsInterfaceItems | src/Generators/Type/Model.php:138-170 | the search-results interface extends the framework's `SearchResultsInterface` and has no constants; `getItems` takes nothing and returns an array of the data interface; `setItems` takes `array $items`, tagged as an array of the data interface, and returns the search-results interface; neither has a body |
| Builders.BuildDataInterface | src/Generators/Type/Model.php:98-129 | the loop over the fields builds exactly the data interface declaration |
| Builders.DataInterfaceConstants | src/Generators/Type/Model.php:100-105 | the data interface is named `<module>\Api\Data\<model>Interface` and extends nothing; for each field in order it has the constant `strtoupper(name) = 'name'` |
| Builders.DataInterfaceMethods | src/Generators/Type/Model.php:106-123 | for each field in order the interface has a setter then a getter; the setter takes one `value` of the field's type and returns the interface; the getter takes nothing and returns the field's type; no method has a body |
| Builders.AccessorAt | src/Generators/Type/Model.php:106-123 | the k-th accessor is the setter of field k/2 when k is even and its getter when k is odd |
| Builders.AccessorSignaturesAgree | src/Generators/Type/Model.php:202-224 | the model's accessors have the same names and arguments, in the same order, as the interface's |
| Builders.BuildModel | src/Generators/Type/Model.php:179-230 | the loop over the fields builds exactly the model class declaration |
| Builders.ModelMatchesDataInterface | src/Generators/Type/Model.php:181-224 | the model extends `AbstractModel` and implements the data interface; after `_construct` come exactly the interface's method signatures |
| Builders.ModelAccessorBodies | src/Generators/Type/Model.php:202-224 | each model setter and getter calls `setData` or `getData` with `self::<the interface constant of its field>` |
| Builders.ModelBindsResourceModel | src/Generators/Type/Model.php:185-187 | the model's `_construct` passes `_init` a literal that reads back as the resource model's class name |
| Builders.DependencyProperties | src/Generators/Type/Model.php:414-429 | one protected property per injected collaborator, with the collaborator's name and type |
| Builders.DependencyTags | src/Generators/Type/Model.php:430-451 | one `@param` tag per constructor argument, with the argument's type and name |
| Builders.RepositoryImplementsInterface | src/Generators/Type/Model.php:304-577 | the repository implements the repository interface; for each of the interface's five methods it defines a method with the same name and the same argument types |
| DiConfig.NewDocument | src/Generators/Type/Model.php:638-649 | a module with no `di.xml` starts from a `config` element with no children |
| DiConfig.ModulePreferences | src/Generators/Type/Model.php:654-685 | a model has three bindings, and all three are preferences |
| DiConfig.ModulePreferencesDistinct | src/Generators/Type/Model.php:654-685 | the three bindings are for three different interfaces |
| DiConfig.MergeExtends | src/Generators/Type/Model.php:654-685 | merging keeps every existing child in its place and adds at most one child per binding |
| DiConfig.MergeAddsOnlyMissing | src/Generators/Type/Model.php:658-662 | each added child is one of the bindings, and at the moment it was appended the document had no preference for its interface |
| DiConfig.MergeCovers | src/Generators/Type/Model.php:654-685 | after merging, every binding's interface has a preference |
| DiConfig.MergeNothingMissing | src/Generators/Type/Model.php:658 | when every interface already has a preference, merging changes nothing |
| DiConfig.MergeIdempotent | src/Generators/Type/Model.php:654-685 | merging the same bindings into an already merged document changes nothing |
| DiConfig.MergeAllMissing | src/Generators/Type/Model.php:654-685 | missing bindings for distinct interfaces are appended as they are, in order |
| DiConfig.MergeThree | src/Generators/Type/Model.php:654-685 | merging three bindings is three guarded appends, in order |
| DiConfig.FreshConfigGetsThreeBindings | src/Generators/Type/Model.php:638-685 | a new document ends up with exactly the model's three bindings, in order |
| DiConfig.ConfigDocument.constructor | src/Generators/Type/Model.php:638-649 | the loaded document has the attributes and children of the one read |
| DiConfig.ConfigDocument.FindPreference | src/Generators/Type/Model.php:658 | the lookup finds a node iff some child is a preference for that interface |
| DiConfig.ConfigDocument.AppendChild | src/Generators/Type/Model.php:662 | the node becomes the last child, and the other children are unchanged |
| DiConfig.ConfigDocument.MergePreference | src/Generators/Type/Model.php:658-662 | the children become the guarded append of the binding |
| Generator.WriteFilesResult | src/Generators/Type/Model.php:712-718 | files written to distinct paths are all on disk as written, and every other path keeps what it had |
| Generator.FilesFollowClassNames | src/Generators/Type/Model.php:98-577 | six of the files are written at `<module dir>/<rel>.php` and declare `<module>\<rel>`, with the same relative path `rel` |
| Generator.CollectionPathQuirk | src/Generators/Type/Model.php:276-295 | the collection declares `<module>\Model\ResourceModel\<model>\Collection` but is written to `Model/ResourceModel/<model>Collection.php`; the two relative paths differ |
| Generator.GeneratedPathsDistinct | src/Generators/Type/Model.php:712-718 | the seven files of a run go to seven different paths |
| Generator.MergedConfigProperties | src/Generators/Type/Model.php:630-694 | the merged document keeps the existing children first and unchanged, adds at most three, binds all three interfaces, and is a fixed point of the merge |
| Generator.RunWritesEveryArtifact | src/Generators/Type/Model.php:702-720 | after a run each of the seven files is on disk at its path, and every other source path is unchanged |
| Generator.ModelGenerator.DumpContract | src/Generators/Type/Model.php:585-601 | the contract is written to its path under its import list; nothing else changes |
| Generator.ModelGenerator.DumpObject | src/Generators/Type/Model.php:609-628 | the class is written to its path under its import list; nothing else changes |
| Generator.ModelGenerator.GenerateDataObjectInterface | src/Generators/Type/Model.php:98-129 | the data interface file is written, and only it |
| Generator.ModelGenerator.GenerateDataSearchResultInterface | src/Generators/Type/Model.php:138-170 | the search-results interface file is written, and only it |
| Generator.ModelGenerator.GenerateModelStructure | src/Generators/Type/Model.php:179-230 | the model file is written, and only it |
| Generator.ModelGenerator.GenerateResourceModelStructure | src/Generators/Type/Model.php:249-267 | the resource model file is written, and only it |
| Generator.ModelGenerator.GenerateResourceCollectionStructure | src/Generators/Type/Model.php:276-295 | the collection file is written, and only it |
| Generator.ModelGenerator.GenerateRepositoryInterface | src/Generators/Type/Model.php:304-378 | the repository interface file is written, importing the data interface, the search-results interface and `SearchCriteriaInterface`, and only it |
| Generator.ModelGenerator.GenerateRepositoryModel | src/Generators/Type/Model.php:380-577 | the repository file is written under its import list, and only it |
| Generator.ModelGenerator.DumpDiConfig | src/Generators/Type/Model.php:630-694 | the merged document is written only when the validator reports no error; otherwise the outcome is a failure carrying the errors joined by newlines, and `di.xml` is untouched; source files never change |
| Generator.ModelGenerator.Generate | src/Generators/Type/Model.php:702-720 | a missing module directory fails with `Directory not found: <path>` and changes nothing; otherwise the seven files for the prepared fields are written in order, and the outcome and `di.xml` are those of the merge |

## Left out

- Rendering: the pretty-printer that turns a declaration into PHP text is not modelled. A generated file is kept as its declaration and its import list.
- Memio: only the parts of its object model the generator sets are modelled, namely names, parents, interfaces, constants, properties, methods, doc tags and bodies.
- The repository's fixed method bodies are kept as symbolic values, `RepositoryCode`. `Builders.RepositoryCodeText` gives their PHP text but nothing is proved about it.
- Filesystem: `dumpFile` is modelled as a map update. Its mode argument, directory creation and I/O errors are left out. The set of existing directories is fixed, because it is used only for the pre-flight `is_dir` check.
- `BP`: the code root `BP/app/code` is a constructor parameter (`codePath`).
- XML: the `di.xml` document is modelled as the attributes and top-level children of `config`. Parsing, serialisation, namespaces and nested elements are left out. The XPath query is modelled as a search over the top-level children.
- XSD validation is a function parameter of the generator, returning the list of errors. The schema file itself is not part of this model.
- Exceptions are modelled as the `Fail` outcome, carrying the message.
- `PHP_EOL`, which joins the validator's errors in the exception message, is taken as `"\n"`.
- The name converter: Symfony's `CamelCaseToSnakeCaseNameConverter` is not part of this model. Both directions are reconstructed, and every converter property holds only under that reconstruction:
  - `normalize` first lower-cases the first letter (`lcfirst`), then writes every upper-case letter A-Z as `_` followed by its lower-case form. So `Title` gives `title`, not `_title`, and `orderTotal` gives `order_total`.
  - `denormalize` replaces every match of `(^|_)+(.)` by the matched character in upper case, then lower-cases the first letter. At the first position `^` matches the empty string and ends the `(^|_)+` loop, so the first match is the first character alone, a leading `_` included, and that `_` is kept (`__ab` gives `_Ab`). After it, a run of `_` before a character is dropped, and a run of `_` at the very end collapses to one `_`.
  - `.` in that expression does not match a line break; the model treats a line break like any other character. Field and model names never contain one.
  - Characters other than `_`, such as `.`, are not treated as separators.
- PHP's `sort` compares numeric strings as numbers. Class names are never numeric, so only the byte-wise string order is modelled.
- De-duplication of imports: `dumpContract` and `dumpObject` (Model.php:589-594 and 613-621) append and sort without removing duplicates; the model follows the code.
- The console commands that parse the field list and call `generate` are not part of this model.
- Builders.SearchResultsInterfaceItems: its statement that the item type is the data interface is proved for model names with no `/` or `\`. With a `/` in the model name, the two names are built differently (`basename` against the full path), and the model leaves that case unstated.
- Integers are not involved: the generator only manipulates strings and lists, so there is no width to model.
