/**
 * The generator object: where generated code goes, the schema validator of
 * `di.xml`, and the files on disk, each kept as the structure handed to the
 * pretty-printer (sources) or as the XML tree (configs). A run checks the
 * module directory, prepares the fields, writes the seven source files in a
 * fixed order and then merges the model's bindings into the module's
 * `etc/di.xml`.
 */
module Generator {
  import opened Wrappers
  import opened Text
  import opened Declarations
  import opened Naming
  import opened Fields
  import opened Builders
  import opened Imports
  import opened DiConfig

  // ----- the files of a run -----

  /** The source file of the class or interface at `rel` under the module directory. */
  function SourcePath(modulePath: string, rel: string): string {
    modulePath + "/" + rel + ".php"
  }

  /** Where the collection is written: next to the resource model, not inside a `<Model>` directory. */
  function CollectionFileRel(modelName: string): string { "Model/ResourceModel/" + modelName + "Collection" }

  function DataInterfaceFile(modulePath: string, moduleName: string, modelName: string, fields: seq<Field>): File {
    var contract := DataInterface(moduleName, modelName, fields);
    File(SourcePath(modulePath, DataInterfaceRel(modelName)), ImportList([], contract), contract)
  }

  function SearchResultsInterfaceFile(modulePath: string, moduleName: string, modelName: string): File {
    var contract := SearchResultsInterface(moduleName, modelName);
    File(SourcePath(modulePath, SearchResultsInterfaceRel(modelName)), ImportList([], contract), contract)
  }

  function ModelFile(modulePath: string, moduleName: string, modelName: string, fields: seq<Field>): File {
    var model := ModelClass(moduleName, modelName, fields);
    File(SourcePath(modulePath, ModelRel(modelName)), ImportList([], model), model)
  }

  function ResourceModelFile(modulePath: string, moduleName: string, modelName: string): File {
    var model := ResourceModel(moduleName, modelName);
    File(SourcePath(modulePath, ResourceModelRel(modelName)), ImportList([], model), model)
  }

  function CollectionFile(modulePath: string, moduleName: string, modelName: string): File {
    var collection := Collection(moduleName, modelName);
    File(SourcePath(modulePath, CollectionFileRel(modelName)), ImportList([], collection), collection)
  }

  function RepositoryInterfaceFile(modulePath: string, moduleName: string, modelName: string): File {
    var contract := RepositoryInterface(moduleName, modelName);
    File(SourcePath(modulePath, RepositoryInterfaceRel(modelName)),
      ImportList(RepositoryInterfaceImports(moduleName, modelName), contract), contract)
  }

  function RepositoryFile(modulePath: string, moduleName: string, modelName: string): File {
    var repository := Repository(moduleName, modelName);
    File(SourcePath(modulePath, RepositoryRel(modelName)),
      ImportList(RepositoryImports(moduleName, modelName), repository), repository)
  }

  /** The seven source files of a run, in the order `generate` writes them. */
  function GeneratedFiles(modulePath: string, moduleName: string, modelName: string, fields: seq<Field>): (files: seq<File>)
    ensures |files| == 7
  {
    [DataInterfaceFile(modulePath, moduleName, modelName, fields),
     SearchResultsInterfaceFile(modulePath, moduleName, modelName),
     ModelFile(modulePath, moduleName, modelName, fields),
     ResourceModelFile(modulePath, moduleName, modelName),
     CollectionFile(modulePath, moduleName, modelName),
     RepositoryInterfaceFile(modulePath, moduleName, modelName),
     RepositoryFile(modulePath, moduleName, modelName)]
  }

  /** The files on disk after writing `files` one after another, each replacing what was at its path. */
  function WriteFiles(sources: map<string, File>, files: seq<File>): map<string, File> {
    if files == [] then sources
    else
      var last := files[|files| - 1];
      WriteFiles(sources, files[..|files| - 1])[last.path := last]
  }

  predicate DistinctPaths(files: seq<File>) {
    forall j, k :: 0 <= j < k < |files| ==> files[j].path != files[k].path
  }

  /**
   * Files written to distinct paths all end up on disk as written, and
   * every other path keeps what it had.
   */
  lemma {:induction false} WriteFilesResult(sources: map<string, File>, files: seq<File>)
    requires DistinctPaths(files)
    ensures var written := WriteFiles(sources, files);
      && (forall k :: 0 <= k < |files| ==> files[k].path in written && written[files[k].path] == files[k])
      && (forall p :: (forall k :: 0 <= k < |files| ==> files[k].path != p) ==>
            (p in written <==> p in sources) && (p in sources ==> written[p] == sources[p]))
  {
    if files != [] {
      var front := files[..|files| - 1];
      assert DistinctPaths(front) by {
        forall j, k | 0 <= j < k < |front| ensures front[j].path != front[k].path {
          assert front[j] == files[j] && front[k] == files[k];
        }
      }
      WriteFilesResult(sources, front);
      var written := WriteFiles(sources, files);
      forall k | 0 <= k < |files| ensures files[k].path in written && written[files[k].path] == files[k] {
        if k < |files| - 1 {
          assert front[k] == files[k];
        }
      }
      forall p | (forall k :: 0 <= k < |files| ==> files[k].path != p)
        ensures (p in written <==> p in sources) && (p in sources ==> written[p] == sources[p])
      {
        assert files[|files| - 1].path != p;
        forall k | 0 <= k < |front| ensures front[k].path != p {
          assert front[k] == files[k];
        }
      }
    }
  }

  /** Writing seven files is seven updates, in order. */
  lemma WriteSeven(sources: map<string, File>, a: File, b: File, c: File, d: File, e: File, f: File, g: File)
    ensures WriteFiles(sources, [a, b, c, d, e, f, g])
         == sources[a.path := a][b.path := b][c.path := c][d.path := d][e.path := e][f.path := f][g.path := g]
  {
    assert [a][..0] == [];
    assert WriteFiles(sources, [a]) == sources[a.path := a];
    assert [a, b][..1] == [a];
    assert WriteFiles(sources, [a, b]) == WriteFiles(sources, [a])[b.path := b];
    assert [a, b, c][..2] == [a, b];
    assert WriteFiles(sources, [a, b, c]) == WriteFiles(sources, [a, b])[c.path := c];
    assert [a, b, c, d][..3] == [a, b, c];
    assert WriteFiles(sources, [a, b, c, d]) == WriteFiles(sources, [a, b, c])[d.path := d];
    assert [a, b, c, d, e][..4] == [a, b, c, d];
    assert WriteFiles(sources, [a, b, c, d, e]) == WriteFiles(sources, [a, b, c, d])[e.path := e];
    assert [a, b, c, d, e, f][..5] == [a, b, c, d, e];
    assert WriteFiles(sources, [a, b, c, d, e, f]) == WriteFiles(sources, [a, b, c, d, e])[f.path := f];
    assert [a, b, c, d, e, f, g][..6] == [a, b, c, d, e, f];
  }

  /** Seven files whose paths have seven different lengths go to seven different paths. */
  lemma DistinctSeven(a: File, b: File, c: File, d: File, e: File, f: File, g: File, base: int)
    requires |a.path| == base + 23 && |b.path| == base + 36 && |c.path| == base + 11
    requires |d.path| == base + 25 && |e.path| == base + 35 && |f.path| == base + 28
    requires |g.path| == base + 21
    ensures DistinctPaths([a, b, c, d, e, f, g])
  {
  }

  /** The file is the class or interface at `rel`, as `<module dir>/<rel>.php` declaring `<module>\<rel>`. */
  predicate Follows(file: File, modulePath: string, moduleName: string, rel: string) {
    file.path == SourcePath(modulePath, rel) && file.structure.fqn == ClassFqn(moduleName, rel)
  }

  // The facts below are stated one file at a time, so that no proof has to
  // unfold all seven declarations together.

  lemma DataInterfaceFileNames(modulePath: string, moduleName: string, modelName: string, fields: seq<Field>)
    ensures var file := DataInterfaceFile(modulePath, moduleName, modelName, fields);
      Follows(file, modulePath, moduleName, DataInterfaceRel(modelName))
      && |file.path| == |modulePath| + |modelName| + 23
  {
  }

  lemma SearchResultsInterfaceFileNames(modulePath: string, moduleName: string, modelName: string)
    ensures var file := SearchResultsInterfaceFile(modulePath, moduleName, modelName);
      Follows(file, modulePath, moduleName, SearchResultsInterfaceRel(modelName))
      && |file.path| == |modulePath| + |modelName| + 36
  {
  }

  lemma ModelFileNames(modulePath: string, moduleName: string, modelName: string, fields: seq<Field>)
    ensures var file := ModelFile(modulePath, moduleName, modelName, fields);
      Follows(file, modulePath, moduleName, ModelRel(modelName))
      && |file.path| == |modulePath| + |modelName| + 11
  {
  }

  lemma ResourceModelFileNames(modulePath: string, moduleName: string, modelName: string)
    ensures var file := ResourceModelFile(modulePath, moduleName, modelName);
      Follows(file, modulePath, moduleName, ResourceModelRel(modelName))
      && |file.path| == |modulePath| + |modelName| + 25
  {
  }

  /**
   * The collection's class is `<module>\Model\ResourceModel\<model>\Collection`
   * but its file is `Model/ResourceModel/<model>Collection.php`: the file path
   * read as a class name misses the separator before `Collection`.
   */
  lemma CollectionPathQuirk(modulePath: string, moduleName: string, modelName: string)
    ensures var file := CollectionFile(modulePath, moduleName, modelName);
      && file.path == SourcePath(modulePath, CollectionFileRel(modelName))
      && file.structure.fqn == ClassFqn(moduleName, CollectionRel(modelName))
      && CollectionFileRel(modelName) != CollectionRel(modelName)
      && |file.path| == |modulePath| + |modelName| + 35
  {
    assert |CollectionRel(modelName)| == |CollectionFileRel(modelName)| + 1;
  }

  lemma RepositoryInterfaceFileNames(modulePath: string, moduleName: string, modelName: string)
    ensures var file := RepositoryInterfaceFile(modulePath, moduleName, modelName);
      Follows(file, modulePath, moduleName, RepositoryInterfaceRel(modelName))
      && |file.path| == |modulePath| + |modelName| + 28
  {
  }

  lemma RepositoryFileNames(modulePath: string, moduleName: string, modelName: string)
    ensures var file := RepositoryFile(modulePath, moduleName, modelName);
      Follows(file, modulePath, moduleName, RepositoryRel(modelName))
      && |file.path| == |modulePath| + |modelName| + 21
  {
  }

  lemma GeneratedFilesAre(modulePath: string, moduleName: string, modelName: string, fields: seq<Field>)
    ensures GeneratedFiles(modulePath, moduleName, modelName, fields)
         == [DataInterfaceFile(modulePath, moduleName, modelName, fields),
             SearchResultsInterfaceFile(modulePath, moduleName, modelName),
             ModelFile(modulePath, moduleName, modelName, fields),
             ResourceModelFile(modulePath, moduleName, modelName),
             CollectionFile(modulePath, moduleName, modelName),
             RepositoryInterfaceFile(modulePath, moduleName, modelName),
             RepositoryFile(modulePath, moduleName, modelName)]
  {
  }

  /**
   * Every generated file but the collection is the class or interface path
   * under the module, as a file.
   */
  lemma FilesFollowClassNames(modulePath: string, moduleName: string, modelName: string, fields: seq<Field>)
    ensures Follows(DataInterfaceFile(modulePath, moduleName, modelName, fields), modulePath, moduleName, DataInterfaceRel(modelName))
    ensures Follows(SearchResultsInterfaceFile(modulePath, moduleName, modelName), modulePath, moduleName, SearchResultsInterfaceRel(modelName))
    ensures Follows(ModelFile(modulePath, moduleName, modelName, fields), modulePath, moduleName, ModelRel(modelName))
    ensures Follows(ResourceModelFile(modulePath, moduleName, modelName), modulePath, moduleName, ResourceModelRel(modelName))
    ensures Follows(RepositoryInterfaceFile(modulePath, moduleName, modelName), modulePath, moduleName, RepositoryInterfaceRel(modelName))
    ensures Follows(RepositoryFile(modulePath, moduleName, modelName), modulePath, moduleName, RepositoryRel(modelName))
  {
    DataInterfaceFileNames(modulePath, moduleName, modelName, fields);
    SearchResultsInterfaceFileNames(modulePath, moduleName, modelName);
    ModelFileNames(modulePath, moduleName, modelName, fields);
    ResourceModelFileNames(modulePath, moduleName, modelName);
    RepositoryInterfaceFileNames(modulePath, moduleName, modelName);
    RepositoryFileNames(modulePath, moduleName, modelName);
  }

  /** The seven files of a run go to seven different paths, so none overwrites another. */
  lemma GeneratedPathsDistinct(modulePath: string, moduleName: string, modelName: string, fields: seq<Field>)
    ensures DistinctPaths(GeneratedFiles(modulePath, moduleName, modelName, fields))
  {
    GeneratedFilesAre(modulePath, moduleName, modelName, fields);
    DataInterfaceFileNames(modulePath, moduleName, modelName, fields);
    SearchResultsInterfaceFileNames(modulePath, moduleName, modelName);
    ModelFileNames(modulePath, moduleName, modelName, fields);
    ResourceModelFileNames(modulePath, moduleName, modelName);
    CollectionPathQuirk(modulePath, moduleName, modelName);
    RepositoryInterfaceFileNames(modulePath, moduleName, modelName);
    RepositoryFileNames(modulePath, moduleName, modelName);
    DistinctSeven(DataInterfaceFile(modulePath, moduleName, modelName, fields),
      SearchResultsInterfaceFile(modulePath, moduleName, modelName),
      ModelFile(modulePath, moduleName, modelName, fields),
      ResourceModelFile(modulePath, moduleName, modelName),
      CollectionFile(modulePath, moduleName, modelName),
      RepositoryInterfaceFile(modulePath, moduleName, modelName),
      RepositoryFile(modulePath, moduleName, modelName),
      |modulePath| + |modelName|);
  }

  /** The path of a module's `di.xml`. */
  function ConfigPath(codePath: string, moduleName: string): string {
    codePath + "/" + moduleName + "/etc/di.xml"
  }

  /** The document `dumpDiConfig` validates: the existing one, or a new one, with the model's bindings merged in. */
  function MergedConfig(existing: Option<Document>, moduleName: string, modelName: string): Document {
    var document := match existing case Some(d) => d case None => NewDocument();
    Document(document.attributes, MergePreferences(document.children, ModulePreferences(moduleName, modelName)))
  }

  function Existing(configs: map<string, Document>, path: string): Option<Document> {
    if path in configs then Some(configs[path]) else None
  }

  /**
   * Merging only appends: the existing children stay first and unchanged,
   * each of the three interfaces ends up bound, and merging into the result
   * again gives the same document.
   */
  lemma MergedConfigProperties(existing: Option<Document>, moduleName: string, modelName: string)
    ensures var merged := MergedConfig(existing, moduleName, modelName);
      var before := (match existing case Some(d) => d case None => NewDocument()).children;
      var edges := ModulePreferences(moduleName, modelName);
      && |before| <= |merged.children| <= |before| + 3
      && merged.children[..|before|] == before
      && (forall k :: 0 <= k < 3 ==> HasPreferenceFor(merged.children, edges[k].forType))
      && MergedConfig(Some(merged), moduleName, modelName) == merged
  {
    var before := (match existing case Some(d) => d case None => NewDocument()).children;
    var edges := ModulePreferences(moduleName, modelName);
    MergeExtends(before, edges);
    MergeCovers(before, edges);
    MergeIdempotent(before, edges);
  }

  class ModelGenerator {
    /** Where modules live: `BP . "/app/code"`. */
    const codePath: string
    /** The schema check of `di.xml`: the list of errors found, empty when the document is valid. */
    const validate: Document -> seq<string>
    /** The directories that exist. */
    const directories: set<string>
    /** The generated source files on disk, by path. */
    var sources: map<string, File>
    /** The `di.xml` documents on disk, by path. */
    var configs: map<string, Document>

    constructor (codePath: string, validate: Document -> seq<string>, directories: set<string>,
                 sources: map<string, File>, configs: map<string, Document>)
      ensures this.codePath == codePath && this.validate == validate && this.directories == directories
      ensures this.sources == sources && this.configs == configs
    {
      this.codePath := codePath;
      this.validate := validate;
      this.directories := directories;
      this.sources := sources;
      this.configs := configs;
    }

    /** `dumpContract`: the contract under its sorted import list, written to `filePath`. */
    method DumpContract(contract: Structure, filePath: string, fqns: seq<string>)
      requires contract.Contract?
      modifies this
      ensures sources == old(sources)[filePath := File(filePath, ImportList(fqns, contract), contract)]
      ensures configs == old(configs)
    {
      var names := CollectContractImports(contract, fqns);
      ImportListDetermined(names, fqns, contract);
      sources := sources[filePath := File(filePath, names, contract)];
    }

    /** `dumpObject`: the class under its sorted import list, written to `filePath`. */
    method DumpObject(declaration: Structure, filePath: string, fqns: seq<string>)
      requires declaration.Object?
      modifies this
      ensures sources == old(sources)[filePath := File(filePath, ImportList(fqns, declaration), declaration)]
      ensures configs == old(configs)
    {
      var names := CollectObjectImports(declaration, fqns);
      assert multiset(fqns + DeclaredNames(declaration)) == multiset(fqns) + multiset(DeclaredNames(declaration));
      ImportListDetermined(names, fqns, declaration);
      sources := sources[filePath := File(filePath, names, declaration)];
    }

    method GenerateDataObjectInterface(modulePath: string, moduleName: string, modelName: string, fields: seq<Field>)
      modifies this
      ensures var file := DataInterfaceFile(modulePath, moduleName, modelName, fields);
        sources == old(sources)[file.path := file]
      ensures configs == old(configs)
    {
      var contract := BuildDataInterface(moduleName, modelName, fields);
      DumpContract(contract, SourcePath(modulePath, DataInterfaceRel(modelName)), []);
    }

    method GenerateDataSearchResultInterface(modulePath: string, moduleName: string, modelName: string)
      modifies this
      ensures var file := SearchResultsInterfaceFile(modulePath, moduleName, modelName);
        sources == old(sources)[file.path := file]
      ensures configs == old(configs)
    {
      DumpContract(SearchResultsInterface(moduleName, modelName),
        SourcePath(modulePath, SearchResultsInterfaceRel(modelName)), []);
    }

    method GenerateModelStructure(modulePath: string, moduleName: string, modelName: string, fields: seq<Field>)
      modifies this
      ensures var file := ModelFile(modulePath, moduleName, modelName, fields);
        sources == old(sources)[file.path := file]
      ensures configs == old(configs)
    {
      var model := BuildModel(moduleName, modelName, fields);
      DumpObject(model, SourcePath(modulePath, ModelRel(modelName)), []);
    }

    method GenerateResourceModelStructure(modulePath: string, moduleName: string, modelName: string)
      modifies this
      ensures var file := ResourceModelFile(modulePath, moduleName, modelName);
        sources == old(sources)[file.path := file]
      ensures configs == old(configs)
    {
      DumpObject(ResourceModel(moduleName, modelName),
        SourcePath(modulePath, ResourceModelRel(modelName)), []);
    }

    method GenerateResourceCollectionStructure(modulePath: string, moduleName: string, modelName: string)
      modifies this
      ensures var file := CollectionFile(modulePath, moduleName, modelName);
        sources == old(sources)[file.path := file]
      ensures configs == old(configs)
    {
      DumpObject(Collection(moduleName, modelName),
        SourcePath(modulePath, CollectionFileRel(modelName)), []);
    }

    method GenerateRepositoryInterface(modulePath: string, moduleName: string, modelName: string)
      modifies this
      ensures var file := RepositoryInterfaceFile(modulePath, moduleName, modelName);
        sources == old(sources)[file.path := file]
      ensures configs == old(configs)
    {
      DumpContract(RepositoryInterface(moduleName, modelName),
        SourcePath(modulePath, RepositoryInterfaceRel(modelName)),
        RepositoryInterfaceImports(moduleName, modelName));
    }

    method GenerateRepositoryModel(modulePath: string, moduleName: string, modelName: string)
      modifies this
      ensures var file := RepositoryFile(modulePath, moduleName, modelName);
        sources == old(sources)[file.path := file]
      ensures configs == old(configs)
    {
      DumpObject(Repository(moduleName, modelName),
        SourcePath(modulePath, RepositoryRel(modelName)),
        RepositoryImports(moduleName, modelName));
    }

    /**
     * `dumpDiConfig`: merges the three bindings into the module's `di.xml`
     * (or a new document) and writes it only when the validator reports no
     * error; otherwise fails with the errors one per line and writes nothing.
     */
    method DumpDiConfig(moduleName: string, modelName: string) returns (outcome: Outcome<string>)
      modifies this
      ensures sources == old(sources)
      ensures var path := ConfigPath(codePath, moduleName);
        var document := MergedConfig(Existing(old(configs), path), moduleName, modelName);
        && (validate(document) == [] ==> outcome == Pass && configs == old(configs)[path := document])
        && (validate(document) != [] ==>
              outcome == Fail(Join(validate(document), "\n")) && configs == old(configs))
    {
      var path := ConfigPath(codePath, moduleName);
      var loaded := if path in configs then configs[path] else NewDocument();
      var config := new ConfigDocument(loaded);
      var edges := ModulePreferences(moduleName, modelName);
      config.MergePreference(edges[0]);
      config.MergePreference(edges[1]);
      config.MergePreference(edges[2]);
      MergeThree(loaded.children, edges);
      var errors := validate(config.Current());
      if errors == [] {
        configs := configs[path := config.Current()];
        outcome := Pass;
      } else {
        outcome := Fail(Join(errors, "\n"));
      }
    }

    /**
     * `generate`: fails before doing anything when the module directory is
     * missing; otherwise writes the seven source files for the prepared
     * fields, then merges the bindings into `di.xml`, whose outcome is the
     * run's outcome.
     */
    method Generate(moduleName: string, modelName: string, fields: seq<Field>) returns (outcome: Outcome<string>)
      modifies this
      ensures var modulePath := codePath + "/" + moduleName;
        modulePath !in directories ==>
          outcome == Fail("Directory not found: " + modulePath)
          && sources == old(sources) && configs == old(configs)
      ensures var modulePath := codePath + "/" + moduleName;
        modulePath in directories ==>
          sources == WriteFiles(old(sources), GeneratedFiles(modulePath, moduleName, modelName, PreparedFields(fields)))
      ensures var modulePath := codePath + "/" + moduleName;
        var path := ConfigPath(codePath, moduleName);
        var document := MergedConfig(Existing(old(configs), path), moduleName, modelName);
        modulePath in directories ==>
          && (validate(document) == [] ==> outcome == Pass && configs == old(configs)[path := document])
          && (validate(document) != [] ==>
                outcome == Fail(Join(validate(document), "\n")) && configs == old(configs))
    {
      var modulePath := codePath + "/" + moduleName;
      if modulePath !in directories {
        return Fail("Directory not found: " + modulePath);
      }
      var normalized := NormalizeFields(fields);
      var prepared := AddMandatoryFields(normalized);
      assert prepared == PreparedFields(fields);
      ghost var before := sources;
      GenerateDataObjectInterface(modulePath, moduleName, modelName, prepared);
      GenerateDataSearchResultInterface(modulePath, moduleName, modelName);
      GenerateModelStructure(modulePath, moduleName, modelName, prepared);
      GenerateResourceModelStructure(modulePath, moduleName, modelName);
      GenerateResourceCollectionStructure(modulePath, moduleName, modelName);
      GenerateRepositoryInterface(modulePath, moduleName, modelName);
      GenerateRepositoryModel(modulePath, moduleName, modelName);
      GeneratedFilesAre(modulePath, moduleName, modelName, prepared);
      WriteSeven(before, DataInterfaceFile(modulePath, moduleName, modelName, prepared),
        SearchResultsInterfaceFile(modulePath, moduleName, modelName),
        ModelFile(modulePath, moduleName, modelName, prepared),
        ResourceModelFile(modulePath, moduleName, modelName),
        CollectionFile(modulePath, moduleName, modelName),
        RepositoryInterfaceFile(modulePath, moduleName, modelName),
        RepositoryFile(modulePath, moduleName, modelName));
      outcome := DumpDiConfig(moduleName, modelName);
    }
  }

  /**
   * After a run in an existing module directory each of the seven files is
   * on disk at its path, and every other source path is as it was.
   */
  lemma RunWritesEveryArtifact(sources: map<string, File>, modulePath: string, moduleName: string,
                               modelName: string, fields: seq<Field>)
    ensures var files := GeneratedFiles(modulePath, moduleName, modelName, fields);
      var written := WriteFiles(sources, files);
      && (forall k :: 0 <= k < 7 ==> files[k].path in written && written[files[k].path] == files[k])
      && (forall p :: p in sources && (forall k :: 0 <= k < 7 ==> files[k].path != p) ==>
            p in written && written[p] == sources[p])
  {
    GeneratedPathsDistinct(modulePath, moduleName, modelName, fields);
    WriteFilesResult(sources, GeneratedFiles(modulePath, moduleName, modelName, fields));
  }
}
