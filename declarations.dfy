/**
 * The structure the generator hands to the pretty-printer: interfaces
 * ("contracts") and classes ("objects") with their constants, properties
 * and methods, and the file that wraps one of them with its import list.
 * Rendering a file to text is not part of this model.
 */
module Declarations {
  import opened Wrappers

  /** One entry of the field list: a name and a type tag such as `integer`. */
  datatype Field = Field(name: string, fieldType: string)

  datatype Argument = Argument(argType: string, name: string)

  /** A `@param` tag of a method's doc comment. */
  datatype ParameterTag = ParameterTag(tagType: string, name: string)

  /** A class constant; `value` is PHP source text. */
  datatype Constant = Constant(name: string, value: string)

  /** A protected property and the type of its `@var` tag. */
  datatype Property = Property(name: string, varTag: string)

  /** The methods of the generated repository whose bodies are fixed PHP text. */
  datatype RepositoryOperation =
    | Construct
    | GetById
    | Save
    /** `getList`, whose text names the data interface by its short and its full name. */
    | GetList(dataContractName: string, dataContractFqn: string)
    | Delete
    | DeleteById

  /**
   * A method body: PHP source text the generator assembles, or one of the
   * repository's fixed bodies, kept by the operation it implements (its text
   * is given separately, where the repository is built).
   */
  datatype Body = Code(text: string) | RepositoryCode(operation: RepositoryOperation)

  /**
   * A method: its arguments, the parts of its doc comment (description,
   * `@param`, `@return` and `@throws` tags), and its body (None for an
   * interface method).
   */
  datatype Method = Method(
    name: string,
    args: seq<Argument>,
    description: Option<string>,
    paramTags: seq<ParameterTag>,
    returnTag: Option<string>,
    throwTags: seq<string>,
    body: Option<Body>)

  datatype Structure =
    | Contract(fqn: string, extended: seq<string>, constants: seq<Constant>, methods: seq<Method>)
    | Object(fqn: string, parent: Option<string>, implements: seq<string>,
             properties: seq<Property>, methods: seq<Method>)

  /** A generated source file: its path, the names it imports, its one structure. */
  datatype File = File(path: string, imports: seq<string>, structure: Structure)
}
