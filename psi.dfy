/** The host's program-structure values that the builder consumes: type
    references, classes, files, parameters, and the parsed declaration node
    produced by the host's declaration-from-text facility. */
module Psi {
  import opened Wrappers

  /** A type reference; only its canonical text is observable to the builder. */
  datatype TypeRef = TypeRef(canonicalText: string)

  /** The file a class lives in. */
  datatype FileRef = FileRef(path: string)

  /** A containing class, compared by value. */
  datatype ClassRef = ClassRef(qualifiedName: string, file: Option<FileRef>)

  /** Any program element the host may hand over (a class, or something opaque). */
  datatype Element = ClassElement(cls: ClassRef) | OpaqueElement(id: nat)

  /** A formal parameter: its name and its declared type. */
  datatype Parameter = Parameter(name: string, typ: TypeRef)

  /** An entry of the throws list, added either as a class type or by its
      fully qualified name. */
  datatype ExceptionRef = ExceptionType(typ: TypeRef) | ExceptionName(fqName: string)

  /** A type parameter of the method. */
  datatype TypeParameter = TypeParameter(name: string)

  /** A pre-built statement block supplied by the caller. */
  datatype CodeBlock = CodeBlock(text: string)

  /** The host's parsed declaration (its syntax node). It is immutable: once
      built, its text never changes. */
  class DeclNode {
    const text: string
    const context: Option<ClassRef>

    constructor (text: string, context: Option<ClassRef>)
      ensures this.text == text && this.context == context
    {
      this.text := text;
      this.context := context;
    }
  }

  /** The host's declaration-from-text facility, scoped to a containing class.
      Java parsing is not modelled: the node only remembers the text it was
      built from and its scope, and every call yields a new node. */
  method CreateMethodFromText(text: string, context: Option<ClassRef>) returns (node: DeclNode)
    ensures fresh(node)
    ensures node.text == text && node.context == context
  {
    node := new DeclNode(text, context);
  }
}
