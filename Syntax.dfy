/** The small closed view of Roslyn's syntax tree that the generator inspects. */
module Syntax {

  /** The outcome of a call that can throw: `InvalidOperation` stands for the
      exception `Enumerable.First` raises on an empty list. */
  datatype Result<T> = Ok(value: T) | InvalidOperation

  /** The declared type of a field: a generic name `Id<A1, ..., An>` with the
      text of each type argument, or any other type syntax (a plain name, a
      qualified name, a nullable or array type, ...) kept as its text. */
  datatype TypeRef =
    | GenericName(identifier: string, typeArguments: seq<string>)
    | OtherType(text: string)

  /** A member of a class declaration. A field declaration `T a, b, c;` has
      one declared type and at least one declared variable (the parser always
      produces one), so the first variable is a separate component. */
  datatype Member =
    | Field(declaredType: TypeRef, firstVariable: string, moreVariables: seq<string>)
    | OtherMember

  /** A class declaration: its identifier and its members in declaration order. */
  datatype ClassDecl = ClassDecl(identifier: string, members: seq<Member>)

  /** A syntax node offered by the host: a class declaration or anything else
      (structs, records, interfaces, statements, ...). */
  datatype SyntaxNode = ClassNode(decl: ClassDecl) | OtherNode
}
