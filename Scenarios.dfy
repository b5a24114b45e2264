/** Concrete inputs and what the generator makes of them. */
module Scenarios {
  import opened Syntax
  import opened Matcher
  import opened Synthesizer

  function HandlerField(typeArgument: string, name: string): Member {
    Field(GenericName("EventHandler", [typeArgument]), name, [])
  }

  function Container(members: seq<Member>): SyntaxNode {
    ClassNode(ClassDecl("EventHandlers", members))
  }

  /** `EventHandler<int> Score;` yields one descriptor ... */
  lemma ScoreField()
    ensures Match([Container([HandlerField("int", "Score")])]) == [FieldDescriptor("Score", "int")]
  {
    var c := ClassDecl("EventHandlers", [HandlerField("int", "Score")]);
    assert SelectClasses([ClassNode(c)]) == [c];
    assert MembersFields(c.members) == [FieldDescriptor("Score", "int")];
  }

  /** ... whose block is these seven lines. */
  lemma ScoreBlock()
    ensures Block(FieldDescriptor("Score", "int")) == TextLines.Unlines([
      "",
      "    public event EventHandler<int> Score",
      "    {",
      "        add => EventHandlers.Score.Updated += value;",
      "        remove => EventHandlers.Score.Updated -= value;",
      "    }",
      ""])
  {
    BlockShape(FieldDescriptor("Score", "int"));
    ScoreDeclarationLine();
    ScoreAddLine();
    ScoreRemoveLine();
  }

  lemma ScoreDeclarationLine()
    ensures DeclarationLine("Score", "int") == "    public event EventHandler<int> Score"
  {
  }

  lemma ScoreAddLine()
    ensures AddLine("Score") == "        add => EventHandlers.Score.Updated += value;"
  {
  }

  lemma ScoreRemoveLine()
    ensures RemoveLine("Score") == "        remove => EventHandlers.Score.Updated -= value;"
  {
  }

  /** `Action<int> Score;` has the wrong base name: nothing is matched and
      the unit is the bare class. */
  lemma WrongBaseName()
    ensures Match([Container([Field(GenericName("Action", ["int"]), "Score", [])])]) == []
    ensures Render([]) == "partial class Journal\n{\n}\n"
  {
    var c := ClassDecl("EventHandlers", [Field(GenericName("Action", ["int"]), "Score", [])]);
    assert SelectClasses([ClassNode(c)]) == [c];
    assert MembersFields(c.members) == [];
    RenderFrame([]);
  }

  /** Zero or two type arguments, a non-generic type and a member that is
      not a field are all skipped; only the first of `A, B` is used. */
  lemma SkippedShapes()
    ensures MembersFields([
      Field(GenericName("EventHandler", []), "Zero", []),
      Field(GenericName("EventHandler", ["int", "string"]), "Two", []),
      Field(OtherType("EventHandler"), "Plain", []),
      OtherMember,
      Field(GenericName("EventHandler", ["int"]), "A", ["B"])
    ]) == [FieldDescriptor("A", "int")]
  {
  }

  /** Two containers from different files, one field each: file order.
      A class with another name in between contributes nothing. */
  lemma TwoContainers()
    ensures Match([
      Container([HandlerField("int", "Score")]),
      ClassNode(ClassDecl("Other", [HandlerField("int", "Hidden")])),
      Container([HandlerField("string", "Name")])
    ]) == [FieldDescriptor("Score", "int"), FieldDescriptor("Name", "string")]
  {
    var a := ClassDecl("EventHandlers", [HandlerField("int", "Score")]);
    var b := ClassDecl("Other", [HandlerField("int", "Hidden")]);
    var c := ClassDecl("EventHandlers", [HandlerField("string", "Name")]);
    assert SelectClasses([ClassNode(a), ClassNode(b), ClassNode(c)]) == [a, c];
    assert MembersFields(a.members) == [FieldDescriptor("Score", "int")];
    assert MembersFields(c.members) == [FieldDescriptor("Name", "string")];
  }
}
