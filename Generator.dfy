/** The generation pass: the output step that fills a string builder, and
    the pass from the host's nodes to the emitted unit. */
module Generator {
  import opened Syntax
  import opened Sequences
  import opened TextLines
  import opened Matcher
  import opened Synthesizer

  /** The emitted artifact: the name it is added under and its text. */
  datatype GeneratedUnit = GeneratedUnit(hintName: string, text: string)

  /** A growing text buffer. */
  class StringBuilder {
    var text: string

    constructor ()
      ensures text == ""
    {
      text := "";
    }

    /** Appends a line and the line terminator. */
    method AppendLine(line: string)
      modifies this
      ensures text == old(text) + line + NewLine
    {
      text := text + line + NewLine;
    }
  }

  /** The body of the inner loop: a block for a member that is an
      event-handler field, nothing for any other member. */
  method AppendFieldBlock(sourceBuilder: StringBuilder, member: Member)
    modifies sourceBuilder
    ensures sourceBuilder.text == old(sourceBuilder.text) + Body(FieldOf(member))
  {
    if member.Field? && IsEventHandlerField(member) {
      var typeArgument := GetTypeArgument(member.declaredType).value;
      var fieldName := member.firstVariable;
      var fieldSource := GenerateSourceCodeForField(fieldName, typeArgument);
      BodySingle(FieldDescriptor(fieldName, typeArgument));
      ghost var text0 := sourceBuilder.text;
      sourceBuilder.AppendLine(fieldSource);
      Regroup(text0, fieldSource, NewLine);
    } else {
      assert FieldOf(member) == [];
    }
  }

  /** The output step: header, then for every collected class and every
      member of it (class order, then member order) the member's block, then
      the closing brace. */
  method EmitJournal(classDeclarations: seq<ClassDecl>) returns (unit: GeneratedUnit)
    ensures unit == GeneratedUnit(UnitLabel, Render(Collected(classDeclarations)))
  {
    var sourceBuilder := new StringBuilder();
    sourceBuilder.AppendLine("partial class Journal");
    sourceBuilder.AppendLine("{");

    ghost var header := sourceBuilder.text;
    assert header == Unlines(HeaderLines) by { HeaderText(); }
    var i := 0;
    while i < |classDeclarations|
      invariant 0 <= i <= |classDeclarations|
      invariant sourceBuilder.text == header + Body(Collected(classDeclarations[..i]))
    {
      var members := classDeclarations[i].members;
      ghost var start := sourceBuilder.text;
      var j := 0;
      assert MembersFields(members[..j]) == [];
      while j < |members|
        invariant 0 <= j <= |members|
        invariant sourceBuilder.text == start + Body(MembersFields(members[..j]))
      {
        MemberStep(members, j);
        AppendFieldBlock(sourceBuilder, members[j]);
        Regroup(start, Body(MembersFields(members[..j])), Body(FieldOf(members[j])));
        j := j + 1;
      }
      assert members[..j] == members;
      ClassStep(header, classDeclarations, i);
      i := i + 1;
    }

    assert classDeclarations[..i] == classDeclarations;
    ghost var text0 := sourceBuilder.text;
    sourceBuilder.AppendLine("}");
    Regroup(text0, "}", NewLine);
    assert "}" + NewLine == Unlines([FooterLine]) by { FooterText(); }
    unit := GeneratedUnit("Journal.cs", sourceBuilder.text);
  }

  /** What the inner loop has appended grows by one member's blocks. */
  lemma MemberStep(ms: seq<Member>, j: nat)
    requires j < |ms|
    ensures Body(MembersFields(ms[..j + 1])) == Body(MembersFields(ms[..j])) + Body(FieldOf(ms[j]))
  {
    MembersFieldsSnoc(ms, j);
    BodyAppend(MembersFields(ms[..j]), FieldOf(ms[j]));
  }

  /** The text grows by one class's blocks per outer iteration. */
  lemma ClassStep(header: string, classes: seq<ClassDecl>, i: nat)
    requires i < |classes|
    ensures header + Body(Collected(classes[..i])) + Body(MembersFields(classes[i].members))
      == header + Body(Collected(classes[..i + 1]))
  {
    CollectedSnoc(classes, i);
    BodyAppend(Collected(classes[..i]), MembersFields(classes[i].members));
    Regroup(header, Body(Collected(classes[..i])), Body(MembersFields(classes[i].members)));
  }

  /** One generation pass over the host's nodes. */
  method RunGenerationPass(forest: seq<SyntaxNode>) returns (unit: GeneratedUnit)
    ensures unit == GeneratedUnit(UnitLabel, Render(Match(forest)))
  {
    unit := EmitJournal(SelectClasses(forest));
  }
}
