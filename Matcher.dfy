/** Selection of the `EventHandlers` classes and of their event-handler fields. */
module Matcher {
  import opened Syntax
  import opened Sequences

  const ContainerName := "EventHandlers"
  const HandlerName := "EventHandler"

  /** What the generator keeps of one matched field. */
  datatype FieldDescriptor = FieldDescriptor(name: string, typeArgument: string)

  /** The host's node predicate: a class declaration named `EventHandlers`. */
  predicate IsEventHandlersClass(node: SyntaxNode) {
    node.ClassNode? && node.decl.identifier == ContainerName
  }

  /** The class declarations the host collects, in host order: the node
      predicate, the cast to a class declaration and the repeated name filter
      together. */
  function SelectClasses(forest: seq<SyntaxNode>): (r: seq<ClassDecl>)
    ensures |r| <= |forest|
    ensures forall c :: c in r <==> ClassNode(c) in forest && c.identifier == ContainerName
  {
    if forest == [] then []
    else if IsEventHandlersClass(forest[0]) then [forest[0].decl] + SelectClasses(forest[1..])
    else SelectClasses(forest[1..])
  }

  /** A field whose declared type is the generic name `EventHandler` with
      exactly one type argument. */
  predicate IsEventHandlerField(field: Member)
    requires field.Field?
  {
    var t := field.declaredType;
    t.GenericName? && t.identifier == HandlerName && |t.typeArguments| == 1
  }

  /** The text of the first type argument of a generic name, the empty string
      for any other type; `First` throws on a generic name without arguments. */
  function GetTypeArgument(t: TypeRef): Result<string> {
    match t
    case GenericName(_, args) => if |args| == 0 then InvalidOperation else Ok(args[0])
    case OtherType(_) => Ok("")
  }

  /** What one member of a selected class contributes: one descriptor for an
      event-handler field, named after its first declared variable only. */
  function FieldOf(m: Member): seq<FieldDescriptor> {
    if m.Field? && IsEventHandlerField(m) then
      [FieldDescriptor(m.firstVariable, GetTypeArgument(m.declaredType).value)]
    else []
  }

  /** The descriptors of a member list, in declaration order. */
  function MembersFields(ms: seq<Member>): seq<FieldDescriptor> {
    if ms == [] then [] else FieldOf(ms[0]) + MembersFields(ms[1..])
  }

  /** The descriptors of the collected classes: class order, then member order.
      The output step iterates over every class it is handed. */
  function Collected(classes: seq<ClassDecl>): seq<FieldDescriptor> {
    if classes == [] then [] else MembersFields(classes[0].members) + Collected(classes[1..])
  }

  /** The whole matcher. */
  function Match(forest: seq<SyntaxNode>): seq<FieldDescriptor> {
    Collected(SelectClasses(forest))
  }

  /** The field predicate, both ways: a member yields at most one descriptor,
      it yields one exactly when it is a field typed `EventHandler<X>` with a
      single argument, and that descriptor is the first variable's name with
      that argument's text. Non-field members and further variables yield
      nothing. */
  lemma FieldMatch(m: Member, d: FieldDescriptor)
    ensures |FieldOf(m)| <= 1
    ensures |FieldOf(m)| == 1 <==>
      m.Field? && m.declaredType.GenericName? && m.declaredType.identifier == "EventHandler"
      && |m.declaredType.typeArguments| == 1
    ensures FieldOf(m) == [d] <==>
      m.Field? && m.declaredType == GenericName("EventHandler", [d.typeArgument]) && m.firstVariable == d.name
    ensures !m.Field? ==> FieldOf(m) == []
    ensures m.Field? ==> FieldOf(m) == FieldOf(Field(m.declaredType, m.firstVariable, []))
  {
  }

  /** The extracted argument: the first one of a generic name, the empty
      string for any other type, an exception for a generic name without
      arguments; on a field that passes the predicate it is the field's only
      type argument, so extraction never fails there. */
  lemma TypeArgumentCases(t: TypeRef, name: string, more: seq<string>)
    ensures t.GenericName? && |t.typeArguments| > 0 ==> GetTypeArgument(t) == Ok(t.typeArguments[0])
    ensures t.GenericName? && |t.typeArguments| == 0 ==> GetTypeArgument(t) == InvalidOperation
    ensures t.OtherType? ==> GetTypeArgument(t) == Ok("")
    ensures IsEventHandlerField(Field(t, name, more)) ==>
      GetTypeArgument(t).Ok? && t.typeArguments == [GetTypeArgument(t).value]
  {
  }

  lemma {:induction false} SelectClassesAppend(a: seq<SyntaxNode>, b: seq<SyntaxNode>)
    ensures SelectClasses(a + b) == SelectClasses(a) + SelectClasses(b)
  {
    if a == [] {
      assert a + b == b;
    } else {
      assert (a + b)[0] == a[0];
      assert (a + b)[1..] == a[1..] + b;
      SelectClassesAppend(a[1..], b);
      if IsEventHandlersClass(a[0]) {
        Regroup([a[0].decl], SelectClasses(a[1..]), SelectClasses(b));
      }
    }
  }

  lemma {:induction false} MembersFieldsAppend(a: seq<Member>, b: seq<Member>)
    ensures MembersFields(a + b) == MembersFields(a) + MembersFields(b)
  {
    if a == [] {
      assert a + b == b;
    } else {
      assert (a + b)[0] == a[0];
      assert (a + b)[1..] == a[1..] + b;
      MembersFieldsAppend(a[1..], b);
      Regroup(FieldOf(a[0]), MembersFields(a[1..]), MembersFields(b));
    }
  }

  lemma {:induction false} CollectedAppend(a: seq<ClassDecl>, b: seq<ClassDecl>)
    ensures Collected(a + b) == Collected(a) + Collected(b)
  {
    if a == [] {
      assert a + b == b;
    } else {
      assert (a + b)[0] == a[0];
      assert (a + b)[1..] == a[1..] + b;
      CollectedAppend(a[1..], b);
      Regroup(MembersFields(a[0].members), Collected(a[1..]), Collected(b));
    }
  }

  /** The descriptors of a member prefix grow by one member's contribution. */
  lemma MembersFieldsSnoc(ms: seq<Member>, j: nat)
    requires j < |ms|
    ensures MembersFields(ms[..j + 1]) == MembersFields(ms[..j]) + FieldOf(ms[j])
  {
    assert ms[..j + 1] == ms[..j] + [ms[j]];
    MembersFieldsAppend(ms[..j], [ms[j]]);
    assert MembersFields([ms[j]]) == FieldOf(ms[j]) + MembersFields([]);
  }

  /** The descriptors of a class prefix grow by one class's fields. */
  lemma CollectedSnoc(classes: seq<ClassDecl>, i: nat)
    requires i < |classes|
    ensures Collected(classes[..i + 1]) == Collected(classes[..i]) + MembersFields(classes[i].members)
  {
    assert classes[..i + 1] == classes[..i] + [classes[i]];
    CollectedAppend(classes[..i], [classes[i]]);
    assert Collected([classes[i]]) == MembersFields(classes[i].members) + Collected([]);
  }

  /** Matching distributes over concatenation of inputs (several files). */
  lemma MatchAppend(a: seq<SyntaxNode>, b: seq<SyntaxNode>)
    ensures Match(a + b) == Match(a) + Match(b)
  {
    SelectClassesAppend(a, b);
    CollectedAppend(SelectClasses(a), SelectClasses(b));
  }

  /** A node that is not a class named `EventHandlers` contributes nothing,
      wherever it stands. */
  lemma OtherNodeContributesNothing(a: seq<SyntaxNode>, n: SyntaxNode, b: seq<SyntaxNode>)
    requires !IsEventHandlersClass(n)
    ensures Match(a + [n] + b) == Match(a + b)
  {
    MatchAppend(a + [n], b);
    MatchAppend(a, [n]);
    MatchAppend(a, b);
  }

  /** Without a class named `EventHandlers` nothing is matched. */
  lemma NoContainerNoFields(forest: seq<SyntaxNode>)
    requires forall k :: 0 <= k < |forest| ==> !IsEventHandlersClass(forest[k])
    ensures Match(forest) == []
  {
  }

  /** A member list split around its `j`-th member. */
  lemma MembersFieldsAround(ms: seq<Member>, j: nat)
    requires j < |ms|
    ensures MembersFields(ms) == MembersFields(ms[..j]) + FieldOf(ms[j]) + MembersFields(ms[j + 1..])
  {
    MembersFieldsSnoc(ms, j);
    assert ms[..j + 1] + ms[j + 1..] == ms;
    MembersFieldsAppend(ms[..j + 1], ms[j + 1..]);
  }

  /** A forest split around its `i`-th node, a selected class. */
  lemma MatchAround(forest: seq<SyntaxNode>, i: nat)
    requires i < |forest| && IsEventHandlersClass(forest[i])
    ensures Match(forest) == Match(forest[..i]) + MembersFields(forest[i].decl.members) + Match(forest[i + 1..])
  {
    var n := forest[i];
    assert SelectClasses([n]) == [n.decl] by {
      assert [n][1..] == [];
    }
    assert Match([n]) == MembersFields(n.decl.members) by {
      assert [n.decl][1..] == [];
      assert Collected([n.decl]) == MembersFields(n.decl.members) + Collected([]);
    }
    assert forest[..i + 1] == forest[..i] + [n];
    MatchAppend(forest[..i], [n]);
    assert forest[..i + 1] + forest[i + 1..] == forest;
    MatchAppend(forest[..i + 1], forest[i + 1..]);
  }

  /** Where each member's contribution lands in the output: after everything
      from earlier nodes and earlier members of its class, before everything
      from later members and later nodes. */
  lemma MatchLocates(forest: seq<SyntaxNode>, i: nat, j: nat)
    requires i < |forest| && IsEventHandlersClass(forest[i])
    requires j < |forest[i].decl.members|
    ensures var ms := forest[i].decl.members;
      Match(forest) ==
        Match(forest[..i]) + MembersFields(ms[..j]) + FieldOf(ms[j])
        + MembersFields(ms[j + 1..]) + Match(forest[i + 1..])
  {
    var ms := forest[i].decl.members;
    var before, after := Match(forest[..i]), Match(forest[i + 1..]);
    var left, mid, right := MembersFields(ms[..j]), FieldOf(ms[j]), MembersFields(ms[j + 1..]);
    MatchAround(forest, i);
    MembersFieldsAround(ms, j);
    Regroup(before, left + mid + right, after);
    Regroup(before, left + mid, right);
    Regroup(before, left, mid);
  }
}
