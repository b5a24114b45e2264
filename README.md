# EventGenerator, modelled in Dafny

EventGenerator is a C# incremental source generator. The host compiler gives it
every class declaration named `EventHandlers`. For each field of such a class
whose declared type is `EventHandler<T>` with exactly one type argument, the
generator writes one `event` accessor block into a `partial class Journal`.
The block subscribes and unsubscribes through `EventHandlers.<name>.Updated`.
The generated unit is added under the name `Journal.cs`.

This project models that core in two parts, proves each part against pure
specification functions, and proves properties of those functions:

- **Matcher** (`Matcher.dfy`): host selection of the classes, the field
  predicate, type-argument extraction, and the first-variable rule. It is built
  from pure functions over a small closed syntax datatype (`Syntax.dfy`):
  - a type is a `GenericName` with its argument texts, or some other type;
  - a member is a field (declared type, first variable, further variables) or
    some other member;
  - a node is a class declaration or some other node.
- **Synthesizer** (`Synthesizer.dfy`, `TextLines.dfy`): the verbatim accessor
  template, the header and footer, and the whole text as a function of the
  matched descriptors.
- **JournalReader** (`JournalReader.dfy`): a reference reader that recovers the
  descriptors from a generated text. When no field name or type argument holds
  a line feed, it is the synthesizer's inverse: the round-trip lemma shows that
  the text then holds exactly one block per descriptor, in order, with the name
  and type argument substituted verbatim.
- **Generator** (`Generator.dfy`): the output lambda as imperative code.
  - A `StringBuilder` class holds a text field that `AppendLine` extends.
  - `EmitJournal` appends the header, runs the nested loops over classes and
    members, and appends the footer.
  - The loop body, the `if` that appends one field's block, is the method
    `AppendFieldBlock`.
  - `EmitJournal` is proved to produce exactly `Render(Collected(classes))`
    under the label `Journal.cs`.
  - `RunGenerationPass` composes host selection with the output step.
- **Scenarios** (`Scenarios.dfy`): concrete inputs. They cover the `Score`
  field, a wrong base name (`Action<int>`), skipped shapes, `A, B`
  declarators, and two containers in file order.

Modelling decisions:

- **Line terminator.** `Environment.NewLine` and the line breaks inside the
  verbatim template are both a single line feed.
- **Appended block.** An appended block is seven lines: the template opens with
  a line break and ends with one, and `AppendLine` adds another.
- **Declarators.** The first declared variable is a separate constructor
  argument. The C# parser always produces at least one declarator, so
  `Variables.First()` cannot fail.
- **`GetTypeArgument` on no arguments.** `Arguments.First()` on a generic name
  with no arguments would throw. This is modelled as an `InvalidOperation`
  result, and the proof shows the output step never reaches it.
- **Template spacing.** The template uses single spaces: `EventHandler<T> Name`,
  `add =>`, `remove =>` (EventGenerator.Demo/EventGenerator/EventGenerator.cs:69-72).
- **Type-argument text may be empty.** An omitted argument, as in
  `EventHandler<>`, counts as one argument and yields the empty string, so the
  model allows an empty type argument.
- **No input error.** The output step receives the host's collected array,
  which is never absent. The code has no error path for a missing input, and
  neither has the model.
- **Determinism.** Every operation is a function, or a method proved equal to
  one, so two runs on the same input give the same text.

## Model

| member | source | states |
|---|---|---|
| Matcher.SelectClasses | EventGenerator.Demo/EventGenerator/EventGenerator.cs:13-19 | SelectClasses, with the node predicate IsEventHandlersClass (line 15): the collected classes are exactly the class declarations named `EventHandlers` among the host's nodes, none added |
| Matcher.FieldMatch | EventGenerator.Demo/EventGenerator/EventGenerator.cs:31-35 | FieldOf (lines 31-35) with IsEventHandlerField (lines 48-55): a member yields at most one descriptor. It yields one iff it is a field of generic type `EventHandler` with exactly one argument, and that descriptor is (first variable, that argument). Non-fields and further variables contribute nothing |
| Matcher.TypeArgumentCases | EventGenerator.Demo/EventGenerator/EventGenerator.cs:57-65 | GetTypeArgument: first argument of a generic name, empty string for any other type, failure only on a generic name with no arguments; on a matched field, the field's single argument |
| Matcher.SelectClassesAppend | EventGenerator.Demo/EventGenerator/EventGenerator.cs:13-19 | selection keeps host order: selecting from `a + b` is selecting from `a`, then from `b` |
| Matcher.MembersFieldsAppend | EventGenerator.Demo/EventGenerator/EventGenerator.cs:29-39 | member-level descriptors keep declaration order across a concatenation |
| Matcher.CollectedAppend | EventGenerator.Demo/EventGenerator/EventGenerator.cs:27-40 | class-level descriptors keep class order across a concatenation |
| Matcher.MembersFieldsSnoc | EventGenerator.Demo/EventGenerator/EventGenerator.cs:29-39 | one more member adds exactly that member's contribution at the end |
| Matcher.CollectedSnoc | EventGenerator.Demo/EventGenerator/EventGenerator.cs:27-40 | one more class adds exactly that class's descriptors at the end |
| Matcher.MatchAppend | EventGenerator.Demo/EventGenerator/EventGenerator.cs:13-40 | Match (selection, then the nested loops' descriptors): matching inputs from several files is matching each and concatenating, in file order |
| Matcher.OtherNodeContributesNothing | EventGenerator.Demo/EventGenerator/EventGenerator.cs:15-18 | a node that is not a class named `EventHandlers` changes nothing, wherever it stands |
| Matcher.NoContainerNoFields | EventGenerator.Demo/EventGenerator/EventGenerator.cs:15-18 | without an `EventHandlers` class nothing is matched |
| Matcher.MembersFieldsAround | EventGenerator.Demo/EventGenerator/EventGenerator.cs:29-39 | a member's contribution sits between those of the members before and after it |
| Matcher.MatchAround | EventGenerator.Demo/EventGenerator/EventGenerator.cs:27-40 | a selected class's descriptors sit between those of earlier and later nodes |
| Matcher.MatchLocates | EventGenerator.Demo/EventGenerator/EventGenerator.cs:13-40 | Match: each member of each selected class contributes exactly its own descriptor (or nothing) at the position fixed by class order, then member order |
| TextLines.UnlinesAppend | EventGenerator.Demo/EventGenerator/EventGenerator.cs:24-42 | appending lines to a builder in two runs gives the concatenation of both runs |
| Synthesizer.RenderFrame | EventGenerator.Demo/EventGenerator/EventGenerator.cs:23-42 | Render: the text always starts with `partial class Journal` and `{` lines and ends with a `}` line; with no match it is exactly those three lines |
| Synthesizer.BodyAppend | EventGenerator.Demo/EventGenerator/EventGenerator.cs:27-40 | the blocks of `a + b` are the blocks of `a` followed by those of `b` |
| Synthesizer.BlockShape | EventGenerator.Demo/EventGenerator/EventGenerator.cs:67-74 | GenerateSourceCodeForField: its text plus the builder's terminator, an appended block, is seven lines: empty, declaration ending in the name, `{`, the `add` line with the name, the `remove` line with the name, `}`, empty; splitting recovers them |
| Synthesizer.RenderLines | EventGenerator.Demo/EventGenerator/EventGenerator.cs:23-42 | Render: the text is the two header lines, seven lines per descriptor in order, and the closing line |
| Synthesizer.AllBlockLinesPrintable | EventGenerator.Demo/EventGenerator/EventGenerator.cs:67-74 | there are seven lines per descriptor, and none of them holds a line feed when the substituted texts hold none |
| JournalReader.StripAffixes | EventGenerator.Demo/EventGenerator/EventGenerator.cs:69-72 | a recovered middle is exactly what stands between the fixed template prefix and suffix of a line |
| JournalReader.ParseBlockOf | EventGenerator.Demo/EventGenerator/EventGenerator.cs:67-74 | the lines of a rendered block give back its field name and type argument |
| JournalReader.ParseBlocksOf | EventGenerator.Demo/EventGenerator/EventGenerator.cs:27-40 | the lines of all rendered blocks give back all descriptors in order |
| JournalReader.RenderRoundTrip | EventGenerator.Demo/EventGenerator/EventGenerator.cs:23-42 | reading the generated text gives back exactly the descriptors (count, order, contents) when names and arguments hold no line feed |
| JournalReader.RenderInjective | EventGenerator.Demo/EventGenerator/EventGenerator.cs:23-42 | different descriptor sequences give different texts, when no name or type argument holds a line feed |
| Generator.StringBuilder.constructor | EventGenerator.Demo/EventGenerator/EventGenerator.cs:23 | a new builder is empty |
| Generator.StringBuilder.AppendLine | EventGenerator.Demo/EventGenerator/EventGenerator.cs:24 | the text grows by the line and one terminator, nothing else |
| Generator.AppendFieldBlock | EventGenerator.Demo/EventGenerator/EventGenerator.cs:31-38 | the builder grows by the member's block if it is an event-handler field, by nothing otherwise |
| Generator.EmitJournal | EventGenerator.Demo/EventGenerator/EventGenerator.cs:21-45 | the nested loops build exactly the rendered text of all collected classes' descriptors, labelled `Journal.cs` |
| Generator.MemberStep | EventGenerator.Demo/EventGenerator/EventGenerator.cs:29-39 | the inner loop's pending text grows by one member's blocks per iteration |
| Generator.ClassStep | EventGenerator.Demo/EventGenerator/EventGenerator.cs:27-40 | the outer loop's text grows by one class's blocks per iteration |
| Generator.RunGenerationPass | EventGenerator.Demo/EventGenerator/EventGenerator.cs:11-45 | one pass emits `Journal.cs` holding the rendered text of the matched descriptors |
| Scenarios.ScoreField | EventGenerator.Demo/EventGenerator/EventGenerator.cs:31-35 | `EventHandler<int> Score;` in an `EventHandlers` class yields the single descriptor (Score, int) |
| Scenarios.ScoreBlock | EventGenerator.Demo/EventGenerator/EventGenerator.cs:67-74 | the block for (Score, int) is the seven concrete lines |
| Scenarios.WrongBaseName | EventGenerator.Demo/EventGenerator/EventGenerator.cs:52-53 | `Action<int> Score;` matches nothing and the unit is the bare class |
| Scenarios.SkippedShapes | EventGenerator.Demo/EventGenerator/EventGenerator.cs:48-55 | zero or two arguments, a non-generic type and a non-field are skipped; of `A, B` only `A` is used |
| Scenarios.TwoContainers | EventGenerator.Demo/EventGenerator/EventGenerator.cs:15-40 | two `EventHandlers` classes contribute in file order; a class with another name contributes nothing |

## Left out

- Host registration with the incremental generator context is not modelled. This covers `CreateSyntaxProvider`, `.Collect()`, `RegisterSourceOutput`, cancellation tokens and caching. All of these are framework calls. The input is a ready sequence of nodes in host order.
- The host's walk of the syntax tree, including nested classes, is not modelled. The nodes are assumed to be already flattened into one sequence.
- `SourceText.From` and its UTF-8 encoding are not modelled. The unit is its label plus its text.
- JournalReader.RenderRoundTrip and JournalReader.RenderInjective cover only field names and type arguments written on one line. `TypeSyntax.ToString()` keeps interior line breaks, as in a type argument split over two lines, and then two different descriptor sequences can render to the same text. The reader does not recover such inputs.
- `TypeSyntax.ToString()` is not modelled. Type arguments and identifiers are opaque strings, taken verbatim.
- Platform line endings are not modelled. `Environment.NewLine` and the template's embedded line breaks are both a line feed.
- The body of the source's inner `foreach` is the separate method `Generator.AppendFieldBlock`, to keep each proof small. The loops, their order and the appended text are unchanged.
- Empty declarator lists are not modelled. The parser never produces one, so the exception `Variables.First()` would raise is not modelled.
- Duplicate field names are not checked, as in the source. They produce duplicate accessor blocks.
