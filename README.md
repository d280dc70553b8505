# Inspection and code-generation decision logic, modelled in Dafny

This project models the decision logic of three IDE extensions. Each one is
stated on plain records standing in for the IDE's syntax-tree and type objects.

- **Simplifiable call chain** (Kotlin inspection, module `SimplifiableCallChain`).
  - The table of call-chain conversions. Each `min`/`max`/`minBy`/`maxBy` entry is doubled by a Kotlin 1.4 `…OrNull` twin.
  - The check that decides whether a matched chain may be rewritten.
  - The choice of a lambda argument's return type.
  - The selection of an associate function.
  - The visitor step that retargets the conversion.
- **Unsafe `return` statement in a visitor** (plugin-developer inspection, module `UnsafeReturnVisitor`).
  - The search for a one-parameter visit method.
  - The decision which empty visitor overrides to offer.
  - The quick-fix that appends them to the class.
- **Lombok `@Setter` on a class** (module `SetterProcessor`).
  - Validation of the annotated type and access level, with its error report.
  - The order-preserving selection of the fields that get a setter.
  - Setter generation: one setter per selected field, appended to the target list.
  - The field usage query.

`Prelude` holds `Option` (a value the host may return as null) and `StartsWith`.

The host's semantics are inputs, never re-implemented:
- Kotlin type queries are the function fields of a `TypeOracle` over opaque `KotlinType` handles.
- Java inheritance is the set of a class's supertype names.
- Lombok's helper queries are fields of the `Field` and `PsiClass` records.

Objects the source changes in place are classes with a sequence field:
- the class the quick-fix edits (`PsiClassObject.methods`);
- the problem builder (`ProblemBuilder.problems`);
- the generation target (`Target.elements`).

Loops in the source are methods with loop invariants, each proved against a specification function or predicate:
- `FindVisitMethod`
- `ApplyFix`
- `FilterSetterFields`
- `CreateFieldSetters`

## Model

| member | source | states |
|---|---|---|
| `SimplifiableCallChain.OrNullVariant` | plugins/kotlin/idea/src/org/jetbrains/kotlin/idea/inspections/collections/SimplifiableCallChainInspection.kt:170 | The twin has the same chain names, `withNotNullAssertion` and `enableSuspendFunctionCall`. Its replacement has `OrNull` appended, and its language version is Kotlin 1.4. |
| `SimplifiableCallChain.ExpandOne` | plugins/kotlin/idea/src/org/jetbrains/kotlin/idea/inspections/collections/SimplifiableCallChainInspection.kt:168-174 | A `min`, `max`, `minBy` or `maxBy` entry expands to two entries: its `…OrNull` twin first, then itself unchanged. Any other entry expands to itself alone. |
| `SimplifiableCallChain.Expand` | plugins/kotlin/idea/src/org/jetbrains/kotlin/idea/inspections/collections/SimplifiableCallChainInspection.kt:167-175 | The expanded table's length is the base length plus the number of `min`/`max` entries. |
| `SimplifiableCallChain.ExpandAt` | plugins/kotlin/idea/src/org/jetbrains/kotlin/idea/inspections/collections/SimplifiableCallChainInspection.kt:167-175 | Base order is kept: the expansion of base entry `i` starts at offset `i` plus the number of earlier doubled entries. A doubled entry's twin is at that offset and the entry itself directly after it; any other entry is at that offset. |
| `SimplifiableCallChain.ExpandOrigin` | plugins/kotlin/idea/src/org/jetbrains/kotlin/idea/inspections/collections/SimplifiableCallChainInspection.kt:167-175 | Every expanded entry is a base entry, or the `…OrNull` twin of a doubled base entry. |
| `SimplifiableCallChain.ConversionsOrder` | plugins/kotlin/idea/src/org/jetbrains/kotlin/idea/inspections/collections/SimplifiableCallChainInspection.kt:126-175 | In the inspection's table, the literal entries' expansions follow in literal order: the expansion of entry `i` starts at `i` plus the number of earlier doubled entries. A `min`/`max`/`minBy`/`maxBy` entry's `…OrNull` twin is at that offset and the entry directly after it; any other entry is at that offset. |
| `SimplifiableCallChain.ConversionsOrigin` | plugins/kotlin/idea/src/org/jetbrains/kotlin/idea/inspections/collections/SimplifiableCallChainInspection.kt:126-175 | Every entry of the inspection's table is a literal entry, or the `…OrNull` twin of a doubled literal entry. |
| `SimplifiableCallChain.NonNullTypes` | plugins/kotlin/idea/src/org/jetbrains/kotlin/idea/inspections/collections/SimplifiableCallChainInspection.kt:94-97 | `mapNotNull` keeps exactly the known types and never lengthens the list. A one-element list gives its type, or nothing when the type is unknown. |
| `SimplifiableCallChain.NonNullTypesAppend` | plugins/kotlin/idea/src/org/jetbrains/kotlin/idea/inspections/collections/SimplifiableCallChainInspection.kt:94-97 | `mapNotNull` distributes over concatenation, so the known types keep their order. |
| `SimplifiableCallChain.CandidateTypes` | plugins/kotlin/idea/src/org/jetbrains/kotlin/idea/inspections/collections/SimplifiableCallChainInspection.kt:93-98 | The candidates are exactly the last statement's type and the known returned types. When the last statement's type is known, it comes first; after it the known returned types follow in their order, as `NonNullTypes` keeps them. |
| `SimplifiableCallChain.FirstIndexWhere` | plugins/kotlin/idea/src/org/jetbrains/kotlin/idea/inspections/collections/SimplifiableCallChainInspection.kt:99 | The result is the first index whose element satisfies the predicate. It is None iff no element does. |
| `SimplifiableCallChain.ChooseReturnType` | plugins/kotlin/idea/src/org/jetbrains/kotlin/idea/inspections/collections/SimplifiableCallChainInspection.kt:98-99 | With a nullable candidate, the result is the first nullable candidate. Otherwise it is the first candidate. It is None iff there are no candidates. |
| `SimplifiableCallChain.LastFunctionalArgumentReturnType` | plugins/kotlin/idea/src/org/jetbrains/kotlin/idea/inspections/collections/SimplifiableCallChainInspection.kt:87-103 | For a lambda, the result is null iff it has no candidate types. With a nullable candidate it is the first nullable one; otherwise it is the first candidate. For a named function it is the declared type. For anything else, or no argument, it is null. |
| `SimplifiableCallChain.IsApplicable` | plugins/kotlin/idea/src/org/jetbrains/kotlin/idea/inspections/collections/SimplifiableCallChainInspection.kt:36-57 | Accepts iff all of: when the first call has an extension receiver, it is not `mapNotNull` on a primitive array, the expression type is known, and the receiver is not a map; a `joinTo…` callee has a CharSequence-typed last functional result; `maxBy`/`minBy` has a known non-nullable lambda type; `enableSuspendFunctionCall` or no suspend call. |
| `SimplifiableCallChain.GetAssociateFunction` | plugins/kotlin/idea/src/org/jetbrains/kotlin/idea/inspections/collections/SimplifiableCallChainInspection.kt:112-120 | Non-null iff: the replacement is `associate`, the receiver is dot-qualified, the lookup succeeds, its highlight is not INFORMATION, and the function is ASSOCIATE_WITH or ASSOCIATE_BY. Then it is the looked-up function. |
| `SimplifiableCallChain.VisitQualifiedExpression` | plugins/kotlin/idea/src/org/jetbrains/kotlin/idea/inspections/collections/SimplifiableCallChainInspection.kt:35-84 | A problem is registered iff a conversion matched and passes the check. Its conversion differs from the match only in replacement, which becomes the associate function's name when one is found. The `transform` rename is flagged iff the replacement starts with `joinTo`. |
| `UnsafeReturnVisitor.MethodsByName` | plugins/devkit/devkit-core/src/inspections/internal/UnsafeReturnStatementVisitorInspection.java:66 | Keeps exactly the class's own methods with the given name. |
| `UnsafeReturnVisitor.FindVisitMethod` | plugins/devkit/devkit-core/src/inspections/internal/UnsafeReturnStatementVisitorInspection.java:65-74 | True iff some method with that name has exactly one parameter, whose type text equals the argument type. |
| `UnsafeReturnVisitor.StubDeclaration` | plugins/devkit/devkit-core/src/inspections/internal/UnsafeReturnStatementVisitorInspection.java:23-24 | The empty lambda stub declares `visitLambdaExpression(PsiLambdaExpression)`. The empty class stub declares `visitClass(PsiClass)`. Neither declares `visitReturnStatement`. |
| `UnsafeReturnVisitor.StubTextDeclares` | plugins/devkit/devkit-core/src/inspections/internal/UnsafeReturnStatementVisitorInspection.java:23-24 | Each stub text is an empty `public void` method with the name and parameter name of the stub's declaration. Its parameter type is the declared type's simple name, without `com.intellij.psi.`. |
| `UnsafeReturnVisitor.StubsToInsert` | plugins/devkit/devkit-core/src/inspections/internal/UnsafeReturnStatementVisitorInspection.java:41-52 | The stubs are exactly the missing visitors, each once, with the lambda stub first. So both missing gives `[EMPTY_LAMBDA, EMPTY_CLASS]`. The list is never empty. |
| `UnsafeReturnVisitor.VisitClass` | plugins/devkit/devkit-core/src/inspections/internal/UnsafeReturnStatementVisitorInspection.java:31-61 | A problem is reported iff three things hold: the class inherits one of the two recursive visitor bases; it declares `visitReturnStatement(PsiReturnStatement)`; a lambda or class visitor is missing. The fix carries StubsToInsert and the matching name. |
| `UnsafeReturnVisitor.FixClearsProblem` | plugins/devkit/devkit-core/src/inspections/internal/UnsafeReturnStatementVisitorInspection.java:36-52 | After appending the offered stubs, the class is still a return-visiting visitor, and neither visitor is missing any more. |
| `UnsafeReturnVisitor.PsiClassObject.Add` | plugins/devkit/devkit-core/src/inspections/internal/UnsafeReturnStatementVisitorInspection.java:110 | The new method becomes the class's last member, under the placement assumption under "## Left out". |
| `UnsafeReturnVisitor.ApplyFix` | plugins/devkit/devkit-core/src/inspections/internal/UnsafeReturnStatementVisitorInspection.java:99-113 | When the element is not a class, nothing may change. Otherwise the class's methods become the old methods followed by the stub declarations, in list order. |
| `UnsafeReturnVisitor.InspectFixReinspect` | plugins/devkit/devkit-core/src/inspections/internal/UnsafeReturnStatementVisitorInspection.java:28-113 | The first inspection reports a problem iff the original class has one, and offers StubsToInsert. The class's methods become the old ones followed by the offered stub declarations, or stay unchanged when nothing was reported. Afterwards the class has no problem and the second inspection reports nothing. |
| `SetterProcessor.ProblemBuilder.AddError` | plugins/lombok/src/main/java/de/plushnikov/intellij/plugin/processor/clazz/SetterProcessor.java:46 | The error is appended to the collected problems. |
| `SetterProcessor.ValidateAnnotationOnRightType` | plugins/lombok/src/main/java/de/plushnikov/intellij/plugin/processor/clazz/SetterProcessor.java:41-50 | True iff the class is not an annotation type, interface or enum. A rejected type appends exactly one error naming the annotation. An accepted type appends none. |
| `SetterProcessor.ValidateVisibility` | plugins/lombok/src/main/java/de/plushnikov/intellij/plugin/processor/clazz/SetterProcessor.java:52-55 | True iff the annotation's access level maps to a method modifier, that is, it is not `AccessLevel.NONE`. |
| `SetterProcessor.Validate` | plugins/lombok/src/main/java/de/plushnikov/intellij/plugin/processor/clazz/SetterProcessor.java:37-39 | True iff the type is a plain class and the method visibility is non-null. A wrong type appends exactly the wrong-type error naming the annotation after the earlier problems; otherwise the problems are unchanged. |
| `SetterProcessor.GetsSetter` | plugins/lombok/src/main/java/de/plushnikov/intellij/plugin/processor/clazz/SetterProcessor.java:84-99 | A field without a modifier list gets a setter. With a modifier list, each rule on its own rules the setter out: final, static, already setter-annotated, name starting with `$`, a setter name with a similar method. A field that passes all five rules gets a setter. |
| `SetterProcessor.SelectMembership` | plugins/lombok/src/main/java/de/plushnikov/intellij/plugin/processor/clazz/SetterProcessor.java:82-105 | A field is selected iff it is one of the fields and passes the rules below. |
| `SetterProcessor.SelectIsSubsequence` | plugins/lombok/src/main/java/de/plushnikov/intellij/plugin/processor/clazz/SetterProcessor.java:82-105 | The selected fields embed in the class's fields at strictly increasing positions: an order-preserving subsequence. |
| `SetterProcessor.NullModifierListSelected` | plugins/lombok/src/main/java/de/plushnikov/intellij/plugin/processor/clazz/SetterProcessor.java:84-86 | A field without a modifier list is always selected. |
| `SetterProcessor.FilterSetterFields` | plugins/lombok/src/main/java/de/plushnikov/intellij/plugin/processor/clazz/SetterProcessor.java:76-106 | The loop returns exactly the order-preserving filter of the fields by the rules below. |
| `SetterProcessor.CreateFieldSetters` | plugins/lombok/src/main/java/de/plushnikov/intellij/plugin/processor/clazz/SetterProcessor.java:65-74 | Exactly one setter per selected field, in the same order, each with the given modifier. |
| `SetterProcessor.Target.AddAll` | plugins/lombok/src/main/java/de/plushnikov/intellij/plugin/processor/clazz/SetterProcessor.java:61 | The new elements follow the existing contents. |
| `SetterProcessor.GeneratePsiElements` | plugins/lombok/src/main/java/de/plushnikov/intellij/plugin/processor/clazz/SetterProcessor.java:57-63 | With a null visibility the target is unchanged. Otherwise the old contents stay in front, followed by one setter per selected field, in order. |
| `SetterProcessor.Names` | plugins/lombok/src/main/java/de/plushnikov/intellij/plugin/processor/clazz/SetterProcessor.java:112 | A name is listed iff some field has it. |
| `SetterProcessor.CheckFieldUsage` | plugins/lombok/src/main/java/de/plushnikov/intellij/plugin/processor/clazz/SetterProcessor.java:108-117 | WRITE iff the containing class is known and one of its fields with the same name is selected. NONE otherwise. |

The field-selection rules: a field with a modifier list is selected iff it is not final, not static and not setter-annotated, its name does not start with `$`, and none of its setter names has a similar one-parameter method.

## Left out

- Chain matching (`findQualifiedConversion`, `conversions.group()`): it lives in `AbstractCallChainChecker`, which is not part of this model. The visitor receives the matched conversion as an input.
- Default arguments of `Conversion` belong to that missing class too. The model assumes them from how the table uses them: no not-null assertion, suspend calls enabled, no language version.
- `hasLastFunctionalParameterWithResult` also lives in `AbstractCallChainChecker`. It is an input: the result type of the callee's last functional parameter, if any.
- `containsSuspendFunctionCall` walks the call's descendants and resolves each call through the host, so it is a boolean input.
- Lambda bodies are not analysed. `getType`, the search for `return` expressions and `getTargetFunction` are host resolution, so their results come in as `LambdaBody`.
- `ReplaceAssociateFunctionInspection` is not part of this model. Its lookup is an input. The names of its functions are assumed to be `associateWith`, `associateBy` and `associateBy`.
- No lemma counts the entries of the 37-entry literal table or inspects single entries. The expansion properties are proved for every table, and ConversionsOrder and ConversionsOrigin apply them to this one.
- Problem registration, text ranges, message texts and highlight types are left out in all three extensions.
- The quick-fix's syntax-tree edits are left out: renaming the `joinTo` argument to `transform`, and rewriting the lambda for an associate function. The model records only whether they apply.
- `createMethodFromText` is host parsing. The model replaces it by the known declaration of each of the two stub texts.
- UnsafeReturnVisitor.StubDeclaration: assumes the simple names `PsiLambdaExpression` and `PsiClass` in the stub texts resolve to `com.intellij.psi.PsiLambdaExpression` and `com.intellij.psi.PsiClass` in the edited file. If they do not (no import of them), the inserted methods do not match `findVisitMethod`'s qualified type text and the class would be flagged again. FixClearsProblem and InspectFixReinspect rest on this assumption.
- `findMethodBySignature` with `annotateOnOverrideImplement` only adds an annotation to the inserted methods. Method declarations carry no annotations here.
- `super.visitClass` changes nothing the inspection reads.
- Lombok's service lookup, `collectClassMethodsIntern`, `filterToleratedElements` and `PsiMethodUtil.hasSimilarMethod` are host queries. Together they are the class's `hasSimilarMethod` predicate.
- `getAllSetterNames`, `isNotAnnotatedWith`, `LombokProcessorUtil.getMethodModifier` and `SetterFieldProcessor.createSetterMethod` are host logic. They are record fields or a record of their arguments.
- UnsafeReturnVisitor.PsiClassObject.Add: assumes the host appends the inserted method as the class's last member. The host may place it by the code-style member order instead. The order of methods that ApplyFix and InspectFixReinspect state rests on this. No property of the inspection's decision depends on the position, because visit methods are looked up by existence.
- Target.AddAll: the host's target list may hold elements of any kind. Here it holds setters only.
