/**
 * The decision logic of the Kotlin inspection that proposes to collapse a call
 * chain on a collection (`filter { … }.first()`, `sorted().firstOrNull()`,
 * `map { … }.joinToString()`, …) into one standard-library call.
 *
 * The host's knowledge about Kotlin types (nullability, primitive arrays, maps,
 * subtyping) is not re-implemented: a `TypeOracle` carries the host's answers
 * as total functions over opaque type handles.
 */
module SimplifiableCallChain {
  import opened Prelude

  // ---------------------------------------------------------------------------
  // The conversion table
  // ---------------------------------------------------------------------------

  datatype LanguageVersion = LanguageVersion(major: nat, minor: nat)

  const Kotlin14 := LanguageVersion(1, 4)

  /**
   * One rewrite rule: a call of `firstFqName` followed by a call of
   * `secondFqName` may be replaced by a call of `replacement`. The defaults are
   * the ones the table relies on when it leaves an argument out.
   */
  datatype Conversion = Conversion(
    firstFqName: string,
    secondFqName: string,
    replacement: string,
    withNotNullAssertion: bool := false,
    enableSuspendFunctionCall: bool := true,
    replaceableLanguageVersion: Option<LanguageVersion> := None)

  /** The table as written, before the `min`/`max` entries are doubled. */
  const BaseConversions: seq<Conversion> := [
    Conversion("kotlin.collections.filter", "kotlin.collections.first", "first"),
    Conversion("kotlin.collections.filter", "kotlin.collections.firstOrNull", "firstOrNull"),
    Conversion("kotlin.collections.filter", "kotlin.collections.last", "last"),
    Conversion("kotlin.collections.filter", "kotlin.collections.lastOrNull", "lastOrNull"),
    Conversion("kotlin.collections.filter", "kotlin.collections.single", "single"),
    Conversion("kotlin.collections.filter", "kotlin.collections.singleOrNull", "singleOrNull"),
    Conversion("kotlin.collections.filter", "kotlin.collections.isNotEmpty", "any"),
    Conversion("kotlin.collections.filter", "kotlin.collections.List.isEmpty", "none"),
    Conversion("kotlin.collections.sorted", "kotlin.collections.firstOrNull", "min"),
    Conversion("kotlin.collections.sorted", "kotlin.collections.lastOrNull", "max"),
    Conversion("kotlin.collections.sortedDescending", "kotlin.collections.firstOrNull", "max"),
    Conversion("kotlin.collections.sortedDescending", "kotlin.collections.lastOrNull", "min"),
    Conversion("kotlin.collections.sortedBy", "kotlin.collections.firstOrNull", "minBy"),
    Conversion("kotlin.collections.sortedBy", "kotlin.collections.lastOrNull", "maxBy"),
    Conversion("kotlin.collections.sortedByDescending", "kotlin.collections.firstOrNull", "maxBy"),
    Conversion("kotlin.collections.sortedByDescending", "kotlin.collections.lastOrNull", "minBy"),
    Conversion("kotlin.collections.sorted", "kotlin.collections.first", "min", withNotNullAssertion := true),
    Conversion("kotlin.collections.sorted", "kotlin.collections.last", "max", withNotNullAssertion := true),
    Conversion("kotlin.collections.sortedDescending", "kotlin.collections.first", "max", withNotNullAssertion := true),
    Conversion("kotlin.collections.sortedDescending", "kotlin.collections.last", "min", withNotNullAssertion := true),
    Conversion("kotlin.collections.sortedBy", "kotlin.collections.first", "minBy", withNotNullAssertion := true),
    Conversion("kotlin.collections.sortedBy", "kotlin.collections.last", "maxBy", withNotNullAssertion := true),
    Conversion("kotlin.collections.sortedByDescending", "kotlin.collections.first", "maxBy", withNotNullAssertion := true),
    Conversion("kotlin.collections.sortedByDescending", "kotlin.collections.last", "minBy", withNotNullAssertion := true),

    Conversion("kotlin.text.filter", "kotlin.text.first", "first"),
    Conversion("kotlin.text.filter", "kotlin.text.firstOrNull", "firstOrNull"),
    Conversion("kotlin.text.filter", "kotlin.text.last", "last"),
    Conversion("kotlin.text.filter", "kotlin.text.lastOrNull", "lastOrNull"),
    Conversion("kotlin.text.filter", "kotlin.text.single", "single"),
    Conversion("kotlin.text.filter", "kotlin.text.singleOrNull", "singleOrNull"),
    Conversion("kotlin.text.filter", "kotlin.text.isNotEmpty", "any"),
    Conversion("kotlin.text.filter", "kotlin.text.isEmpty", "none"),

    Conversion("kotlin.collections.map", "kotlin.collections.joinTo", "joinTo", enableSuspendFunctionCall := false),
    Conversion("kotlin.collections.map", "kotlin.collections.joinToString", "joinToString", enableSuspendFunctionCall := false),
    Conversion("kotlin.collections.map", "kotlin.collections.filterNotNull", "mapNotNull"),
    Conversion("kotlin.collections.map", "kotlin.collections.toMap", "associate"),

    Conversion("kotlin.collections.listOf", "kotlin.collections.filterNotNull", "listOfNotNull")
  ]

  /** The entries whose replacement gets a Kotlin 1.4 `…OrNull` twin. */
  predicate HasOrNullVariant(c: Conversion)
  {
    c.replacement == "min" || c.replacement == "max" || c.replacement == "minBy" || c.replacement == "maxBy"
  }

  /**
   * `copy` is the `…OrNull` twin of `original`: same call chain and flags,
   * replacement suffixed with `OrNull`, only offered from Kotlin 1.4 on.
   */
  predicate IsOrNullCopyOf(copy: Conversion, original: Conversion)
  {
    && copy.firstFqName == original.firstFqName
    && copy.secondFqName == original.secondFqName
    && copy.replacement == original.replacement + "OrNull"
    && copy.withNotNullAssertion == original.withNotNullAssertion
    && copy.enableSuspendFunctionCall == original.enableSuspendFunctionCall
    && copy.replaceableLanguageVersion == Some(Kotlin14)
  }

  function OrNullVariant(c: Conversion): (r: Conversion)
    ensures IsOrNullCopyOf(r, c)
  {
    c.(replacement := c.replacement + "OrNull", replaceableLanguageVersion := Some(Kotlin14))
  }

  /** The `when` applied to each entry by the table's `map`. */
  function ExpandOne(c: Conversion): (r: seq<Conversion>)
    ensures HasOrNullVariant(c) ==> |r| == 2 && IsOrNullCopyOf(r[0], c) && r[1] == c
    ensures !HasOrNullVariant(c) ==> r == [c]
  {
    if HasOrNullVariant(c) then [OrNullVariant(c), c] else [c]
  }

  /** Number of entries of `s` that get an `…OrNull` twin. */
  function CountWithOrNull(s: seq<Conversion>): (n: nat)
    ensures n <= |s|
  {
    if s == [] then 0 else (if HasOrNullVariant(s[0]) then 1 else 0) + CountWithOrNull(s[1..])
  }

  /** `map { … }.flatten()` over the table. */
  function Expand(base: seq<Conversion>): (r: seq<Conversion>)
    ensures |r| == |base| + CountWithOrNull(base)
  {
    if base == [] then [] else ExpandOne(base[0]) + Expand(base[1..])
  }

  /** The table the inspection matches against. */
  const Conversions: seq<Conversion> := Expand(BaseConversions)

  /** Position of the expansion of `base[i]` inside `Expand(base)`. */
  function ExpandedOffset(base: seq<Conversion>, i: nat): (offset: nat)
    requires i <= |base|
  {
    i + CountWithOrNull(base[..i])
  }

  /**
   * Base order is preserved: `base[i]` expands, at its offset, to its `…OrNull`
   * twin followed by itself, or to itself alone.
   */
  lemma {:induction false} ExpandAt(base: seq<Conversion>, i: nat)
    requires i < |base|
    ensures HasOrNullVariant(base[i]) ==>
      && ExpandedOffset(base, i) + 1 < |Expand(base)|
      && IsOrNullCopyOf(Expand(base)[ExpandedOffset(base, i)], base[i])
      && Expand(base)[ExpandedOffset(base, i) + 1] == base[i]
    ensures !HasOrNullVariant(base[i]) ==>
      && ExpandedOffset(base, i) < |Expand(base)|
      && Expand(base)[ExpandedOffset(base, i)] == base[i]
  {
    if i == 0 {
      assert base[..0] == [];
    } else {
      var tail := base[1..];
      ExpandAt(tail, i - 1);
      assert base[..i][0] == base[0];
      assert base[..i][1..] == tail[..i - 1];
      assert ExpandedOffset(base, i) == |ExpandOne(base[0])| + ExpandedOffset(tail, i - 1);
    }
  }

  /** `entry` is `original` itself or, when it has one, its `…OrNull` twin. */
  predicate ExpandsFrom(entry: Conversion, original: Conversion)
  {
    entry == original || (HasOrNullVariant(original) && IsOrNullCopyOf(entry, original))
  }

  /** Every expanded entry is a base entry or the `…OrNull` twin of one. */
  lemma {:induction false} ExpandOrigin(base: seq<Conversion>, j: nat)
    requires j < |Expand(base)|
    ensures exists i :: 0 <= i < |base| && ExpandsFrom(Expand(base)[j], base[i])
  {
    var head := ExpandOne(base[0]);
    if j < |head| {
      assert Expand(base)[j] == head[j];
      assert 0 <= 0 < |base|;
    } else {
      var tail := base[1..];
      assert Expand(base)[j] == Expand(tail)[j - |head|];
      ExpandOrigin(tail, j - |head|);
      var i :| 0 <= i < |tail| && ExpandsFrom(Expand(tail)[j - |head|], tail[i]);
      assert tail[i] == base[i + 1];
    }
  }

  /**
   * The inspection's table keeps the order of the literal entries: each one
   * sits at its offset, preceded by its `…OrNull` twin when it has one.
   */
  lemma ConversionsOrder(i: nat)
    requires i < |BaseConversions|
    ensures HasOrNullVariant(BaseConversions[i]) ==>
      && ExpandedOffset(BaseConversions, i) + 1 < |Conversions|
      && IsOrNullCopyOf(Conversions[ExpandedOffset(BaseConversions, i)], BaseConversions[i])
      && Conversions[ExpandedOffset(BaseConversions, i) + 1] == BaseConversions[i]
    ensures !HasOrNullVariant(BaseConversions[i]) ==>
      && ExpandedOffset(BaseConversions, i) < |Conversions|
      && Conversions[ExpandedOffset(BaseConversions, i)] == BaseConversions[i]
  {
    ExpandAt(BaseConversions, i);
  }

  /** The inspection's table holds literal entries and their `…OrNull` twins only. */
  lemma ConversionsOrigin(j: nat)
    requires j < |Conversions|
    ensures exists i :: 0 <= i < |BaseConversions| && ExpandsFrom(Conversions[j], BaseConversions[i])
  {
    ExpandOrigin(BaseConversions, j);
  }

  // ---------------------------------------------------------------------------
  // The host's answers about the matched call
  // ---------------------------------------------------------------------------

  /** A Kotlin type as the host's binding context hands it out. */
  datatype KotlinType = KotlinType(handle: nat)

  /** Type queries the host answers; they are inputs, not re-implemented. */
  datatype TypeOracle = TypeOracle(
    isPrimitiveArray: KotlinType -> bool,
    // the receiver's raw (declared default) type is a `Map`
    rawTypeIsMap: KotlinType -> bool,
    isCharSequenceSubtype: KotlinType -> bool,
    isNullable: KotlinType -> bool)

  /**
   * The body of a lambda argument: the type of its last statement (None when
   * it has none or the type is unknown) and, for every `return` that targets
   * this lambda, in tree order, the type of its returned expression.
   */
  datatype LambdaBody = LambdaBody(lastStatementType: Option<KotlinType>, returnedTypes: seq<Option<KotlinType>>)

  /** The expression passed as the first call's last argument. */
  datatype ArgumentExpression =
    | LambdaArgument(body: Option<LambdaBody>)
    | NamedFunctionArgument(declaredReturnType: Option<KotlinType>)
    | OtherArgument

  /** What the host knows about the first call of the matched chain. */
  datatype CallFacts = CallFacts(
    // `extensionReceiver?.type` of the first call
    firstReceiverType: Option<KotlinType>,
    // the binding context has a type for the whole qualified expression
    expressionTypeKnown: bool,
    // result type of the callee's last parameter when that parameter is functional
    lastFunctionalParameterResult: Option<KotlinType>,
    // the expression of the first argument of the last value argument, if any
    lastArgument: Option<ArgumentExpression>,
    // the first call's element contains a call of a suspend function
    containsSuspendCall: bool)

  // ---------------------------------------------------------------------------
  // Return type of the last functional argument
  // ---------------------------------------------------------------------------

  /** `mapNotNull` over the returned-expression types. */
  function NonNullTypes(s: seq<Option<KotlinType>>): (r: seq<KotlinType>)
    ensures |r| <= |s|
    ensures forall t :: t in r <==> Some(t) in s
    ensures |s| == 1 ==> r == (if s[0].Some? then [s[0].value] else [])
  {
    if s == [] then []
    else (if s[0].Some? then [s[0].value] else []) + NonNullTypes(s[1..])
  }

  /** `mapNotNull` keeps the order: it distributes over concatenation. */
  lemma {:induction false} NonNullTypesAppend(a: seq<Option<KotlinType>>, b: seq<Option<KotlinType>>)
    ensures NonNullTypes(a + b) == NonNullTypes(a) + NonNullTypes(b)
  {
    if a == [] {
      assert a + b == b;
    } else {
      assert (a + b)[0] == a[0];
      assert (a + b)[1..] == a[1..] + b;
      NonNullTypesAppend(a[1..], b);
    }
  }

  /**
   * `listOfNotNull(lastStatementType) + returnedTypes`: the last statement's
   * type, when known, comes first; then the known returned types.
   */
  function CandidateTypes(body: LambdaBody): (r: seq<KotlinType>)
    ensures |r| <= 1 + |body.returnedTypes|
    ensures forall t :: t in r <==> body.lastStatementType == Some(t) || Some(t) in body.returnedTypes
    ensures body.lastStatementType.Some? ==> r[0] == body.lastStatementType.value
    ensures r[(if body.lastStatementType.Some? then 1 else 0)..] == NonNullTypes(body.returnedTypes)
  {
    (if body.lastStatementType.Some? then [body.lastStatementType.value] else []) + NonNullTypes(body.returnedTypes)
  }

  /** `firstOrNull { p(it) }`, as an index. */
  function FirstIndexWhere(s: seq<KotlinType>, p: KotlinType -> bool): (r: Option<nat>)
    ensures r.Some? ==> r.value < |s| && p(s[r.value]) && forall j :: 0 <= j < r.value ==> !p(s[j])
    ensures r.None? ==> forall j :: 0 <= j < |s| ==> !p(s[j])
  {
    if s == [] then None
    else if p(s[0]) then Some(0)
    else match FirstIndexWhere(s[1..], p)
      case None => None
      case Some(k) => Some(k + 1)
  }

  /** With a nullable candidate, `r` is the first nullable one. */
  predicate FirstNullableChosen(oracle: TypeOracle, types: seq<KotlinType>, r: Option<KotlinType>)
  {
    (exists i :: 0 <= i < |types| && oracle.isNullable(types[i])) ==>
      exists i :: 0 <= i < |types| && r == Some(types[i]) && oracle.isNullable(types[i])
        && forall j :: 0 <= j < i ==> !oracle.isNullable(types[j])
  }

  /** Without a nullable candidate, `r` is the first candidate. */
  predicate FirstChosenWithoutNullable(oracle: TypeOracle, types: seq<KotlinType>, r: Option<KotlinType>)
  {
    (forall i :: 0 <= i < |types| ==> !oracle.isNullable(types[i])) && types != [] ==>
      r == Some(types[0])
  }

  /**
   * `types.firstOrNull { it.isNullable() } ?: types.firstOrNull()`: the first
   * nullable candidate, otherwise the first candidate, otherwise nothing.
   */
  function ChooseReturnType(oracle: TypeOracle, types: seq<KotlinType>): (r: Option<KotlinType>)
    ensures r.None? <==> types == []
    ensures FirstNullableChosen(oracle, types, r)
    ensures FirstChosenWithoutNullable(oracle, types, r)
  {
    match FirstIndexWhere(types, oracle.isNullable)
    case Some(i) => Some(types[i])
    case None => if types == [] then None else Some(types[0])
  }

  /**
   * The return type of the last functional argument: chosen among a lambda's
   * candidate types, the declared type of a named function, nothing otherwise.
   */
  function LastFunctionalArgumentReturnType(oracle: TypeOracle, argument: Option<ArgumentExpression>): (r: Option<KotlinType>)
    ensures argument.Some? && argument.value.LambdaArgument? ==>
      var types := if argument.value.body.Some? then CandidateTypes(argument.value.body.value) else [];
      && (r.None? <==> types == [])
      && FirstNullableChosen(oracle, types, r)
      && FirstChosenWithoutNullable(oracle, types, r)
    ensures argument.Some? && argument.value.NamedFunctionArgument? ==> r == argument.value.declaredReturnType
    ensures argument.None? || argument.value.OtherArgument? ==> r.None?
  {
    match argument
    case None => None
    case Some(LambdaArgument(body)) =>
      if body.Some? then ChooseReturnType(oracle, CandidateTypes(body.value)) else None
    case Some(NamedFunctionArgument(declared)) => declared
    case Some(OtherArgument) => None
  }

  // ---------------------------------------------------------------------------
  // Applicability of a matched conversion
  // ---------------------------------------------------------------------------

  /** The `check@` lambda, written with the source's early returns. */
  function IsApplicable(oracle: TypeOracle, c: Conversion, call: CallFacts): (ok: bool)
    ensures ok <==>
      && (call.firstReceiverType.Some? ==>
            && !(c.replacement == "mapNotNull" && oracle.isPrimitiveArray(call.firstReceiverType.value))
            && call.expressionTypeKnown
            && !oracle.rawTypeIsMap(call.firstReceiverType.value))
      && (StartsWith(c.replacement, "joinTo") ==>
            call.lastFunctionalParameterResult.Some?
            && oracle.isCharSequenceSubtype(call.lastFunctionalParameterResult.value))
      && (c.replacement == "maxBy" || c.replacement == "minBy" ==>
            var t := LastFunctionalArgumentReturnType(oracle, call.lastArgument);
            t.Some? && !oracle.isNullable(t.value))
      && (c.enableSuspendFunctionCall || !call.containsSuspendCall)
  {
    if call.firstReceiverType.Some? && c.replacement == "mapNotNull" && oracle.isPrimitiveArray(call.firstReceiverType.value) then false
    else if call.firstReceiverType.Some? && !call.expressionTypeKnown then false
    else if call.firstReceiverType.Some? && oracle.rawTypeIsMap(call.firstReceiverType.value) then false
    else if StartsWith(c.replacement, "joinTo") && !(
      match call.lastFunctionalParameterResult
      case Some(t) => oracle.isCharSequenceSubtype(t)
      case None => false) then false
    else if c.replacement == "maxBy" || c.replacement == "minBy" then
      match LastFunctionalArgumentReturnType(oracle, call.lastArgument)
      case None => false
      case Some(t) => !oracle.isNullable(t) && (c.enableSuspendFunctionCall || !call.containsSuspendCall)
    else c.enableSuspendFunctionCall || !call.containsSuspendCall
  }

  // ---------------------------------------------------------------------------
  // Associate functions
  // ---------------------------------------------------------------------------

  datatype AssociateFunction = AssociateWith | AssociateBy | AssociateByKeyAndValue

  function FunctionName(f: AssociateFunction): (name: string)
  {
    match f
    case AssociateWith => "associateWith"
    case AssociateBy => "associateBy"
    case AssociateByKeyAndValue => "associateBy"
  }

  datatype ProblemHighlightType = Information | GenericErrorOrWarning | WeakWarning

  /**
   * `getAssociateFunction`: `lookup` is what the associate-function inspection
   * reports for the receiver expression (None when it reports nothing).
   */
  function GetAssociateFunction(
    c: Conversion, receiverIsDotQualified: bool,
    lookup: Option<(AssociateFunction, ProblemHighlightType)>): (r: Option<AssociateFunction>)
    ensures r.Some? <==>
      && c.replacement == "associate"
      && receiverIsDotQualified
      && lookup.Some?
      && lookup.value.1 != Information
      && (lookup.value.0 == AssociateWith || lookup.value.0 == AssociateBy)
    ensures r.Some? ==> r == Some(lookup.value.0)
  {
    if c.replacement != "associate" then None
    else if !receiverIsDotQualified then None
    else match lookup
      case None => None
      case Some((f, highlight)) =>
        if highlight == Information then None
        else if f != AssociateWith && f != AssociateBy then None
        else Some(f)
  }

  // ---------------------------------------------------------------------------
  // The visitor
  // ---------------------------------------------------------------------------

  /** What the visitor registers for a chain. */
  datatype Problem = Problem(
    conversion: Conversion,
    // the quick-fix renames the single argument to `transform`
    renameLastArgumentToTransform: bool,
    associateFunction: Option<AssociateFunction>)

  /**
   * The visitor body for one qualified expression. `matched` is the
   * conversion the chain matcher proposes for the expression; it is kept
   * only when the applicability check accepts it.
   */
  method VisitQualifiedExpression(
    oracle: TypeOracle, matched: Option<Conversion>, call: CallFacts,
    receiverIsDotQualified: bool, lookup: Option<(AssociateFunction, ProblemHighlightType)>)
    returns (problem: Option<Problem>)
    ensures problem.Some? <==> matched.Some? && IsApplicable(oracle, matched.value, call)
    ensures problem.Some? ==>
      var found := GetAssociateFunction(matched.value, receiverIsDotQualified, lookup);
      && problem.value.associateFunction == found
      && problem.value.conversion.(replacement := matched.value.replacement) == matched.value
      && problem.value.conversion.replacement ==
           (if found.Some? then FunctionName(found.value) else matched.value.replacement)
      && (problem.value.renameLastArgumentToTransform <==> StartsWith(problem.value.conversion.replacement, "joinTo"))
  {
    if matched.None? || !IsApplicable(oracle, matched.value, call) {
      return None;
    }
    var conversion := matched.value;
    var associateFunction := GetAssociateFunction(conversion, receiverIsDotQualified, lookup);
    if associateFunction.Some? {
      conversion := conversion.(replacement := FunctionName(associateFunction.value));
    }
    var replacement := conversion.replacement;
    problem := Some(Problem(conversion, StartsWith(replacement, "joinTo"), associateFunction));
  }
}
