/**
 * The Lombok processor for `@Setter` placed on a class: it checks that the
 * annotation sits on a plain class with a usable access level, picks the
 * fields that get a generated setter and generates one setter per such field.
 *
 * What the host decides is given with the records: a field carries the setter
 * names the field processor derives for it and whether it is annotated with a
 * setter annotation already; a class carries the host's "a similar
 * one-parameter method exists" query over its own methods.
 */
module SetterProcessor {
  import opened Prelude

  /** Lombok's marker for its own internal fields. */
  const LombokInternFieldMarker := "$"

  const WrongTypeMessageKey := "inspection.message.s.only.supported.on.class.or.field.type"

  datatype ModifierList = ModifierList(isFinal: bool, isStatic: bool)

  datatype Field = Field(
    name: string,
    modifierList: Option<ModifierList>,
    // the field carries one of the field processor's setter annotations
    hasSetterAnnotation: bool,
    // `getAllSetterNames(field, type is boolean)`
    setterNames: seq<string>)

  datatype PsiClass = PsiClass(
    isAnnotationType: bool,
    isInterface: bool,
    isEnum: bool,
    fields: seq<Field>,
    // `hasSimilarMethod(classMethods, name, 1)` over the class's own methods
    // with the tolerated ones removed
    hasSimilarMethod: string -> bool)

  /** `@Setter`: its qualified name and the method modifier its access level maps to (None: `AccessLevel.NONE`). */
  datatype SetterAnnotation = SetterAnnotation(qualifiedName: string, methodModifier: Option<string>)

  datatype Problem = Error(messageKey: string, argument: string)

  /** Collects the problems found while validating. */
  class ProblemBuilder {
    var problems: seq<Problem>

    constructor ()
      ensures problems == []
    {
      problems := [];
    }

    method AddError(messageKey: string, argument: string)
      modifies this
      ensures problems == old(problems) + [Error(messageKey, argument)]
    {
      problems := problems + [Error(messageKey, argument)];
    }
  }

  // ---------------------------------------------------------------------------
  // Validation
  // ---------------------------------------------------------------------------

  method ValidateAnnotationOnRightType(annotation: SetterAnnotation, c: PsiClass, builder: ProblemBuilder)
    returns (result: bool)
    modifies builder
    ensures result <==> !c.isAnnotationType && !c.isInterface && !c.isEnum
    ensures builder.problems ==
      old(builder.problems) + (if result then [] else [Error(WrongTypeMessageKey, annotation.qualifiedName)])
  {
    result := true;
    if c.isAnnotationType || c.isInterface || c.isEnum {
      builder.AddError(WrongTypeMessageKey, annotation.qualifiedName);
      result := false;
    }
  }

  /**
   * `validateVisibility`: the access level must map to a method modifier;
   * `AccessLevel.NONE` maps to none and generates nothing.
   */
  function ValidateVisibility(annotation: SetterAnnotation): (ok: bool)
    ensures ok <==> annotation.methodModifier != None
  {
    annotation.methodModifier.Some?
  }

  /**
   * `validate`: both checks, the second only when the first passes. A wrong
   * type adds exactly the wrong-type error naming the annotation; nothing
   * else adds a problem.
   */
  method Validate(annotation: SetterAnnotation, c: PsiClass, builder: ProblemBuilder) returns (ok: bool)
    modifies builder
    ensures ok <==> !c.isAnnotationType && !c.isInterface && !c.isEnum && annotation.methodModifier.Some?
    ensures builder.problems == old(builder.problems) +
      (if c.isAnnotationType || c.isInterface || c.isEnum then [Error(WrongTypeMessageKey, annotation.qualifiedName)] else [])
  {
    ok := ValidateAnnotationOnRightType(annotation, c, builder);
    ok := ok && ValidateVisibility(annotation);
  }

  // ---------------------------------------------------------------------------
  // Which fields get a setter
  // ---------------------------------------------------------------------------

  /** No setter name of `f` clashes with a similar one-parameter method of `c`. */
  predicate NoSimilarSetter(c: PsiClass, f: Field)
  {
    forall k :: 0 <= k < |f.setterNames| ==> !c.hasSimilarMethod(f.setterNames[k])
  }

  /**
   * The skip rules: a field with a modifier list gets a setter unless it is
   * final, static, already setter-annotated, Lombok-internal, or one of its
   * setter names is taken. A field without a modifier list always gets one.
   */
  function GetsSetter(c: PsiClass, f: Field): (gets: bool)
    ensures f.modifierList.None? ==> gets
    ensures f.modifierList.Some? && f.modifierList.value.isFinal ==> !gets
    ensures f.modifierList.Some? && f.modifierList.value.isStatic ==> !gets
    ensures f.modifierList.Some? && f.hasSetterAnnotation ==> !gets
    ensures f.modifierList.Some? && StartsWith(f.name, LombokInternFieldMarker) ==> !gets
    ensures f.modifierList.Some? && (exists k :: 0 <= k < |f.setterNames| && c.hasSimilarMethod(f.setterNames[k])) ==> !gets
    ensures (&& f.modifierList.Some? && !f.modifierList.value.isFinal && !f.modifierList.value.isStatic
             && !f.hasSetterAnnotation && !StartsWith(f.name, LombokInternFieldMarker) && NoSimilarSetter(c, f))
            ==> gets
  {
    match f.modifierList
    case None => true
    case Some(m) =>
      !m.isFinal && !m.isStatic && !f.hasSetterAnnotation
      && !StartsWith(f.name, LombokInternFieldMarker) && NoSimilarSetter(c, f)
  }

  /** The fields of `fields` that get a setter, in their order. */
  function Select(c: PsiClass, fields: seq<Field>): (selected: seq<Field>)
    ensures |selected| <= |fields|
  {
    if fields == [] then []
    else Select(c, fields[..|fields| - 1]) + (if GetsSetter(c, fields[|fields| - 1]) then [fields[|fields| - 1]] else [])
  }

  /** The class's fields that get a setter. */
  function SetterFields(c: PsiClass): (setterFields: seq<Field>)
    ensures |setterFields| <= |c.fields|
  {
    Select(c, c.fields)
  }

  /** A field is selected iff it is one of the fields and passes the skip rules. */
  lemma {:induction false} SelectMembership(c: PsiClass, fields: seq<Field>, f: Field)
    ensures f in Select(c, fields) <==> f in fields && GetsSetter(c, f)
  {
    if fields != [] {
      var init := fields[..|fields| - 1];
      SelectMembership(c, init, f);
      assert fields == init + [fields[|fields| - 1]];
    }
  }

  /** `idx` embeds `a` into `b` in order: `a` is a subsequence of `b`. */
  predicate Embeds(idx: seq<nat>, a: seq<Field>, b: seq<Field>)
  {
    && |idx| == |a|
    && (forall k :: 0 <= k < |idx| ==> idx[k] < |b| && b[idx[k]] == a[k])
    && (forall k, l :: 0 <= k < l < |idx| ==> idx[k] < idx[l])
  }

  /** The selected fields form an order-preserving subsequence of the fields. */
  lemma {:induction false} SelectIsSubsequence(c: PsiClass, fields: seq<Field>) returns (idx: seq<nat>)
    ensures Embeds(idx, Select(c, fields), fields)
  {
    if fields == [] {
      idx := [];
    } else {
      var n := |fields| - 1;
      var init := fields[..n];
      idx := SelectIsSubsequence(c, init);
      forall k | 0 <= k < |idx| ensures idx[k] < n {
      }
      if GetsSetter(c, fields[n]) {
        idx := idx + [n];
      }
    }
  }

  /** A field without a modifier list is always selected. */
  lemma NullModifierListSelected(c: PsiClass, f: Field)
    requires f in c.fields && f.modifierList.None?
    ensures f in SetterFields(c)
  {
    SelectMembership(c, c.fields, f);
  }

  /** `filterSetterFields`: the field loop, folding the skip rules with `&=`. */
  method FilterSetterFields(c: PsiClass) returns (setterFields: seq<Field>)
    ensures setterFields == SetterFields(c)
  {
    setterFields := [];
    var i := 0;
    while i < |c.fields|
      invariant 0 <= i <= |c.fields|
      invariant setterFields == Select(c, c.fields[..i])
    {
      var psiField := c.fields[i];
      var createSetter := true;
      if psiField.modifierList.Some? {
        var modifierList := psiField.modifierList.value;
        createSetter := !modifierList.isFinal;
        createSetter := createSetter && !modifierList.isStatic;
        createSetter := createSetter && !psiField.hasSetterAnnotation;
        createSetter := createSetter && !StartsWith(psiField.name, LombokInternFieldMarker);
        ghost var beforeNames := createSetter;
        var methodNames := psiField.setterNames;
        var j := 0;
        while j < |methodNames|
          invariant 0 <= j <= |methodNames|
          invariant createSetter <==>
            beforeNames && forall k :: 0 <= k < j ==> !c.hasSimilarMethod(methodNames[k])
        {
          createSetter := createSetter && !c.hasSimilarMethod(methodNames[j]);
          j := j + 1;
        }
      }
      assert createSetter == GetsSetter(c, psiField);
      if createSetter {
        setterFields := setterFields + [psiField];
      }
      assert c.fields[..i + 1][..i] == c.fields[..i];
      i := i + 1;
    }
    assert c.fields[..i] == c.fields;
  }

  // ---------------------------------------------------------------------------
  // Generation
  // ---------------------------------------------------------------------------

  /** The setter the field processor creates for a field, with the given modifier. */
  datatype SetterMethod = SetterMethod(field: Field, methodModifier: string)

  /** `createFieldSetters`: one setter per selected field, in the same order. */
  method CreateFieldSetters(c: PsiClass, methodModifier: string) returns (result: seq<SetterMethod>)
    ensures |result| == |SetterFields(c)|
    ensures forall i :: 0 <= i < |result| ==> result[i] == SetterMethod(SetterFields(c)[i], methodModifier)
  {
    result := [];
    var setterFields := FilterSetterFields(c);
    for i := 0 to |setterFields|
      invariant |result| == i
      invariant forall k :: 0 <= k < i ==> result[k] == SetterMethod(setterFields[k], methodModifier)
    {
      result := result + [SetterMethod(setterFields[i], methodModifier)];
    }
  }

  /** The list the host collects generated members in. */
  class Target {
    var elements: seq<SetterMethod>

    constructor (elements: seq<SetterMethod>)
      ensures this.elements == elements
    {
      this.elements := elements;
    }

    method AddAll(more: seq<SetterMethod>)
      modifies this
      ensures elements == old(elements) + more
    {
      elements := elements + more;
    }
  }

  /**
   * `generatePsiElements`: with no method modifier nothing is added; otherwise
   * the setters follow the existing contents.
   */
  method GeneratePsiElements(c: PsiClass, annotation: SetterAnnotation, target: Target)
    modifies target
    ensures annotation.methodModifier.None? ==> target.elements == old(target.elements)
    ensures annotation.methodModifier.Some? ==>
      && |target.elements| == |old(target.elements)| + |SetterFields(c)|
      && target.elements[..|old(target.elements)|] == old(target.elements)
      && forall i :: 0 <= i < |SetterFields(c)| ==>
           target.elements[|old(target.elements)| + i] == SetterMethod(SetterFields(c)[i], annotation.methodModifier.value)
  {
    var methodVisibility := annotation.methodModifier;
    if methodVisibility.Some? {
      var setters := CreateFieldSetters(c, methodVisibility.value);
      target.AddAll(setters);
    }
  }

  // ---------------------------------------------------------------------------
  // Usage
  // ---------------------------------------------------------------------------

  datatype LombokPsiElementUsage = NoUsage | Read | Write | ReadWrite | Usage

  /** `PsiClassUtil.getNames` */
  function Names(fields: seq<Field>): (names: seq<string>)
    ensures forall n :: n in names <==> exists f :: f in fields && f.name == n
  {
    if fields == [] then [] else [fields[0].name] + Names(fields[1..])
  }

  /**
   * `checkFieldUsage`: a field is written by the generated code iff its class
   * is known and some field of that class with the same name gets a setter.
   */
  method CheckFieldUsage(field: Field, containingClass: Option<PsiClass>) returns (usage: LombokPsiElementUsage)
    ensures usage == Write || usage == NoUsage
    ensures usage == Write <==>
      containingClass.Some? &&
      exists g :: g in containingClass.value.fields && GetsSetter(containingClass.value, g) && g.name == field.name
  {
    usage := NoUsage;
    if containingClass.Some? {
      var c := containingClass.value;
      var setterFields := FilterSetterFields(c);
      if field.name in Names(setterFields) {
        var g :| g in setterFields && g.name == field.name;
        SelectMembership(c, c.fields, g);
        usage := Write;
      } else {
        forall g | g in c.fields && GetsSetter(c, g) ensures g.name != field.name {
          SelectMembership(c, c.fields, g);
        }
      }
    }
  }
}
