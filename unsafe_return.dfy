/**
 * The plugin-developer inspection that flags a recursive Java PSI visitor
 * which overrides `visitReturnStatement` but not both of `visitLambdaExpression`
 * and `visitClass`: such a visitor also sees the `return` statements of nested
 * lambdas and classes. Its quick-fix inserts empty overrides of the missing
 * visitor methods.
 *
 * A class is given by its own method declarations (name and parameter types,
 * as canonical type text) and by the qualified names of all its supertypes,
 * as the host's inheritance query would answer them.
 */
module UnsafeReturnVisitor {
  import opened Prelude

  /** The package of the PSI interfaces; the stub texts mention them by simple name. */
  const PsiPackage := "com.intellij.psi."

  const BaseWalkingVisitorName := PsiPackage + "JavaRecursiveElementWalkingVisitor"
  const BaseVisitorName := PsiPackage + "JavaRecursiveElementVisitor"

  const ReturnStatementType := PsiPackage + "PsiReturnStatement"
  const LambdaExpressionType := PsiPackage + "PsiLambdaExpression"
  const ClassType := PsiPackage + "PsiClass"

  datatype Parameter = Parameter(name: string, typeText: string)

  datatype MethodDecl = MethodDecl(name: string, parameters: seq<Parameter>)

  datatype ClassDecl = ClassDecl(supertypes: set<string>, methods: seq<MethodDecl>)

  /** `InheritanceUtil.isInheritor(aClass, true, baseName)` */
  predicate IsInheritor(c: ClassDecl, baseName: string)
  {
    baseName in c.supertypes
  }

  /** `m` is a `name` method with exactly one parameter, of type `argumentType`. */
  predicate IsVisitMethod(m: MethodDecl, name: string, argumentType: string)
  {
    m.name == name && |m.parameters| == 1 && m.parameters[0].typeText == argumentType
  }

  predicate HasVisitMethod(methods: seq<MethodDecl>, name: string, argumentType: string)
  {
    exists i :: 0 <= i < |methods| && IsVisitMethod(methods[i], name, argumentType)
  }

  /** `findMethodsByName(name, false)`: the class's own methods called `name`, in order. */
  function MethodsByName(methods: seq<MethodDecl>, name: string): (r: seq<MethodDecl>)
    ensures forall m :: m in r <==> m in methods && m.name == name
  {
    if methods == [] then []
    else (if methods[0].name == name then [methods[0]] else []) + MethodsByName(methods[1..], name)
  }

  /** `findVisitMethod`: the loop with early return over the methods called `name`. */
  method FindVisitMethod(c: ClassDecl, name: string, argumentType: string) returns (found: bool)
    ensures found <==> HasVisitMethod(c.methods, name, argumentType)
  {
    var candidates := MethodsByName(c.methods, name);
    var i := 0;
    while i < |candidates|
      invariant 0 <= i <= |candidates|
      invariant forall k :: 0 <= k < i ==> !IsVisitMethod(candidates[k], name, argumentType)
    {
      var candidate := candidates[i];
      if |candidate.parameters| == 1 && candidate.parameters[0].typeText == argumentType {
        assert candidate in c.methods;
        return true;
      }
      i := i + 1;
    }
    found := false;
    forall j | 0 <= j < |c.methods| ensures !IsVisitMethod(c.methods[j], name, argumentType) {
      if c.methods[j].name == name {
        assert c.methods[j] in candidates;
      }
    }
  }

  // ---------------------------------------------------------------------------
  // The decision
  // ---------------------------------------------------------------------------

  /** A recursive Java visitor that overrides `visitReturnStatement(PsiReturnStatement)`. */
  predicate ReturnVisitingVisitor(c: ClassDecl)
  {
    && (IsInheritor(c, BaseWalkingVisitorName) || IsInheritor(c, BaseVisitorName))
    && HasVisitMethod(c.methods, "visitReturnStatement", ReturnStatementType)
  }

  predicate VisitLambdaMissing(c: ClassDecl)
  {
    !HasVisitMethod(c.methods, "visitLambdaExpression", LambdaExpressionType)
  }

  predicate VisitClassMissing(c: ClassDecl)
  {
    !HasVisitMethod(c.methods, "visitClass", ClassType)
  }

  /** The two stub methods the quick-fix can insert. */
  datatype Stub = EmptyLambda | EmptyClass

  /** The simple name a qualified PSI type is written with in the stub texts. */
  function SimpleName(qualified: string): (simple: string)
    ensures StartsWith(qualified, PsiPackage) ==> qualified == PsiPackage + simple
    ensures !StartsWith(qualified, PsiPackage) ==> simple == qualified
  {
    if StartsWith(qualified, PsiPackage) then qualified[|PsiPackage|..] else qualified
  }

  /** A PSI type's simple name is what follows the package. */
  lemma SimpleNameOfPsiType(simple: string)
    ensures SimpleName(PsiPackage + simple) == simple
  {
    assert (PsiPackage + simple)[..|PsiPackage|] == PsiPackage;
    assert (PsiPackage + simple)[|PsiPackage|..] == simple;
  }

  /** The stub's source text, as the quick-fix hands it to the element factory. */
  function StubText(s: Stub): (text: string)
  {
    match s
    // split after the opening parenthesis so the literal equality with
    // `EmptyMethodText` is proved piecewise
    case EmptyLambda => "public void visitLambdaExpression(" + "PsiLambdaExpression expression) {}"
    case EmptyClass => "public void visitClass(" + "PsiClass aClass) {}"
  }

  /** The source text of an empty public `void` method with one parameter, its type by simple name. */
  function EmptyMethodText(m: MethodDecl): (text: string)
    requires |m.parameters| == 1
  {
    "public void " + m.name + "(" + SimpleName(m.parameters[0].typeText) + " " + m.parameters[0].name + ") {}"
  }

  /**
   * Each stub's text declares exactly the stub's declaration: same name, one
   * parameter with the same name, its type being the simple name of the
   * declared parameter type.
   */
  lemma StubTextDeclares(s: Stub)
    ensures |StubDeclaration(s).parameters| == 1
    ensures StubText(s) == EmptyMethodText(StubDeclaration(s))
  {
    if s == EmptyLambda {
      var head, tail := "public void visitLambdaExpression(", "PsiLambdaExpression expression) {}";
      StubTextDeclaresOne(s, "PsiLambdaExpression", head, tail);
    } else {
      var head, tail := "public void visitClass(", "PsiClass aClass) {}";
      StubTextDeclaresOne(s, "PsiClass", head, tail);
    }
  }

  /** One stub: its text splits after the opening parenthesis. */
  lemma StubTextDeclaresOne(s: Stub, simple: string, head: string, tail: string)
    requires StubDeclaration(s).parameters[0].typeText == PsiPackage + simple
    requires head == "public void " + StubDeclaration(s).name + "("
    requires tail == simple + " " + StubDeclaration(s).parameters[0].name + ") {}"
    requires StubText(s) == head + tail
    ensures StubText(s) == EmptyMethodText(StubDeclaration(s))
  {
    SimpleNameOfPsiType(simple);
  }

  /** The declaration the element factory builds from a stub's text. */
  function StubDeclaration(s: Stub): (m: MethodDecl)
    ensures s == EmptyLambda ==> IsVisitMethod(m, "visitLambdaExpression", LambdaExpressionType)
    ensures s == EmptyClass ==> IsVisitMethod(m, "visitClass", ClassType)
    ensures !IsVisitMethod(m, "visitReturnStatement", ReturnStatementType)
  {
    match s
    case EmptyLambda => MethodDecl("visitLambdaExpression", [Parameter("expression", LambdaExpressionType)])
    case EmptyClass => MethodDecl("visitClass", [Parameter("aClass", ClassType)])
  }

  function Declarations(stubs: seq<Stub>): (r: seq<MethodDecl>)
    ensures |r| == |stubs|
    ensures forall i :: 0 <= i < |stubs| ==> r[i] == StubDeclaration(stubs[i])
  {
    seq(|stubs|, i requires 0 <= i < |stubs| => StubDeclaration(stubs[i]))
  }

  /**
   * The stubs to insert: exactly the missing visitors, the lambda visitor
   * first, none twice.
   */
  function StubsToInsert(lambdaMissing: bool, classMissing: bool): (stubs: seq<Stub>)
    requires lambdaMissing || classMissing
    ensures |stubs| == (if lambdaMissing then 1 else 0) + (if classMissing then 1 else 0)
    ensures EmptyLambda in stubs <==> lambdaMissing
    ensures EmptyClass in stubs <==> classMissing
    ensures lambdaMissing ==> stubs[0] == EmptyLambda
  {
    if lambdaMissing && classMissing then [EmptyLambda, EmptyClass]
    else if lambdaMissing then [EmptyLambda]
    else [EmptyClass]
  }

  /** The quick-fix's display name; each is the bundle message under the key noted. */
  datatype FixName =
    | InsertLambdaAndClass  // inspections.unsafe.return.insert.visit.lambda.expression.and.class.methods
    | InsertLambda          // inspections.unsafe.return.insert.visit.lambda.expression
    | InsertClass           // inspections.unsafe.return.insert.visit.class.method

  datatype SkipVisitFix = SkipVisitFix(name: FixName, methods: seq<Stub>)

  /** The visitor's `visitClass`: the problem it registers, if any. */
  method VisitClass(c: ClassDecl) returns (problem: Option<SkipVisitFix>)
    ensures problem.Some? <==> ReturnVisitingVisitor(c) && (VisitLambdaMissing(c) || VisitClassMissing(c))
    ensures problem.Some? ==>
      && problem.value.methods == StubsToInsert(VisitLambdaMissing(c), VisitClassMissing(c))
      && problem.value.name ==
           (if VisitLambdaMissing(c) && VisitClassMissing(c) then InsertLambdaAndClass
            else if VisitLambdaMissing(c) then InsertLambda
            else InsertClass)
  {
    problem := None;
    if IsInheritor(c, BaseWalkingVisitorName) || IsInheritor(c, BaseVisitorName) {
      var visitsReturn := FindVisitMethod(c, "visitReturnStatement", ReturnStatementType);
      if visitsReturn {
        var hasLambda := FindVisitMethod(c, "visitLambdaExpression", LambdaExpressionType);
        var hasClass := FindVisitMethod(c, "visitClass", ClassType);
        var visitLambdaMissing := !hasLambda;
        var visitClassMissing := !hasClass;
        if visitLambdaMissing || visitClassMissing {
          var name: FixName;
          var methodsToInsert: seq<Stub>;
          if visitLambdaMissing && visitClassMissing {
            name, methodsToInsert := InsertLambdaAndClass, [EmptyLambda, EmptyClass];
          } else if visitLambdaMissing {
            name, methodsToInsert := InsertLambda, [EmptyLambda];
          } else {
            name, methodsToInsert := InsertClass, [EmptyClass];
          }
          problem := Some(SkipVisitFix(name, methodsToInsert));
        }
      }
    }
  }

  /** Appending declarations keeps every visit method the class already had. */
  lemma AppendKeepsVisitMethods(methods: seq<MethodDecl>, added: seq<MethodDecl>, name: string, argumentType: string)
    requires HasVisitMethod(methods, name, argumentType)
    ensures HasVisitMethod(methods + added, name, argumentType)
  {
    var i :| 0 <= i < |methods| && IsVisitMethod(methods[i], name, argumentType);
    assert (methods + added)[i] == methods[i];
  }

  /** An appended declaration is found as a visit method. */
  lemma AppendedVisitMethod(methods: seq<MethodDecl>, added: seq<MethodDecl>, k: nat, name: string, argumentType: string)
    requires k < |added| && IsVisitMethod(added[k], name, argumentType)
    ensures HasVisitMethod(methods + added, name, argumentType)
  {
    assert (methods + added)[|methods| + k] == added[k];
  }

  /**
   * Applying the fix makes the problem go away: afterwards the class is still
   * a return-visiting visitor, and it declares both visitors.
   */
  lemma FixClearsProblem(c: ClassDecl)
    requires ReturnVisitingVisitor(c) && (VisitLambdaMissing(c) || VisitClassMissing(c))
    ensures var fixed := c.(methods := c.methods + Declarations(StubsToInsert(VisitLambdaMissing(c), VisitClassMissing(c))));
      ReturnVisitingVisitor(fixed) && !VisitLambdaMissing(fixed) && !VisitClassMissing(fixed)
  {
    var stubs := StubsToInsert(VisitLambdaMissing(c), VisitClassMissing(c));
    var added := Declarations(stubs);
    AppendKeepsVisitMethods(c.methods, added, "visitReturnStatement", ReturnStatementType);
    if VisitLambdaMissing(c) {
      AppendedVisitMethod(c.methods, added, 0, "visitLambdaExpression", LambdaExpressionType);
    } else {
      AppendKeepsVisitMethods(c.methods, added, "visitLambdaExpression", LambdaExpressionType);
    }
    if VisitClassMissing(c) {
      AppendedVisitMethod(c.methods, added, |stubs| - 1, "visitClass", ClassType);
    } else {
      AppendKeepsVisitMethods(c.methods, added, "visitClass", ClassType);
    }
  }

  // ---------------------------------------------------------------------------
  // The quick-fix
  // ---------------------------------------------------------------------------

  /** A class in the edited file, whose member list the quick-fix extends. */
  class PsiClassObject {
    const supertypes: set<string>
    var methods: seq<MethodDecl>

    constructor (supertypes: set<string>, methods: seq<MethodDecl>)
      ensures this.supertypes == supertypes && this.methods == methods
    {
      this.supertypes := supertypes;
      this.methods := methods;
    }

    /** The class as the inspection sees it. */
    function Declaration(): (d: ClassDecl)
      reads this
      ensures d.supertypes == supertypes && d.methods == methods
    {
      ClassDecl(supertypes, methods)
    }

    /** `aClass.add(method)`: the new member goes last (the host's placement is assumed to append). */
    method Add(m: MethodDecl)
      modifies this
      ensures methods == old(methods) + [m]
    {
      methods := methods + [m];
    }
  }

  /** The element a problem descriptor points at. */
  datatype PsiElement = ClassElement(cls: PsiClassObject) | OtherElement

  /** `MySkipVisitFix.applyFix`: append the stub methods, in order, to the class. */
  method ApplyFix(fix: SkipVisitFix, element: PsiElement)
    modifies if element.ClassElement? then {element.cls} else {}
    ensures element.ClassElement? ==>
      element.cls.methods == old(element.cls.methods) + Declarations(fix.methods)
  {
    if element.ClassElement? {
      var aClass := element.cls;
      var i := 0;
      while i < |fix.methods|
        invariant 0 <= i <= |fix.methods|
        invariant aClass.methods == old(aClass.methods) + Declarations(fix.methods[..i])
      {
        var created := StubDeclaration(fix.methods[i]);
        aClass.Add(created);
        assert Declarations(fix.methods[..i + 1]) == Declarations(fix.methods[..i]) + [created];
        i := i + 1;
      }
      assert fix.methods[..i] == fix.methods;
    }
  }

  /**
   * Inspect a class, apply the offered fix, inspect again: a problem is
   * reported exactly when the class had one, the fix appends exactly the
   * offered stubs, and afterwards nothing is reported any more.
   */
  method InspectFixReinspect(cls: PsiClassObject) returns (before: Option<SkipVisitFix>, after: Option<SkipVisitFix>)
    modifies cls
    ensures before.Some? <==>
      ReturnVisitingVisitor(old(cls.Declaration()))
      && (VisitLambdaMissing(old(cls.Declaration())) || VisitClassMissing(old(cls.Declaration())))
    ensures before.Some? ==>
      before.value.methods == StubsToInsert(VisitLambdaMissing(old(cls.Declaration())), VisitClassMissing(old(cls.Declaration())))
    ensures cls.methods == old(cls.methods) + (if before.Some? then Declarations(before.value.methods) else [])
    ensures !(ReturnVisitingVisitor(cls.Declaration())
              && (VisitLambdaMissing(cls.Declaration()) || VisitClassMissing(cls.Declaration())))
    ensures after.None?
  {
    ghost var c := cls.Declaration();
    before := VisitClass(cls.Declaration());
    if before.Some? {
      ApplyFix(before.value, ClassElement(cls));
      FixClearsProblem(c);
      assert cls.Declaration() == c.(methods := c.methods + Declarations(before.value.methods));
    }
    after := VisitClass(cls.Declaration());
  }
}
