/** A lambda specification: three stylistic choices (explicit parameter types,
    expression body, omitted parentheses) validated against the single
    abstract method of a functional interface; the enumeration of every valid
    specification; the lambda each one builds; and the label that describes it. */
module LambdaSpecification {
  import opened Wrappers
  import opened LambdaAst
  import opened Messages

  /** The single abstract method of a functional interface. `paramTypes` is
      what the method binding reports, `paramNames` what the Java model
      reports; `returnsVoid` stands for a return type equal to `void`. */
  datatype FunctionalMethod = FunctionalMethod(paramNames: seq<string>, paramTypes: seq<TypeRef>, returnsVoid: bool)
  {
    function ParameterCount(): nat { |paramTypes| }

    /** The binding and the Java model agree on the number of parameters. */
    predicate Consistent() { |paramNames| == |paramTypes| }
  }

  /** A type binding; `functionalMethod` is `None` when the type is not a
      functional interface. */
  datatype LambdaType = LambdaType(qualifiedName: string, functionalMethod: Option<FunctionalMethod>)
  {
    predicate IsFunctional() { functionalMethod.Some? }

    predicate WellFormed() { functionalMethod.Some? ==> functionalMethod.value.Consistent() }
  }

  /** A constructed specification: the type it was validated for and the three choices. */
  datatype Spec = Spec(lambdaType: LambdaType, explicitTypes: bool, expressionBodied: bool, omitParentheses: bool)

  /** The IllegalArgumentExceptions the constructor throws. */
  datatype SpecError =
    | NotFunctionalInterface(typeName: string)
    | ExplicitTypesNeedParentheses
    | SeveralParametersNeedParentheses
    | VoidCannotBeExpressionBodied

  /** The style rules, stated positively: parentheses may be left out only
      around a single parameter whose type is inferred, and a void method
      cannot have an expression body. */
  predicate StyleRules(m: FunctionalMethod, explicitTypes: bool, expressionBodied: bool, omitParentheses: bool)
  {
    && (omitParentheses ==> !explicitTypes && m.ParameterCount() == 1)
    && (m.returnsVoid ==> !expressionBodied)
  }

  // ---------------------------------------------------------------------------
  // The validating constructor

  /** The constructor: checks the type, then the three choices in turn, and
      stores the choices unchanged when every check passes. */
  function NewSpec(t: LambdaType, explicitTypes: bool, expressionBodied: bool, omitParentheses: bool): (r: Result<Spec, SpecError>)
    ensures r.Success? <==> t.IsFunctional() && StyleRules(t.functionalMethod.value, explicitTypes, expressionBodied, omitParentheses)
    ensures r.Success? ==> r.value == Spec(t, explicitTypes, expressionBodied, omitParentheses)
    ensures !t.IsFunctional() ==> r == Failure(NotFunctionalInterface(t.qualifiedName))
    ensures t.IsFunctional() && explicitTypes && omitParentheses ==> r == Failure(ExplicitTypesNeedParentheses)
    ensures (t.IsFunctional() && !explicitTypes && omitParentheses && t.functionalMethod.value.ParameterCount() != 1)
      ==> r == Failure(SeveralParametersNeedParentheses)
    ensures (t.IsFunctional() && !(omitParentheses && (explicitTypes || t.functionalMethod.value.ParameterCount() != 1))
             && t.functionalMethod.value.returnsVoid && expressionBodied)
      ==> r == Failure(VoidCannotBeExpressionBodied)
  {
    match t.functionalMethod
    case None => Failure(NotFunctionalInterface(t.qualifiedName))
    case Some(m) =>
      if explicitTypes && omitParentheses then Failure(ExplicitTypesNeedParentheses)
      else if m.ParameterCount() != 1 && omitParentheses then Failure(SeveralParametersNeedParentheses)
      else if m.returnsVoid && expressionBodied then Failure(VoidCannotBeExpressionBodied)
      else Success(Spec(t, explicitTypes, expressionBodied, omitParentheses))
  }

  /** `s` is a specification the constructor returns for its own type. */
  predicate Accepted(s: Spec)
  {
    NewSpec(s.lambdaType, s.explicitTypes, s.expressionBodied, s.omitParentheses) == Success(s)
  }

  // ---------------------------------------------------------------------------
  // Enumeration

  /** The values each loop of the enumeration walks, in order. */
  const Bools: seq<bool> := [true, false]

  /** The position of `b` in `Bools`. */
  function Rank(b: bool): nat { if b then 0 else 1 }

  /** Every specification the constructor accepts for `t`. */
  function ValidSpecifications(t: LambdaType): set<Spec>
  {
    set explicitTypes: bool, expressionBodied: bool, omitParentheses: bool
      | NewSpec(t, explicitTypes, expressionBodied, omitParentheses).Success?
      :: Spec(t, explicitTypes, expressionBodied, omitParentheses)
  }

  /** Walks the boolean cube in the order true, false on each axis, skips
      expression bodies for void methods and omitted parentheses unless the
      single parameter has an inferred type, and constructs a specification
      from each triple that remains. */
  method ComputeValidSpecifications(t: LambdaType) returns (r: Result<set<Spec>, SpecError>)
    ensures !t.IsFunctional() ==> r == Failure(NotFunctionalInterface(t.qualifiedName))
    ensures t.IsFunctional() ==> r.Success?
    ensures r.Success? ==> forall s :: s in r.value <==> s.lambdaType == t && Accepted(s)
    ensures r.Success? ==> r.value == ValidSpecifications(t)
  {
    if t.functionalMethod.None? {
      return Failure(NotFunctionalInterface(t.qualifiedName));
    }
    var m := t.functionalMethod.value;
    var validOptions: set<Spec> := {};
    for i := 0 to |Bools|
      invariant forall s :: s in validOptions <==> s.lambdaType == t && Accepted(s) && Rank(s.explicitTypes) < i
    {
      var explicitTypes := Bools[i];
      for j := 0 to |Bools|
        invariant forall s :: s in validOptions <==>
          s.lambdaType == t && Accepted(s) &&
          (Rank(s.explicitTypes) < i || (s.explicitTypes == explicitTypes && Rank(s.expressionBodied) < j))
      {
        var expressionBodied := Bools[j];
        if m.returnsVoid && expressionBodied {
          continue;
        }
        for k := 0 to |Bools|
          invariant forall s :: s in validOptions <==>
            s.lambdaType == t && Accepted(s) &&
            (|| Rank(s.explicitTypes) < i
             || (s.explicitTypes == explicitTypes && Rank(s.expressionBodied) < j)
             || (s.explicitTypes == explicitTypes && s.expressionBodied == expressionBodied && Rank(s.omitParentheses) < k))
        {
          var omitParentheses := Bools[k];
          if !(m.ParameterCount() == 1 && !explicitTypes) && omitParentheses {
            continue;
          }
          var spec := NewSpec(t, explicitTypes, expressionBodied, omitParentheses);
          assert spec.Success?;
          validOptions := validOptions + {spec.value};
        }
      }
    }
    r := Success(validOptions);
  }

  // ---------------------------------------------------------------------------
  // Building the lambda

  /** The body `create` gives the lambda, as the code is written: nothing is
      set for a void method, so the new node's empty block stays; otherwise
      an expression-bodied specification gets the block `{ return null; }`
      and any other gets the bare expression `null`. */
  function CreatedBody(returnsVoid: bool, expressionBodied: bool): Body
  {
    if returnsVoid then DefaultBody
    else if expressionBodied then ReturnNullBlock
    else NullExpr
  }

  /** Builds the lambda for `spec`: one parameter per method parameter, in
      order, typed (and its type handed to the import rewriter) only when
      types are explicit; then the body; then the parentheses. `imports` is
      the sequence of types passed to the import rewriter, in call order. */
  method Create(spec: Spec) returns (lam: Lambda, imports: seq<TypeRef>)
    requires spec.lambdaType.IsFunctional() && spec.lambdaType.WellFormed()
    ensures var m := spec.lambdaType.functionalMethod.value;
      && |lam.params| == m.ParameterCount()
      && (forall p :: 0 <= p < |lam.params| ==> lam.params[p].name == m.paramNames[p])
      && (forall p :: 0 <= p < |lam.params| ==> (lam.params[p].typ.Some? <==> spec.explicitTypes))
      && (forall p :: 0 <= p < |lam.params| ==> lam.params[p].typ.Some? ==> lam.params[p].typ.value == m.paramTypes[p])
      && imports == (if spec.explicitTypes then m.paramTypes else [])
      && (m.returnsVoid ==> lam.body == DefaultBody)
      && (!m.returnsVoid && spec.expressionBodied ==> lam.body == ReturnNullBlock)
      && (!m.returnsVoid && !spec.expressionBodied ==> lam.body == NullExpr)
      && lam.body == CreatedBody(m.returnsVoid, spec.expressionBodied)
      && BodyFits(lam.body, m.returnsVoid)
      && lam.parens == !spec.omitParentheses
    ensures Accepted(spec) ==> ParenthesesWellFormed(lam)
  {
    var m := spec.lambdaType.functionalMethod.value;
    lam := NewLambda;
    imports := [];
    for p := 0 to |m.paramNames|
      invariant |lam.params| == p
      invariant forall q :: 0 <= q < p ==> lam.params[q].name == m.paramNames[q]
      invariant forall q :: 0 <= q < p ==>
        lam.params[q].typ == if spec.explicitTypes then Some(m.paramTypes[q]) else None
      invariant imports == if spec.explicitTypes then m.paramTypes[..p] else []
      invariant lam.body == DefaultBody && lam.parens
    {
      var parameterType := m.paramTypes[p];
      var parameterName := m.paramNames[p];
      if spec.explicitTypes {
        imports := imports + [parameterType];
        lam := lam.(params := lam.params + [Param(parameterName, Some(parameterType))]);
      } else {
        lam := lam.(params := lam.params + [Param(parameterName, None)]);
      }
    }
    assert spec.explicitTypes ==> m.paramTypes[..|m.paramNames|] == m.paramTypes;
    if !m.returnsVoid {
      if spec.expressionBodied {
        lam := lam.(body := ReturnNullBlock);
      } else {
        lam := lam.(body := NullExpr);
      }
    }
    if spec.omitParentheses {
      lam := lam.(parens := false);
    }
  }

  // ---------------------------------------------------------------------------
  // The label

  /** The message key that describes the lambda `spec` builds. */
  function Describe(spec: Spec): (k: MessageKey)
    ensures k.IsExpressionBodiedFamily() <==> spec.expressionBodied
    ensures k.NamesExplicitTypes() <==> spec.explicitTypes
    ensures k.NamesNoParentheses() <==> !spec.explicitTypes && spec.omitParentheses
    ensures k in LabelKeys
  {
    if spec.expressionBodied then
      if spec.explicitTypes then GenerateExpressionBodiedLambdaExplicitParameterTypes
      else if spec.omitParentheses then GenerateExpressionBodiedLambdaNoParentheses
      else GenerateExpressionBodiedLambda
    else
      if spec.explicitTypes then GenerateLambdaExplicitParameterTypes
      else if spec.omitParentheses then GenerateLambdaNoParentheses
      else GenerateLambda
  }

  // ---------------------------------------------------------------------------
  // Properties of the enumeration

  /** Everything enumerated passes the constructor's checks: parentheses are
      left out only around a single inferred-type parameter, and a void
      method never gets an expression-bodied specification. This follows from
      `ValidSpecifications` being the constructor-accepted set; that the loop
      filters of the enumeration agree with the constructor's checks is
      proved by the invariants of `ComputeValidSpecifications`, whose result
      is this set. */
  lemma EnumerationSound(t: LambdaType, s: Spec)
    requires t.IsFunctional()
    requires s in ValidSpecifications(t)
    ensures s.lambdaType == t && Accepted(s)
    ensures s.omitParentheses ==> t.functionalMethod.value.ParameterCount() == 1 && !s.explicitTypes
    ensures t.functionalMethod.value.returnsVoid ==> !s.expressionBodied
  {
  }

  /** Every triple the constructor accepts is enumerated. As for
      `EnumerationSound`, the loop-level argument is carried by
      `ComputeValidSpecifications`, whose result is `ValidSpecifications(t)`. */
  lemma EnumerationComplete(t: LambdaType, explicitTypes: bool, expressionBodied: bool, omitParentheses: bool)
    requires NewSpec(t, explicitTypes, expressionBodied, omitParentheses).Success?
    ensures Spec(t, explicitTypes, expressionBodied, omitParentheses) in ValidSpecifications(t)
  {
  }

  /** The number of specifications enumerated: 6 for a one-parameter method
      with a result, 4 for a method with a result and any other number of
      parameters, 3 for a one-parameter void method, 2 for any other void
      method. */
  lemma EnumerationSize(t: LambdaType)
    requires t.IsFunctional()
    ensures var m := t.functionalMethod.value;
      |ValidSpecifications(t)| ==
        if !m.returnsVoid then (if m.ParameterCount() == 1 then 6 else 4)
        else (if m.ParameterCount() == 1 then 3 else 2)
  {
    var m := t.functionalMethod.value;
    if m.returnsVoid && m.ParameterCount() == 1 {
      VoidOneParameterSize(t);
    } else if m.returnsVoid {
      VoidSize(t);
    } else if m.ParameterCount() == 1 {
      OneParameterSize(t);
    } else {
      OtherSize(t);
    }
  }

  lemma VoidOneParameterSize(t: LambdaType)
    requires t.IsFunctional() && t.functionalMethod.value.returnsVoid && t.functionalMethod.value.ParameterCount() == 1
    ensures |ValidSpecifications(t)| == 3
  {
    var all := ValidSpecifications(t);
    var d := {Spec(t, true, false, false), Spec(t, false, false, false), Spec(t, false, false, true)};
    assert d <= all;
    assert all <= d;
    assert all == d;
  }

  lemma VoidSize(t: LambdaType)
    requires t.IsFunctional() && t.functionalMethod.value.returnsVoid && t.functionalMethod.value.ParameterCount() != 1
    ensures |ValidSpecifications(t)| == 2
  {
    var all := ValidSpecifications(t);
    var d := {Spec(t, true, false, false), Spec(t, false, false, false)};
    assert d <= all;
    assert all <= d;
    assert all == d;
  }

  lemma OneParameterSize(t: LambdaType)
    requires t.IsFunctional() && !t.functionalMethod.value.returnsVoid && t.functionalMethod.value.ParameterCount() == 1
    ensures |ValidSpecifications(t)| == 6
  {
    var all := ValidSpecifications(t);
    var d := {Spec(t, true, false, false), Spec(t, false, false, false), Spec(t, false, false, true),
              Spec(t, true, true, false), Spec(t, false, true, false), Spec(t, false, true, true)};
    assert d <= all;
    assert all <= d;
    assert all == d;
  }

  lemma OtherSize(t: LambdaType)
    requires t.IsFunctional() && !t.functionalMethod.value.returnsVoid && t.functionalMethod.value.ParameterCount() != 1
    ensures |ValidSpecifications(t)| == 4
  {
    var all := ValidSpecifications(t);
    var d := {Spec(t, true, false, false), Spec(t, false, false, false),
              Spec(t, true, true, false), Spec(t, false, true, false)};
    assert d <= all;
    assert all <= d;
    assert all == d;
  }

  /** The enumerated specifications of a one-parameter method with a result
      outnumber the four that the comment in `computeValidSpecifications`
      allows for. */
  lemma MoreThanFourSpecifications()
    ensures exists t: LambdaType :: t.IsFunctional() && |ValidSpecifications(t)| > 4
  {
    var t := LambdaType("java.util.function.Function", Some(FunctionalMethod(["t"], [TypeRef("java.lang.Object")], false)));
    EnumerationSize(t);
  }

  // ---------------------------------------------------------------------------
  // Properties of the label

  /** Without validation two specifications can share a label: explicit types
      hide omitted parentheses. */
  lemma DescribeIgnoresParenthesesUnderExplicitTypes(t: LambdaType, expressionBodied: bool)
    ensures Describe(Spec(t, true, expressionBodied, true)) == Describe(Spec(t, true, expressionBodied, false))
  {
  }

  /** On accepted specifications, which never combine explicit types with
      omitted parentheses, the label determines the three choices. */
  lemma DescribeInjectiveOnAccepted(s1: Spec, s2: Spec)
    requires Accepted(s1) && Accepted(s2)
    requires Describe(s1) == Describe(s2)
    ensures s1.explicitTypes == s2.explicitTypes
    ensures s1.expressionBodied == s2.expressionBodied
    ensures s1.omitParentheses == s2.omitParentheses
  {
  }

  /** The enumerated specifications of one type carry pairwise different
      labels, so the menu never lists the same text twice. */
  lemma EnumeratedLabelsDistinct(t: LambdaType)
    requires t.IsFunctional()
    ensures |set s | s in ValidSpecifications(t) :: Describe(s)| == |ValidSpecifications(t)|
  {
    var specs := ValidSpecifications(t);
    forall s1, s2 | s1 in specs && s2 in specs && Describe(s1) == Describe(s2)
      ensures s1 == s2
    {
      DescribeInjectiveOnAccepted(s1, s2);
    }
    MapInjectiveSize(specs);
  }

  /** An injective image of a finite set has the set's size. */
  lemma {:induction false} MapInjectiveSize(specs: set<Spec>)
    requires forall s1, s2 :: s1 in specs && s2 in specs && Describe(s1) == Describe(s2) ==> s1 == s2
    ensures |set s | s in specs :: Describe(s)| == |specs|
  {
    if specs != {} {
      var x :| x in specs;
      var rest := specs - {x};
      MapInjectiveSize(rest);
      var labels := set s | s in specs :: Describe(s);
      var restLabels := set s | s in rest :: Describe(s);
      assert labels == restLabels + {Describe(x)};
      assert Describe(x) !in restLabels;
    } else {
      assert (set s | s in specs :: Describe(s)) == {};
    }
  }

  // ---------------------------------------------------------------------------
  // The body as evidently intended

  /** Every accepted expression-bodied specification of a method with a
      result builds a block, while its label belongs to the expression-bodied
      family. */
  lemma CreatedBodyInvertsExpressionChoice(s: Spec)
    requires Accepted(s)
    requires !s.lambdaType.functionalMethod.value.returnsVoid && s.expressionBodied
    ensures Describe(s).IsExpressionBodiedFamily()
    ensures CreatedBody(s.lambdaType.functionalMethod.value.returnsVoid, s.expressionBodied) == ReturnNullBlock
  {
  }

  /** A concrete instance: a `Supplier`-like type with inferred types and
      parentheses is labelled `GenerateExpressionBodiedLambda` yet is given
      the block `{ return null; }`. */
  lemma SupplierExpressionBodiedGetsBlock()
    ensures var s := Spec(LambdaType("java.util.function.Supplier", Some(FunctionalMethod([], [], false))), false, true, false);
      && Accepted(s)
      && Describe(s) == GenerateExpressionBodiedLambda
      && CreatedBody(s.lambdaType.functionalMethod.value.returnsVoid, s.expressionBodied) == ReturnNullBlock
  {
  }

  /** The body the field documentation and the labels describe: the bare
      expression `null` for an expression-bodied specification and the block
      `{ return null; }` otherwise; a void method keeps the empty block. */
  function IntendedBody(returnsVoid: bool, expressionBodied: bool): (b: Body)
    ensures BodyFits(b, returnsVoid)
    ensures !returnsVoid ==> (b == NullExpr <==> expressionBodied)
  {
    if returnsVoid then DefaultBody
    else if expressionBodied then NullExpr
    else ReturnNullBlock
  }

  /** With the intended body, a lambda is expression-bodied exactly when its
      label belongs to the expression-bodied family. */
  lemma IntendedBodyMatchesLabel(s: Spec)
    requires Accepted(s)
    ensures var m := s.lambdaType.functionalMethod.value;
      IntendedBody(m.returnsVoid, s.expressionBodied) == NullExpr <==> Describe(s).IsExpressionBodiedFamily()
  {
  }
}
