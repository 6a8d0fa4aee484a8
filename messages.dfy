/** The six message keys that label a lambda variant in the menu and in the
    completion list. Only the keys are modelled; their localised texts are
    loaded from a resource bundle at run time. */
module Messages {

  datatype MessageKey =
    | GenerateLambda
    | GenerateLambdaExplicitParameterTypes
    | GenerateLambdaNoParentheses
    | GenerateExpressionBodiedLambda
    | GenerateExpressionBodiedLambdaExplicitParameterTypes
    | GenerateExpressionBodiedLambdaNoParentheses
  {
    /** The key belongs to the expression-bodied family. */
    predicate IsExpressionBodiedFamily()
    {
      || GenerateExpressionBodiedLambda?
      || GenerateExpressionBodiedLambdaExplicitParameterTypes?
      || GenerateExpressionBodiedLambdaNoParentheses?
    }

    /** The key announces explicit parameter types. */
    predicate NamesExplicitTypes()
    {
      GenerateLambdaExplicitParameterTypes? || GenerateExpressionBodiedLambdaExplicitParameterTypes?
    }

    /** The key announces a parameter list without parentheses. */
    predicate NamesNoParentheses()
    {
      GenerateLambdaNoParentheses? || GenerateExpressionBodiedLambdaNoParentheses?
    }
  }

  /** Every label key, one per declared constant. The datatype has no other
      constructors, so membership documents the enumeration rather than being
      a proved property of any function returning a key. */
  const LabelKeys: set<MessageKey> := {
    GenerateLambda,
    GenerateLambdaExplicitParameterTypes,
    GenerateLambdaNoParentheses,
    GenerateExpressionBodiedLambda,
    GenerateExpressionBodiedLambdaExplicitParameterTypes,
    GenerateExpressionBodiedLambdaNoParentheses
  }

  /** A key is fixed by its family and by which variant of the family it names. */
  lemma KeyDeterminedByFeatures(k1: MessageKey, k2: MessageKey)
    requires k1.IsExpressionBodiedFamily() == k2.IsExpressionBodiedFamily()
    requires k1.NamesExplicitTypes() == k2.NamesExplicitTypes()
    requires k1.NamesNoParentheses() == k2.NamesNoParentheses()
    ensures k1 == k2
  {
  }
}
