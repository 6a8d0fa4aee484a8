/** The part of a Java lambda-expression syntax tree that the generator builds:
    the parameter declarations, the body and the parentheses flag. */
module LambdaAst {
  import opened Wrappers

  /** A resolved Java type, identified by its qualified name. */
  datatype TypeRef = TypeRef(qualifiedName: string)

  /** A lambda parameter: a name-only fragment (`typ == None`) or a
      declaration with an explicit type. */
  datatype Param = Param(name: string, typ: Option<TypeRef>)

  /** The body of the lambda: the empty block a new lambda node starts with,
      a block holding the single statement `return null;`, or the bare
      expression `null`. */
  datatype Body = DefaultBody | ReturnNullBlock | NullExpr

  datatype Lambda = Lambda(params: seq<Param>, body: Body, parens: bool)

  /** A freshly created lambda node: no parameters, an empty block body and
      parentheses around the (empty) parameter list. */
  const NewLambda: Lambda := Lambda([], DefaultBody, true)

  /** Java accepts a parameter list without parentheses only when it is a
      single parameter with an inferred type (section 15.27.1 of the Java
      Language Specification). */
  predicate ParenthesesWellFormed(lam: Lambda)
  {
    !lam.parens ==> |lam.params| == 1 && lam.params[0].typ.None?
  }

  /** The body has the shape the return type asks for: a void method's lambda
      keeps the empty block, any other method's lambda gets a body that yields
      `null`. Whether `null` type-checks against the result type (it does not
      for a primitive one) is not captured. */
  predicate BodyFits(body: Body, returnsVoid: bool)
  {
    returnsVoid <==> body == DefaultBody
  }
}
