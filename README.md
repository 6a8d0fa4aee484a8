# Lambda stubs: specification, enumeration and construction of lambda stubs

The project models the core of an Eclipse plug-in that writes lambda stubs for
a functional-interface type: the class `LambdaSpecification`. A specification
holds three stylistic choices, checked against the interface's single abstract
method:

- `explicitTypes`: the parameters carry their types;
- `expressionBodied`: the lambda is meant to be expression-bodied;
- `omitParentheses`: the parameter list has no parentheses.

The model has four parts, all in module `LambdaSpecification`
(`lambda_specification.dfy`):

- the validating constructor, `NewSpec`, a function that returns either the
  specification or the IllegalArgumentException it would throw (`SpecError`);
- the enumeration, `ComputeValidSpecifications`, a method with the three nested
  loops and `continue` filters of the code, collecting a `set<Spec>`;
- the lambda builder, `Create`, a method that appends one parameter per method
  parameter in a loop and then sets the body and the parentheses;
- the label selection, `Describe`, a function onto the six message keys of
  module `Messages` (`messages.dfy`).

The Eclipse inputs become values. A type binding is a `LambdaType` with its
qualified name and, when it is a functional interface, a `FunctionalMethod`:
parameter names, parameter types and whether the return type is `void`. The
lambda syntax tree is a `LambdaAst.Lambda` datatype: parameters, a body and a
parentheses flag. A parameter is `Param(name, Option<TypeRef>)`. The body is
`DefaultBody` (the empty block a new lambda node starts with),
`ReturnNullBlock` or `NullExpr`. `Create` also returns the sequence of types it
hands to the import rewriter, in call order. `LambdaSpecification` does not
define equality, so its `HashSet` keeps one object per triple the loops reach.
The model keeps one value per triple in a `set`.

Behaviour as the code has it, where the comments or field documentation say
otherwise:

- the enumeration yields six specifications for a one-parameter method with a
  result; the comment at `LambdaSpecification.java:75` says at most four
  (`MoreThanFourSpecifications`);
- `create` builds a `{ return null; }` block when `expressionBodied` is true and
  a bare `null` otherwise, the reverse of the field documentation (see
  Findings).

The code also has no rule that derives parameter names (they always come from
the method's declared parameter names) or that merges the explicit-types and
inferred-types variants of a zero-parameter method (both are kept).

## Model

| member | source | states |
|---|---|---|
| `LambdaSpecification.NewSpec` | src/main/java/io/github/daomephsta/lambda_stubs/LambdaSpecification.java:41-62 | The constructor succeeds iff the type has a functional method, parentheses are omitted only around one parameter with inferred type, and a void method is not expression-bodied. On success it stores the three choices unchanged. Otherwise it fails with the first failing check, in code order: not a functional interface (with the type's name), explicit types without parentheses, a parameter count other than one without parentheses, void with an expression body. |
| `LambdaSpecification.ComputeValidSpecifications` | src/main/java/io/github/daomephsta/lambda_stubs/LambdaSpecification.java:69-95 | A non-functional type fails as the constructor does. Otherwise the result is a success: a specification is in it iff it belongs to this type and the constructor accepts it. The constructor is never reached with a rejected triple. The result equals `ValidSpecifications(t)`. |
| `LambdaSpecification.EnumerationSound` | src/main/java/io/github/daomephsta/lambda_stubs/LambdaSpecification.java:78-90 | Every enumerated specification is accepted by the constructor. Parentheses are omitted only with exactly one parameter and inferred types. A void method never gets an expression-bodied specification. |
| `LambdaSpecification.EnumerationComplete` | src/main/java/io/github/daomephsta/lambda_stubs/LambdaSpecification.java:77-93 | Every triple the constructor accepts is enumerated. |
| `LambdaSpecification.EnumerationSize` | src/main/java/io/github/daomephsta/lambda_stubs/LambdaSpecification.java:75-93 | The enumeration has 6 members for a one-parameter method with a result, 4 for a method with a result and another parameter count, 3 for a one-parameter void method and 2 for any other void method. |
| `LambdaSpecification.VoidOneParameterSize` | src/main/java/io/github/daomephsta/lambda_stubs/LambdaSpecification.java:78-93 | A one-parameter void method has exactly 3 valid specifications. |
| `LambdaSpecification.VoidSize` | src/main/java/io/github/daomephsta/lambda_stubs/LambdaSpecification.java:78-93 | A void method whose parameter count is not one has exactly 2 valid specifications. |
| `LambdaSpecification.OneParameterSize` | src/main/java/io/github/daomephsta/lambda_stubs/LambdaSpecification.java:78-93 | A one-parameter method with a result has exactly 6 valid specifications. |
| `LambdaSpecification.OtherSize` | src/main/java/io/github/daomephsta/lambda_stubs/LambdaSpecification.java:78-93 | A method with a result whose parameter count is not one has exactly 4 valid specifications. |
| `LambdaSpecification.MoreThanFourSpecifications` | src/main/java/io/github/daomephsta/lambda_stubs/LambdaSpecification.java:75 | Some functional type has more than four valid specifications, so the comment's bound of four does not hold. |
| `LambdaSpecification.Create` | src/main/java/io/github/daomephsta/lambda_stubs/LambdaSpecification.java:104-143 | There is one parameter per method parameter, in order. Parameter `p` is named after the method's parameter name `p`. A parameter has a type iff types are explicit, and that type is the method's parameter type `p`. The import requests are all parameter types, in order, when types are explicit, and none otherwise. Body: a void method keeps the default empty block; otherwise `expressionBodied` gives `{ return null; }` and its absence gives `null`. A void method keeps the empty block; any other method gets a body yielding `null`. Parentheses are off iff `omitParentheses`. For an accepted specification, parentheses are omitted only around a single untyped parameter. |
| `LambdaSpecification.Describe` | src/main/java/io/github/daomephsta/lambda_stubs/LambdaSpecification.java:148-168 | The label is in the expression-bodied family iff `expressionBodied`. It names explicit types iff `explicitTypes`. It names omitted parentheses iff types are inferred and parentheses are omitted, so explicit types take precedence. Otherwise the label is the plain one. (That it is one of the six keys holds by the key type itself.) |
| `LambdaSpecification.DescribeIgnoresParenthesesUnderExplicitTypes` | src/main/java/io/github/daomephsta/lambda_stubs/LambdaSpecification.java:152-153 | With explicit types the label does not depend on `omitParentheses`, so on unvalidated triples the label is not one-to-one. |
| `LambdaSpecification.DescribeInjectiveOnAccepted` | src/main/java/io/github/daomephsta/lambda_stubs/LambdaSpecification.java:148-168 | Two constructor-accepted specifications with the same label agree on all three choices. |
| `LambdaSpecification.EnumeratedLabelsDistinct` | src/main/java/io/github/daomephsta/lambda_stubs/LambdaSpecification.java:69-95 | The labels of one type's enumerated specifications are pairwise distinct. There are as many labels as specifications. |
| `LambdaSpecification.CreatedBodyInvertsExpressionChoice` | src/main/java/io/github/daomephsta/lambda_stubs/LambdaSpecification.java:129-136 | Every accepted expression-bodied specification for a method with a result has a label in the expression-bodied family, yet `create` gives it the block `{ return null; }`. |
| `LambdaSpecification.SupplierExpressionBodiedGetsBlock` | src/main/java/io/github/daomephsta/lambda_stubs/LambdaSpecification.java:129-136 | The witness: a `Supplier`-like type (no parameters, non-void) with inferred types, parentheses and `expressionBodied` is accepted and labelled `GenerateExpressionBodiedLambda`, yet gets the block `{ return null; }`. |
| `LambdaSpecification.IntendedBody` | src/main/java/io/github/daomephsta/lambda_stubs/LambdaSpecification.java:27-32 | A void method keeps the empty block; any other method gets a body yielding `null`. For a method with a result, the body is the bare expression iff the specification is expression-bodied. |
| `LambdaSpecification.IntendedBodyMatchesLabel` | src/main/java/io/github/daomephsta/lambda_stubs/LambdaSpecification.java:148-168 | With the documented body, an accepted specification builds an expression body iff its label is in the expression-bodied family. |
| `Messages.KeyDeterminedByFeatures` | src/main/java/io/github/daomephsta/lambda_stubs/Messages.java:7-12 | A key is determined by its family and by whether it names explicit types or omitted parentheses. |

## Left out

- Editor and UI glue are not part of this model: `GenerateLambdaHander.java`, `LambdaStubsJavaCompletionProposalComputer.java`, `LambdaStubCompletionProposal.java` and `ASTNodes.java`. They cover cursor lookup, AST parsing, menus, completion proposals, and applying text edits and import edits.
- Message texts: `Messages.java` loads them from a resource bundle. Only the six label keys are modelled.
- `JavaModelException`: the Java model can throw it on access, which is foreign I/O, so it is not modelled.
- Type bindings are abstracted. A binding is its qualified name plus an optional `FunctionalMethod`. The comparison of the return type with `Signature.SIG_VOID` becomes the boolean `returnsVoid`.
- The code reads the parameter count from both the method binding and the Java model. `Create` requires that the two agree (`LambdaType.WellFormed`).
- `LambdaSpecification.Create`: `ImportRewrite.addImport` is recorded as a type appended to `imports`. The model does not say which type node the rewriter returns, such as a simple name once imported. The parameter carries the type binding itself.
- `LambdaSpecification.Create`: the syntax tree is built as a value. The model does not capture JDT node allocation, parent links or the `AST` factory.
- `LambdaSpecification.Create`: `returnsVoid` does not separate primitive from reference results. For a primitive result (`int compare(T, T)`, `boolean test(T)`) the `null` placeholder the code emits does not type-check against the result type (section 15.27.3 of the Java Language Specification); the model does not capture that.
- `LambdaSpecification.Create`: it requires a functional type, which every constructed specification has. The code would fail with a null dereference on any other type.
- `LambdaSpecification.ComputeValidSpecifications`: it returns a set of values. A `HashSet` of distinct objects has no order and no duplicate triples, and this set keeps the same members without object identity.

## Findings

| source | as written | input that shows it | evidently intended | confidence | as-written member | corrected member |
|---|---|---|---|---|---|---|
| src/main/java/io/github/daomephsta/lambda_stubs/LambdaSpecification.java:129-138 | For a method with a result, `expressionBodied` true gives the block `{ return null; }`, and false gives the bare expression `null` | A `Supplier`-like type: no parameters, non-void, `expressionBodied` true. The specification is accepted and labelled `GenerateExpressionBodiedLambda`, yet it gives a block body | `expressionBodied` gives the expression `null` and its absence gives the block, as the field documentation at lines 29-30 and the labels say | high; not executed | `LambdaSpecification.SupplierExpressionBodiedGetsBlock` | `LambdaSpecification.IntendedBody` |

`Create` follows the code as written. `IntendedBody` is the documented behaviour, and `IntendedBodyMatchesLabel` proves that it agrees with the labels.
