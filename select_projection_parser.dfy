/**
 * The projection dispatcher of a LINQ `select`: it picks the field-access
 * policy for its parse context, and routes the projection body either to the
 * new-expression parser or, node kind by node kind, to the parser for a
 * single evaluation. The node parsers, the parser registry, the clause field
 * resolver and the two policies are collaborators whose behaviour is not part
 * of this model; a routing decision is recorded as the Delegation of one
 * node, with the field-descriptor list, to one named parser.
 */
module ProjectionParsing {
  import opened Wrappers
  import opened Expressions

  /** Where the projection being parsed sits in the query. */
  datatype ParseContext = TopLevelSelect | SubQueryInWhere

  /** Handles to collaborators whose content the dispatcher never inspects. */
  class QueryModel {}
  class DatabaseInfo {}
  class JoinedTableContext {}

  /** The two field-access policies; the Where policy is built over the database info. */
  datatype FieldAccessPolicy =
    | WhereFieldAccessPolicy(databaseInfo: DatabaseInfo)
    | SelectFieldAccessPolicy

  /** The resolver the member and parameter parsers share. */
  datatype ClauseFieldResolver = ClauseFieldResolver(
    databaseInfo: DatabaseInfo, context: JoinedTableContext, policy: FieldAccessPolicy)

  /**
   * A resolved source column; `column` is None for a member that is not persisted.
   * It stands in for the element type of the field-descriptor list: the node
   * parsers that create descriptors are not modelled, so only the list's
   * identity and its initial emptiness are.
   */
  datatype FieldDescriptor = FieldDescriptor(querySource: string, memberChain: seq<string>, column: Option<string>)

  /** The mutable list the node parsers append field descriptors to; in this model it is only ever created empty. */
  class DescriptorList {
    var items: seq<FieldDescriptor>

    constructor ()
      ensures items == []
    {
      items := [];
    }
  }

  /** The node parsers, one per node class they accept. */
  datatype NodeParser =
    | ParameterExpressionParser
    | MemberExpressionParser
    | BinaryExpressionParser
    | MethodCallExpressionParser
    | ConstantExpressionParser
    | NewExpressionParser

  /** The node class each parser's Parse operation takes. */
  function HandledKind(parser: NodeParser): NodeKind
  {
    match parser
    case ParameterExpressionParser => ParameterNode
    case MemberExpressionParser => MemberNode
    case BinaryExpressionParser => BinaryNode
    case MethodCallExpressionParser => MethodCallNode
    case ConstantExpressionParser => ConstantNode
    case NewExpressionParser => NewNode
  }

  /** A routing decision: `parser` is asked to parse `node`, appending to `fields`. */
  datatype Delegation = Delegation(parser: NodeParser, node: Expr, fields: DescriptorList)

  /** A parser exception: the kinds expected, the node found, what was being parsed and the whole projection. */
  datatype ParserException = ParserException(
    expected: string, offending: Expr, parsing: string, projection: Expr)

  type ParseOutcome = Result<Delegation, ParserException>

  /** The node kinds the single-evaluation path accepts. */
  const SingleEvaluationKinds: set<NodeKind> :=
    {ParameterNode, MemberNode, BinaryNode, MethodCallNode, ConstantNode}

  const ExpectedSingleEvaluationKinds: string :=
    "member expression, parameter expression, binary expression, methodcall expression or constant expression "
  const SingleEvaluationContext: string := "single evaluation in projection expression"

  /** The policy a parser for `parseContext` resolves fields with. */
  function PolicyFor(parseContext: ParseContext, databaseInfo: DatabaseInfo): (policy: FieldAccessPolicy)
    ensures policy.WhereFieldAccessPolicy? <==> parseContext == SubQueryInWhere
    ensures policy.WhereFieldAccessPolicy? ==> policy.databaseInfo == databaseInfo
  {
    if parseContext == SubQueryInWhere then WhereFieldAccessPolicy(databaseInfo) else SelectFieldAccessPolicy
  }

  /**
   * Routes one node of the five single-evaluation kinds to the parser for its
   * kind; any other node, a new-expression included, is a parser exception.
   */
  function ParseSingleEvaluationExpression(expression: Expr, projectionBody: Expr, fields: DescriptorList): (r: ParseOutcome)
    ensures r.Ok? <==> KindOf(expression) in SingleEvaluationKinds
    ensures r.Ok? ==> HandledKind(r.value.parser) == KindOf(expression)
    ensures r.Ok? ==> r.value.node == expression && r.value.fields == fields
    ensures r.Err? ==> r.error.offending == expression && r.error.projection == projectionBody
    ensures r.Err? ==> r.error.expected == ExpectedSingleEvaluationKinds && r.error.parsing == SingleEvaluationContext
  {
    if expression.Parameter? then Ok(Delegation(ParameterExpressionParser, expression, fields))
    else if expression.Member? then Ok(Delegation(MemberExpressionParser, expression, fields))
    else if expression.Binary? then Ok(Delegation(BinaryExpressionParser, expression, fields))
    else if expression.MethodCall? then Ok(Delegation(MethodCallExpressionParser, expression, fields))
    else if expression.Constant? then Ok(Delegation(ConstantExpressionParser, expression, fields))
    else Err(ParserException(ExpectedSingleEvaluationKinds, expression, SingleEvaluationContext, projectionBody))
  }

  /** Routes the root of a projection: a new-expression to its own parser, anything else down the single-evaluation path. */
  function ParseExpression(expression: Expr, projectionBody: Expr, fields: DescriptorList): (r: ParseOutcome)
    ensures expression.New? ==> r == Ok(Delegation(NewExpressionParser, expression, fields))
    ensures !expression.New? ==> r == ParseSingleEvaluationExpression(expression, projectionBody, fields)
    ensures r.Ok? <==> KindOf(expression) in SingleEvaluationKinds + {NewNode}
    ensures r.Ok? ==> HandledKind(r.value.parser) == KindOf(expression)
    ensures r.Ok? ==> r.value.node == expression && r.value.fields == fields
  {
    if expression.New? then Ok(Delegation(NewExpressionParser, expression, fields))
    else ParseSingleEvaluationExpression(expression, projectionBody, fields)
  }

  /** Each parser takes exactly one node class, so no node can be routed to two parsers. */
  lemma HandledKindInjective(p: NodeParser, q: NodeParser)
    ensures HandledKind(p) == HandledKind(q) ==> p == q
  {
  }

  /** The single-evaluation path hands a node to a parser exactly when that parser is not the new-expression parser and takes the node's class. */
  lemma SingleEvaluationRoutesToOwnParser(expression: Expr, projectionBody: Expr, fields: DescriptorList, parser: NodeParser)
    ensures (ParseSingleEvaluationExpression(expression, projectionBody, fields).Ok? &&
             ParseSingleEvaluationExpression(expression, projectionBody, fields).value.parser == parser)
        <==> (parser != NewExpressionParser && HandledKind(parser) == KindOf(expression))
  {
  }

  /** A new-expression at the root goes to the new-expression parser; on the single-evaluation path it would be rejected. */
  lemma NewRootBypassesSingleEvaluation(expression: Expr, projectionBody: Expr, fields: DescriptorList)
    requires expression.New?
    ensures ParseExpression(expression, projectionBody, fields).Ok?
    ensures ParseExpression(expression, projectionBody, fields).value.parser == NewExpressionParser
    ensures ParseSingleEvaluationExpression(expression, projectionBody, fields).Err?
  {
  }

  class SelectProjectionParser {
    const parseContext: ParseContext
    const queryModel: QueryModel
    const projectionBody: Expr
    const resolver: ClauseFieldResolver
    /** Null until the first call of GetParseResult. */
    var fieldDescriptors: DescriptorList?

    constructor (queryModel: QueryModel?, projectionBody: Option<Expr>, databaseInfo: DatabaseInfo?,
                 context: JoinedTableContext?, parseContext: ParseContext)
      requires queryModel != null
      requires databaseInfo != null
      requires context != null
      requires projectionBody.Some?
      ensures this.parseContext == parseContext
      ensures this.queryModel == queryModel && this.projectionBody == projectionBody.value
      ensures resolver.databaseInfo == databaseInfo && resolver.context == context
      ensures resolver.policy == PolicyFor(parseContext, databaseInfo)
      ensures fieldDescriptors == null
    {
      this.queryModel := queryModel;
      this.projectionBody := projectionBody.value;
      this.parseContext := parseContext;
      var policy := PolicyFor(parseContext, databaseInfo);
      resolver := ClauseFieldResolver(databaseInfo, context, policy);
      fieldDescriptors := null;
    }

    /**
     * Parses the projection body against a new, empty field-descriptor list,
     * which becomes the current list and is returned beside the routing outcome.
     * When the outcome is `Err` the source throws and returns nothing: the
     * returned list is then not a result, and only the reassignment of the
     * current list persists.
     */
    method GetParseResult() returns (fields: DescriptorList, evaluation: ParseOutcome)
      modifies this`fieldDescriptors
      ensures fresh(fields) && fields.items == []
      ensures fieldDescriptors == fields
      ensures evaluation == ParseExpression(projectionBody, projectionBody, fields)
    {
      fieldDescriptors := new DescriptorList();
      fields := fieldDescriptors;
      evaluation := ParseExpression(projectionBody, projectionBody, fieldDescriptors);
    }
  }
}
