# Select projection dispatcher

A Dafny model of the projection dispatcher of a LINQ-to-SQL front end
(`SelectProjectionParser`) and of the naming authority its unit tests use
(`StubDatabaseInfo`).

The dispatcher takes the body of a query's `select` clause and hands it to the
right node parser:
- a `new` expression at the root is routed to the new-expression parser;
- anything else goes down the single-evaluation path. That path routes
  parameter, member, binary, method-call and constant nodes, each to its own
  parser, and throws a parser exception for every other node class.

Being routed to a parser is not the same as being parsed successfully: the
chosen parser may still throw.

When it is built, the dispatcher picks its field-access policy from the parse
context: the Where policy for a sub-query inside a `where` clause, the Select
policy otherwise. Each call of `GetParseResult` parses against a new, empty
field-descriptor list and returns that list beside the parse result.

Files:
- `wrappers.dfy`: `Option` (a C# null) and `Result` (a value or a thrown exception).
- `expressions.dfy`: expression trees. There is one constructor for each node class the dispatcher tests for and for the common other classes (unary, lambda, new-array, invocation, conditional, member-initialiser). A catch-all `Other` covers every remaining class. A `NodeKind` tag goes with them.
- `select_projection_parser.dfy`: module `ProjectionParsing`. It holds the policy choice, the two routing functions and the `SelectProjectionParser` class.
- `stub_database_info.dfy`: module `StubDatabaseInfo`, the table and column naming of the tests.

The node parsers, the parser registry, the clause field resolver and the two
policies are collaborators whose code is not part of this model. A routing
decision is therefore a `Delegation`: which parser is asked to parse which node,
with which field-descriptor list. `MemberOfColumn` is the inverse of the column
naming. It exists so that the round-trip lemma can state that column names
identify members.

## Model

| member | source | states |
|---|---|---|
| `ProjectionParsing.PolicyFor` | Linq/Parsing/Details/SelectProjectionParser.cs:41-45 | The Where policy is chosen exactly when the parse context is SubQueryInWhere, and it is built over the given database info; every other context gets the Select policy |
| `ProjectionParsing.ParseSingleEvaluationExpression` | Linq/Parsing/Details/SelectProjectionParser.cs:77-91 | A node is routed to a parser exactly when its kind is parameter, member, binary, method call or constant. The parser it goes to takes that node kind and gets the node and the current list. Any other node raises a parser exception carrying the expected-kinds text, the offending node, "single evaluation in projection expression" and the whole projection body |
| `ProjectionParsing.ParseExpression` | Linq/Parsing/Details/SelectProjectionParser.cs:93-101 | A new-expression goes to the new-expression parser. Any other root gets exactly the single-evaluation outcome, error included. So the root is routed to a parser exactly for the five single kinds plus new, always to the parser for its own kind |
| `ProjectionParsing.SingleEvaluationRoutesToOwnParser` | Linq/Parsing/Details/SelectProjectionParser.cs:79-88 | The single-evaluation path hands a node to a parser if and only if that parser takes the node's class and is not the new-expression parser |
| `ProjectionParsing.HandledKindInjective` | Linq/Parsing/Details/SelectProjectionParser.cs:79-88 | No two parsers take the same node class, so routing is exclusive |
| `ProjectionParsing.NewRootBypassesSingleEvaluation` | Linq/Parsing/Details/SelectProjectionParser.cs:95-99 | A new-expression root is parsed by the new-expression parser and never reaches the single-evaluation path, which would reject it |
| `ProjectionParsing.SelectProjectionParser.constructor` | Linq/Parsing/Details/SelectProjectionParser.cs:28-47 | Needs a non-null query model, database info, join context and projection body. It stores the parse context, query model and body. The resolver is built over the database info and join context with the policy for the parse context. No field list exists yet |
| `ProjectionParsing.SelectProjectionParser.GetParseResult` | Linq/Parsing/Details/SelectProjectionParser.cs:71-75 | Only the current field list changes. It becomes a newly allocated empty list, and that same object is returned. The body is routed with that list, so nothing from an earlier call carries over. The parse context and other fields are constants and never change |
| `StubDatabaseInfo.GetTableName` | Linq.UnitTests/StubDatabaseInfo.cs:11-16 | Needs a query-source type assignable to IQueryable<Student>; the table is then always "sourceTable", whatever the type |
| `StubDatabaseInfo.GetColumnName` | Linq.UnitTests/StubDatabaseInfo.cs:18-24 | No column exactly when the member is "NonDBProperty". Otherwise the column starts with the member name, ends in "Column", and is six characters longer |
| `StubDatabaseInfo.ColumnNameRoundTrip` | Linq.UnitTests/StubDatabaseInfo.cs:18-24 | A member maps to a column if and only if stripping "Column" from that column gives back the member |
| `StubDatabaseInfo.ColumnNameInjective` | Linq.UnitTests/StubDatabaseInfo.cs:18-24 | Two members with the same column name, or both without a column, are the same member |

## Left out

- The node parsers are not part of this model: parameter, member, new, binary, method call and constant. Neither are `ParserRegistry`, `ClauseFieldResolver`, `WhereFieldAccessPolicy` and `SelectFieldAccessPolicy`. Their behaviour is outside this model. A parser appears only as a tag in a `Delegation`, and the resolver and policies only as the values they are built from.
- ProjectionParsing.SelectProjectionParser.GetParseResult: the list it returns is stated as empty, and the evaluation list is stated as the routing decision. What the chosen node parser appends and which evaluations it returns depend on code that is not modelled.
- ProjectionParsing.ParseExpression: an `Ok` outcome means only that the root was routed to a parser. Exceptions thrown inside the chosen node parser are not modelled, though the source lets them escape from `GetParseResult`. Examples are a nested node of an unsupported kind reached through the registry, or a field-access policy violation.
- The parser instances and the "only for testing" registry are not modelled (constructor, lines 49-67). Which parser gets the root node is captured by `ParseExpression` and `ParseSingleEvaluationExpression`. Nested nodes are routed by the registry, which is not modelled. For example, a `new` nested inside a method call goes to the new-expression parser through the registry, although `ParseSingleEvaluationExpression` would reject it.
- Joins added to the join context during field resolution are not modelled. That context is only passed on to the resolver.
- The commented-out `FindSelectedFields`/`ResolveField` code (lines 103-188) is dead code and is not modelled.
- The `ParseContext` enum's declaration is not part of this model. It is given the two values TopLevelSelect and SubQueryInWhere. The choice is written as "SubQueryInWhere or anything else", as in the source.
- The argument null checks and the `Assertion.IsNotNull` check on the projection body are preconditions. The `ArgumentNullException` and assertion failures they throw are not modelled. Among them is the quirk that the null check on the query model reports the parameter name "queryExpression" (line 31). The NUnit assertion in `GetTableName` is a precondition too.
- Reflection is not modelled. A member is identified by its name. A CLR type is its full name plus the names of the types it can be assigned to, so covariance and inheritance are assumed to be already reflected in that set.
- UnitTests/Clauses/Expressions/TestDomain/TestableExtensionExpressionWithSpecificVisitor.cs is visitor glue for a test expression type. Extension nodes are modelled only as the catch-all `Other` node class.
