/**
 * Expression trees as handed to the projection parser: one constructor per
 * node class of System.Linq.Expressions that the parser distinguishes, plus
 * the most common other node classes, and one catch-all for the rest. The node classes are
 * disjoint, so a C# `is` test becomes a constructor test.
 */
module Expressions {
  import opened Wrappers

  /** The value held by a constant node. */
  datatype Literal = NullLiteral | BoolLiteral(b: bool) | IntLiteral(i: int) | StringLiteral(s: string)

  datatype Expr =
    | Parameter(name: string)
    /** `target` is None for a static member. */
    | Member(target: Option<Expr>, memberName: string)
    | Binary(operator: string, left: Expr, right: Expr)
    /** `target` is None for a static method. */
    | MethodCall(target: Option<Expr>, methodName: string, arguments: seq<Expr>)
    | Constant(value: Literal)
    /** A constructor call, with the members its arguments initialise, in declared order. */
    | New(constructorName: string, arguments: seq<Expr>, members: seq<string>)
    | Unary(operator: string, operand: Expr)
    | Lambda(parameters: seq<string>, body: Expr)
    | NewArray(elements: seq<Expr>)
    | Invocation(callee: Expr, arguments: seq<Expr>)
    | Conditional(test: Expr, ifTrue: Expr, ifFalse: Expr)
    /** An object initialiser `new T(...) { A = e, ... }`: a constructor call followed by member bindings. */
    | MemberInit(construction: Expr, bindings: seq<(string, Expr)>)
    /**
     * Any further node class, by its type name: list initialisers, type tests,
     * user-defined extension expressions and the rest.
     */
    | Other(typeName: string)

  /** The node class of an expression, as a tag. */
  datatype NodeKind =
    | ParameterNode | MemberNode | BinaryNode | MethodCallNode | ConstantNode | NewNode
    | UnaryNode | LambdaNode | NewArrayNode | InvocationNode | ConditionalNode | MemberInitNode | OtherNode

  function KindOf(e: Expr): NodeKind
  {
    match e
    case Parameter(_) => ParameterNode
    case Member(_, _) => MemberNode
    case Binary(_, _, _) => BinaryNode
    case MethodCall(_, _, _) => MethodCallNode
    case Constant(_) => ConstantNode
    case New(_, _, _) => NewNode
    case Unary(_, _) => UnaryNode
    case Lambda(_, _) => LambdaNode
    case NewArray(_) => NewArrayNode
    case Invocation(_, _) => InvocationNode
    case Conditional(_, _, _) => ConditionalNode
    case MemberInit(_, _) => MemberInitNode
    case Other(_) => OtherNode
  }
}
