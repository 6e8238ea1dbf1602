/** The RQName syntax tree the parser builds (the RQNames directory). Every node is immutable and
    stores its constructor arguments unchanged, so each is a datatype. */
module RQNames {

  /** SimpleNameNode: a name's text. */
  datatype SimpleNameNode = SimpleNameNode(text: string)

  /** TypeVariableCountNode, which the modelled files do not define: the digits of the count. */
  datatype TypeVariableCountNode = TypeVariableCountNode(text: string)

  /** ParameterNode, which the modelled files do not define and the parser never builds. */
  datatype ParameterNode = ParameterNode

  /** ParametersNode: the parameter list, by value. */
  datatype ParametersNode = ParametersNode(parameterList: seq<ParameterNode>)

  /** The symbol names the parser builds: AggregateNameNode, NamespaceNameNode (not defined in
      the modelled files) and PropertyNameNode, a member name. */
  datatype SymbolNameNode =
    | AggregateNameNode(simpleName: SimpleNameNode, typeVariableCount: TypeVariableCountNode)
    | NamespaceNameNode(simpleName: SimpleNameNode)
    | PropertyNameNode(simpleName: SimpleNameNode)
  {
    /** PropertyNameNode.Name. */
    function Name(): (r: string)
      requires PropertyNameNode?
      ensures r == simpleName.text
    {
      simpleName.text
    }
  }

  /** AggregateNode: its symbol names in order. */
  datatype AggregateNode = AggregateNode(names: seq<SymbolNameNode>)

  /** The top-level RQName nodes. An AggregateNode is one of them, and it is also the first
      component of the member nodes; `TopAggregate` wraps it at the top. NamespaceNode,
      EventNode and PropertyNode are not defined in the modelled files and are shaped by
      their constructor calls. */
  datatype RQNameNode =
    | NamespaceNode(names: seq<SymbolNameNode>)
    | TopAggregate(aggregate: AggregateNode)
    | MemberVariableNode(aggregate: AggregateNode, symbolName: SymbolNameNode)
    | EventNode(aggregate: AggregateNode, symbolName: SymbolNameNode)
    | MethodNode(aggregate: AggregateNode, symbolName: SymbolNameNode, typeVariableCount: TypeVariableCountNode,
                 parameters: ParametersNode)
    | PropertyNode(aggregate: AggregateNode, symbolName: SymbolNameNode, typeVariableCount: TypeVariableCountNode,
                   parameters: ParametersNode)
}
