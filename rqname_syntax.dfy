/** RQName syntax: the texts the lexer reads as single tokens, the nodes the parser can
    build, and the RQName text of each node. */
module RQNameSyntax {
  import opened Common
  import opened RQNames
  import opened RQNameParsing

  // ---------------------------------------------------------------------------------------
  // Token texts and well-formed nodes
  // ---------------------------------------------------------------------------------------

  /** A text the lexer returns as one Text token when a delimiter follows it: it starts with a
      letter that is neither a digit nor '\0', and holds no delimiter. */
  predicate TextOk(cc: CharClasses, s: string)
  {
    |s| > 0 && s[0] != '\0' && !cc.isDigit(s[0]) && cc.isLetter(s[0]) &&
    forall k :: 0 <= k < |s| ==> !Delimiter(s[k])
  }

  /** A text the lexer returns as one Number token when a non-digit follows it. */
  predicate DigitsOk(cc: CharClasses, s: string)
  {
    |s| > 0 && s[0] != '\0' && !Delimiter(s[0]) && forall k :: 0 <= k < |s| ==> cc.isDigit(s[k])
  }

  predicate KeywordInitial(cc: CharClasses, c: char)
  {
    cc.isLetter(c) && !cc.isDigit(c)
  }

  /** What char.IsLetter and char.IsDigit are known to say and the round trip needs: the
      keywords start with letters that are not digits, and ')' is not a digit. */
  predicate StandardClasses(cc: CharClasses)
  {
    KeywordInitial(cc, 'A') && KeywordInitial(cc, 'E') && KeywordInitial(cc, 'I') && KeywordInitial(cc, 'M') &&
    KeywordInitial(cc, 'N') && KeywordInitial(cc, 'P') && KeywordInitial(cc, 'T') && !cc.isDigit(')')
  }

  /** The keywords of the grammar, each read as a Text token. */
  predicate IsKeyword(s: string)
  {
    s == "Ns" || s == "Agg" || s == "Membvar" || s == "Event" || s == "Meth" || s == "Prop" ||
    s == "AggName" || s == "NsName" || s == "PropName" || s == "TypeVarCnt" || s == "Params" ||
    s == "MembvarName" || s == "IntfExplName" || s == "MethName" || s == "EventName"
  }

  predicate SymbolNameOk(cc: CharClasses, n: SymbolNameNode)
  {
    TextOk(cc, n.simpleName.text) && (n.AggregateNameNode? ==> DigitsOk(cc, n.typeVariableCount.text))
  }

  predicate NamesOk(cc: CharClasses, names: seq<SymbolNameNode>)
  {
    |names| > 0 && forall i :: 0 <= i < |names| ==> SymbolNameOk(cc, names[i])
  }

  /** The nodes the parser can build: name lists are non-empty, names and counts are single
      tokens, and parameter lists are empty. */
  predicate WellFormed(cc: CharClasses, n: RQNameNode)
  {
    match n
    case NamespaceNode(names) => NamesOk(cc, names)
    case TopAggregate(aggregate) => NamesOk(cc, aggregate.names)
    case MemberVariableNode(aggregate, symbolName) => NamesOk(cc, aggregate.names) && SymbolNameOk(cc, symbolName)
    case EventNode(aggregate, symbolName) => NamesOk(cc, aggregate.names) && SymbolNameOk(cc, symbolName)
    case MethodNode(aggregate, symbolName, count, parameters) =>
      NamesOk(cc, aggregate.names) && SymbolNameOk(cc, symbolName) && DigitsOk(cc, count.text) &&
      parameters.parameterList == []
    case PropertyNode(aggregate, symbolName, count, parameters) =>
      NamesOk(cc, aggregate.names) && SymbolNameOk(cc, symbolName) && DigitsOk(cc, count.text) &&
      parameters.parameterList == []
  }

  // ---------------------------------------------------------------------------------------
  // RQName syntax of a node
  // ---------------------------------------------------------------------------------------

  function Call(keyword: string, arguments: string): string
  {
    keyword + "(" + arguments + ")"
  }

  function CountText(n: TypeVariableCountNode): string
  {
    Call("TypeVarCnt", n.text)
  }

  function SymbolNameText(n: SymbolNameNode): string
  {
    match n
    case AggregateNameNode(simpleName, count) => Call("AggName", simpleName.text + "," + CountText(count))
    case NamespaceNameNode(simpleName) => Call("NsName", simpleName.text)
    case PropertyNameNode(simpleName) => Call("PropName", simpleName.text)
  }

  function NamesText(names: seq<SymbolNameNode>): string
    decreases |names|
  {
    if |names| == 0 then ""
    else if |names| == 1 then SymbolNameText(names[0])
    else SymbolNameText(names[0]) + "," + NamesText(names[1..])
  }

  function AggregateText(n: AggregateNode): string
  {
    Call("Agg", NamesText(n.names))
  }

  /** Only empty parameter lists have a syntax the parser reads. */
  function ParametersText(n: ParametersNode): string
  {
    Call("Params", "")
  }

  /** The last two arguments of a method or property. */
  function SignatureText(count: TypeVariableCountNode, parameters: ParametersNode): string
  {
    CountText(count) + "," + ParametersText(parameters)
  }

  function RQNameText(n: RQNameNode): string
  {
    match n
    case NamespaceNode(names) => Call("Ns", NamesText(names))
    case TopAggregate(aggregate) => AggregateText(aggregate)
    case MemberVariableNode(aggregate, symbolName) =>
      Call("Membvar", AggregateText(aggregate) + "," + SymbolNameText(symbolName))
    case EventNode(aggregate, symbolName) =>
      Call("Event", AggregateText(aggregate) + "," + SymbolNameText(symbolName))
    case MethodNode(aggregate, symbolName, count, parameters) =>
      Call("Meth", AggregateText(aggregate) + "," + SymbolNameText(symbolName) + "," + SignatureText(count, parameters))
    case PropertyNode(aggregate, symbolName, count, parameters) =>
      Call("Prop", AggregateText(aggregate) + "," + SymbolNameText(symbolName) + "," + SignatureText(count, parameters))
  }

  // ---------------------------------------------------------------------------------------
  // Text at a position
  // ---------------------------------------------------------------------------------------

  /** `s` occurs in `input` at `pos`. */
  predicate At(input: string, pos: nat, s: string)
  {
    pos + |s| <= |input| && input[pos..pos + |s|] == s
  }

  /** `s` occurs at `pos` and a production starting there ended at `next`, right after it. */
  predicate Spans(input: string, pos: nat, s: string, next: nat)
  {
    At(input, pos, s) && next == pos + |s|
  }

  function PunctuationKind(c: char): TokenKind
    requires Delimiter(c)
  {
    if c == '.' then Period else if c == ',' then Comma else if c == '(' then LParen else RParen
  }

  function MemberKeyword(event: bool): string
  {
    if event then "Event" else "Membvar"
  }

  function MethodKeyword(property: bool): string
  {
    if property then "Prop" else "Meth"
  }

  /** The node rq_membvar or rq_event builds. */
  function MemberNode(event: bool, aggregate: AggregateNode, symbolName: SymbolNameNode): RQNameNode
  {
    if event then EventNode(aggregate, symbolName) else MemberVariableNode(aggregate, symbolName)
  }

  /** The node rq_meth or rq_prop builds. */
  function MethodOrPropertyNode(property: bool, aggregate: AggregateNode, symbolName: SymbolNameNode,
                                count: TypeVariableCountNode, parameters: ParametersNode): RQNameNode
  {
    if property then PropertyNode(aggregate, symbolName, count, parameters)
    else MethodNode(aggregate, symbolName, count, parameters)
  }
}
