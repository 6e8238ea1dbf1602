/** RQNameParser.cs: a tokenizer over a mutable index and a recursive-descent parser for the
    supported part of the RQName grammar. Each production is specified by a function of the
    input and the start position (the `...At` functions); the Parser class mirrors the
    source's methods and is proved to follow those functions. */
module RQNameParsing {
  import opened Common
  import opened RQNames

  /** char.IsDigit and char.IsLetter. */
  datatype CharClasses = CharClasses(isDigit: char -> bool, isLetter: char -> bool)

  datatype TokenKind = Text | Number | Period | Comma | LParen | RParen | EOF | Invalid

  /** Token: EOF and Invalid tokens have empty text. */
  datatype Token = Token(kind: TokenKind, text: string)

  /** The characters that end a Text token. */
  predicate Delimiter(c: char)
  {
    c == '.' || c == ',' || c == '(' || c == ')'
  }

  /** The digit loop of Peek: `i` after `while (i < n && isDigit(input[i++])) {}`. */
  function NumberScan(isDigit: char -> bool, input: string, i: nat): (e: nat)
    requires i <= |input|
    ensures i <= e <= |input|
    decreases |input| - i
  {
    if i < |input| then (if isDigit(input[i]) then NumberScan(isDigit, input, i + 1) else i + 1)
    else i
  }

  /** The text loop of Peek: `i` after `while (i < n && c is no delimiter) { c = input[i++]; }`. */
  function TextScan(input: string, i: nat, c: char): (e: nat)
    requires i <= |input|
    ensures i <= e <= |input|
    decreases |input| - i
  {
    if i < |input| && !Delimiter(c) then TextScan(input, i + 1, input[i]) else i
  }

  /** Peek: the token at `pos`. A token that is not empty ends within the input. */
  function Lex(cc: CharClasses, input: string, pos: nat): (t: Token)
    ensures |t.text| > 0 ==> pos + |t.text| <= |input|
  {
    var c := if |input| > pos then input[pos] else '\0';
    if c == '\0' then Token(EOF, "")
    else if c == '.' then Token(Period, ".")
    else if c == ',' then Token(Comma, ",")
    else if c == '(' then Token(LParen, "(")
    else if c == ')' then Token(RParen, ")")
    else if cc.isDigit(c) then Token(Number, input[pos..NumberScan(cc.isDigit, input, pos) - 1])
    else if cc.isLetter(c) then Token(Text, input[pos..TextScan(input, pos, c) - 1])
    else Token(Invalid, "")
  }

  /** A production's result and the position after it. */
  datatype Parsed<+T> = Parsed(node: T, next: nat)

  /** A method's result paired with the parser's index afterwards. */
  function Packed<T>(r: Result<T>, next: nat): Result<Parsed<T>>
  {
    match r
    case Success(v) => Success(Parsed(v, next))
    case Failure(e) => Failure(e)
  }

  /** Accept: the next token if its kind matches and, when `text` is given, its text is that
      text; Take then refuses an empty token. */
  function AcceptAt(cc: CharClasses, input: string, pos: nat, kind: TokenKind, text: Option<string>)
    : (r: Result<Parsed<Token>>)
    ensures r.Success? ==> pos < r.value.next <= |input|
  {
    var token := Lex(cc, input, pos);
    if token.kind != kind then Failure(Argument)
    else if text.Some? && text.value != token.text then Failure(Argument)
    else if |token.text| == 0 then Failure(InvalidOperation)
    else Success(Parsed(token, pos + |token.text|))
  }

  /** Optional: consume the next token only if its kind matches. */
  function OptionalAt(cc: CharClasses, input: string, pos: nat, kind: TokenKind): (r: Result<Parsed<bool>>)
    ensures r.Success? && r.value.node ==> pos < r.value.next <= |input|
    ensures r.Success? && !r.value.node ==> r.value.next == pos
  {
    var token := Lex(cc, input, pos);
    if token.kind != kind then Success(Parsed(false, pos))
    else if |token.text| == 0 then Failure(InvalidOperation)
    else Success(Parsed(true, pos + |token.text|))
  }

  /** rq_simple_name := rq_text */
  function SimpleNameAt(cc: CharClasses, input: string, pos: nat): (r: Result<Parsed<SimpleNameNode>>)
    ensures r.Success? ==> pos < r.value.next <= |input|
  {
    var text :- AcceptAt(cc, input, pos, Text, None);
    Success(Parsed(SimpleNameNode(text.node.text), text.next))
  }

  /** rq_typevarcount := "TypeVarCnt" "(" rq_number ")" */
  function TypeVariableCountAt(cc: CharClasses, input: string, pos: nat): (r: Result<Parsed<TypeVariableCountNode>>)
    ensures r.Success? ==> pos < r.value.next <= |input|
  {
    var keyword :- AcceptAt(cc, input, pos, Text, Some("TypeVarCnt"));
    var open :- AcceptAt(cc, input, keyword.next, LParen, None);
    var count :- AcceptAt(cc, input, open.next, Number, None);
    var close :- AcceptAt(cc, input, count.next, RParen, None);
    Success(Parsed(TypeVariableCountNode(count.node.text), close.next))
  }

  /** rq_aggname := "AggName" "(" rq_simple_name "," rq_typevarcount ")" */
  function AggregateNameAt(cc: CharClasses, input: string, pos: nat): (r: Result<Parsed<SymbolNameNode>>)
    ensures r.Success? ==> pos < r.value.next <= |input|
  {
    var keyword :- AcceptAt(cc, input, pos, Text, Some("AggName"));
    var open :- AcceptAt(cc, input, keyword.next, LParen, None);
    var simpleName :- SimpleNameAt(cc, input, open.next);
    var comma :- AcceptAt(cc, input, simpleName.next, Comma, None);
    var count :- TypeVariableCountAt(cc, input, comma.next);
    var close :- AcceptAt(cc, input, count.next, RParen, None);
    Success(Parsed(AggregateNameNode(simpleName.node, count.node), close.next))
  }

  /** rq_nsname := "NsName" "(" rq_simple_name ")" */
  function NamespaceNameAt(cc: CharClasses, input: string, pos: nat): (r: Result<Parsed<SymbolNameNode>>)
    ensures r.Success? ==> pos < r.value.next <= |input|
  {
    var keyword :- AcceptAt(cc, input, pos, Text, Some("NsName"));
    var open :- AcceptAt(cc, input, keyword.next, LParen, None);
    var simpleName :- SimpleNameAt(cc, input, open.next);
    var close :- AcceptAt(cc, input, simpleName.next, RParen, None);
    Success(Parsed(NamespaceNameNode(simpleName.node), close.next))
  }

  /** rq_propname := "PropName" "(" rq_simple_name ")" */
  function PropertyNameAt(cc: CharClasses, input: string, pos: nat): (r: Result<Parsed<SymbolNameNode>>)
    ensures r.Success? ==> pos < r.value.next <= |input|
  {
    var keyword :- AcceptAt(cc, input, pos, Text, Some("PropName"));
    var open :- AcceptAt(cc, input, keyword.next, LParen, None);
    var simpleName :- SimpleNameAt(cc, input, open.next);
    var close :- AcceptAt(cc, input, simpleName.next, RParen, None);
    Success(Parsed(PropertyNameNode(simpleName.node), close.next))
  }

  /** rq_sym_name: chosen by the text of the next token; the member-variable, method, event and
      explicit-interface names are not implemented. */
  function SymbolNameAt(cc: CharClasses, input: string, pos: nat): (r: Result<Parsed<SymbolNameNode>>)
    ensures r.Success? ==> pos < r.value.next <= |input|
  {
    var next := Lex(cc, input, pos);
    if next.kind != Text then Failure(Argument)
    else if next.text == "AggName" then AggregateNameAt(cc, input, pos)
    else if next.text == "NsName" then NamespaceNameAt(cc, input, pos)
    else if next.text == "MembvarName" then Failure(NotImplemented)
    else if next.text == "IntfExplName" then Failure(NotImplemented)
    else if next.text == "MethName" then Failure(NotImplemented)
    else if next.text == "PropName" then PropertyNameAt(cc, input, pos)
    else if next.text == "EventName" then Failure(NotImplemented)
    else Failure(Argument)
  }

  /** rq_sym_name_list := rq_sym_name | rq_sym_name "," rq_sym_name_list */
  function SymbolNameListAt(cc: CharClasses, input: string, pos: nat): (r: Result<Parsed<seq<SymbolNameNode>>>)
    ensures r.Success? ==> pos < r.value.next <= |input|
    decreases |input| - pos
  {
    var first :- SymbolNameAt(cc, input, pos);
    var comma :- OptionalAt(cc, input, first.next, Comma);
    if comma.node then
      var rest :- SymbolNameListAt(cc, input, comma.next);
      Success(Parsed([first.node] + rest.node, rest.next))
    else Success(Parsed([first.node], comma.next))
  }

  /** rq_param_list: only the empty list is parsed; a Text token there is not implemented. */
  function ParameterListAt(cc: CharClasses, input: string, pos: nat): (r: Result<Parsed<seq<ParameterNode>>>)
    ensures r.Success? ==> r.value.next == pos
  {
    var text :- OptionalAt(cc, input, pos, Text);
    if !text.node then Success(Parsed([], text.next)) else Failure(NotImplemented)
  }

  /** rq_params := "Params" "(" rq_param_list ")" */
  function ParametersAt(cc: CharClasses, input: string, pos: nat): (r: Result<Parsed<ParametersNode>>)
    ensures r.Success? ==> pos < r.value.next <= |input|
  {
    var keyword :- AcceptAt(cc, input, pos, Text, Some("Params"));
    var open :- AcceptAt(cc, input, keyword.next, LParen, None);
    var parameterList :- ParameterListAt(cc, input, open.next);
    var close :- AcceptAt(cc, input, parameterList.next, RParen, None);
    Success(Parsed(ParametersNode(parameterList.node), close.next))
  }

  /** rq_agg := "Agg" "(" rq_sym_name_list ")" */
  function AggregateAt(cc: CharClasses, input: string, pos: nat): (r: Result<Parsed<AggregateNode>>)
    ensures r.Success? ==> pos < r.value.next <= |input|
  {
    var keyword :- AcceptAt(cc, input, pos, Text, Some("Agg"));
    var open :- AcceptAt(cc, input, keyword.next, LParen, None);
    var names :- SymbolNameListAt(cc, input, open.next);
    var close :- AcceptAt(cc, input, names.next, RParen, None);
    Success(Parsed(AggregateNode(names.node), close.next))
  }

  /** rq_ns := "Ns" "(" rq_sym_name_list ")" */
  function NamespaceAt(cc: CharClasses, input: string, pos: nat): (r: Result<Parsed<RQNameNode>>)
    ensures r.Success? ==> pos < r.value.next <= |input|
  {
    var keyword :- AcceptAt(cc, input, pos, Text, Some("Ns"));
    var open :- AcceptAt(cc, input, keyword.next, LParen, None);
    var names :- SymbolNameListAt(cc, input, open.next);
    var close :- AcceptAt(cc, input, names.next, RParen, None);
    Success(Parsed(NamespaceNode(names.node), close.next))
  }

  /** rq_membvar := "Membvar" "(" rq_agg "," rq_sym_name ")", and rq_event, the same with
      "Event". */
  function MemberAt(cc: CharClasses, input: string, pos: nat, event: bool): (r: Result<Parsed<RQNameNode>>)
    ensures r.Success? ==> pos < r.value.next <= |input|
  {
    var keyword :- AcceptAt(cc, input, pos, Text, Some(if event then "Event" else "Membvar"));
    var open :- AcceptAt(cc, input, keyword.next, LParen, None);
    var aggregate :- AggregateAt(cc, input, open.next);
    var comma :- AcceptAt(cc, input, aggregate.next, Comma, None);
    var symbolName :- SymbolNameAt(cc, input, comma.next);
    var close :- AcceptAt(cc, input, symbolName.next, RParen, None);
    Success(Parsed(if event then EventNode(aggregate.node, symbolName.node)
                   else MemberVariableNode(aggregate.node, symbolName.node), close.next))
  }

  /** rq_meth := "Meth" "(" rq_agg "," rq_sym_name "," rq_typevarcount "," rq_params ")", and
      rq_prop, the same with "Prop". */
  function MethodOrPropertyAt(cc: CharClasses, input: string, pos: nat, property: bool)
    : (r: Result<Parsed<RQNameNode>>)
    ensures r.Success? ==> pos < r.value.next <= |input|
  {
    var keyword :- AcceptAt(cc, input, pos, Text, Some(if property then "Prop" else "Meth"));
    var open :- AcceptAt(cc, input, keyword.next, LParen, None);
    var aggregate :- AggregateAt(cc, input, open.next);
    var comma1 :- AcceptAt(cc, input, aggregate.next, Comma, None);
    var symbolName :- SymbolNameAt(cc, input, comma1.next);
    var comma2 :- AcceptAt(cc, input, symbolName.next, Comma, None);
    SignatureAt(cc, input, comma2.next, property, aggregate.node, symbolName.node)
  }

  /** The rest of rq_meth and rq_prop: rq_typevarcount "," rq_params ")". */
  function SignatureAt(cc: CharClasses, input: string, pos: nat, property: bool, aggregate: AggregateNode,
                       symbolName: SymbolNameNode): (r: Result<Parsed<RQNameNode>>)
    ensures r.Success? ==> pos < r.value.next <= |input|
  {
    var count :- TypeVariableCountAt(cc, input, pos);
    var comma3 :- AcceptAt(cc, input, count.next, Comma, None);
    var parameters :- ParametersAt(cc, input, comma3.next);
    var close :- AcceptAt(cc, input, parameters.next, RParen, None);
    Success(Parsed(if property then PropertyNode(aggregate, symbolName, count.node, parameters.node)
                   else MethodNode(aggregate, symbolName, count.node, parameters.node), close.next))
  }

  /** rq_name: chosen by the text of the next token, which must be Text. */
  function RQNameAt(cc: CharClasses, input: string, pos: nat): (r: Result<Parsed<RQNameNode>>)
    ensures r.Success? ==> pos < r.value.next <= |input|
  {
    var next := Lex(cc, input, pos);
    if next.kind != Text then Failure(Argument)
    else if next.text == "Ns" then NamespaceAt(cc, input, pos)
    else if next.text == "Agg" then
      var aggregate :- AggregateAt(cc, input, pos);
      Success(Parsed(TopAggregate(aggregate.node), aggregate.next))
    else if next.text == "Membvar" then MemberAt(cc, input, pos, false)
    else if next.text == "Event" then MemberAt(cc, input, pos, true)
    else if next.text == "Meth" then MethodOrPropertyAt(cc, input, pos, false)
    else if next.text == "Prop" then MethodOrPropertyAt(cc, input, pos, true)
    else Failure(Argument)
  }

  /** RQNameParser.Parse: a null input throws; otherwise the rq_name at the start. */
  function ParseRQName(cc: CharClasses, input: Option<string>): Result<RQNameNode>
  {
    if input.None? then Failure(ArgumentNull("input"))
    else
      var parsed :- RQNameAt(cc, input.value, 0);
      Success(parsed.node)
  }

  /** The parser over one input; `index` is the position of the next token. */
  class Parser {
    const cc: CharClasses
    const input: string
    var index: nat

    constructor (cc: CharClasses, input: string)
      ensures this.cc == cc && this.input == input && index == 0
    {
      this.cc := cc;
      this.input := input;
      index := 0;
    }

    /** Peek: the token at the index; the index is left as it is. */
    method Peek() returns (token: Token)
      ensures token == Lex(cc, input, index)
    {
      var start := index;
      var i := index;
      var c := if |input| > i then input[i] else '\0';
      if c == '\0' {
        return Token(EOF, "");
      } else if c == '.' {
        return Token(Period, ".");
      } else if c == ',' {
        return Token(Comma, ",");
      } else if c == '(' {
        return Token(LParen, "(");
      } else if c == ')' {
        return Token(RParen, ")");
      } else if cc.isDigit(c) {
        var more := true;
        while more
          invariant start <= i <= |input|
          invariant more ==> NumberScan(cc.isDigit, input, i) == NumberScan(cc.isDigit, input, start)
          invariant !more ==> i == NumberScan(cc.isDigit, input, start)
          decreases |input| - i, more
        {
          if i < |input| {
            var d := input[i];
            i := i + 1;
            more := cc.isDigit(d);
          } else {
            more := false;
          }
        }
        return Token(Number, input[start..i - 1]);
      } else if cc.isLetter(c) {
        while i < |input| && !Delimiter(c)
          invariant start <= i <= |input|
          invariant TextScan(input, i, c) == TextScan(input, start, input[start])
          decreases |input| - i
        {
          c := input[i];
          i := i + 1;
        }
        return Token(Text, input[start..i - 1]);
      }
      return Token(Invalid, "");
    }

    /** Take: refuses an empty token, otherwise moves past it. */
    method Take(token: Token) returns (r: Outcome)
      modifies this
      ensures |token.text| == 0 ==> r == Fail(InvalidOperation) && index == old(index)
      ensures |token.text| > 0 ==> r == Pass && index == old(index) + |token.text|
    {
      if |token.text| == 0 {
        return Fail(InvalidOperation);
      }
      index := index + |token.text|;
      return Pass;
    }

    method Optional(kind: TokenKind) returns (r: Result<bool>)
      modifies this
      ensures Packed(r, index) == OptionalAt(cc, input, old(index), kind)
    {
      var token := Peek();
      if token.kind != kind {
        return Success(false);
      }
      var taken := Take(token);
      if taken.Fail? {
        return Failure(taken.error);
      }
      return Success(true);
    }

    method Accept(kind: TokenKind, text: Option<string>) returns (r: Result<Token>)
      modifies this
      ensures Packed(r, index) == AcceptAt(cc, input, old(index), kind, text)
    {
      var token := Peek();
      if token.kind != kind {
        return Failure(Argument);
      }
      if text.Some? && text.value != token.text {
        return Failure(Argument);
      }
      var taken := Take(token);
      if taken.Fail? {
        return Failure(taken.error);
      }
      return Success(token);
    }

    method ParseSimpleName() returns (r: Result<SimpleNameNode>)
      modifies this
      ensures Packed(r, index) == SimpleNameAt(cc, input, old(index))
    {
      var text :- Accept(Text, None);
      return Success(SimpleNameNode(text.text));
    }

    method ParseTypeVariableCount() returns (r: Result<TypeVariableCountNode>)
      modifies this
      ensures Packed(r, index) == TypeVariableCountAt(cc, input, old(index))
    {
      var keyword :- Accept(Text, Some("TypeVarCnt"));
      var open :- Accept(LParen, None);
      var count :- Accept(Number, None);
      var close :- Accept(RParen, None);
      return Success(TypeVariableCountNode(count.text));
    }

    method ParseAggregateName() returns (r: Result<SymbolNameNode>)
      modifies this
      ensures Packed(r, index) == AggregateNameAt(cc, input, old(index))
    {
      var keyword :- Accept(Text, Some("AggName"));
      var open :- Accept(LParen, None);
      var simpleName :- ParseSimpleName();
      var comma :- Accept(Comma, None);
      var typeVariableCount :- ParseTypeVariableCount();
      var close :- Accept(RParen, None);
      return Success(AggregateNameNode(simpleName, typeVariableCount));
    }

    method ParseNamespaceName() returns (r: Result<SymbolNameNode>)
      modifies this
      ensures Packed(r, index) == NamespaceNameAt(cc, input, old(index))
    {
      var keyword :- Accept(Text, Some("NsName"));
      var open :- Accept(LParen, None);
      var simpleName :- ParseSimpleName();
      var close :- Accept(RParen, None);
      return Success(NamespaceNameNode(simpleName));
    }

    method ParsePropertyName() returns (r: Result<SymbolNameNode>)
      modifies this
      ensures Packed(r, index) == PropertyNameAt(cc, input, old(index))
    {
      var keyword :- Accept(Text, Some("PropName"));
      var open :- Accept(LParen, None);
      var simpleName :- ParseSimpleName();
      var close :- Accept(RParen, None);
      return Success(PropertyNameNode(simpleName));
    }

    method ParseSymbolName() returns (r: Result<SymbolNameNode>)
      modifies this
      ensures Packed(r, index) == SymbolNameAt(cc, input, old(index))
    {
      var next := Peek();
      if next.kind != Text {
        var token := Accept(Text, None);
        return Failure(Argument);
      }
      if next.text == "AggName" {
        r := ParseAggregateName();
      } else if next.text == "NsName" {
        r := ParseNamespaceName();
      } else if next.text == "MembvarName" || next.text == "IntfExplName" || next.text == "MethName" ||
                next.text == "EventName" {
        r := Failure(NotImplemented);
      } else if next.text == "PropName" {
        r := ParsePropertyName();
      } else {
        r := Failure(Argument);
      }
    }

    method ParseSymbolNameList() returns (r: Result<seq<SymbolNameNode>>)
      modifies this
      ensures Packed(r, index) == SymbolNameListAt(cc, input, old(index))
      decreases |input| - index
    {
      var first :- ParseSymbolName();
      var comma :- Optional(Comma);
      if comma {
        var rest :- ParseSymbolNameList();
        return Success([first] + rest);
      }
      return Success([first]);
    }

    method ParseParameterList() returns (r: Result<seq<ParameterNode>>)
      modifies this
      ensures Packed(r, index) == ParameterListAt(cc, input, old(index))
    {
      var text :- Optional(Text);
      if !text {
        return Success([]);
      }
      return Failure(NotImplemented);
    }

    method ParseParameters() returns (r: Result<ParametersNode>)
      modifies this
      ensures Packed(r, index) == ParametersAt(cc, input, old(index))
    {
      var keyword :- Accept(Text, Some("Params"));
      var open :- Accept(LParen, None);
      var parameterList :- ParseParameterList();
      var close :- Accept(RParen, None);
      return Success(ParametersNode(parameterList));
    }

    method ParseAggregate() returns (r: Result<AggregateNode>)
      modifies this
      ensures Packed(r, index) == AggregateAt(cc, input, old(index))
    {
      var keyword :- Accept(Text, Some("Agg"));
      var open :- Accept(LParen, None);
      var names :- ParseSymbolNameList();
      var close :- Accept(RParen, None);
      return Success(AggregateNode(names));
    }

    method ParseNamespace() returns (r: Result<RQNameNode>)
      modifies this
      ensures Packed(r, index) == NamespaceAt(cc, input, old(index))
    {
      var keyword :- Accept(Text, Some("Ns"));
      var open :- Accept(LParen, None);
      var names :- ParseSymbolNameList();
      var close :- Accept(RParen, None);
      return Success(NamespaceNode(names));
    }

    /** ParseMemberVariable, and ParseEvent when `event` holds. */
    method ParseMember(event: bool) returns (r: Result<RQNameNode>)
      modifies this
      ensures Packed(r, index) == MemberAt(cc, input, old(index), event)
    {
      var keyword :- Accept(Text, Some(if event then "Event" else "Membvar"));
      var open :- Accept(LParen, None);
      var aggregate :- ParseAggregate();
      var comma :- Accept(Comma, None);
      var symbolName :- ParseSymbolName();
      var close :- Accept(RParen, None);
      if event {
        return Success(EventNode(aggregate, symbolName));
      }
      return Success(MemberVariableNode(aggregate, symbolName));
    }

    /** ParseMethod, and ParseProperty when `property` holds. */
    method ParseMethodOrProperty(property: bool) returns (r: Result<RQNameNode>)
      modifies this
      ensures Packed(r, index) == MethodOrPropertyAt(cc, input, old(index), property)
    {
      var keyword :- Accept(Text, Some(if property then "Prop" else "Meth"));
      var open :- Accept(LParen, None);
      var aggregate :- ParseAggregate();
      var comma1 :- Accept(Comma, None);
      var symbolName :- ParseSymbolName();
      var comma2 :- Accept(Comma, None);
      var typeVariableCount :- ParseTypeVariableCount();
      var comma3 :- Accept(Comma, None);
      var parameters :- ParseParameters();
      var close :- Accept(RParen, None);
      if property {
        return Success(PropertyNode(aggregate, symbolName, typeVariableCount, parameters));
      }
      return Success(MethodNode(aggregate, symbolName, typeVariableCount, parameters));
    }

    method Parse() returns (r: Result<RQNameNode>)
      modifies this
      ensures Packed(r, index) == RQNameAt(cc, input, old(index))
    {
      var next := Peek();
      if next.kind != Text {
        var token := Accept(Text, None);
        return Failure(Argument);
      }
      if next.text == "Ns" {
        r := ParseNamespace();
      } else if next.text == "Agg" {
        var aggregate :- ParseAggregate();
        r := Success(TopAggregate(aggregate));
      } else if next.text == "Membvar" {
        r := ParseMember(false);
      } else if next.text == "Event" {
        r := ParseMember(true);
      } else if next.text == "Meth" {
        r := ParseMethodOrProperty(false);
      } else if next.text == "Prop" {
        r := ParseMethodOrProperty(true);
      } else {
        r := Failure(Argument);
      }
    }
  }

  /** RQNameParser.Parse: a fresh parser over the input, from its start. */
  method Parse(cc: CharClasses, input: Option<string>) returns (r: Result<RQNameNode>)
    ensures r == ParseRQName(cc, input)
  {
    if input.None? {
      return Failure(ArgumentNull("input"));
    }
    var parser := new Parser(cc, input.value);
    var parsed := parser.Parse();
    return parsed;
  }
}
