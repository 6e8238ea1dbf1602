/** The other direction of the RQName round trip: whatever the parser reads is a well-formed
    node printed in RQName syntax, and the ways the parser fails. */
module RQNameReading {
  import opened Common
  import opened RQNames
  import opened RQNameParsing
  import opened RQNameSyntax
  import opened RQNameProperties

  // ---------------------------------------------------------------------------------------
  // Parts put together
  // ---------------------------------------------------------------------------------------

  /** A keyword, '(', the arguments and ')' side by side make up a printed call. */
  lemma CallJoin(input: string, pos: nat, keyword: string, arguments: string, open: nat, start: nat, close: nat)
    requires open == pos + |keyword| && start == open + 1 && close == start + |arguments|
    requires At(input, pos, keyword) && At(input, open, "(") && At(input, start, arguments) && At(input, close, ")")
    ensures At(input, pos, Call(keyword, arguments)) && close + 1 == pos + |Call(keyword, arguments)|
  {
    AtConcat(input, pos, keyword, "(");
    AtConcat(input, pos, keyword + "(", arguments);
    AtConcat(input, pos, keyword + "(" + arguments, ")");
  }

  /** Two texts with a comma between them. */
  lemma CommaJoin(input: string, pos: nat, a: string, b: string, comma: nat, next: nat)
    requires comma == pos + |a| && next == comma + 1
    requires At(input, pos, a) && At(input, comma, ",") && At(input, next, b)
    ensures At(input, pos, a + "," + b) && next + |b| == pos + |a + "," + b|
  {
    AtConcat(input, pos, a, ",");
    AtConcat(input, pos, a + ",", b);
  }

  /** A comma that Optional took stands in the input. */
  lemma CommaRead(cc: CharClasses, input: string, pos: nat)
    requires OptionalAt(cc, input, pos, Comma).Success? && OptionalAt(cc, input, pos, Comma).value.node
    ensures At(input, pos, ",") && OptionalAt(cc, input, pos, Comma).value.next == pos + 1
  {
    LexReadsInput(cc, input, pos);
  }

  // ---------------------------------------------------------------------------------------
  // Each production reads a well-formed node's printed text and stops right after it
  // ---------------------------------------------------------------------------------------

  lemma SimpleNameParsed(cc: CharClasses, input: string, pos: nat, n: SimpleNameNode, next: nat)
    requires SimpleNameAt(cc, input, pos) == Success(Parsed(n, next))
    ensures TextOk(cc, n.text) && At(input, pos, n.text) && next == pos + |n.text|
  {
    Accepted(cc, input, pos, Text, None);
  }

  lemma TypeVariableCountParsed(cc: CharClasses, input: string, pos: nat, n: TypeVariableCountNode, next: nat)
    requires TypeVariableCountAt(cc, input, pos) == Success(Parsed(n, next))
    ensures DigitsOk(cc, n.text) && At(input, pos, CountText(n)) && next == pos + |CountText(n)|
  {
    Accepted(cc, input, pos, Text, Some("TypeVarCnt"));
    var open := AcceptAt(cc, input, pos, Text, Some("TypeVarCnt")).value.next;
    Accepted(cc, input, open, LParen, None);
    var digits := AcceptAt(cc, input, open, LParen, None).value.next;
    Accepted(cc, input, digits, Number, None);
    var count := AcceptAt(cc, input, digits, Number, None).value;
    Accepted(cc, input, count.next, RParen, None);
    assert n.text == count.node.text;
    CallJoin(input, pos, "TypeVarCnt", n.text, open, digits, count.next);
  }

  lemma AggregateNameParsed(cc: CharClasses, input: string, pos: nat, n: SymbolNameNode, next: nat)
    requires AggregateNameAt(cc, input, pos) == Success(Parsed(n, next))
    ensures SymbolNameOk(cc, n) && At(input, pos, SymbolNameText(n)) && next == pos + |SymbolNameText(n)|
  {
    Accepted(cc, input, pos, Text, Some("AggName"));
    var open := AcceptAt(cc, input, pos, Text, Some("AggName")).value.next;
    Accepted(cc, input, open, LParen, None);
    var start := AcceptAt(cc, input, open, LParen, None).value.next;
    var name := SimpleNameAt(cc, input, start).value;
    SimpleNameParsed(cc, input, start, name.node, name.next);
    Accepted(cc, input, name.next, Comma, None);
    var after := AcceptAt(cc, input, name.next, Comma, None).value.next;
    var count := TypeVariableCountAt(cc, input, after).value;
    TypeVariableCountParsed(cc, input, after, count.node, count.next);
    Accepted(cc, input, count.next, RParen, None);
    assert n == AggregateNameNode(name.node, count.node);
    CommaJoin(input, start, name.node.text, CountText(count.node), name.next, after);
    CallJoin(input, pos, "AggName", name.node.text + "," + CountText(count.node), open, start, count.next);
  }

  lemma NamespaceNameParsed(cc: CharClasses, input: string, pos: nat, n: SymbolNameNode, next: nat)
    requires NamespaceNameAt(cc, input, pos) == Success(Parsed(n, next))
    ensures SymbolNameOk(cc, n) && At(input, pos, SymbolNameText(n)) && next == pos + |SymbolNameText(n)|
  {
    Accepted(cc, input, pos, Text, Some("NsName"));
    var open := AcceptAt(cc, input, pos, Text, Some("NsName")).value.next;
    Accepted(cc, input, open, LParen, None);
    var start := AcceptAt(cc, input, open, LParen, None).value.next;
    var name := SimpleNameAt(cc, input, start).value;
    SimpleNameParsed(cc, input, start, name.node, name.next);
    Accepted(cc, input, name.next, RParen, None);
    assert n == NamespaceNameNode(name.node);
    CallJoin(input, pos, "NsName", name.node.text, open, start, name.next);
  }

  lemma PropertyNameParsed(cc: CharClasses, input: string, pos: nat, n: SymbolNameNode, next: nat)
    requires PropertyNameAt(cc, input, pos) == Success(Parsed(n, next))
    ensures SymbolNameOk(cc, n) && At(input, pos, SymbolNameText(n)) && next == pos + |SymbolNameText(n)|
  {
    Accepted(cc, input, pos, Text, Some("PropName"));
    var open := AcceptAt(cc, input, pos, Text, Some("PropName")).value.next;
    Accepted(cc, input, open, LParen, None);
    var start := AcceptAt(cc, input, open, LParen, None).value.next;
    var name := SimpleNameAt(cc, input, start).value;
    SimpleNameParsed(cc, input, start, name.node, name.next);
    Accepted(cc, input, name.next, RParen, None);
    assert n == PropertyNameNode(name.node);
    CallJoin(input, pos, "PropName", name.node.text, open, start, name.next);
  }

  lemma SymbolNameParsed(cc: CharClasses, input: string, pos: nat, n: SymbolNameNode, next: nat)
    requires SymbolNameAt(cc, input, pos) == Success(Parsed(n, next))
    ensures SymbolNameOk(cc, n) && At(input, pos, SymbolNameText(n)) && next == pos + |SymbolNameText(n)|
  {
    var head := Lex(cc, input, pos).text;
    if head == "AggName" {
      AggregateNameParsed(cc, input, pos, n, next);
    } else if head == "NsName" {
      NamespaceNameParsed(cc, input, pos, n, next);
    } else {
      PropertyNameParsed(cc, input, pos, n, next);
    }
  }

  lemma {:induction false} SymbolNameListParsed(cc: CharClasses, input: string, pos: nat,
                                                names: seq<SymbolNameNode>, next: nat)
    requires SymbolNameListAt(cc, input, pos) == Success(Parsed(names, next))
    ensures NamesOk(cc, names) && At(input, pos, NamesText(names)) && next == pos + |NamesText(names)|
    decreases |input| - pos
  {
    var first := SymbolNameAt(cc, input, pos).value;
    SymbolNameParsed(cc, input, pos, first.node, first.next);
    var comma := first.next;
    var more := OptionalAt(cc, input, comma, Comma).value;
    if more.node {
      CommaRead(cc, input, comma);
      var after := more.next;
      var rest := SymbolNameListAt(cc, input, after).value;
      SymbolNameListParsed(cc, input, after, rest.node, rest.next);
      assert names == [first.node] + rest.node;
      assert names[1..] == rest.node;
      assert NamesText(names) == SymbolNameText(first.node) + "," + NamesText(rest.node);
      CommaJoin(input, pos, SymbolNameText(first.node), NamesText(rest.node), comma, after);
      assert NamesOk(cc, names) by {
        forall i | 0 <= i < |names|
          ensures SymbolNameOk(cc, names[i])
        {
          if i > 0 {
            assert names[i] == rest.node[i - 1];
          }
        }
      }
    } else {
      assert names == [first.node];
    }
  }

  lemma ParametersParsed(cc: CharClasses, input: string, pos: nat, n: ParametersNode, next: nat)
    requires ParametersAt(cc, input, pos) == Success(Parsed(n, next))
    ensures n.parameterList == [] && At(input, pos, ParametersText(n)) && next == pos + |ParametersText(n)|
  {
    Accepted(cc, input, pos, Text, Some("Params"));
    var open := AcceptAt(cc, input, pos, Text, Some("Params")).value.next;
    Accepted(cc, input, open, LParen, None);
    var start := AcceptAt(cc, input, open, LParen, None).value.next;
    Accepted(cc, input, start, RParen, None);
    assert input[start..start] == "";
    CallJoin(input, pos, "Params", "", open, start, start);
  }

  lemma AggregateParsed(cc: CharClasses, input: string, pos: nat, n: AggregateNode, next: nat)
    requires AggregateAt(cc, input, pos) == Success(Parsed(n, next))
    ensures NamesOk(cc, n.names) && At(input, pos, AggregateText(n)) && next == pos + |AggregateText(n)|
  {
    Accepted(cc, input, pos, Text, Some("Agg"));
    var open := AcceptAt(cc, input, pos, Text, Some("Agg")).value.next;
    Accepted(cc, input, open, LParen, None);
    var start := AcceptAt(cc, input, open, LParen, None).value.next;
    var names := SymbolNameListAt(cc, input, start).value;
    SymbolNameListParsed(cc, input, start, names.node, names.next);
    Accepted(cc, input, names.next, RParen, None);
    assert n.names == names.node;
    CallJoin(input, pos, "Agg", NamesText(n.names), open, start, names.next);
  }

  lemma NamespaceParsed(cc: CharClasses, input: string, pos: nat, n: RQNameNode, next: nat)
    requires NamespaceAt(cc, input, pos) == Success(Parsed(n, next))
    ensures WellFormed(cc, n) && At(input, pos, RQNameText(n)) && next == pos + |RQNameText(n)|
  {
    Accepted(cc, input, pos, Text, Some("Ns"));
    var open := AcceptAt(cc, input, pos, Text, Some("Ns")).value.next;
    Accepted(cc, input, open, LParen, None);
    var start := AcceptAt(cc, input, open, LParen, None).value.next;
    var names := SymbolNameListAt(cc, input, start).value;
    SymbolNameListParsed(cc, input, start, names.node, names.next);
    Accepted(cc, input, names.next, RParen, None);
    assert n == NamespaceNode(names.node);
    CallJoin(input, pos, "Ns", NamesText(names.node), open, start, names.next);
  }

  lemma MemberParsed(cc: CharClasses, input: string, pos: nat, event: bool, n: RQNameNode, next: nat)
    requires MemberAt(cc, input, pos, event) == Success(Parsed(n, next))
    ensures WellFormed(cc, n) && At(input, pos, RQNameText(n)) && next == pos + |RQNameText(n)|
  {
    var keyword := MemberKeyword(event);
    Accepted(cc, input, pos, Text, Some(keyword));
    var open := AcceptAt(cc, input, pos, Text, Some(keyword)).value.next;
    Accepted(cc, input, open, LParen, None);
    var start := AcceptAt(cc, input, open, LParen, None).value.next;
    var a := AggregateAt(cc, input, start).value;
    AggregateParsed(cc, input, start, a.node, a.next);
    Accepted(cc, input, a.next, Comma, None);
    var name := AcceptAt(cc, input, a.next, Comma, None).value.next;
    var s := SymbolNameAt(cc, input, name).value;
    SymbolNameParsed(cc, input, name, s.node, s.next);
    Accepted(cc, input, s.next, RParen, None);
    assert n == MemberNode(event, a.node, s.node);
    var arguments := AggregateText(a.node) + "," + SymbolNameText(s.node);
    assert RQNameText(n) == Call(keyword, arguments);
    CommaJoin(input, start, AggregateText(a.node), SymbolNameText(s.node), a.next, name);
    CallJoin(input, pos, keyword, arguments, open, start, s.next);
  }

  /** The count, parameters and ')' that end a method or property. */
  lemma SignatureParsed(cc: CharClasses, input: string, pos: nat, property: bool, a: AggregateNode,
                        s: SymbolNameNode, n: RQNameNode, next: nat)
    returns (c: TypeVariableCountNode, p: ParametersNode, close: nat)
    requires SignatureAt(cc, input, pos, property, a, s) == Success(Parsed(n, next))
    ensures n == MethodOrPropertyNode(property, a, s, c, p)
    ensures DigitsOk(cc, c.text) && p.parameterList == []
    ensures At(input, pos, SignatureText(c, p)) && close == pos + |SignatureText(c, p)|
    ensures At(input, close, ")") && next == close + 1
  {
    var count := TypeVariableCountAt(cc, input, pos).value;
    c := count.node;
    TypeVariableCountParsed(cc, input, pos, c, count.next);
    Accepted(cc, input, count.next, Comma, None);
    var list := AcceptAt(cc, input, count.next, Comma, None).value.next;
    var parameters := ParametersAt(cc, input, list).value;
    p, close := parameters.node, parameters.next;
    ParametersParsed(cc, input, list, p, close);
    Accepted(cc, input, close, RParen, None);
    CommaJoin(input, pos, CountText(c), ParametersText(p), count.next, list);
  }

  /** The pieces of a method or property side by side make up its printed text. */
  lemma MethodOrPropertyJoin(cc: CharClasses, input: string, pos: nat, property: bool, a: AggregateNode, s: SymbolNameNode,
                             c: TypeVariableCountNode, p: ParametersNode, open: nat, start: nat, comma: nat,
                             name: nat, comma': nat, signature: nat, close: nat)
    requires open == pos + |MethodKeyword(property)| && start == open + 1 && comma == start + |AggregateText(a)|
    requires name == comma + 1 && comma' == name + |SymbolNameText(s)| && signature == comma' + 1
    requires close == signature + |SignatureText(c, p)|
    requires At(input, pos, MethodKeyword(property)) && At(input, open, "(") && At(input, start, AggregateText(a))
    requires At(input, comma, ",") && At(input, name, SymbolNameText(s)) && At(input, comma', ",")
    requires At(input, signature, SignatureText(c, p)) && At(input, close, ")")
    requires NamesOk(cc, a.names) && SymbolNameOk(cc, s) && DigitsOk(cc, c.text) && p.parameterList == []
    ensures var n := MethodOrPropertyNode(property, a, s, c, p);
      WellFormed(cc, n) && At(input, pos, RQNameText(n)) && close + 1 == pos + |RQNameText(n)|
  {
    var fields := AggregateText(a) + "," + SymbolNameText(s);
    var arguments := fields + "," + SignatureText(c, p);
    assert RQNameText(MethodOrPropertyNode(property, a, s, c, p)) == Call(MethodKeyword(property), arguments);
    CommaJoin(input, start, AggregateText(a), SymbolNameText(s), comma, name);
    CommaJoin(input, start, fields, SignatureText(c, p), comma', signature);
    CallJoin(input, pos, MethodKeyword(property), arguments, open, start, close);
  }

  lemma MethodOrPropertyParsed(cc: CharClasses, input: string, pos: nat, property: bool, n: RQNameNode, next: nat)
    requires MethodOrPropertyAt(cc, input, pos, property) == Success(Parsed(n, next))
    ensures WellFormed(cc, n) && At(input, pos, RQNameText(n)) && next == pos + |RQNameText(n)|
  {
    var keyword := MethodKeyword(property);
    Accepted(cc, input, pos, Text, Some(keyword));
    var open := AcceptAt(cc, input, pos, Text, Some(keyword)).value.next;
    Accepted(cc, input, open, LParen, None);
    var start := AcceptAt(cc, input, open, LParen, None).value.next;
    var a := AggregateAt(cc, input, start).value;
    AggregateParsed(cc, input, start, a.node, a.next);
    Accepted(cc, input, a.next, Comma, None);
    var name := AcceptAt(cc, input, a.next, Comma, None).value.next;
    var s := SymbolNameAt(cc, input, name).value;
    SymbolNameParsed(cc, input, name, s.node, s.next);
    Accepted(cc, input, s.next, Comma, None);
    var signature := AcceptAt(cc, input, s.next, Comma, None).value.next;
    var c, p, close := SignatureParsed(cc, input, signature, property, a.node, s.node, n, next);
    MethodOrPropertyJoin(cc, input, pos, property, a.node, s.node, c, p, open, start, a.next, name, s.next,
                         signature, close);
  }

  /** Whatever rq_name reads is a well-formed node whose RQName syntax stands at the start
      position, and it stops right after that text. */
  lemma RQNameParsed(cc: CharClasses, input: string, pos: nat, n: RQNameNode, next: nat)
    requires RQNameAt(cc, input, pos) == Success(Parsed(n, next))
    ensures WellFormed(cc, n) && At(input, pos, RQNameText(n)) && next == pos + |RQNameText(n)|
  {
    var head := Lex(cc, input, pos).text;
    if head == "Ns" {
      NamespaceParsed(cc, input, pos, n, next);
    } else if head == "Agg" {
      var a := AggregateAt(cc, input, pos).value;
      AggregateParsed(cc, input, pos, a.node, a.next);
      assert n == TopAggregate(a.node);
    } else if head == "Membvar" {
      MemberParsed(cc, input, pos, false, n, next);
    } else if head == "Event" {
      MemberParsed(cc, input, pos, true, n, next);
    } else if head == "Meth" {
      MethodOrPropertyParsed(cc, input, pos, false, n, next);
    } else {
      MethodOrPropertyParsed(cc, input, pos, true, n, next);
    }
  }

  /** What Parse returns is a well-formed node, printed at the start of the input. */
  lemma ParsedIsPrinted(cc: CharClasses, s: string, n: RQNameNode)
    requires ParseRQName(cc, Some(s)) == Success(n)
    ensures WellFormed(cc, n) && RQNameText(n) <= s
  {
    var parsed := RQNameAt(cc, s, 0).value;
    RQNameParsed(cc, s, 0, parsed.node, parsed.next);
  }

  /** Parse returns `n` exactly when the input starts with the RQName syntax of the well-formed
      node `n`. */
  lemma ParseExactlyPrinted(cc: CharClasses, s: string, n: RQNameNode)
    requires StandardClasses(cc)
    ensures ParseRQName(cc, Some(s)) == Success(n) <==> WellFormed(cc, n) && RQNameText(n) <= s
  {
    if ParseRQName(cc, Some(s)) == Success(n) {
      ParsedIsPrinted(cc, s, n);
    }
    if WellFormed(cc, n) && RQNameText(n) <= s {
      var text := RQNameText(n);
      assert s == text + s[|text|..];
      ParseReadsPrinted(cc, n, s[|text|..]);
    }
  }

  // ---------------------------------------------------------------------------------------
  // Failures
  // ---------------------------------------------------------------------------------------

  /** A null input throws ArgumentNullException for "input". */
  lemma NullInputRefused(cc: CharClasses)
    ensures ParseRQName(cc, None) == Failure(ArgumentNull("input"))
  {
  }

  /** The first token must be a Text naming one of the six top-level forms; otherwise the
      parse throws ArgumentException. */
  lemma HeadMustBeTopLevelForm(cc: CharClasses, input: string, pos: nat)
    ensures var head := Lex(cc, input, pos);
      head.kind != Text || head.text !in ["Ns", "Agg", "Membvar", "Event", "Meth", "Prop"] ==>
      RQNameAt(cc, input, pos) == Failure(Argument)
  {
  }

  /** The member-variable, explicit-interface, method and event names throw
      NotImplementedException; a Text that is no symbol-name keyword, or a token that is no
      Text, throws ArgumentException. */
  lemma SymbolNameFailures(cc: CharClasses, input: string, pos: nat)
    ensures var head := Lex(cc, input, pos);
      head.kind == Text && head.text in ["MembvarName", "IntfExplName", "MethName", "EventName"] ==>
      SymbolNameAt(cc, input, pos) == Failure(NotImplemented)
    ensures var head := Lex(cc, input, pos);
      head.kind != Text ||
      head.text !in ["AggName", "NsName", "PropName", "MembvarName", "IntfExplName", "MethName", "EventName"] ==>
      SymbolNameAt(cc, input, pos) == Failure(Argument)
  {
  }

  /** A parameter list is empty unless a Text follows, which throws NotImplementedException
      (or InvalidOperationException from Take when that Text is empty). */
  lemma ParameterListFailures(cc: CharClasses, input: string, pos: nat)
    ensures Lex(cc, input, pos).kind != Text ==> ParameterListAt(cc, input, pos) == Success(Parsed([], pos))
    ensures var head := Lex(cc, input, pos);
      head.kind == Text && |head.text| > 0 ==> ParameterListAt(cc, input, pos) == Failure(NotImplemented)
    ensures var head := Lex(cc, input, pos);
      head.kind == Text && |head.text| == 0 ==> ParameterListAt(cc, input, pos) == Failure(InvalidOperation)
  {
  }
}
