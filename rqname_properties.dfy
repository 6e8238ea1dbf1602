/** What the RQName parser promises about the texts it reads: which texts its tokens can have,
    and that it reads back exactly the nodes that are printed in RQName syntax. */
module RQNameProperties {
  import opened Common
  import opened RQNames
  import opened RQNameParsing
  import opened RQNameSyntax

  // ---------------------------------------------------------------------------------------
  // Text at a position
  // ---------------------------------------------------------------------------------------

  lemma AtConcat(input: string, pos: nat, a: string, b: string)
    ensures At(input, pos, a + b) <==> At(input, pos, a) && At(input, pos + |a|, b)
  {
    if pos + |a| + |b| <= |input| {
      var w := input[pos..pos + |a| + |b|];
      assert w[..|a|] == input[pos..pos + |a|];
      assert w[|a|..] == input[pos + |a|..pos + |a| + |b|];
      assert w == w[..|a|] + w[|a|..];
      if w == a + b {
        assert (a + b)[..|a|] == a;
        assert (a + b)[|a|..] == b;
      }
    }
  }

  lemma AtChar(input: string, pos: nat, c: char)
    ensures At(input, pos, [c]) <==> pos < |input| && input[pos] == c
  {
    if pos < |input| {
      assert input[pos..pos + 1] == [input[pos]];
    }
  }

  /** The parts of a printed call, where they stand. */
  lemma CallParts(input: string, pos: nat, keyword: string, arguments: string, open: nat, start: nat, close: nat)
    requires At(input, pos, Call(keyword, arguments))
    requires open == pos + |keyword| && start == open + 1 && close == start + |arguments|
    ensures close + 1 == pos + |Call(keyword, arguments)|
    ensures At(input, pos, keyword) && At(input, open, "(") && At(input, start, arguments) && At(input, close, ")")
  {
    AtConcat(input, pos, keyword + "(" + arguments, ")");
    AtConcat(input, pos, keyword + "(", arguments);
    AtConcat(input, pos, keyword, "(");
  }

  /** The two sides of a comma, where they stand. */
  lemma CommaParts(input: string, pos: nat, a: string, b: string, comma: nat, next: nat)
    requires At(input, pos, a + "," + b)
    requires comma == pos + |a| && next == comma + 1
    ensures next + |b| == pos + |a + "," + b|
    ensures At(input, pos, a) && At(input, comma, ",") && At(input, next, b)
  {
    AtConcat(input, pos, a + ",", b);
    AtConcat(input, pos, a, ",");
  }

  /** The three comma-separated arguments of a method or property, where they stand. */
  lemma FieldParts(input: string, pos: nat, a: string, s: string, g: string, comma: nat, name: nat, comma': nat,
                   signature: nat)
    requires At(input, pos, a + "," + s + "," + g)
    requires comma == pos + |a| && name == comma + 1 && comma' == name + |s| && signature == comma' + 1
    ensures signature + |g| == pos + |a + "," + s + "," + g|
    ensures At(input, pos, a) && At(input, comma, ",") && At(input, name, s) && At(input, comma', ",") &&
            At(input, signature, g)
  {
    AtConcat(input, pos, a + "," + s + ",", g);
    AtConcat(input, pos, a + "," + s, ",");
    AtConcat(input, pos, a + ",", s);
    AtConcat(input, pos, a, ",");
  }

  // ---------------------------------------------------------------------------------------
  // Token shapes
  // ---------------------------------------------------------------------------------------

  lemma {:induction false} TextScanClean(input: string, i: nat, c: char)
    requires i <= |input|
    ensures TextScan(input, i, c) > i ==> !Delimiter(c)
    ensures forall k :: i <= k < TextScan(input, i, c) - 1 ==> !Delimiter(input[k])
    decreases |input| - i
  {
    if i < |input| && !Delimiter(c) {
      TextScanClean(input, i + 1, input[i]);
    }
  }

  lemma {:induction false} NumberScanClean(isDigit: char -> bool, input: string, i: nat)
    requires i <= |input|
    ensures forall k :: i <= k < NumberScan(isDigit, input, i) - 1 ==> isDigit(input[k])
    decreases |input| - i
  {
    if i < |input| && isDigit(input[i]) {
      NumberScanClean(isDigit, input, i + 1);
    }
  }

  /** A Text token that is not empty is one token's worth of text, and a Number token's text
      is all digits. */
  lemma TokenShapes(cc: CharClasses, input: string, pos: nat)
    ensures var t := Lex(cc, input, pos); t.kind == Text && |t.text| > 0 ==> TextOk(cc, t.text)
    ensures var t := Lex(cc, input, pos); t.kind == Number && |t.text| > 0 ==> DigitsOk(cc, t.text)
  {
    if pos < |input| {
      TextScanClean(input, pos, input[pos]);
      NumberScanClean(cc.isDigit, input, pos);
    }
  }

  lemma {:induction false} TextScanRun(input: string, i: nat, e: nat)
    requires i <= e < |input|
    requires forall k :: i <= k < e ==> !Delimiter(input[k])
    requires Delimiter(input[e])
    ensures TextScan(input, i + 1, input[i]) == e + 1
    decreases e - i
  {
    if i < e {
      TextScanRun(input, i + 1, e);
    }
  }

  lemma {:induction false} NumberScanRun(isDigit: char -> bool, input: string, i: nat, e: nat)
    requires i <= e < |input|
    requires forall k :: i <= k < e ==> isDigit(input[k])
    requires !isDigit(input[e])
    ensures NumberScan(isDigit, input, i) == e + 1
    decreases e - i
  {
    if i < e {
      NumberScanRun(isDigit, input, i + 1, e);
    }
  }

  /** A clean text followed by a delimiter is read as one Text token. */
  lemma TextToken(cc: CharClasses, input: string, pos: nat, t: string)
    requires TextOk(cc, t) && At(input, pos, t)
    requires pos + |t| < |input| && Delimiter(input[pos + |t|])
    ensures Lex(cc, input, pos) == Token(Text, t)
  {
    forall k | pos <= k < pos + |t|
      ensures !Delimiter(input[k])
    {
      assert input[k] == input[pos..pos + |t|][k - pos];
    }
    assert input[pos] == input[pos..pos + |t|][0];
    TextScanRun(input, pos, pos + |t|);
  }

  /** A digit string followed by a non-digit is read as one Number token. */
  lemma NumberToken(cc: CharClasses, input: string, pos: nat, d: string)
    requires DigitsOk(cc, d) && At(input, pos, d)
    requires pos + |d| < |input| && !cc.isDigit(input[pos + |d|])
    ensures Lex(cc, input, pos) == Token(Number, d)
    ensures AcceptAt(cc, input, pos, Number, None) == Success(Parsed(Token(Number, d), pos + |d|))
  {
    forall k | pos <= k < pos + |d|
      ensures cc.isDigit(input[k])
    {
      assert input[k] == input[pos..pos + |d|][k - pos];
    }
    assert input[pos] == input[pos..pos + |d|][0];
    NumberScanRun(cc.isDigit, input, pos, pos + |d|);
  }

  lemma KeywordOk(cc: CharClasses, keyword: string)
    requires StandardClasses(cc) && IsKeyword(keyword)
    ensures TextOk(cc, keyword)
  {
  }

  /** A keyword followed by '(' is accepted as that keyword. */
  lemma KeywordTaken(cc: CharClasses, input: string, pos: nat, keyword: string, open: nat)
    requires StandardClasses(cc) && IsKeyword(keyword)
    requires At(input, pos, keyword) && At(input, open, "(") && open == pos + |keyword|
    ensures AcceptAt(cc, input, pos, Text, Some(keyword)) == Success(Parsed(Token(Text, keyword), open))
  {
    KeywordOk(cc, keyword);
    AtChar(input, open, '(');
    TextToken(cc, input, pos, keyword);
  }

  /** When a text runs to the end of the input, the lexer drops its last character. */
  lemma {:induction false} TextScanToEnd(input: string, i: nat)
    requires i < |input|
    requires forall k :: i <= k < |input| ==> !Delimiter(input[k])
    ensures TextScan(input, i + 1, input[i]) == |input|
    decreases |input| - i
  {
    if i + 1 < |input| {
      TextScanToEnd(input, i + 1);
    }
  }

  lemma TextAtEndLosesLastCharacter(cc: CharClasses, input: string, pos: nat)
    requires pos < |input| && TextOk(cc, input[pos..])
    ensures Lex(cc, input, pos) == Token(Text, input[pos..|input| - 1])
  {
    forall k | pos <= k < |input|
      ensures !Delimiter(input[k])
    {
      assert input[k] == input[pos..][k - pos];
    }
    assert input[pos] == input[pos..][0];
    TextScanToEnd(input, pos);
  }

  lemma {:induction false} NumberScanToEnd(isDigit: char -> bool, input: string, i: nat)
    requires i <= |input|
    requires forall k :: i <= k < |input| ==> isDigit(input[k])
    ensures NumberScan(isDigit, input, i) == |input|
    decreases |input| - i
  {
    if i < |input| {
      NumberScanToEnd(isDigit, input, i + 1);
    }
  }

  lemma NumberAtEndLosesLastDigit(cc: CharClasses, input: string, pos: nat)
    requires pos < |input| && DigitsOk(cc, input[pos..])
    ensures Lex(cc, input, pos) == Token(Number, input[pos..|input| - 1])
  {
    forall k | pos <= k < |input|
      ensures cc.isDigit(input[k])
    {
      assert input[k] == input[pos..][k - pos];
    }
    assert input[pos] == input[pos..][0];
    NumberScanToEnd(cc.isDigit, input, pos);
  }

  /** A token that is not empty is the text of the input where it was read. */
  lemma LexReadsInput(cc: CharClasses, input: string, pos: nat)
    ensures var t := Lex(cc, input, pos); |t.text| > 0 ==> At(input, pos, t.text)
  {
  }

  /** What an accepted token tells about the input. */
  lemma Accepted(cc: CharClasses, input: string, pos: nat, kind: TokenKind, text: Option<string>)
    requires AcceptAt(cc, input, pos, kind, text).Success?
    ensures var p := AcceptAt(cc, input, pos, kind, text).value;
      Spans(input, pos, p.node.text, p.next) && p.node.kind == kind &&
      (text.Some? ==> p.node.text == text.value) &&
      (kind == LParen ==> p.node.text == "(") && (kind == RParen ==> p.node.text == ")") &&
      (kind == Comma ==> p.node.text == ",") &&
      (kind == Text ==> TextOk(cc, p.node.text)) && (kind == Number ==> DigitsOk(cc, p.node.text))
  {
    TokenShapes(cc, input, pos);
    LexReadsInput(cc, input, pos);
  }


  /** A delimiter is read as its own one-character token, ... */
  lemma PunctuationToken(cc: CharClasses, input: string, pos: nat, c: char)
    requires Delimiter(c) && At(input, pos, [c])
    ensures Lex(cc, input, pos) == Token(PunctuationKind(c), [c])
  {
    AtChar(input, pos, c);
  }

  /** ... which Accept takes when asked for its kind, ... */
  lemma PunctuationTaken(cc: CharClasses, input: string, pos: nat, c: char, next: nat)
    requires Delimiter(c) && At(input, pos, [c]) && next == pos + 1
    ensures AcceptAt(cc, input, pos, PunctuationKind(c), None) == Success(Parsed(Token(PunctuationKind(c), [c]), next))
  {
    PunctuationToken(cc, input, pos, c);
  }

  /** ... Optional takes a comma when asked for one, ... */
  lemma CommaIsTaken(cc: CharClasses, input: string, pos: nat, next: nat)
    requires At(input, pos, ",") && next == pos + 1
    ensures OptionalAt(cc, input, pos, Comma) == Success(Parsed(true, next))
  {
    PunctuationToken(cc, input, pos, ',');
  }

  /** ... but not a ')', whether asked for a comma ... */
  lemma CloseIsNoComma(cc: CharClasses, input: string, pos: nat)
    requires At(input, pos, ")")
    ensures OptionalAt(cc, input, pos, Comma) == Success(Parsed(false, pos))
  {
    PunctuationToken(cc, input, pos, ')');
  }

  /** ... or for a text. */
  lemma CloseIsNoText(cc: CharClasses, input: string, pos: nat)
    requires At(input, pos, ")")
    ensures OptionalAt(cc, input, pos, Text) == Success(Parsed(false, pos))
  {
    PunctuationToken(cc, input, pos, ')');
  }

  // ---------------------------------------------------------------------------------------
  // Productions put together from their parts. Every position is named, so that each
  // part's result meets the next part at the same term.
  // ---------------------------------------------------------------------------------------

  lemma TypeVariableCountFrom(cc: CharClasses, input: string, pos: nat, open: nat, digits: nat, close: nat,
                              next: nat, n: TypeVariableCountNode)
    requires AcceptAt(cc, input, pos, Text, Some("TypeVarCnt")) == Success(Parsed(Token(Text, "TypeVarCnt"), open))
    requires AcceptAt(cc, input, open, LParen, None) == Success(Parsed(Token(LParen, "("), digits))
    requires AcceptAt(cc, input, digits, Number, None) == Success(Parsed(Token(Number, n.text), close))
    requires AcceptAt(cc, input, close, RParen, None) == Success(Parsed(Token(RParen, ")"), next))
    ensures TypeVariableCountAt(cc, input, pos) == Success(Parsed(n, next))
  {
  }

  lemma AggregateNameFrom(cc: CharClasses, input: string, pos: nat, open: nat, name: nat, comma: nat, count: nat,
                          close: nat, next: nat, s: SimpleNameNode, c: TypeVariableCountNode)
    requires AcceptAt(cc, input, pos, Text, Some("AggName")) == Success(Parsed(Token(Text, "AggName"), open))
    requires AcceptAt(cc, input, open, LParen, None) == Success(Parsed(Token(LParen, "("), name))
    requires SimpleNameAt(cc, input, name) == Success(Parsed(s, comma))
    requires AcceptAt(cc, input, comma, Comma, None) == Success(Parsed(Token(Comma, ","), count))
    requires TypeVariableCountAt(cc, input, count) == Success(Parsed(c, close))
    requires AcceptAt(cc, input, close, RParen, None) == Success(Parsed(Token(RParen, ")"), next))
    ensures SymbolNameAt(cc, input, pos) == Success(Parsed(AggregateNameNode(s, c), next))
  {
  }

  lemma NamespaceNameFrom(cc: CharClasses, input: string, pos: nat, open: nat, name: nat, close: nat, next: nat,
                          s: SimpleNameNode)
    requires AcceptAt(cc, input, pos, Text, Some("NsName")) == Success(Parsed(Token(Text, "NsName"), open))
    requires AcceptAt(cc, input, open, LParen, None) == Success(Parsed(Token(LParen, "("), name))
    requires SimpleNameAt(cc, input, name) == Success(Parsed(s, close))
    requires AcceptAt(cc, input, close, RParen, None) == Success(Parsed(Token(RParen, ")"), next))
    ensures SymbolNameAt(cc, input, pos) == Success(Parsed(NamespaceNameNode(s), next))
  {
  }

  lemma PropertyNameFrom(cc: CharClasses, input: string, pos: nat, open: nat, name: nat, close: nat, next: nat,
                         s: SimpleNameNode)
    requires AcceptAt(cc, input, pos, Text, Some("PropName")) == Success(Parsed(Token(Text, "PropName"), open))
    requires AcceptAt(cc, input, open, LParen, None) == Success(Parsed(Token(LParen, "("), name))
    requires SimpleNameAt(cc, input, name) == Success(Parsed(s, close))
    requires AcceptAt(cc, input, close, RParen, None) == Success(Parsed(Token(RParen, ")"), next))
    ensures SymbolNameAt(cc, input, pos) == Success(Parsed(PropertyNameNode(s), next))
  {
  }

  lemma SymbolNameListFrom(cc: CharClasses, input: string, pos: nat, comma: nat, after: nat, next: nat,
                           first: SymbolNameNode, rest: seq<SymbolNameNode>)
    requires SymbolNameAt(cc, input, pos) == Success(Parsed(first, comma))
    requires OptionalAt(cc, input, comma, Comma) == Success(Parsed(true, after))
    requires SymbolNameListAt(cc, input, after) == Success(Parsed(rest, next))
    ensures SymbolNameListAt(cc, input, pos) == Success(Parsed([first] + rest, next))
  {
  }

  lemma SymbolNameListLast(cc: CharClasses, input: string, pos: nat, next: nat, first: SymbolNameNode)
    requires SymbolNameAt(cc, input, pos) == Success(Parsed(first, next))
    requires OptionalAt(cc, input, next, Comma) == Success(Parsed(false, next))
    ensures SymbolNameListAt(cc, input, pos) == Success(Parsed([first], next))
  {
  }

  lemma ParametersFrom(cc: CharClasses, input: string, pos: nat, open: nat, list: nat, next: nat)
    requires AcceptAt(cc, input, pos, Text, Some("Params")) == Success(Parsed(Token(Text, "Params"), open))
    requires AcceptAt(cc, input, open, LParen, None) == Success(Parsed(Token(LParen, "("), list))
    requires OptionalAt(cc, input, list, Text) == Success(Parsed(false, list))
    requires AcceptAt(cc, input, list, RParen, None) == Success(Parsed(Token(RParen, ")"), next))
    ensures ParametersAt(cc, input, pos) == Success(Parsed(ParametersNode([]), next))
  {
  }

  lemma AggregateFrom(cc: CharClasses, input: string, pos: nat, open: nat, list: nat, close: nat, next: nat,
                      names: seq<SymbolNameNode>)
    requires AcceptAt(cc, input, pos, Text, Some("Agg")) == Success(Parsed(Token(Text, "Agg"), open))
    requires AcceptAt(cc, input, open, LParen, None) == Success(Parsed(Token(LParen, "("), list))
    requires SymbolNameListAt(cc, input, list) == Success(Parsed(names, close))
    requires AcceptAt(cc, input, close, RParen, None) == Success(Parsed(Token(RParen, ")"), next))
    ensures Lex(cc, input, pos) == Token(Text, "Agg")
    ensures AggregateAt(cc, input, pos) == Success(Parsed(AggregateNode(names), next))
  {
  }

  lemma NamespaceFrom(cc: CharClasses, input: string, pos: nat, open: nat, list: nat, close: nat, next: nat,
                      names: seq<SymbolNameNode>)
    requires AcceptAt(cc, input, pos, Text, Some("Ns")) == Success(Parsed(Token(Text, "Ns"), open))
    requires AcceptAt(cc, input, open, LParen, None) == Success(Parsed(Token(LParen, "("), list))
    requires SymbolNameListAt(cc, input, list) == Success(Parsed(names, close))
    requires AcceptAt(cc, input, close, RParen, None) == Success(Parsed(Token(RParen, ")"), next))
    ensures RQNameAt(cc, input, pos) == Success(Parsed(NamespaceNode(names), next))
  {
  }

  lemma TopAggregateFrom(cc: CharClasses, input: string, pos: nat, next: nat, a: AggregateNode)
    requires Lex(cc, input, pos) == Token(Text, "Agg")
    requires AggregateAt(cc, input, pos) == Success(Parsed(a, next))
    ensures RQNameAt(cc, input, pos) == Success(Parsed(TopAggregate(a), next))
  {
  }

  lemma MemberFrom(cc: CharClasses, input: string, pos: nat, event: bool, open: nat, start: nat, comma: nat,
                   name: nat, close: nat, next: nat, a: AggregateNode, s: SymbolNameNode)
    requires var keyword := MemberKeyword(event);
      AcceptAt(cc, input, pos, Text, Some(keyword)) == Success(Parsed(Token(Text, keyword), open))
    requires AcceptAt(cc, input, open, LParen, None) == Success(Parsed(Token(LParen, "("), start))
    requires AggregateAt(cc, input, start) == Success(Parsed(a, comma))
    requires AcceptAt(cc, input, comma, Comma, None) == Success(Parsed(Token(Comma, ","), name))
    requires SymbolNameAt(cc, input, name) == Success(Parsed(s, close))
    requires AcceptAt(cc, input, close, RParen, None) == Success(Parsed(Token(RParen, ")"), next))
    ensures RQNameAt(cc, input, pos) == Success(Parsed(MemberNode(event, a, s), next))
  {
  }

  lemma SignatureFrom(cc: CharClasses, input: string, pos: nat, property: bool, comma: nat, list: nat, close: nat,
                      next: nat, a: AggregateNode, s: SymbolNameNode, c: TypeVariableCountNode, p: ParametersNode)
    requires TypeVariableCountAt(cc, input, pos) == Success(Parsed(c, comma))
    requires AcceptAt(cc, input, comma, Comma, None) == Success(Parsed(Token(Comma, ","), list))
    requires ParametersAt(cc, input, list) == Success(Parsed(p, close))
    requires AcceptAt(cc, input, close, RParen, None) == Success(Parsed(Token(RParen, ")"), next))
    ensures SignatureAt(cc, input, pos, property, a, s) == Success(Parsed(MethodOrPropertyNode(property, a, s, c, p), next))
  {
  }

  lemma MethodOrPropertyFrom(cc: CharClasses, input: string, pos: nat, property: bool, open: nat, start: nat,
                             comma: nat, name: nat, comma': nat, signature: nat, a: AggregateNode, s: SymbolNameNode,
                             r: Result<Parsed<RQNameNode>>)
    requires var keyword := MethodKeyword(property);
      AcceptAt(cc, input, pos, Text, Some(keyword)) == Success(Parsed(Token(Text, keyword), open))
    requires AcceptAt(cc, input, open, LParen, None) == Success(Parsed(Token(LParen, "("), start))
    requires AggregateAt(cc, input, start) == Success(Parsed(a, comma))
    requires AcceptAt(cc, input, comma, Comma, None) == Success(Parsed(Token(Comma, ","), name))
    requires SymbolNameAt(cc, input, name) == Success(Parsed(s, comma'))
    requires AcceptAt(cc, input, comma', Comma, None) == Success(Parsed(Token(Comma, ","), signature))
    requires SignatureAt(cc, input, signature, property, a, s) == r
    ensures RQNameAt(cc, input, pos) == r
  {
  }

  // ---------------------------------------------------------------------------------------
  // Printed nodes are read back
  // ---------------------------------------------------------------------------------------

  lemma SimpleNameReadBack(cc: CharClasses, input: string, pos: nat, n: SimpleNameNode, next: nat)
    requires TextOk(cc, n.text) && At(input, pos, n.text) && next == pos + |n.text|
    requires next < |input| && Delimiter(input[next])
    ensures SimpleNameAt(cc, input, pos) == Success(Parsed(n, next))
  {
    TextToken(cc, input, pos, n.text);
  }

  lemma TypeVariableCountReadBack(cc: CharClasses, input: string, pos: nat, n: TypeVariableCountNode, next: nat)
    requires StandardClasses(cc) && DigitsOk(cc, n.text)
    requires At(input, pos, CountText(n)) && next == pos + |CountText(n)|
    ensures TypeVariableCountAt(cc, input, pos) == Success(Parsed(n, next))
  {
    var keyword, d := "TypeVarCnt", n.text;
    var open := pos + |keyword|;
    var digits := open + 1;
    var close := digits + |d|;
    CallParts(input, pos, keyword, d, open, digits, close);
    AtChar(input, close, ')');
    NumberToken(cc, input, digits, d);
    KeywordTaken(cc, input, pos, keyword, open);
    PunctuationTaken(cc, input, open, '(', digits);
    PunctuationTaken(cc, input, close, ')', next);
    TypeVariableCountFrom(cc, input, pos, open, digits, close, next, n);
  }

  lemma AggregateNameReadBack(cc: CharClasses, input: string, pos: nat, n: SymbolNameNode, next: nat)
    requires n.AggregateNameNode? && StandardClasses(cc) && SymbolNameOk(cc, n)
    requires At(input, pos, SymbolNameText(n)) && next == pos + |SymbolNameText(n)|
    ensures SymbolNameAt(cc, input, pos) == Success(Parsed(n, next))
  {
    var s, c := n.simpleName, n.typeVariableCount;
    var keyword, t, ct := "AggName", s.text, CountText(c);
    var open := pos + |keyword|;
    var name := open + 1;
    var comma := name + |t|;
    var count := comma + 1;
    var close := count + |ct|;
    assert SymbolNameText(n) == Call(keyword, t + "," + ct);
    CallParts(input, pos, keyword, t + "," + ct, open, name, close);
    CommaParts(input, name, t, ct, comma, count);
    AtChar(input, comma, ',');
    SimpleNameReadBack(cc, input, name, s, comma);
    TypeVariableCountReadBack(cc, input, count, c, close);
    KeywordTaken(cc, input, pos, keyword, open);
    PunctuationTaken(cc, input, open, '(', name);
    PunctuationTaken(cc, input, comma, ',', count);
    PunctuationTaken(cc, input, close, ')', next);
    AggregateNameFrom(cc, input, pos, open, name, comma, count, close, next, s, c);
  }

  lemma NamespaceNameReadBack(cc: CharClasses, input: string, pos: nat, n: SymbolNameNode, next: nat)
    requires n.NamespaceNameNode? && StandardClasses(cc) && SymbolNameOk(cc, n)
    requires At(input, pos, SymbolNameText(n)) && next == pos + |SymbolNameText(n)|
    ensures SymbolNameAt(cc, input, pos) == Success(Parsed(n, next))
  {
    var s := n.simpleName;
    var keyword, t := "NsName", s.text;
    var open := pos + |keyword|;
    var name := open + 1;
    var close := name + |t|;
    assert SymbolNameText(n) == Call(keyword, t);
    CallParts(input, pos, keyword, t, open, name, close);
    AtChar(input, close, ')');
    SimpleNameReadBack(cc, input, name, s, close);
    KeywordTaken(cc, input, pos, keyword, open);
    PunctuationTaken(cc, input, open, '(', name);
    PunctuationTaken(cc, input, close, ')', next);
    NamespaceNameFrom(cc, input, pos, open, name, close, next, s);
  }

  lemma PropertyNameReadBack(cc: CharClasses, input: string, pos: nat, n: SymbolNameNode, next: nat)
    requires n.PropertyNameNode? && StandardClasses(cc) && SymbolNameOk(cc, n)
    requires At(input, pos, SymbolNameText(n)) && next == pos + |SymbolNameText(n)|
    ensures SymbolNameAt(cc, input, pos) == Success(Parsed(n, next))
  {
    var s := n.simpleName;
    var keyword, t := "PropName", s.text;
    var open := pos + |keyword|;
    var name := open + 1;
    var close := name + |t|;
    assert SymbolNameText(n) == Call(keyword, t);
    CallParts(input, pos, keyword, t, open, name, close);
    AtChar(input, close, ')');
    SimpleNameReadBack(cc, input, name, s, close);
    KeywordTaken(cc, input, pos, keyword, open);
    PunctuationTaken(cc, input, open, '(', name);
    PunctuationTaken(cc, input, close, ')', next);
    PropertyNameFrom(cc, input, pos, open, name, close, next, s);
  }

  lemma SymbolNameReadBack(cc: CharClasses, input: string, pos: nat, n: SymbolNameNode, next: nat)
    requires StandardClasses(cc) && SymbolNameOk(cc, n)
    requires At(input, pos, SymbolNameText(n)) && next == pos + |SymbolNameText(n)|
    ensures SymbolNameAt(cc, input, pos) == Success(Parsed(n, next))
  {
    if n.AggregateNameNode? {
      AggregateNameReadBack(cc, input, pos, n, next);
    } else if n.NamespaceNameNode? {
      NamespaceNameReadBack(cc, input, pos, n, next);
    } else {
      PropertyNameReadBack(cc, input, pos, n, next);
    }
  }

  /** A name list is read back up to the ')' that closes it. */
  lemma {:induction false} SymbolNameListReadBack(cc: CharClasses, input: string, pos: nat,
                                                  names: seq<SymbolNameNode>, next: nat)
    requires StandardClasses(cc) && NamesOk(cc, names)
    requires At(input, pos, NamesText(names)) && next == pos + |NamesText(names)| && At(input, next, ")")
    ensures SymbolNameListAt(cc, input, pos) == Success(Parsed(names, next))
    decreases |names|
  {
    var first := SymbolNameText(names[0]);
    var comma := pos + |first|;
    assert SymbolNameOk(cc, names[0]);
    if |names| == 1 {
      assert NamesText(names) == first;
      SymbolNameReadBack(cc, input, pos, names[0], next);
      CloseIsNoComma(cc, input, next);
      SymbolNameListLast(cc, input, pos, next, names[0]);
      assert [names[0]] == names;
    } else {
      var rest := NamesText(names[1..]);
      var after := comma + 1;
      assert NamesText(names) == first + "," + rest;
      CommaParts(input, pos, first, rest, comma, after);
      assert NamesOk(cc, names[1..]) by {
        forall i | 0 <= i < |names[1..]|
          ensures SymbolNameOk(cc, names[1..][i])
        {
          assert names[1..][i] == names[i + 1];
        }
      }
      SymbolNameReadBack(cc, input, pos, names[0], comma);
      CommaIsTaken(cc, input, comma, after);
      SymbolNameListReadBack(cc, input, after, names[1..], next);
      SymbolNameListFrom(cc, input, pos, comma, after, next, names[0], names[1..]);
      assert [names[0]] + names[1..] == names;
    }
  }

  lemma AggregateReadBack(cc: CharClasses, input: string, pos: nat, n: AggregateNode, next: nat)
    requires StandardClasses(cc) && NamesOk(cc, n.names)
    requires At(input, pos, AggregateText(n)) && next == pos + |AggregateText(n)|
    ensures Lex(cc, input, pos) == Token(Text, "Agg")
    ensures AggregateAt(cc, input, pos) == Success(Parsed(n, next))
  {
    var keyword, text := "Agg", NamesText(n.names);
    var open := pos + |keyword|;
    var list := open + 1;
    var close := list + |text|;
    CallParts(input, pos, keyword, text, open, list, close);
    SymbolNameListReadBack(cc, input, list, n.names, close);
    KeywordTaken(cc, input, pos, keyword, open);
    PunctuationTaken(cc, input, open, '(', list);
    PunctuationTaken(cc, input, close, ')', next);
    AggregateFrom(cc, input, pos, open, list, close, next, n.names);
  }

  lemma ParametersReadBack(cc: CharClasses, input: string, pos: nat, n: ParametersNode, next: nat)
    requires StandardClasses(cc) && n.parameterList == []
    requires At(input, pos, ParametersText(n)) && next == pos + |ParametersText(n)|
    ensures ParametersAt(cc, input, pos) == Success(Parsed(n, next))
  {
    var keyword := "Params";
    var open := pos + |keyword|;
    var list := open + 1;
    CallParts(input, pos, keyword, "", open, list, list);
    KeywordTaken(cc, input, pos, keyword, open);
    PunctuationTaken(cc, input, open, '(', list);
    CloseIsNoText(cc, input, list);
    PunctuationTaken(cc, input, list, ')', next);
    ParametersFrom(cc, input, pos, open, list, next);
  }

  lemma NamespaceReadBack(cc: CharClasses, input: string, pos: nat, names: seq<SymbolNameNode>, next: nat)
    requires StandardClasses(cc) && NamesOk(cc, names)
    requires At(input, pos, RQNameText(NamespaceNode(names))) && next == pos + |RQNameText(NamespaceNode(names))|
    ensures RQNameAt(cc, input, pos) == Success(Parsed(NamespaceNode(names), next))
  {
    var keyword, text := "Ns", NamesText(names);
    var open := pos + |keyword|;
    var list := open + 1;
    var close := list + |text|;
    assert RQNameText(NamespaceNode(names)) == Call(keyword, text);
    CallParts(input, pos, keyword, text, open, list, close);
    SymbolNameListReadBack(cc, input, list, names, close);
    KeywordTaken(cc, input, pos, keyword, open);
    PunctuationTaken(cc, input, open, '(', list);
    PunctuationTaken(cc, input, close, ')', next);
    NamespaceFrom(cc, input, pos, open, list, close, next, names);
  }

  lemma TopAggregateReadBack(cc: CharClasses, input: string, pos: nat, a: AggregateNode, next: nat)
    requires StandardClasses(cc) && NamesOk(cc, a.names)
    requires At(input, pos, RQNameText(TopAggregate(a))) && next == pos + |RQNameText(TopAggregate(a))|
    ensures RQNameAt(cc, input, pos) == Success(Parsed(TopAggregate(a), next))
  {
    assert RQNameText(TopAggregate(a)) == AggregateText(a);
    AggregateReadBack(cc, input, pos, a, next);
    TopAggregateFrom(cc, input, pos, next, a);
  }

  lemma MemberReadBack(cc: CharClasses, input: string, pos: nat, event: bool, a: AggregateNode, s: SymbolNameNode,
                       next: nat)
    requires StandardClasses(cc) && NamesOk(cc, a.names) && SymbolNameOk(cc, s)
    requires At(input, pos, RQNameText(MemberNode(event, a, s))) && next == pos + |RQNameText(MemberNode(event, a, s))|
    ensures RQNameAt(cc, input, pos) == Success(Parsed(MemberNode(event, a, s), next))
  {
    var keyword, at, st := MemberKeyword(event), AggregateText(a), SymbolNameText(s);
    var open := pos + |keyword|;
    var start := open + 1;
    var comma := start + |at|;
    var name := comma + 1;
    var close := name + |st|;
    assert RQNameText(MemberNode(event, a, s)) == Call(keyword, at + "," + st);
    CallParts(input, pos, keyword, at + "," + st, open, start, close);
    CommaParts(input, start, at, st, comma, name);
    AggregateReadBack(cc, input, start, a, comma);
    SymbolNameReadBack(cc, input, name, s, close);
    KeywordTaken(cc, input, pos, keyword, open);
    PunctuationTaken(cc, input, open, '(', start);
    PunctuationTaken(cc, input, comma, ',', name);
    PunctuationTaken(cc, input, close, ')', next);
    MemberFrom(cc, input, pos, event, open, start, comma, name, close, next, a, s);
  }

  lemma SignatureReadBack(cc: CharClasses, input: string, pos: nat, property: bool, a: AggregateNode,
                          s: SymbolNameNode, c: TypeVariableCountNode, p: ParametersNode, close: nat, next: nat)
    requires StandardClasses(cc) && DigitsOk(cc, c.text) && p.parameterList == []
    requires At(input, pos, SignatureText(c, p)) && close == pos + |SignatureText(c, p)|
    requires At(input, close, ")") && next == close + 1
    ensures SignatureAt(cc, input, pos, property, a, s) == Success(Parsed(MethodOrPropertyNode(property, a, s, c, p), next))
  {
    var ct, pt := CountText(c), ParametersText(p);
    var comma := pos + |ct|;
    var list := comma + 1;
    CommaParts(input, pos, ct, pt, comma, list);
    TypeVariableCountReadBack(cc, input, pos, c, comma);
    ParametersReadBack(cc, input, list, p, close);
    PunctuationTaken(cc, input, comma, ',', list);
    PunctuationTaken(cc, input, close, ')', next);
    SignatureFrom(cc, input, pos, property, comma, list, close, next, a, s, c, p);
  }

  lemma MethodOrPropertyReadBack(cc: CharClasses, input: string, pos: nat, property: bool, a: AggregateNode,
                                 s: SymbolNameNode, c: TypeVariableCountNode, p: ParametersNode, next: nat)
    requires StandardClasses(cc) && NamesOk(cc, a.names) && SymbolNameOk(cc, s) && DigitsOk(cc, c.text)
    requires p.parameterList == []
    requires var n := MethodOrPropertyNode(property, a, s, c, p);
      At(input, pos, RQNameText(n)) && next == pos + |RQNameText(n)|
    ensures RQNameAt(cc, input, pos) == Success(Parsed(MethodOrPropertyNode(property, a, s, c, p), next))
  {
    var n := MethodOrPropertyNode(property, a, s, c, p);
    var keyword := MethodKeyword(property);
    var at, st, g := AggregateText(a), SymbolNameText(s), SignatureText(c, p);
    var open := pos + |keyword|;
    var start := open + 1;
    var comma := start + |at|;
    var name := comma + 1;
    var comma' := name + |st|;
    var signature := comma' + 1;
    var close := signature + |g|;
    assert RQNameText(n) == Call(keyword, at + "," + st + "," + g);
    CallParts(input, pos, keyword, at + "," + st + "," + g, open, start, close);
    FieldParts(input, start, at, st, g, comma, name, comma', signature);
    AggregateReadBack(cc, input, start, a, comma);
    SymbolNameReadBack(cc, input, name, s, comma');
    SignatureReadBack(cc, input, signature, property, a, s, c, p, close, next);
    KeywordTaken(cc, input, pos, keyword, open);
    PunctuationTaken(cc, input, open, '(', start);
    PunctuationTaken(cc, input, comma, ',', name);
    PunctuationTaken(cc, input, comma', ',', signature);
    MethodOrPropertyFrom(cc, input, pos, property, open, start, comma, name, comma', signature, a, s,
                         Success(Parsed(n, next)));
  }

  /** Every well-formed node is read back from its RQName syntax, up to the position right
      after it. */
  lemma RQNameReadBack(cc: CharClasses, input: string, pos: nat, n: RQNameNode)
    requires StandardClasses(cc) && WellFormed(cc, n) && At(input, pos, RQNameText(n))
    ensures RQNameAt(cc, input, pos) == Success(Parsed(n, pos + |RQNameText(n)|))
  {
    var next := pos + |RQNameText(n)|;
    match n
    case NamespaceNode(names) =>
      NamespaceReadBack(cc, input, pos, names, next);
      assert Parsed(NamespaceNode(names), next) == Parsed(n, pos + |RQNameText(n)|);
    case TopAggregate(a) =>
      TopAggregateReadBack(cc, input, pos, a, next);
      assert Parsed(TopAggregate(a), next) == Parsed(n, pos + |RQNameText(n)|);
    case MemberVariableNode(a, s) =>
      MemberReadBack(cc, input, pos, false, a, s, next);
      assert Parsed(MemberNode(false, a, s), next) == Parsed(n, pos + |RQNameText(n)|);
    case EventNode(a, s) =>
      MemberReadBack(cc, input, pos, true, a, s, next);
      assert Parsed(MemberNode(true, a, s), next) == Parsed(n, pos + |RQNameText(n)|);
    case MethodNode(a, s, c, p) =>
      MethodOrPropertyReadBack(cc, input, pos, false, a, s, c, p, next);
      assert Parsed(MethodOrPropertyNode(false, a, s, c, p), next) == Parsed(n, pos + |RQNameText(n)|);
    case PropertyNode(a, s, c, p) =>
      MethodOrPropertyReadBack(cc, input, pos, true, a, s, c, p, next);
      assert Parsed(MethodOrPropertyNode(true, a, s, c, p), next) == Parsed(n, pos + |RQNameText(n)|);
  }

  /** Parse reads back every well-formed node from its RQName syntax, whatever follows it:
      nothing checks that the whole input was read. */
  lemma ParseReadsPrinted(cc: CharClasses, n: RQNameNode, rest: string)
    requires StandardClasses(cc) && WellFormed(cc, n)
    ensures ParseRQName(cc, Some(RQNameText(n) + rest)) == Success(n)
  {
    var input := RQNameText(n) + rest;
    assert input[0..|RQNameText(n)|] == RQNameText(n);
    RQNameReadBack(cc, input, 0, n);
  }
}
