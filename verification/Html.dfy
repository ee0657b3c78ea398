/** The HTML printer `toHtml` and a reader for what it prints. */
module Html {
  import opened Options

  type Attribute = (string, string)

  datatype Node = Text(text: string) | Element(tag: string, attributes: seq<Attribute>, children: seq<Node>)

  // ----- the printer -----

  /** `s.replace(/c/g, with)` */
  function ReplaceAll(s: string, c: char, with: string): string {
    if s == "" then "" else (if s[0] == c then with else [s[0]]) + ReplaceAll(s[1..], c, with)
  }

  function HtmlEscape(s: string): string {
    ReplaceAll(ReplaceAll(ReplaceAll(ReplaceAll(ReplaceAll(s, '&', "&amp;"), '"', "&quot;"), '\'', "&#39;"), '<', "&lt;"), '>', "&gt;")
  }

  predicate IsSpace(c: char) {
    c == ' ' || '\t' <= c <= '\r' || c == '\U{00A0}' || c == '\U{1680}' || '\U{2000}' <= c <= '\U{200A}' ||
    c == '\U{2028}' || c == '\U{2029}' || c == '\U{202F}' || c == '\U{205F}' || c == '\U{3000}' || c == '\U{FEFF}'
  }

  function TrimLeft(s: string): string {
    if s != "" && IsSpace(s[0]) then TrimLeft(s[1..]) else s
  }

  function TrimRight(s: string): string {
    if s != "" && IsSpace(s[|s| - 1]) then TrimRight(s[..|s| - 1]) else s
  }

  function Pairs(attributes: seq<Attribute>): string {
    if attributes == [] then ""
    else attributes[0].0 + "=\"" + HtmlEscape(attributes[0].1) + "\" " + Pairs(attributes[1..])
  }

  function JoinAttributes(attributes: seq<Attribute>): string {
    TrimRight(TrimLeft(Pairs(attributes)))
  }

  function ToHtml(node: Node): string {
    match node
    case Text(text) => HtmlEscape(text)
    case Element(tag, attributes, children) =>
      "<" + tag + " " + JoinAttributes(attributes) + ">" + AllToHtml(children) + "</" + tag + ">"
  }

  function AllToHtml(nodes: seq<Node>): string {
    if nodes == [] then "" else ToHtml(nodes[0]) + AllToHtml(nodes[1..])
  }

  // ----- the reader -----

  function Unescape(s: string): string {
    if s == "" then ""
    else if "&amp;" <= s then "&" + Unescape(s[5..])
    else if "&quot;" <= s then "\"" + Unescape(s[6..])
    else if "&#39;" <= s then "'" + Unescape(s[5..])
    else if "&lt;" <= s then "<" + Unescape(s[4..])
    else if "&gt;" <= s then ">" + Unescape(s[4..])
    else [s[0]] + Unescape(s[1..])
  }

  /** The part of s before the first c, and the rest from c on. */
  function Until(s: string, c: char): (r: (string, string))
    ensures r.0 + r.1 == s && c !in r.0 && (r.1 != "" ==> r.1[0] == c)
  {
    if s == "" || s[0] == c then ("", s)
    else
      var (a, b) := Until(s[1..], c);
      ([s[0]] + a, b)
  }

  /** Attributes up to and including the closing `>`. */
  function ReadAttributes(s: string): (r: Option<(seq<Attribute>, string)>)
    ensures r.Some? ==> |r.value.1| < |s|
    decreases |s|
  {
    if s == "" then None
    else if s[0] == '>' then Some(([], s[1..]))
    else if s[0] == ' ' then ReadAttributes(s[1..])
    else
      var (name, rest) := Until(s, '=');
      if !("=\"" <= rest) then None
      else
        var (value, after) := Until(rest[2..], '"');
        if after == "" then None
        else
          match ReadAttributes(after[1..])
          case None => None
          case Some((more, end)) => Some(([(name, Unescape(value))] + more, end))
  }

  /** Nodes up to the end of s or the next closing tag. */
  function ReadNodes(s: string): (r: Option<(seq<Node>, string)>)
    ensures r.Some? ==> |r.value.1| <= |s|
    decreases |s|
  {
    if s == "" || "</" <= s then Some(([], s))
    else if s[0] == '<' then
      var (tag, rest) := Until(s[1..], ' ');
      if rest == "" then None
      else
        match ReadAttributes(rest[1..])
        case None => None
        case Some((attributes, inner)) =>
          match ReadNodes(inner)
          case None => None
          case Some((children, close)) =>
            if !("</" + tag + ">" <= close) then None
            else
              match ReadNodes(close[|tag| + 3..])
              case None => None
              case Some((more, end)) => Some(([Element(tag, attributes, children)] + more, end))
    else
      var (run, rest) := Until(s, '<');
      match ReadNodes(rest)
      case None => None
      case Some((more, end)) => Some(([Text(Unescape(run))] + more, end))
  }

  /** A whole document: nothing may be left over. */
  function ReadHtml(s: string): Option<seq<Node>> {
    match ReadNodes(s)
    case Some((nodes, "")) => Some(nodes)
    case _ => None
  }

  // ----- well-formed trees and their normal form -----

  predicate SafeChar(c: char) {
    !IsSpace(c) && c != '<' && c != '>' && c != '=' && c != '"' && c != '/'
  }

  predicate SafeName(s: string) {
    s != "" && forall i :: 0 <= i < |s| ==> SafeChar(s[i])
  }

  predicate WellFormed(node: Node) {
    node.Element? ==>
      && SafeName(node.tag)
      && (forall i :: 0 <= i < |node.attributes| ==> SafeName(node.attributes[i].0))
      && forall child :: child in node.children ==> WellFormed(child)
  }

  /** Adjacent texts merged, empty texts dropped, at every level. */
  function Normalize(nodes: seq<Node>): seq<Node> {
    if nodes == [] then []
    else
      var tail := Normalize(nodes[1..]);
      match nodes[0]
      case Text(text) =>
        if text == "" then tail
        else if tail != [] && tail[0].Text? then [Text(text + tail[0].text)] + tail[1..]
        else [Text(text)] + tail
      case Element(tag, attributes, children) => [Element(tag, attributes, Normalize(children))] + tail
  }

  predicate Normal(nodes: seq<Node>) {
    nodes == [] ||
    (Normal(nodes[1..]) &&
     match nodes[0]
     case Text(text) => text != "" && (|nodes| > 1 ==> nodes[1].Element?)
     case Element(_, _, children) => Normal(children))
  }

  // ----- escaping is one character-wise map -----

  function EscapeChar(c: char): (e: string)
    ensures e != "" && '<' !in e && '"' !in e
  {
    if c == '&' then "&amp;" else if c == '"' then "&quot;" else if c == '\'' then "&#39;"
    else if c == '<' then "&lt;" else if c == '>' then "&gt;" else [c]
  }

  function Escaped(s: string): (e: string)
    ensures '<' !in e && '"' !in e && (s != "" ==> e != "")
  {
    if s == "" then "" else EscapeChar(s[0]) + Escaped(s[1..])
  }

  lemma {:induction false} ReplaceAppend(a: string, b: string, c: char, with: string)
    ensures ReplaceAll(a + b, c, with) == ReplaceAll(a, c, with) + ReplaceAll(b, c, with)
  {
    if a == "" {
      assert a + b == b;
    } else {
      assert (a + b)[0] == a[0] && (a + b)[1..] == a[1..] + b;
      ReplaceAppend(a[1..], b, c, with);
    }
  }

  lemma {:induction false} ReplaceNone(s: string, c: char, with: string)
    requires c !in s
    ensures ReplaceAll(s, c, with) == s
  {
    if s != "" {
      ReplaceNone(s[1..], c, with);
    }
  }

  lemma EscapeAppend(a: string, b: string)
    ensures HtmlEscape(a + b) == HtmlEscape(a) + HtmlEscape(b)
  {
    hide ReplaceAll;
    ReplaceAppend(a, b, '&', "&amp;");
    var a1, b1 := ReplaceAll(a, '&', "&amp;"), ReplaceAll(b, '&', "&amp;");
    ReplaceAppend(a1, b1, '"', "&quot;");
    var a2, b2 := ReplaceAll(a1, '"', "&quot;"), ReplaceAll(b1, '"', "&quot;");
    ReplaceAppend(a2, b2, '\'', "&#39;");
    var a3, b3 := ReplaceAll(a2, '\'', "&#39;"), ReplaceAll(b2, '\'', "&#39;");
    ReplaceAppend(a3, b3, '<', "&lt;");
    var a4, b4 := ReplaceAll(a3, '<', "&lt;"), ReplaceAll(b3, '<', "&lt;");
    ReplaceAppend(a4, b4, '>', "&gt;");
  }

  lemma ReplaceOne(c: char, d: char, with: string)
    ensures ReplaceAll([c], d, with) == if c == d then with else [c]
  {
    assert [c][1..] == "" && ReplaceAll("", d, with) == "";
  }

  /** No later replacement touches what an earlier one has produced. */
  lemma EscapeOne(c: char)
    ensures HtmlEscape([c]) == EscapeChar(c)
  {
    hide ReplaceAll;
    ReplaceOne(c, '&', "&amp;");
    var s1 := if c == '&' then "&amp;" else [c];
    if c == '&' { ReplaceNone(s1, '"', "&quot;"); } else { ReplaceOne(c, '"', "&quot;"); }
    var s2 := if c == '"' then "&quot;" else s1;
    if c == '&' || c == '"' { ReplaceNone(s2, '\'', "&#39;"); } else { ReplaceOne(c, '\'', "&#39;"); }
    var s3 := if c == '\'' then "&#39;" else s2;
    if c == '&' || c == '"' || c == '\'' { ReplaceNone(s3, '<', "&lt;"); } else { ReplaceOne(c, '<', "&lt;"); }
    var s4 := if c == '<' then "&lt;" else s3;
    if c == '&' || c == '"' || c == '\'' || c == '<' { ReplaceNone(s4, '>', "&gt;"); } else { ReplaceOne(c, '>', "&gt;"); }
  }

  /** The five replacements in sequence are one map over the characters. */
  lemma {:induction false} EscapeIsCharwise(s: string)
    ensures HtmlEscape(s) == Escaped(s)
  {
    if s == "" {
    } else {
      hide HtmlEscape;
      assert s == [s[0]] + s[1..];
      EscapeAppend([s[0]], s[1..]);
      EscapeOne(s[0]);
      EscapeIsCharwise(s[1..]);
    }
  }

  lemma UnescapeOne(c: char, rest: string)
    ensures Unescape(EscapeChar(c) + rest) == [c] + Unescape(rest)
  {
    if c == '&' || c == '"' || c == '\'' || c == '<' || c == '>' {
      UnescapeEntity(c, rest);
    } else {
      assert ([c] + rest)[0] == c && ([c] + rest)[1..] == rest;
    }
  }

  lemma UnescapeEntity(c: char, rest: string)
    requires c == '&' || c == '"' || c == '\'' || c == '<' || c == '>'
    ensures Unescape(EscapeChar(c) + rest) == [c] + Unescape(rest)
  {
    var e := EscapeChar(c);
    var s := e + rest;
    assert s[|e|..] == rest && e <= s && s[1] == e[1];
  }

  lemma {:induction false} UnescapeInvertsEscape(s: string)
    ensures Unescape(Escaped(s)) == s
  {
    if s == "" {
    } else {
      UnescapeOne(s[0], Escaped(s[1..]));
      UnescapeInvertsEscape(s[1..]);
    }
  }

  // ----- attributes -----

  function Quoted(attribute: Attribute): string {
    attribute.0 + "=\"" + Escaped(attribute.1) + "\""
  }

  /** The pairs as trim leaves them: separated by single blanks, none at either end. */
  function Joined(attributes: seq<Attribute>): string {
    if attributes == [] then ""
    else if |attributes| == 1 then Quoted(attributes[0])
    else Quoted(attributes[0]) + (" " + Joined(attributes[1..]))
  }

  predicate SafeAttributes(attributes: seq<Attribute>) {
    forall i :: 0 <= i < |attributes| ==> SafeName(attributes[i].0)
  }

  lemma QuotedPair(attributes: seq<Attribute>)
    requires attributes != []
    ensures Pairs(attributes) == Quoted(attributes[0]) + (" " + Pairs(attributes[1..]))
  {
    hide HtmlEscape, Escaped;
    EscapeIsCharwise(attributes[0].1);
  }

  lemma {:induction false} PairsAreJoined(attributes: seq<Attribute>)
    requires attributes != []
    ensures Pairs(attributes) == Joined(attributes) + " "
    ensures Joined(attributes) != "" && Joined(attributes)[|Joined(attributes)| - 1] == '"'
  {
    QuotedPair(attributes);
    if |attributes| == 1 {
      assert Pairs(attributes[1..]) == "";
    } else {
      PairsAreJoined(attributes[1..]);
      hide Pairs, Escaped, Quoted;
    }
  }

  /** Trimming removes the last blank and nothing else. */
  lemma JoinAttributesIsJoined(attributes: seq<Attribute>)
    requires SafeAttributes(attributes)
    ensures JoinAttributes(attributes) == Joined(attributes)
  {
    if attributes != [] {
      PairsAreJoined(attributes);
      var j := Joined(attributes);
      assert SafeName(attributes[0].0) && j[0] == attributes[0].0[0];
      assert TrimLeft(j + " ") == j + " ";
      assert (j + " ")[..|j|] == j;
      assert TrimRight(j + " ") == TrimRight(j) == j;
    }
  }

  lemma {:induction false} UntilStops(a: string, b: string, c: char)
    requires c !in a && (b == "" || b[0] == c)
    ensures Until(a + b, c) == (a, b)
  {
    if a == "" {
      assert a + b == b;
    } else {
      assert (a + b)[0] == a[0] && (a + b)[1..] == a[1..] + b;
      assert a[0] in a && [a[0]] + a[1..] == a;
      UntilStops(a[1..], b, c);
    }
  }

  lemma {:induction false} AttributesRoundTrip(attributes: seq<Attribute>, rest: string)
    requires SafeAttributes(attributes)
    ensures ReadAttributes(Joined(attributes) + ">" + rest) == Some((attributes, rest))
  {
    if attributes == [] {
      assert (Joined(attributes) + ">" + rest)[1..] == rest;
    } else {
      var (name, value) := attributes[0];
      var tail := if |attributes| == 1 then ">" + rest else " " + (Joined(attributes[1..]) + ">" + rest);
      AttributesRoundTrip(attributes[1..], rest);
      JoinedSplits(attributes, rest, tail);
      AttributeStep(name, value, tail);
      AfterAttribute(attributes[1..], rest, tail);
      hide Joined, Quoted, ReadAttributes;
      assert attributes == [(name, value)] + attributes[1..];
    }
  }

  lemma JoinedSplits(attributes: seq<Attribute>, rest: string, tail: string)
    requires attributes != []
    requires tail == if |attributes| == 1 then ">" + rest else " " + (Joined(attributes[1..]) + ">" + rest)
    ensures Joined(attributes) + ">" + rest == Quoted(attributes[0]) + tail
  {
    hide Quoted;
  }

  lemma AfterAttribute(more: seq<Attribute>, rest: string, tail: string)
    requires tail == if more == [] then ">" + rest else " " + (Joined(more) + ">" + rest)
    ensures ReadAttributes(tail) == ReadAttributes(Joined(more) + ">" + rest)
  {
    if more != [] {
      assert tail[0] == ' ' && tail[1..] == Joined(more) + ">" + rest;
    } else {
      assert Joined(more) + ">" + rest == tail;
    }
  }

  lemma AttributeStep(name: string, value: string, tail: string)
    requires SafeName(name)
    ensures var r := ReadAttributes(Quoted((name, value)) + tail);
      r == match ReadAttributes(tail) { case None => None case Some((more, end)) => Some(([(name, value)] + more, end)) }
  {
    var v := Escaped(value);
    var close := "\"" + tail;
    var rest := "=\"" + (v + close);
    assert SafeChar(name[0]) && forall i :: 0 <= i < |name| ==> SafeChar(name[i]);
    UntilStops(name, rest, '=');
    UntilStops(v, close, '"');
    UnescapeInvertsEscape(value);
    QuotedSplits(name, value, tail);
    hide Escaped, Quoted, Until, Unescape;
    assert rest[2..] == v + close && close[1..] == tail;
  }

  lemma QuotedSplits(name: string, value: string, tail: string)
    ensures Quoted((name, value)) + tail == name + ("=\"" + (Escaped(value) + ("\"" + tail)))
  {
    hide Escaped;
  }

  // ----- nodes -----

  /** Merging texts does not change what is printed. */
  lemma {:induction false} NormalizeKeepsHtml(nodes: seq<Node>)
    ensures AllToHtml(Normalize(nodes)) == AllToHtml(nodes)
  {
    if nodes == [] {
    } else {
      NormalizeKeepsHtml(nodes[1..]);
      var tail := Normalize(nodes[1..]);
      match nodes[0]
      case Text(text) =>
        if text == "" {
          assert HtmlEscape("") == "";
        } else if tail != [] && tail[0].Text? {
          EscapeAppend(text, tail[0].text);
          assert AllToHtml(tail) == HtmlEscape(tail[0].text) + AllToHtml(tail[1..]);
          var merged := [Text(text + tail[0].text)] + tail[1..];
          assert merged[1..] == tail[1..];
        } else {
          assert ([Text(text)] + tail)[1..] == tail;
        }
      case Element(tag, attributes, children) =>
        NormalizeKeepsHtml(children);
        assert ([Element(tag, attributes, Normalize(children))] + tail)[1..] == tail;
    }
  }

  predicate AllWellFormed(nodes: seq<Node>) {
    forall node :: node in nodes ==> WellFormed(node)
  }

  lemma {:induction false} NormalizeIsNormal(nodes: seq<Node>)
    requires AllWellFormed(nodes)
    ensures Normal(Normalize(nodes)) && AllWellFormed(Normalize(nodes))
  {
    if nodes == [] {
    } else {
      NormalizeIsNormal(nodes[1..]);
      var tail := Normalize(nodes[1..]);
      match nodes[0]
      case Text(text) =>
        if text != "" && tail != [] && tail[0].Text? {
          assert ([Text(text + tail[0].text)] + tail[1..])[1..] == tail[1..];
        } else if text != "" {
          assert ([Text(text)] + tail)[1..] == tail;
        }
      case Element(tag, attributes, children) =>
        assert WellFormed(nodes[0]);
        NormalizeIsNormal(children);
        assert ([Element(tag, attributes, Normalize(children))] + tail)[1..] == tail;
    }
  }

  predicate Ends(rest: string) {
    rest == "" || "</" <= rest
  }

  /** What is printed after a text in normal form starts with `<`, if there is anything. */
  lemma HtmlStartsElement(nodes: seq<Node>, rest: string)
    requires (nodes == [] || nodes[0].Element?) && Ends(rest)
    ensures var s := AllToHtml(nodes) + rest; s == "" || s[0] == '<'
  {}

  lemma TextStep(text: string, rest: string)
    requires text != "" && (rest == "" || rest[0] == '<')
    ensures ReadNodes(Escaped(text) + rest) ==
      match ReadNodes(rest) { case None => None case Some((more, end)) => Some(([Text(text)] + more, end)) }
  {
    var e := Escaped(text);
    UntilStops(e, rest, '<');
    UnescapeInvertsEscape(text);
    assert (e + rest)[0] == e[0];
  }

  lemma ElementStep(tag: string, attributes: seq<Attribute>, inner: string, children: seq<Node>, rest: string)
    requires SafeName(tag) && SafeAttributes(attributes)
    requires ReadNodes(inner + ("</" + tag + ">" + rest)) == Some((children, "</" + tag + ">" + rest))
    ensures ReadNodes("<" + (tag + (" " + (Joined(attributes) + ">" + (inner + ("</" + tag + ">" + rest)))))) ==
      match ReadNodes(rest) { case None => None case Some((more, end)) => Some(([Element(tag, attributes, children)] + more, end)) }
  {
    hide Joined;
    var close := "</" + tag + ">" + rest;
    var afterTag := " " + (Joined(attributes) + ">" + (inner + close));
    assert SafeChar(tag[0]) && forall i :: 0 <= i < |tag| ==> SafeChar(tag[i]);
    UntilStops(tag, afterTag, ' ');
    assert afterTag[1..] == Joined(attributes) + ">" + (inner + close);
    AttributesRoundTrip(attributes, inner + close);
    assert close[|tag| + 3..] == rest;
    OpenTag(tag, afterTag, close, rest);
  }

  /** How the reader goes through an element, given what it reads on the way. */
  lemma OpenTag(tag: string, afterTag: string, close: string, rest: string)
    requires tag != "" && tag[0] != '/' && afterTag != "" && Until(tag + afterTag, ' ') == (tag, afterTag)
    requires ReadAttributes(afterTag[1..]).Some? && ReadNodes(ReadAttributes(afterTag[1..]).value.1).Some?
    requires ReadNodes(ReadAttributes(afterTag[1..]).value.1).value.1 == close == "</" + tag + ">" + rest && close[|tag| + 3..] == rest
    ensures ReadNodes("<" + (tag + afterTag)) ==
      match ReadNodes(rest) {
        case None => None
        case Some((more, end)) =>
          var (attributes, inner) := ReadAttributes(afterTag[1..]).value;
          Some(([Element(tag, attributes, ReadNodes(inner).value.0)] + more, end))
      }
  {
    hide ReadAttributes, Until;
    var s := "<" + (tag + afterTag);
    assert s[1..] == tag + afterTag && s[0] == '<' && s[1] == tag[0];
  }

  lemma {:induction false} NormalRoundTrip(nodes: seq<Node>, rest: string)
    requires Normal(nodes) && AllWellFormed(nodes) && Ends(rest)
    ensures ReadNodes(AllToHtml(nodes) + rest) == Some((nodes, rest))
    decreases nodes
  {
    if nodes == [] {
      assert AllToHtml(nodes) + rest == rest;
      assert ReadNodes(rest) == Some(([], rest));
    } else {
      hide ReadNodes, ToHtml, AllToHtml;
      NormalRoundTrip(nodes[1..], rest);
      var after := AllToHtml(nodes[1..]) + rest;
      match nodes[0] {
        case Text(text) =>
          HtmlStartsElement(nodes[1..], rest);
          WholeText(text, after);
        case Element(tag, attributes, children) =>
          assert WellFormed(nodes[0]);
          NormalRoundTrip(children, "</" + tag + ">" + after);
          WholeElement(nodes[0], after);
      }
      HeadAndTail(nodes, rest);
      Prepended(nodes);
    }
  }

  lemma HeadAndTail(nodes: seq<Node>, rest: string)
    requires nodes != []
    ensures AllToHtml(nodes) + rest == ToHtml(nodes[0]) + (AllToHtml(nodes[1..]) + rest)
  {
    Associative(ToHtml(nodes[0]), AllToHtml(nodes[1..]), rest);
  }

  lemma Associative(a: string, b: string, c: string)
    ensures (a + b) + c == a + (b + c)
  {}

  lemma Prepended<T>(s: seq<T>)
    requires s != []
    ensures [s[0]] + s[1..] == s
  {}

  lemma WholeText(text: string, after: string)
    requires text != "" && (after == "" || after[0] == '<')
    ensures ReadNodes(ToHtml(Text(text)) + after) ==
      match ReadNodes(after) { case None => None case Some((more, end)) => Some(([Text(text)] + more, end)) }
  {
    hide ReadNodes, Escaped, HtmlEscape;
    EscapeIsCharwise(text);
    TextStep(text, after);
  }

  lemma WholeElement(node: Node, after: string)
    requires node.Element? && WellFormed(node)
    requires ReadNodes(AllToHtml(node.children) + ("</" + node.tag + ">" + after)) == Some((node.children, "</" + node.tag + ">" + after))
    ensures ReadNodes(ToHtml(node) + after) ==
      match ReadNodes(after) { case None => None case Some((more, end)) => Some(([node] + more, end)) }
  {
    hide ReadNodes, AllToHtml, ToHtml, Joined, JoinAttributes;
    JoinAttributesIsJoined(node.attributes);
    ElementStep(node.tag, node.attributes, AllToHtml(node.children), node.children, after);
    ElementText(node.tag, node.attributes, node.children, after);
  }

  lemma ElementText(tag: string, attributes: seq<Attribute>, children: seq<Node>, after: string)
    requires JoinAttributes(attributes) == Joined(attributes)
    ensures ToHtml(Element(tag, attributes, children)) + after ==
      "<" + (tag + (" " + (Joined(attributes) + ">" + (AllToHtml(children) + ("</" + tag + ">" + after)))))
  {
    hide JoinAttributes, Joined;
  }

  /** Reading what toHtml prints gives the tree back, up to merging adjacent and dropping empty texts. */
  lemma HtmlRoundTrip(node: Node)
    requires WellFormed(node)
    ensures ReadHtml(ToHtml(node)) == Some(Normalize([node]))
  {
    var nodes := [node];
    assert nodes[1..] == [] && AllToHtml(nodes) == ToHtml(node) + "";
    NormalizeKeepsHtml(nodes);
    NormalizeIsNormal(nodes);
    NormalRoundTrip(Normalize(nodes), "");
    assert AllToHtml(Normalize(nodes)) + "" == ToHtml(node);
  }

  /** toHtml is unambiguous: equal output means equal trees, up to the same normal form. */
  lemma HtmlIsUnambiguous(x: Node, y: Node)
    requires WellFormed(x) && WellFormed(y)
    ensures ToHtml(x) == ToHtml(y) <==> Normalize([x]) == Normalize([y])
  {
    HtmlRoundTrip(x);
    HtmlRoundTrip(y);
    NormalizeKeepsHtml([x]);
    NormalizeKeepsHtml([y]);
    assert [x][1..] == [] == [y][1..];
    assert AllToHtml([x]) == ToHtml(x) && AllToHtml([y]) == ToHtml(y);
  }
}
