/** What escaping would have given: written with the five characters escaped, as autoescaping
    does, any tree reads back up to its line ends. */
module Escaping {
  import opened Wrappers
  import opened Xml
  import opened XmlText
  import Invoice
  import Decimal
  import Template

  /** The references that escaping uses. */
  predicate Standard(names: Names) {
    && names.reference("amp") == Some('&') && names.reference("lt") == Some('<') && names.reference("gt") == Some('>')
    && names.reference("#34") == Some('"') && names.reference("#39") == Some('\'')
  }

  function EscapeChar(c: char): (s: string) {
    if c == '&' then "&amp;" else if c == '<' then "&lt;" else if c == '>' then "&gt;"
    else if c == '"' then "&#34;" else if c == '\'' then "&#39;" else [c]
  }

  function Escape(s: string): (r: string) { if s == [] then [] else EscapeChar(s[0]) + Escape(s[1..]) }

  function EscapeValues(attrs: map<AttrName, string>): (r: map<AttrName, string>) { map a | a in attrs :: Escape(attrs[a]) }

  function Escaped(n: Node): (r: Node) { Node(n.tag, EscapeValues(n.attrs), Escape(n.text), EscapedAll(n.kids)) }

  function EscapedAll(ns: Forest): (r: Forest) {
    match ns case Nil => Nil case Cons(n, rest) => Cons(Escaped(n), EscapedAll(rest))
  }

  // ---- Line ends ----

  /** A text with its line ends made uniform, and in an attribute its white space. */
  function Uniform(attribute: bool, s: string): (r: string) {
    if s == [] then []
    else if |s| >= 2 && s[0] == '\r' && s[1] == '\n' then Uniform(attribute, s[1..])
    else [Plainly(attribute, s[0])] + Uniform(attribute, s[1..])
  }

  function UniformValues(attrs: map<AttrName, string>): (r: map<AttrName, string>) {
    map a | a in attrs :: Uniform(true, attrs[a])
  }

  function UniformNode(n: Node): (r: Node) {
    Node(n.tag, UniformValues(n.attrs), Uniform(false, n.text), UniformAll(n.kids))
  }

  function UniformAll(ns: Forest): (r: Forest) {
    match ns case Nil => Nil case Cons(n, rest) => Cons(UniformNode(n), UniformAll(rest))
  }

  predicate EvenText(attribute: bool, s: string) {
    forall i :: 0 <= i < |s| ==> s[i] != '\r' && (attribute ==> s[i] != '\n' && s[i] != '\t')
  }

  /** No carriage return in a text, and no line break or tab in an attribute value. */
  predicate Even(n: Node) {
    EvenText(false, n.text) && (forall a :: a in n.attrs ==> EvenText(true, n.attrs[a])) && EvenAll(n.kids)
  }

  predicate EvenAll(ns: Forest) { ns.Cons? ==> Even(ns.head) && EvenAll(ns.tail) }

  lemma {:induction false} UniformShort(attribute: bool, s: string)
    ensures |Uniform(attribute, s)| <= |s|
  {
    if s != [] {
      UniformShort(attribute, s[1..]);
    }
  }

  lemma {:induction false} UniformExactly(attribute: bool, s: string)
    ensures Uniform(attribute, s) == s <==> EvenText(attribute, s)
  {
    if s != [] {
      var rest := s[1..];
      UniformExactly(attribute, rest);
      UniformShort(attribute, rest);
      assert s == [s[0]] + rest;
      assert EvenText(attribute, s) <==>
             s[0] != '\r' && (attribute ==> s[0] != '\n' && s[0] != '\t') && EvenText(attribute, rest) by {
        assert forall i :: 0 < i < |s| ==> s[i] == rest[i - 1];
        assert forall i :: 0 <= i < |rest| ==> rest[i] == s[i + 1];
      }
      if !(|s| >= 2 && s[0] == '\r' && s[1] == '\n') {
        assert Uniform(attribute, s)[0] == Plainly(attribute, s[0]) && Uniform(attribute, s)[1..] == Uniform(attribute, rest);
      }
    }
  }

  lemma {:induction false} UniformNodeExactly(n: Node)
    ensures UniformNode(n) == n <==> Even(n)
    decreases n, 0
  {
    UniformExactly(false, n.text);
    forall a | a in n.attrs ensures UniformValues(n.attrs)[a] == n.attrs[a] <==> EvenText(true, n.attrs[a]) {
      UniformExactly(true, n.attrs[a]);
    }
    assert UniformValues(n.attrs) == n.attrs <==> forall a :: a in n.attrs ==> UniformValues(n.attrs)[a] == n.attrs[a];
    hide Uniform, EvenText, UniformValues, UniformAll, EvenAll;
    UniformAllExactly(n.kids);
  }

  lemma {:induction false} UniformAllExactly(ns: Forest)
    ensures UniformAll(ns) == ns <==> EvenAll(ns)
    decreases ns, 1
  {
    hide UniformNode, Even;
    if ns.Cons? {
      UniformNodeExactly(ns.head);
      UniformAllExactly(ns.tail);
    }
  }

  // ---- Reading what was escaped ----

  lemma {:induction false} Reference(names: Names, attribute: bool, name: string, c: char, rest: string)
    requires ';' !in name && names.reference(name) == Some(c)
    ensures Decode(names, attribute, "&" + name + ";" + rest) == Then(c, Decode(names, attribute, rest))
  {
    var s := "&" + name + ";" + rest;
    assert s == ("&" + name) + (";" + rest);
    UntilAt("&" + name, ";" + rest, ";");
    assert s[0] == '&' && s[1..1 + |name|] == name && s[1 + |name| + 1..] == rest;
  }

  lemma {:induction false} PlainChar(names: Names, attribute: bool, c: char, rest: string)
    requires c != '&' && c != '\r'
    ensures Decode(names, attribute, [c] + rest) == Then(Plainly(attribute, c), Decode(names, attribute, rest))
  {
    assert ([c] + rest)[1..] == rest && ([c] + rest)[0] == c;
  }

  /** The name of the reference that stands for a character, if it is escaped. */
  function NameOf(c: char): (s: string) {
    if c == '&' then "amp" else if c == '<' then "lt" else if c == '>' then "gt"
    else if c == '"' then "#34" else if c == '\'' then "#39" else ""
  }

  lemma {:induction false} EscapedAs(c: char)
    ensures NameOf(c) != "" ==> EscapeChar(c) == "&" + NameOf(c) + ";" && ';' !in NameOf(c)
    ensures NameOf(c) == "" ==> EscapeChar(c) == [c] && c != '&'
  {
  }

  lemma {:induction false} DecodeChar(names: Names, attribute: bool, c: char, rest: string)
    requires Standard(names) && c != '\r'
    ensures Decode(names, attribute, EscapeChar(c) + rest) == Then(Plainly(attribute, c), Decode(names, attribute, rest))
  {
    EscapedAs(c);
    assert NameOf(c) != "" ==> names.reference(NameOf(c)) == Some(c) && Plainly(attribute, c) == c;
    hide Decode, EscapeChar, NameOf, Standard, Plainly;
    if NameOf(c) != "" {
      Reference(names, attribute, NameOf(c), c, rest);
    } else {
      PlainChar(names, attribute, c, rest);
    }
  }

  lemma {:induction false} DecodeEscaped(names: Names, attribute: bool, s: string)
    requires Standard(names)
    ensures Decode(names, attribute, Escape(s)) == Some(Uniform(attribute, s))
  {
    if s != [] {
      var rest := Escape(s[1..]);
      DecodeEscaped(names, attribute, s[1..]);
      if s[0] == '\r' {
        var t := ['\r'] + rest;
        assert Escape(s) == t && t[1..] == rest && t[0] == '\r';
        assert |s| >= 2 && s[1] == '\n' <==> |t| >= 2 && t[1] == '\n' by {
          NewlineFirst(s[1..]);
        }
      } else {
        DecodeChar(names, attribute, s[0], rest);
      }
    }
  }

  lemma {:induction false} NewlineFirst(s: string)
    ensures s != [] && s[0] == '\n' <==> Escape(s) != [] && Escape(s)[0] == '\n'
  {
  }

  lemma {:induction false} NothingLeft(s: string)
    ensures forall i :: 0 <= i < |Escape(s)| ==> Escape(s)[i] != '<' && Escape(s)[i] != '"' && Escape(s)[i] != '>'
  {
    if s != [] {
      NothingLeft(s[1..]);
      var a, b := EscapeChar(s[0]), Escape(s[1..]);
      assert forall i :: 0 <= i < |a| ==> a[i] != '<' && a[i] != '"' && a[i] != '>';
      assert forall i :: 0 <= i < |a + b| ==> (a + b)[i] == if i < |a| then a[i] else b[i - |a|];
    }
  }

  lemma {:induction false} EscapedMeans(names: Names, n: Node)
    requires Standard(names)
    ensures Means(names, Escaped(n), UniformNode(n))
    decreases n, 0
  {
    DecodeEscaped(names, false, n.text);
    NothingLeft(n.text);
    forall a | a in n.attrs ensures SealedValue(names, Escape(n.attrs[a]), Uniform(true, n.attrs[a])) {
      DecodeEscaped(names, true, n.attrs[a]);
      NothingLeft(n.attrs[a]);
    }
    EscapedMeansAll(names, n.kids);
    hide Decode, Escape, Uniform, MeansAll, EscapedAll, UniformAll, Standard;
  }

  lemma {:induction false} EscapedMeansAll(names: Names, ns: Forest)
    requires Standard(names)
    ensures MeansAll(names, EscapedAll(ns), UniformAll(ns))
    decreases ns, 1
  {
    hide Means, Escaped, UniformNode, Standard;
    if ns.Cons? {
      EscapedMeans(names, ns.head);
      EscapedMeansAll(names, ns.tail);
    }
  }

  /** Escaped, any tree parses, and as itself exactly when no text has a carriage return and no
      attribute value a line break or a tab. */
  lemma {:induction false} EscapedExactly(names: Names, n: Node)
    requires Sound(names) && Standard(names)
    ensures Parse(names, Write(names, Escaped(n))) == Some(UniformNode(n))
    ensures Parse(names, Write(names, Escaped(n))) == Some(n) <==> Even(n)
  {
    hide Sound, Standard, Write, Read, Escaped, UniformNode, Even, Means;
    EscapedMeans(names, n);
    ReadWritten(names, Escaped(n), UniformNode(n), "");
    assert Write(names, Escaped(n)) + "" == Write(names, Escaped(n));
    UniformNodeExactly(n);
  }

  /** So with escaping every invoice would have been well formed, whatever its metadata. */
  lemma {:induction false} EscapedInvoice(names: Names, m: Invoice.Metadata, repr: Decimal.Float -> string)
    requires Sound(names) && Standard(names)
    ensures Parse(names, Write(names, Escaped(Template.Render(m, repr)))) == Some(UniformNode(Template.Render(m, repr)))
  {
    hide Sound, Standard, Parse, Write, Escaped, UniformNode, Template.Render;
    EscapedExactly(names, Template.Render(m, repr));
  }
}
