/** Trees as text. The template is not escaped (its name does not end in `.xml`), so values
    are written as they are; the parser reads elements, attributes and references. */
module XmlText {
  import opened Wrappers
  import opened Xml

  /** The spelling of tags and attributes, and the characters that references stand for. */
  datatype Names = Names(
    tag: Tag -> string, tagOf: string -> Option<Tag>,
    attr: AttrName -> string, attrOf: string -> Option<AttrName>,
    reference: string -> Option<char>)

  predicate IsName(s: string) { forall i :: 0 <= i < |s| ==> s[i] !in " >=/<" }

  ghost predicate Sound(names: Names) {
    && (forall t: Tag :: IsName(names.tag(t)) && names.tag(t) != "" && names.tagOf(names.tag(t)) == Some(t))
    && (forall a: AttrName :: IsName(names.attr(a)) && names.attrOf(names.attr(a)) == Some(a))
    && (forall s: string :: names.tagOf(s).Some? ==> names.tag(names.tagOf(s).value) == s)
    && (forall s: string :: names.attrOf(s).Some? ==> names.attr(names.attrOf(s).value) == s)
  }

  // ---- Writing ----

  function AttrText(name: string, value: string): (s: string) { " " + name + "=\"" + value + "\"" }

  function WriteAttr(names: Names, attrs: map<AttrName, string>, a: AttrName): (s: string) {
    if a in attrs then AttrText(names.attr(a), attrs[a]) else ""
  }

  function WriteAttrs(names: Names, attrs: map<AttrName, string>): (s: string) {
    WriteAttr(names, attrs, SchemeID) + (WriteAttr(names, attrs, UnitCode)
    + (WriteAttr(names, attrs, Format) + WriteAttr(names, attrs, CurrencyID)))
  }

  function Close(names: Names, t: Tag): (s: string) { "</" + names.tag(t) + ">" }

  function Write(names: Names, n: Node): (s: string) {
    "<" + names.tag(n.tag)
    + (WriteAttrs(names, n.attrs) + (">" + (n.text + (WriteAll(names, n.kids) + Close(names, n.tag)))))
  }

  function WriteAll(names: Names, ns: Forest): (s: string) {
    match ns case Nil => "" case Cons(n, rest) => Write(names, n) + WriteAll(names, rest)
  }

  // ---- Reading ----

  /** The place of the first character among `stops`, or the end. */
  function Until(s: string, stops: string): (k: nat)
    ensures k <= |s| && (forall i :: 0 <= i < k ==> s[i] !in stops) && (k < |s| ==> s[k] in stops)
  {
    if s == [] || s[0] in stops then 0 else 1 + Until(s[1..], stops)
  }

  /** A literal character as it is read: line ends become `\n`, and in an attribute white
      space becomes a space. */
  function Plainly(attribute: bool, c: char): (r: char) {
    if attribute && (c == '\r' || c == '\n' || c == '\t') then ' ' else if c == '\r' then '\n' else c
  }

  function Then(c: char, r: Option<string>): (r': Option<string>) { if r.Some? then Some([c] + r.value) else None }

  /** The value of raw text: references resolved and line ends made uniform. */
  function Decode(names: Names, attribute: bool, s: string): (r: Option<string>)
    decreases |s|
  {
    if s == [] then Some([])
    else if s[0] == '&' then
      var k := Until(s, ";");
      if k == |s| then None
      else
        var c := names.reference(s[1..k]);
        if c.None? then None else Then(c.value, Decode(names, attribute, s[k + 1..]))
    else if |s| >= 2 && s[0] == '\r' && s[1] == '\n' then Decode(names, attribute, s[1..])
    else Then(Plainly(attribute, s[0]), Decode(names, attribute, s[1..]))
  }

  /** Raw character data may not contain `]]>`, an attribute value may not contain `<`. */
  predicate EndsSection(s: string) {
    exists i :: 0 <= i < |s| - 2 && s[i] == ']' && s[i + 1] == ']' && s[i + 2] == '>'
  }

  datatype RawAttr = RawAttr(name: string, value: string, next: string)

  /** The attribute at the start of `s`, unread. */
  function SplitAttr(s: string): (r: Option<RawAttr>)
    ensures r.Some? ==> |s| == |r.value.name| + |r.value.value| + |r.value.next| + 4
                        && '<' !in r.value.value && '"' !in r.value.value
  {
    var k := Until(s, "=");
    if k == 0 || s[0] != ' ' || k + 2 > |s| || s[k + 1] != '"' then None
    else
      var rest := s[k + 2..];
      var e := Until(rest, "\"");
      if e == |rest| || '<' in rest[..e] then None else Some(RawAttr(s[1..k], rest[..e], rest[e + 1..]))
  }

  function ReadAttrs(names: Names, s: string): (r: Option<(map<AttrName, string>, string)>)
    decreases |s|
  {
    if s == [] then None
    else if s[0] == '>' then Some((map[], s[1..]))
    else if SplitAttr(s).None? then None
    else
      var RawAttr(name, raw, next) := SplitAttr(s).value;
      var a, value, more := names.attrOf(name), Decode(names, true, raw), ReadAttrs(names, next);
      if a.None? || value.None? || more.None? || a.value in more.value.0 then None
      else Some((more.value.0[a.value := value.value], more.value.1))
  }

  /** An element at the start of `s`, and what follows it. */
  function Read(names: Names, s: string): (r: Option<(Node, string)>)
    ensures r.Some? ==> |r.value.1| < |s|
    decreases |s|, 0
  {
    if s == [] || s[0] != '<' then None
    else
      var k := Until(s, " >");
      var tag, attrs := if k == 0 then None else names.tagOf(s[1..k]), ReadAttrs(names, s[k..]);
      if tag.None? || attrs.None? then None
      else
        var body := attrs.value.1;
        if |body| >= |s| then None
        else
          var e := Until(body, "<");
          var text, kids := Decode(names, false, body[..e]), ReadAll(names, body[e..]);
          if text.None? || kids.None? || EndsSection(body[..e]) || !(Close(names, tag.value) <= kids.value.1) then None
          else Some((Node(tag.value, attrs.value.0, text.value, kids.value.0), kids.value.1[|Close(names, tag.value)|..]))
  }

  /** The elements up to a closing tag; text after an element is passed over. */
  function ReadAll(names: Names, s: string): (r: Option<(Forest, string)>)
    ensures r.Some? ==> |r.value.1| <= |s|
    decreases |s|, 1
  {
    if "</" <= s then Some((Nil, s))
    else
      var first := Read(names, s);
      if first.None? then None
      else
        var after := first.value.1;
        var more := ReadAll(names, after[Until(after, "<")..]);
        if more.None? then None else Some((Cons(first.value.0, more.value.0), more.value.1))
  }

  /** A whole document. */
  function Parse(names: Names, s: string): (r: Option<Node>) {
    var top := Read(names, s);
    if top.Some? && top.value.1 == "" then Some(top.value.0) else None
  }

  // ---- Text free of markup ----

  predicate CleanText(s: string) {
    (forall i :: 0 <= i < |s| ==> s[i] != '<' && s[i] != '&' && s[i] != '\r') && !EndsSection(s)
  }

  predicate CleanValue(s: string) {
    forall i :: 0 <= i < |s| ==> s[i] != '<' && s[i] != '&' && s[i] != '"' && s[i] != '\r' && s[i] != '\n' && s[i] != '\t'
  }

  predicate Clean(n: Node) {
    CleanText(n.text) && (forall a :: a in n.attrs ==> CleanValue(n.attrs[a])) && CleanAll(n.kids)
  }

  predicate CleanAll(ns: Forest) { ns.Cons? ==> Clean(ns.head) && CleanAll(ns.tail) }

  // ---- What a written tree stands for ----

  /** Raw text that a parser takes whole, and the value it stands for. */
  predicate SealedText(names: Names, raw: string, value: string) {
    '<' !in raw && !EndsSection(raw) && Decode(names, false, raw) == Some(value)
  }

  predicate SealedValue(names: Names, raw: string, value: string) {
    '<' !in raw && '"' !in raw && Decode(names, true, raw) == Some(value)
  }

  /** Written as it is, the first tree stands for the second. */
  predicate Means(names: Names, raw: Node, n: Node) {
    && raw.tag == n.tag && SealedText(names, raw.text, n.text) && raw.attrs.Keys == n.attrs.Keys
    && (forall a :: a in raw.attrs ==> SealedValue(names, raw.attrs[a], n.attrs[a])) && MeansAll(names, raw.kids, n.kids)
  }

  predicate MeansAll(names: Names, raw: Forest, ns: Forest) {
    match raw
    case Nil => ns.Nil?
    case Cons(n, rest) => ns.Cons? && Means(names, n, ns.head) && MeansAll(names, rest, ns.tail)
  }

  // ---- What is written is read back ----

  lemma {:induction false} UntilAt(a: string, b: string, stops: string)
    requires (forall i :: 0 <= i < |a| ==> a[i] !in stops) && b != [] && b[0] in stops
    ensures Until(a + b, stops) == |a|
  {
    if a == [] {
      assert a + b == b;
    } else {
      assert (a + b)[1..] == a[1..] + b && (a + b)[0] == a[0];
      UntilAt(a[1..], b, stops);
    }
  }

  lemma {:induction false} DecodeClean(names: Names, attribute: bool, s: string)
    requires forall i :: 0 <= i < |s| ==> s[i] != '&' && s[i] != '\r' && (attribute ==> s[i] != '\n' && s[i] != '\t')
    ensures Decode(names, attribute, s) == Some(s)
  {
    if s != [] {
      DecodeClean(names, attribute, s[1..]);
      assert [s[0]] + s[1..] == s;
    }
  }

  lemma {:induction false} AttrParts(name: string, v: string, s: string)
    requires '=' !in name && '"' !in v
    ensures var t, k := AttrText(name, v) + s, 1 + |name|;
            && Until(t, "=") == k && k + 2 <= |t| && t[0] == ' ' && t[1..k] == name && t[k + 1] == '"'
            && t[k + 2..] == v + "\"" + s
  {
    var t, head, tail := AttrText(name, v) + s, " " + name, "=\"" + v + "\"" + s;
    assert t == head + tail;
    UntilAt(head, tail, "=");
    assert tail[0] == '=' && tail[1] == '"' && tail[2..] == v + "\"" + s;
    assert t[|head|..] == tail && t[|head| + 2..] == tail[2..];
  }

  lemma {:induction false} ValueParts(v: string, s: string)
    requires '"' !in v
    ensures var t := v + "\"" + s; Until(t, "\"") == |v| < |t| && t[..|v|] == v && t[|v| + 1..] == s
  {
    assert v + "\"" + s == v + ("\"" + s);
    UntilAt(v, "\"" + s, "\"");
  }

  lemma {:induction false} SplitWritten(name: string, v: string, s: string)
    requires '=' !in name && '"' !in v && '<' !in v
    ensures SplitAttr(AttrText(name, v) + s) == Some(RawAttr(name, v, s))
  {
    AttrParts(name, v, s);
    ValueParts(v, s);
    hide AttrText, Until;
  }

  lemma {:induction false} AttrBack(names: Names, a: AttrName, raw: string, v: string, s: string)
    requires Sound(names) && SealedValue(names, raw, v)
    requires ReadAttrs(names, s).Some? && a !in ReadAttrs(names, s).value.0
    ensures ReadAttrs(names, AttrText(names.attr(a), raw) + s)
         == Some((ReadAttrs(names, s).value.0[a := v], ReadAttrs(names, s).value.1))
  {
    var name := names.attr(a);
    assert IsName(name) && names.attrOf(name) == Some(a);
    SplitWritten(name, raw, s);
    assert (AttrText(name, raw) + s)[0] == ' ';
    hide Sound, AttrText, Decode, SplitAttr, IsName;
  }

  function Kept(attrs: map<AttrName, string>, a: AttrName, m: map<AttrName, string>): (r: map<AttrName, string>) {
    if a in attrs then m[a := attrs[a]] else m
  }

  lemma {:induction false} AllKept(attrs: map<AttrName, string>)
    ensures Kept(attrs, SchemeID, Kept(attrs, UnitCode, Kept(attrs, Format, Kept(attrs, CurrencyID, map[])))) == attrs
  {
    forall a | a in attrs ensures a == SchemeID || a == UnitCode || a == Format || a == CurrencyID {
    }
  }

  predicate SealedValues(names: Names, raw: map<AttrName, string>, attrs: map<AttrName, string>) {
    raw.Keys == attrs.Keys && forall a :: a in raw ==> SealedValue(names, raw[a], attrs[a])
  }

  lemma {:induction false} NextAttr(
      names: Names, raw: map<AttrName, string>, attrs: map<AttrName, string>, a: AttrName, m: map<AttrName, string>,
      s: string, rest: string)
    requires Sound(names) && SealedValues(names, raw, attrs) && a !in m && ReadAttrs(names, s) == Some((m, rest))
    ensures ReadAttrs(names, WriteAttr(names, raw, a) + s) == Some((Kept(attrs, a, m), rest))
  {
    assert a in raw <==> a in attrs.Keys;
    hide SealedValue;
    if a in attrs {
      AttrBack(names, a, raw[a], attrs[a], s);
    } else {
      assert WriteAttr(names, raw, a) + s == s;
    }
  }

  lemma {:induction false} NoAttrs(names: Names, rest: string)
    ensures ReadAttrs(names, ">" + rest) == Some((map[], rest))
  {
    assert (">" + rest)[1..] == rest;
  }

  lemma {:induction false} KeptApart(attrs: map<AttrName, string>)
    ensures var m4 := Kept(attrs, CurrencyID, map[]);
            var m3 := Kept(attrs, Format, m4);
            Format !in m4 && UnitCode !in m3 && SchemeID !in Kept(attrs, UnitCode, m3)
  {
  }

  lemma {:induction false} AttrsBack(names: Names, raw: map<AttrName, string>, attrs: map<AttrName, string>, rest: string)
    requires Sound(names) && SealedValues(names, raw, attrs)
    ensures ReadAttrs(names, WriteAttrs(names, raw) + (">" + rest)) == Some((attrs, rest))
  {
    hide ReadAttrs, WriteAttr, Sound, SealedValues, Kept;
    var w1, w2, w3, w4 := WriteAttr(names, raw, SchemeID), WriteAttr(names, raw, UnitCode),
                          WriteAttr(names, raw, Format), WriteAttr(names, raw, CurrencyID);
    var end := ">" + rest;
    assert WriteAttrs(names, raw) + end == w1 + (w2 + (w3 + (w4 + end)));
    hide WriteAttrs;
    var m4 := Kept(attrs, CurrencyID, map[]);
    var m3 := Kept(attrs, Format, m4);
    var m2 := Kept(attrs, UnitCode, m3);
    KeptApart(attrs);
    AllKept(attrs);
    NoAttrs(names, rest);
    NextAttr(names, raw, attrs, CurrencyID, map[], end, rest);
    NextAttr(names, raw, attrs, Format, m4, w4 + end, rest);
    NextAttr(names, raw, attrs, UnitCode, m3, w3 + (w4 + end), rest);
    NextAttr(names, raw, attrs, SchemeID, m2, w2 + (w3 + (w4 + end)), rest);
  }

  // ---- Elements ----

  /** What follows the opening tag of an element. */
  lemma {:induction false} WriteParts(names: Names, n: Node, more: string)
    ensures Write(names, n) + more
         == ("<" + names.tag(n.tag))
            + (WriteAttrs(names, n.attrs) + (">" + (n.text + (WriteAll(names, n.kids) + (Close(names, n.tag) + more)))))
  {
  }

  /** The text of an element ends at the first sign of a tag. */
  lemma {:induction false} TextBack(text: string, after: string)
    requires '<' !in text && after != [] && after[0] == '<'
    ensures var body := text + after; Until(body, "<") == |text| && body[..|text|] == text && body[|text|..] == after
  {
    UntilAt(text, after, "<");
  }

  lemma {:induction false} OpensWith(names: Names, ns: Forest, t: Tag, more: string)
    ensures var s := WriteAll(names, ns) + (Close(names, t) + more); s != [] && s[0] == '<'
  {
  }

  lemma {:induction false} NotClosing(names: Names, n: Node, more: string)
    requires Sound(names)
    ensures !("</" <= Write(names, n) + more)
  {
    var name := names.tag(n.tag);
    assert IsName(name) && name != "";
    WriteParts(names, n, more);
    assert (Write(names, n) + more)[1] == name[0];
  }

  lemma {:induction false} TagBack(names: Names, t: Tag, after: string)
    requires Sound(names) && after != [] && after[0] in " >"
    ensures var s := ("<" + names.tag(t)) + after; var k := 1 + |names.tag(t)|;
            && Until(s, " >") == k && s[1..k] == names.tag(t) && s[k..] == after && s[0] == '<'
            && names.tagOf(names.tag(t)) == Some(t)
  {
    var name := names.tag(t);
    assert IsName(name);
    UntilAt("<" + name, after, " >");
  }

  lemma {:induction false} AttrsOpen(names: Names, attrs: map<AttrName, string>, more: string)
    ensures var s := WriteAttrs(names, attrs) + (">" + more); s != [] && s[0] in " >"
  {
  }

  /** What is written is read as what it stands for, at any nesting, and what follows is left. */
  lemma {:induction false} ReadWritten(names: Names, raw: Node, n: Node, more: string)
    requires Sound(names) && Means(names, raw, n)
    ensures Read(names, Write(names, raw) + more) == Some((n, more))
    decreases raw, 0
  {
    var close := Close(names, raw.tag) + more;
    var after := WriteAll(names, raw.kids) + close;
    var body := raw.text + after;
    var tail := WriteAttrs(names, raw.attrs) + (">" + body);
    var s := ("<" + names.tag(raw.tag)) + tail;
    WriteParts(names, raw, more);
    assert Write(names, raw) + more == s;
    AttrsOpen(names, raw.attrs, body);
    TagBack(names, raw.tag, tail);
    AttrsBack(names, raw.attrs, n.attrs, body);
    OpensWith(names, raw.kids, raw.tag, more);
    TextBack(raw.text, after);
    AllWritten(names, raw.kids, n.kids, raw.tag, more);
    assert close[|Close(names, raw.tag)|..] == more;
    hide Sound, SealedValue, MeansAll, WriteAttrs, Write, WriteAll, Close, Until, ReadAttrs, Decode, EndsSection, ReadAll;
  }

  lemma {:induction false} AllWritten(names: Names, raw: Forest, ns: Forest, t: Tag, more: string)
    requires Sound(names) && MeansAll(names, raw, ns)
    ensures ReadAll(names, WriteAll(names, raw) + (Close(names, t) + more)) == Some((ns, Close(names, t) + more))
    decreases raw, 1
  {
    var close := Close(names, t) + more;
    match raw
    case Nil =>
      assert WriteAll(names, raw) + close == close;
      assert "</" <= close;
    case Cons(n, rest) =>
      var after := WriteAll(names, rest) + close;
      assert WriteAll(names, raw) + close == Write(names, n) + after;
      NotClosing(names, n, after);
      ReadWritten(names, n, ns.head, after);
      OpensWith(names, rest, t, more);
      assert Until(after, "<") == 0 && after[0..] == after;
      AllWritten(names, rest, ns.tail, t, more);
      hide Sound, Means, Write, WriteAll, Read, Close, Until;
  }

  /** A tree free of markup stands for itself. */
  lemma {:induction false} CleanMeans(names: Names, n: Node)
    requires Clean(n)
    ensures Means(names, n, n)
    decreases n, 0
  {
    DecodeClean(names, false, n.text);
    forall a | a in n.attrs ensures SealedValue(names, n.attrs[a], n.attrs[a]) {
      DecodeClean(names, true, n.attrs[a]);
    }
    CleanMeansAll(names, n.kids);
    hide Decode, EndsSection, CleanAll, MeansAll;
  }

  lemma {:induction false} CleanMeansAll(names: Names, ns: Forest)
    requires CleanAll(ns)
    ensures MeansAll(names, ns, ns)
    decreases ns, 1
  {
    hide Clean, Means;
    if ns.Cons? {
      CleanMeans(names, ns.head);
      CleanMeansAll(names, ns.tail);
    }
  }

  // ---- Nothing else is read back ----

  /** Reading never lengthens a text, and keeps its length only where there was nothing to
      resolve. */
  lemma {:induction false} DecodeShortens(names: Names, attribute: bool, s: string)
    requires Decode(names, attribute, s).Some?
    ensures var v := Decode(names, attribute, s).value;
            && |v| <= |s|
            && (|v| == |s| ==> forall i :: 0 <= i < |s| ==> s[i] != '&' && v[i] == Plainly(attribute, s[i]))
    decreases |s|
  {
    var v := Decode(names, attribute, s).value;
    if s == [] {
    } else if s[0] == '&' {
      DecodeShortens(names, attribute, s[Until(s, ";") + 1..]);
    } else if |s| >= 2 && s[0] == '\r' && s[1] == '\n' {
      DecodeShortens(names, attribute, s[1..]);
    } else {
      var w := Decode(names, attribute, s[1..]).value;
      DecodeShortens(names, attribute, s[1..]);
      assert v == [Plainly(attribute, s[0])] + w;
      assert forall i :: 0 < i < |s| ==> s[i] == s[1..][i - 1];
      assert forall i :: 0 < i < |v| ==> v[i] == w[i - 1];
    }
  }

  lemma {:induction false} ValueShortens(names: Names, s: string)
    requires Decode(names, true, s).Some? && '<' !in s && '"' !in s
    ensures |Decode(names, true, s).value| <= |s|
    ensures |Decode(names, true, s).value| == |s| ==> CleanValue(Decode(names, true, s).value)
  {
    DecodeShortens(names, true, s);
    hide Decode;
  }

  lemma {:induction false} TextShortens(names: Names, s: string)
    requires Decode(names, false, s).Some? && '<' !in s && !EndsSection(s)
    ensures |Decode(names, false, s).value| <= |s|
    ensures |Decode(names, false, s).value| == |s| ==> CleanText(Decode(names, false, s).value)
  {
    DecodeShortens(names, false, s);
    hide Decode;
    if |Decode(names, false, s).value| == |s| {
      SectionKept(Decode(names, false, s).value, s);
    }
  }

  lemma {:induction false} SectionKept(v: string, s: string)
    requires |v| == |s| && forall i :: 0 <= i < |s| ==> v[i] == Plainly(false, s[i])
    ensures EndsSection(v) ==> EndsSection(s)
  {
    if EndsSection(v) {
      var i :| 0 <= i < |v| - 2 && v[i] == ']' && v[i + 1] == ']' && v[i + 2] == '>';
      assert s[i] == ']' && s[i + 1] == ']' && s[i + 2] == '>';
    }
  }

  lemma {:induction false} OneMoreAttr(names: Names, m: map<AttrName, string>, a: AttrName, v: string)
    requires a !in m
    ensures |WriteAttrs(names, m[a := v])| == |WriteAttrs(names, m)| + |names.attr(a)| + |v| + 4
  {
    assert |AttrText(names.attr(a), v)| == |names.attr(a)| + |v| + 4;
    hide AttrText;
  }

  predicate CleanValues(m: map<AttrName, string>) { forall a :: a in m ==> CleanValue(m[a]) }

  lemma {:induction false} AttrsShorten(names: Names, s: string)
    requires Sound(names) && ReadAttrs(names, s).Some?
    ensures var (m, rest) := ReadAttrs(names, s).value;
            && |WriteAttrs(names, m)| + 1 + |rest| <= |s|
            && (|WriteAttrs(names, m)| + 1 + |rest| == |s| ==> CleanValues(m))
    decreases |s|
  {
    if s[0] == '>' {
      assert WriteAttrs(names, map[]) == "";
    } else {
      var RawAttr(name, raw, next) := SplitAttr(s).value;
      var a, v := names.attrOf(name).value, Decode(names, true, raw).value;
      var (m, rest) := ReadAttrs(names, next).value;
      assert ReadAttrs(names, s) == Some((m[a := v], rest)) && a !in m && names.attr(a) == name;
      hide ReadAttrs, Sound, Decode, SplitAttr, WriteAttrs, CleanValue;
      AttrsShorten(names, next);
      ValueShortens(names, raw);
      OneMoreAttr(names, m, a, v);
    }
  }

  lemma {:induction false} ReadShortens(names: Names, s: string)
    requires Sound(names) && Read(names, s).Some?
    ensures var (n, rest) := Read(names, s).value;
            |Write(names, n)| + |rest| <= |s| && (|Write(names, n)| + |rest| == |s| ==> Clean(n))
    decreases |s|, 0
  {
    var k := Until(s, " >");
    var t, attrs := names.tagOf(s[1..k]).value, ReadAttrs(names, s[k..]).value;
    var body := attrs.1;
    var e := Until(body, "<");
    var text, kids := Decode(names, false, body[..e]).value, ReadAll(names, body[e..]).value;
    var n, rest := Node(t, attrs.0, text, kids.0), kids.1[|Close(names, t)|..];
    assert Read(names, s) == Some((n, rest));
    assert names.tag(t) == s[1..k] && '<' !in body[..e];
    WriteLength(names, n);
    hide Read, ReadAttrs, ReadAll, Decode, Until, Write, WriteAttrs, WriteAll, Sound, EndsSection;
    AttrsShorten(names, s[k..]);
    TextShortens(names, body[..e]);
    AllShorten(names, body[e..]);
  }

  lemma {:induction false} WriteLength(names: Names, n: Node)
    ensures |Write(names, n)| == 2 + |names.tag(n.tag)| + |WriteAttrs(names, n.attrs)| + |n.text|
                                 + |WriteAll(names, n.kids)| + |Close(names, n.tag)|
  {
  }

  lemma {:induction false} AllShorten(names: Names, s: string)
    requires Sound(names) && ReadAll(names, s).Some?
    ensures var (ns, rest) := ReadAll(names, s).value;
            |WriteAll(names, ns)| + |rest| <= |s| && (|WriteAll(names, ns)| + |rest| == |s| ==> CleanAll(ns))
    decreases |s|, 1
  {
    if !("</" <= s) {
      var first := Read(names, s).value;
      var next := first.1[Until(first.1, "<")..];
      var more := ReadAll(names, next).value;
      assert ReadAll(names, s) == Some((Cons(first.0, more.0), more.1));
      hide Read, ReadAll, Until, Write, Sound, Clean;
      ReadShortens(names, s);
      AllShorten(names, next);
    }
  }

  /** A tree survives being written and read exactly when its texts and attribute values are
      free of markup. */
  lemma {:induction false} SurvivesExactly(names: Names, n: Node)
    requires Sound(names)
    ensures Parse(names, Write(names, n)) == Some(n) <==> Clean(n)
  {
    if Clean(n) {
      CleanMeans(names, n);
      ReadWritten(names, n, n, "");
      assert Write(names, n) + "" == Write(names, n);
    } else if Parse(names, Write(names, n)) == Some(n) {
      ReadShortens(names, Write(names, n));
      assert false;
    }
  }
}
