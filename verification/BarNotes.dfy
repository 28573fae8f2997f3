/** BR-FR-31 in its two forms: the CII rule counts the BAR notes with a listed value, the UBL
    rule deletes each listed value from the joined notes and divides the loss of length. */
module BarNotes {
  import opened Wrappers
  import opened Decimal
  import opened Strings

  // ---- The UBL form, on note texts ----

  /** `replace` of a literal pattern by nothing: leftmost matches, one after the other. */
  function Deleted(s: string, p: string): (r: string)
    requires p != []
  {
    if p <= s then Deleted(s[|p|..], p) else if s == [] then [] else [s[0]] + Deleted(s[1..], p)
  }

  function Joined(texts: seq<string>): (r: string) {
    if texts == [] then [] else texts[0] + Joined(texts[1..])
  }

  function BarTexts(texts: seq<string>): (r: seq<string>) {
    if texts == [] then [] else (if Contains(texts[0], "#BAR#") then [texts[0]] else []) + BarTexts(texts[1..])
  }

  function AllBarNotes(texts: seq<string>): (r: string) { Joined(BarTexts(texts)) + "#" }

  function Loss(s: string, p: string): (n: int)
    requires p != []
  {
    |s| - |Deleted(s, p)|
  }

  function UblCount(texts: seq<string>): (r: real) {
    var all := AllBarNotes(texts);
    Loss(all, "BAR#B2B#") as real / 8.0 + Loss(all, "BAR#B2BINT#") as real / 11.0 + Loss(all, "BAR#B2C#") as real / 8.0
    + Loss(all, "BAR#OUTOFSCOPE#") as real / 15.0 + Loss(all, "BAR#ARCHIVEONLY#") as real / 16.0
  }

  predicate UblOk(texts: seq<string>) { UblCount(texts) <= 1.0 }

  // ---- The CII form, on notes with a subject ----

  datatype Note = Note(subject: Option<string>, content: string)

  /** Runs of white space become one space each. */
  function Collapse(s: string): (r: string) {
    if s == [] then []
    else (if !IsSpace(s[0]) then [s[0]] else if |s| > 1 && IsSpace(s[1]) then [] else [' ']) + Collapse(s[1..])
  }

  function NormalizeSpace(s: string): (r: string) { Collapse(Trim(s)) }

  const LISTED := ["B2B", "B2BINT", "B2C", "OUTOFSCOPE", "ARCHIVEONLY"]

  predicate IsListed(s: string) { s in LISTED }

  predicate Counted(n: Note) { n.subject == Some("BAR") && IsListed(NormalizeSpace(n.content)) }

  function CiiCount(notes: seq<Note>): (n: nat) {
    if notes == [] then 0 else (if Counted(notes[0]) then 1 else 0) + CiiCount(notes[1..])
  }

  predicate CiiOk(notes: seq<Note>) { CiiCount(notes) <= 1 }

  /** How UBL writes a note: the subject code between signs, then the content. */
  function TextOf(n: Note): (s: string) {
    if n.subject.Some? then "#" + n.subject.value + "#" + n.content else n.content
  }

  function Texts(notes: seq<Note>): (r: seq<string>)
    ensures |r| == |notes| && forall i :: 0 <= i < |r| ==> r[i] == TextOf(notes[i])
  {
    seq(|notes|, i requires 0 <= i < |notes| => TextOf(notes[i]))
  }

  // ---- The division is exact ----

  /** Matches of `p`, leftmost first and not overlapping. */
  function Matches(s: string, p: string): (n: nat)
    requires p != []
  {
    if p <= s then 1 + Matches(s[|p|..], p) else if s == [] then 0 else Matches(s[1..], p)
  }

  /** Counting by deletion: the text loses exactly the length of the pattern per match. */
  lemma {:induction false} LossIsExact(s: string, p: string)
    requires p != []
    ensures Loss(s, p) == Matches(s, p) * |p|
  {
    if p <= s {
      LossIsExact(s[|p|..], p);
      assert (1 + Matches(s[|p|..], p)) * |p| == |p| + Matches(s[|p|..], p) * |p|;
    } else if s != [] {
      LossIsExact(s[1..], p);
    }
  }

  lemma {:induction false} ExactQuotient(s: string, p: string)
    requires p != []
    ensures Loss(s, p) as real / |p| as real == Matches(s, p) as real
  {
    LossIsExact(s, p);
    hide Loss, Matches;
    Cancel(Matches(s, p), |p|);
  }

  lemma {:induction false} Cancel(n: nat, k: nat)
    requires k > 0
    ensures (n * k) as real / k as real == n as real
  {
    var x, y := n as real, k as real;
    assert (n * k) as real == x * y;
    assert x * y / y == x;
  }

  // ---- The matches, between the signs ----

  predicate NoHash(s: string) { forall i :: 0 <= i < |s| ==> s[i] != '#' }

  function Pattern(v: string): (p: string) { "BAR#" + v + "#" }

  /** The pieces of a text between its signs. */
  function Segments(s: string): (r: seq<string>)
    ensures |r| >= 1 && (|r| == 1 <==> NoHash(s))
  {
    if s == [] then [""]
    else
      var r := Segments(s[1..]);
      if s[0] == '#' then [""] + r else [[s[0]] + r[0]] + r[1..]
  }

  predicate EndsBar(s: string) { |s| >= 3 && s[|s| - 3..] == "BAR" }

  /** How often a piece that ends in BAR is followed by the piece `v`. */
  function Followed(segs: seq<string>, v: string): (n: nat) {
    if |segs| < 2 then 0 else (if EndsBar(segs[0]) && segs[1] == v then 1 else 0) + Followed(segs[1..], v)
  }

  lemma {:induction false} SegmentsFree(a: string)
    requires NoHash(a)
    ensures Segments(a) == [a]
  {
    if a != [] {
      SegmentsFree(a[1..]);
      assert [a[0]] + a[1..] == a;
    }
  }

  lemma {:induction false} SegmentsThen(a: string, t: string)
    requires NoHash(a)
    ensures Segments(a + "#" + t) == [a] + Segments(t)
  {
    var s := a + "#" + t;
    if a == [] {
      assert s[1..] == t;
    } else {
      assert s[1..] == a[1..] + "#" + t && s[0] == a[0];
      SegmentsThen(a[1..], t);
      var r := Segments(s[1..]);
      assert r[0] == a[1..] && r[1..] == Segments(t);
      assert [a[0]] + a[1..] == a;
    }
  }

  /** The other way round: the first piece, a sign, and the rest. */
  lemma {:induction false} Unsplit(s: string) returns (t: string)
    requires |Segments(s)| >= 2
    ensures s == Segments(s)[0] + "#" + t && Segments(t) == Segments(s)[1..]
  {
    if s[0] == '#' {
      t := s[1..];
    } else {
      t := Unsplit(s[1..]);
      assert s == [s[0]] + s[1..];
    }
  }

  predicate StartsBar(segs: seq<string>, v: string) { |segs| >= 2 && segs[0] == "BAR" && segs[1] == v }

  /** A match at the start is BAR followed by the value, piece by piece. */
  lemma {:induction false} MatchAtStart(s: string, v: string)
    requires NoHash(v)
    ensures Pattern(v) <= s + "#" <==> StartsBar(Segments(s), v)
  {
    hide Segments;
    var segs, p := Segments(s), Pattern(v);
    if |segs| >= 2 && segs[0] == "BAR" && segs[1] == v {
      var t := Unsplit(s);
      if |segs| == 2 {
        SegmentsWhole(t);
        assert s + "#" == p;
      } else {
        var u := Unsplit(t);
        assert s + "#" == p + (u + "#");
      }
    } else if p <= s + "#" {
      SplitAtMatch(s, v);
      assert false;
    }
  }

  lemma {:induction false} SegmentsWhole(s: string)
    requires |Segments(s)| == 1
    ensures Segments(s) == [s]
  {
    SegmentsFree(s);
  }

  /** What follows a match at the start. */
  function AfterMatch(s: string, v: string): (segs: seq<string>) {
    if |s| < |Pattern(v)| then [] else Segments(s[|Pattern(v)|..])
  }

  lemma {:induction false} SplitAtMatch(s: string, v: string)
    requires NoHash(v) && Pattern(v) <= s + "#"
    ensures Segments(s) == ["BAR", v] + AfterMatch(s, v)
  {
    var p, t := Pattern(v), s + "#";
    assert t[..|p|] == p;
    if |s| < |p| {
      assert t == p && s == p[..|p| - 1];
      assert s == "BAR" + "#" + v;
      hide Segments;
      SegmentsThen("BAR", v);
      SegmentsFree(v);
    } else {
      var u := s[|p|..];
      assert s[..|p|] == t[..|p|];
      assert s == p + u;
      assert p + u == "BAR" + "#" + (v + "#" + u);
      hide Segments;
      SegmentsThen("BAR", v + "#" + u);
      SegmentsThen(v, u);
    }
  }

  /** A character in front of a text changes its first piece only. */
  lemma {:induction false} EndsBarLonger(c: char, s: string)
    ensures EndsBar([c] + s) <==> EndsBar(s) || [c] + s == "BAR"
  {
    var t := [c] + s;
    if |s| >= 3 {
      assert t[|t| - 3..] == s[|s| - 3..];
    } else if |s| == 2 {
      assert t[|t| - 3..] == t;
    }
  }

  lemma {:induction false} BarThen(v: string, rest: seq<string>)
    requires !EndsBar(v)
    ensures Followed(["BAR", v] + rest, v) == 1 + Followed(rest, v)
  {
    assert "BAR"[0..] == "BAR";
    assert EndsBar("BAR");
    hide EndsBar;
    assert (["BAR", v] + rest)[1..] == [v] + rest && ([v] + rest)[1..] == rest;
  }

  /** The first piece matters only for whether it ends in BAR before the value. */
  lemma {:induction false} FirstPiece(a: string, b: string, rest: seq<string>, v: string)
    requires (EndsBar(a) <==> EndsBar(b)) || rest == [] || rest[0] != v
    ensures Followed([a] + rest, v) == Followed([b] + rest, v)
  {
    hide EndsBar;
    assert ([a] + rest)[1..] == rest && ([b] + rest)[1..] == rest;
  }

  lemma {:induction false} StartsWith(a: string, rest: seq<string>, v: string)
    ensures StartsBar([a] + rest, v) <==> a == "BAR" && rest != [] && rest[0] == v
  {
    assert rest != [] ==> ([a] + rest)[1] == rest[0];
  }

  /** A longer first piece, as long as it is not a BAR before the value. */
  lemma {:induction false} LongerPiece(a: string, b: string, rest: seq<string>, v: string)
    requires EndsBar(a) <==> EndsBar(b) || a == "BAR"
    requires !StartsBar([a] + rest, v)
    ensures Followed([a] + rest, v) == Followed([b] + rest, v)
  {
    hide EndsBar, Followed, StartsBar;
    StartsWith(a, rest, v);
    FirstPiece(a, b, rest, v);
  }

  lemma {:induction false} EmptyPiece(rest: seq<string>, v: string)
    ensures Followed([""] + rest, v) == Followed(rest, v)
  {
    assert ([""] + rest)[1..] == rest;
  }

  /** Where no match begins, a character changes nothing. */
  lemma {:induction false} NoMatchStep(s: string, v: string)
    requires s != [] && !StartsBar(Segments(s), v)
    ensures Followed(Segments(s), v) == Followed(Segments(s[1..]), v)
  {
    var r := Segments(s[1..]);
    if s[0] == '#' {
      hide Followed;
      EmptyPiece(r, v);
    } else {
      var a, b, rest := [s[0]] + r[0], r[0], r[1..];
      EndsBarLonger(s[0], b);
      assert Segments(s) == [a] + rest && r == [b] + rest;
      hide *;
      LongerPiece(a, b, rest, v);
    }
  }

  /** In any text closed by a sign, the pattern matches once for each piece that ends in BAR and
      is followed by the value, and nowhere else. */
  lemma {:induction false} MatchesAre(s: string, v: string)
    requires NoHash(v) && !EndsBar(v)
    ensures Matches(s + "#", Pattern(v)) == Followed(Segments(s), v)
    decreases |s|
  {
    hide Segments, Followed, EndsBar;
    var p, t := Pattern(v), s + "#";
    if p <= t {
      SplitAtMatch(s, v);
      BarThen(v, AfterMatch(s, v));
      assert Matches(t, p) == 1 + Matches(t[|p|..], p);
      if |s| < |p| {
        assert t == p && t[|p|..] == [];
        FollowedShort(v);
      } else {
        assert t[|p|..] == s[|p|..] + "#";
        MatchesAre(s[|p|..], v);
      }
    } else if s == [] {
      assert t[1..] == [];
      SegmentsFree(s);
      FollowedShort(v);
    } else {
      assert t[1..] == s[1..] + "#";
      MatchesAre(s[1..], v);
      MatchAtStart(s, v);
      NoMatchStep(s, v);
    }
  }

  lemma {:induction false} FollowedShort(v: string)
    ensures Followed([], v) == 0 && Followed([""], v) == 0
  {
  }

  // ---- The UBL count of any notes ----

  lemma {:induction false} ListedDiffer()
    ensures forall i, j :: 0 <= i < j < |LISTED| ==> LISTED[i] != LISTED[j]
    ensures forall i :: 0 <= i < |LISTED| ==> NoHash(LISTED[i]) && !EndsBar(LISTED[i])
  {
    assert "B2B"[0] == 'B' && "B2C"[0] == 'B' && "B2B"[2] != "B2C"[2];
    assert "B2B"[1] != "BAR"[1] && "B2C"[1] != "BAR"[1];
    assert "OUTOFSCOPE"[0] != "ARCHIVEONLY"[0];
  }

  lemma {:induction false} ListedIs(v: string)
    requires IsListed(v)
    ensures NoHash(v) && !EndsBar(v) && Spaceless(v) && v != ""
  {
    ListedDiffer();
    ListedSpaceless();
    var i :| 0 <= i < |LISTED| && LISTED[i] == v;
    hide LISTED, NoHash, EndsBar, Spaceless;
    assert NoHash(LISTED[i]) && Spaceless(LISTED[i]);
  }

  lemma {:induction false} ListedSpaceless()
    ensures forall i :: 0 <= i < |LISTED| ==> Spaceless(LISTED[i]) && LISTED[i] != ""
  {
  }

  /** The listed values. */
  lemma {:induction false} ListedAre(v: string)
    ensures IsListed(v) <==> v == "B2B" || v == "B2BINT" || v == "B2C" || v == "OUTOFSCOPE" || v == "ARCHIVEONLY"
  {
  }

  /** How often a piece that ends in BAR is followed by a listed value. */
  function AfterBar(segs: seq<string>): (n: nat) {
    if |segs| < 2 then 0 else (if EndsBar(segs[0]) && IsListed(segs[1]) then 1 else 0) + AfterBar(segs[1..])
  }

  lemma {:induction false} ByValue(segs: seq<string>)
    ensures Followed(segs, LISTED[0]) + Followed(segs, LISTED[1]) + Followed(segs, LISTED[2])
            + Followed(segs, LISTED[3]) + Followed(segs, LISTED[4]) == AfterBar(segs)
  {
    hide EndsBar;
    if |segs| >= 2 {
      ByValue(segs[1..]);
      ListedDiffer();
    }
  }

  lemma {:induction false} QuotientIsCount(s: string, v: string)
    requires NoHash(v) && !EndsBar(v)
    ensures Loss(s + "#", Pattern(v)) as real / |Pattern(v)| as real == Followed(Segments(s), v) as real
  {
    hide Loss, Followed, Segments, EndsBar, NoHash, Matches;
    ExactQuotient(s + "#", Pattern(v));
    MatchesAre(s, v);
  }

  /** For any notes whatever, every division is exact and the UBL sum is the number of pieces, in
      the joined notes, that end in BAR and are followed by a listed value. */
  lemma {:induction false} UblCountsExact(texts: seq<string>)
    ensures UblCount(texts) == AfterBar(Segments(Joined(BarTexts(texts)))) as real
  {
    ListedDiffer();
    var s := Joined(BarTexts(texts));
    hide Loss, Joined, BarTexts, Segments, Followed, AfterBar, EndsBar, NoHash;
    QuotientIsCount(s, LISTED[0]);
    QuotientIsCount(s, LISTED[1]);
    QuotientIsCount(s, LISTED[2]);
    QuotientIsCount(s, LISTED[3]);
    QuotientIsCount(s, LISTED[4]);
    assert Pattern(LISTED[0]) == "BAR#B2B#" && Pattern(LISTED[1]) == "BAR#B2BINT#" && Pattern(LISTED[2]) == "BAR#B2C#";
    assert Pattern(LISTED[3]) == "BAR#OUTOFSCOPE#" && Pattern(LISTED[4]) == "BAR#ARCHIVEONLY#";
    ByValue(Segments(s));
  }

  // ---- Note by note ----

  /** The subject code contains no sign and is not itself a listed value, and a note without one
      does not look like a BAR note. The content is free. */
  predicate WellCoded(n: Note) {
    match n.subject
    case None => !Contains(n.content, "#BAR#")
    case Some(s) => NoHash(s) && !IsListed(s)
  }

  predicate AllWellCoded(notes: seq<Note>) { forall i :: 0 <= i < |notes| ==> WellCoded(notes[i]) }

  /** What one note brings to the UBL count. */
  function UblOf(n: Note): (k: nat) {
    if Contains(TextOf(n), "#BAR#") then AfterBar(Segments(TextOf(n))) else 0
  }

  function UblSum(notes: seq<Note>): (k: nat) { if notes == [] then 0 else UblOf(notes[0]) + UblSum(notes[1..]) }

  /** Nothing, or a text that opens with a sign and then a piece that is no listed value. */
  predicate Opens(s: string) {
    s == "" || (|Segments(s)| >= 2 && Segments(s)[0] == "" && !IsListed(Segments(s)[1]))
  }

  /** At a boundary the last piece of one text and the empty first piece of the next are one. */
  lemma {:induction false} SegmentsJoin(a: string, b: string)
    requires b == "" || Segments(b)[0] == ""
    ensures Segments(a + b) == Segments(a) + Segments(b)[1..]
  {
    hide NoHash;
    if a == [] {
      assert a + b == b && Segments(b) == [""] + Segments(b)[1..];
    } else {
      assert (a + b)[1..] == a[1..] + b && (a + b)[0] == a[0];
      SegmentsJoin(a[1..], b);
    }
  }

  lemma {:induction false} AfterBarJoin(x: seq<string>, y: seq<string>)
    requires |x| >= 1 && |y| >= 1 && y[0] == "" && (|y| >= 2 ==> !IsListed(y[1]))
    ensures AfterBar(x + y[1..]) == AfterBar(x) + AfterBar(y)
  {
    assert !EndsBar("");
    hide EndsBar, IsListed;
    if |x| == 1 {
      assert (x + y[1..])[1..] == y[1..];
    } else {
      assert (x + y[1..])[1..] == x[1..] + y[1..];
      AfterBarJoin(x[1..], y);
    }
  }

  lemma {:induction false} CodedOpens(n: Note, more: string)
    requires n.subject.Some? && WellCoded(n)
    ensures Opens(TextOf(n) + more)
  {
    var s := n.subject.value;
    assert TextOf(n) + more == "" + "#" + (s + "#" + (n.content + more));
    SegmentsThen("", s + "#" + (n.content + more));
    SegmentsThen(s, n.content + more);
  }

  /** With well-coded notes no match crosses a boundary: the UBL count is a sum over the notes. */
  lemma {:induction false} CountsAddUp(notes: seq<Note>)
    requires AllWellCoded(notes)
    ensures Opens(Joined(BarTexts(Texts(notes))))
    ensures AfterBar(Segments(Joined(BarTexts(Texts(notes))))) == UblSum(notes)
  {
    if notes == [] {
      assert Segments("") == [""];
    } else {
      var n, rest := notes[0], notes[1..];
      CountsAddUp(rest);
      assert Texts(notes)[1..] == Texts(rest);
      var later := BarTexts(Texts(rest));
      var text, more := TextOf(n), Joined(later);
      assert n.subject.None? ==> text == n.content;
      hide Contains, TextOf, Segments, Texts, IsListed, AfterBar;
      if Contains(text, "#BAR#") {
        assert BarTexts(Texts(notes)) == [text] + later && ([text] + later)[1..] == later;
        assert Joined([text] + later) == text + more;
        CodedOpens(n, more);
        JoinCount(text, more);
      } else {
        assert BarTexts(Texts(notes)) == later;
      }
    }
  }

  lemma {:induction false} JoinCount(text: string, more: string)
    requires Opens(more)
    ensures AfterBar(Segments(text + more)) == AfterBar(Segments(text)) + AfterBar(Segments(more))
  {
    assert Segments("") == [""];
    hide AfterBar, IsListed;
    SegmentsJoin(text, more);
    AfterBarJoin(Segments(text), Segments(more));
  }

  // ---- White space ----

  predicate Spaceless(s: string) { forall i :: 0 <= i < |s| ==> !IsSpace(s[i]) }

  lemma {:induction false} CollapseSpaceless(s: string, v: string)
    requires Spaceless(v)
    ensures Collapse(s) == v <==> s == v
  {
    if s == [] {
    } else {
      var c := Collapse(s);
      if Spaceless(s) {
        CollapseSpaceless(s[1..], s[1..]);
        assert c == [s[0]] + s[1..] == s;
      } else {
        KeepsASpace(s);
      }
    }
  }

  lemma {:induction false} KeepsASpace(s: string)
    requires !Spaceless(s)
    ensures !Spaceless(Collapse(s))
  {
    var here := if !IsSpace(s[0]) then [s[0]] else if |s| > 1 && IsSpace(s[1]) then [] else [' '];
    assert Collapse(s) == here + Collapse(s[1..]);
    if here == [' '] {
      assert IsSpace(Collapse(s)[0]);
    } else {
      assert IsSpace(s[0]) ==> IsSpace(s[1..][0]);
      var i :| 0 <= i < |s| && IsSpace(s[i]) && (i > 0 || IsSpace(s[1..][0]));
      assert i > 0 ==> IsSpace(s[1..][i - 1]);
      KeepsASpace(s[1..]);
      var k :| 0 <= k < |Collapse(s[1..])| && IsSpace(Collapse(s[1..])[k]);
      assert Collapse(s)[|here| + k] == Collapse(s[1..])[k];
    }
  }

  // ---- The two counts ----

  /** A BAR note whose content is a listed value only up to surrounding white space. */
  predicate Padded(n: Note) {
    n.subject == Some("BAR") && !IsListed(n.content) && IsListed(Trim(n.content))
  }

  function PaddedCount(notes: seq<Note>): (k: nat) {
    if notes == [] then 0 else (if Padded(notes[0]) then 1 else 0) + PaddedCount(notes[1..])
  }

  /** What a note brings to the UBL count by signs inside its content. */
  function ExtraOf(n: Note): (k: nat) { if NoHash(n.content) then 0 else UblOf(n) }

  function Extra(notes: seq<Note>): (k: nat) { if notes == [] then 0 else ExtraOf(notes[0]) + Extra(notes[1..]) }

  lemma {:induction false} CountedWhen(n: Note)
    ensures Counted(n) <==> n.subject == Some("BAR") && IsListed(Trim(n.content))
    ensures n.subject == Some("BAR") && IsListed(n.content) ==> Counted(n)
  {
    forall i | 0 <= i < |LISTED| ensures Spaceless(LISTED[i]) && Trim(LISTED[i]) == LISTED[i] {
      TrimNothing(LISTED[i]);
    }
    hide Trim, Collapse;
    forall i | 0 <= i < |LISTED| ensures NormalizeSpace(n.content) == LISTED[i] <==> Trim(n.content) == LISTED[i] {
      CollapseSpaceless(Trim(n.content), LISTED[i]);
    }
  }

  /** Two texts free of signs, each closed by one, agree when one is a prefix of the other. */
  lemma {:induction false} ClosedPrefix(a: string, b: string, more: string)
    requires NoHash(a) && NoHash(b) && a + "#" <= b + "#" + more
    ensures a == b
  {
    var t := b + "#" + more;
    assert (a + "#")[0] == t[0];
    assert a != [] ==> (a + "#")[0] == a[0];
    assert t[0] == if b == [] then '#' else b[0];
    if a != [] {
      assert (a + "#")[1..] == a[1..] + "#" && t[1..] == b[1..] + "#" + more;
      assert a[1..] + "#" <= t[1..] by {
        assert t[..|a| + 1] == a + "#";
        assert t[1..][..|a|] == t[..|a| + 1][1..];
      }
      ClosedPrefix(a[1..], b[1..], more);
    }
  }

  lemma {:induction false} NotWithin(s: string, p: string)
    requires p != [] && p[0] == '#' && NoHash(s)
    ensures !Contains(s, p)
  {
    if s != [] {
      assert s[0] != '#';
      NotWithin(s[1..], p);
    }
  }

  lemma {:induction false} NotAfter(s: string, c: string)
    requires NoHash(s) && NoHash(c)
    ensures !Contains(s + "#" + c, "#BAR#")
  {
    var t := s + "#" + c;
    if s == [] {
      assert t[1..] == c;
      NotWithin(c, "#BAR#");
      assert "#BAR#"[4] == '#';
      assert |t| >= 5 ==> t[4] == c[3];
    } else {
      assert t[0] == s[0];
      assert t[1..] == s[1..] + "#" + c;
      NotAfter(s[1..], c);
    }
  }

  lemma {:induction false} BarText(n: Note)
    requires NoHash(n.content) && (n.subject.Some? ==> NoHash(n.subject.value))
    ensures Contains(TextOf(n), "#BAR#") <==> n.subject == Some("BAR")
  {
    if n.subject.None? {
      NotWithin(n.content, "#BAR#");
    } else {
      var s, t := n.subject.value, TextOf(n);
      assert t[1..] == s + "#" + n.content;
      NotAfter(s, n.content);
      if s == "BAR" {
        assert t == "#BAR#" + n.content;
      } else if "#BAR#" <= t {
        assert t[..5] == "#BAR#" && t[1..][..4] == t[..5][1..];
        assert "BAR" + "#" == t[1..][..4];
        ClosedPrefix("BAR", s, n.content);
        assert false;
      }
    }
  }

  /** A note without signs in its content counts once, if it is a BAR note with a listed value. */
  lemma {:induction false} PlainNote(n: Note)
    requires WellCoded(n) && NoHash(n.content)
    ensures UblOf(n) == if n.subject == Some("BAR") && IsListed(n.content) then 1 else 0
  {
    if n.subject.Some? {
      BarText(n);
    }
    if n.subject == Some("BAR") {
      assert TextOf(n) == "" + "#" + ("BAR" + "#" + n.content);
      SegmentsThen("", "BAR" + "#" + n.content);
      SegmentsThen("BAR", n.content);
      SegmentsFree(n.content);
      assert Segments(TextOf(n)) == ["", "BAR", n.content];
      hide Segments, TextOf, IsListed;
      PiecesOf(n.content);
    }
  }

  lemma {:induction false} PiecesOf(c: string)
    ensures AfterBar(["", "BAR", c]) == if IsListed(c) then 1 else 0
  {
    assert EndsBar("BAR") && !EndsBar("");
    hide EndsBar, IsListed;
    assert ["", "BAR", c][1..] == ["BAR", c] && ["BAR", c][1..] == [c];
    assert AfterBar([c]) == 0;
  }

  lemma {:induction false} TrimKeepsSigns(s: string)
    requires NoHash(Trim(s))
    ensures NoHash(s)
  {
    RightKeepsSigns(TrimLeft(s));
    LeftKeepsSigns(s);
  }

  lemma {:induction false} LeftKeepsSigns(s: string)
    requires NoHash(TrimLeft(s))
    ensures NoHash(s)
  {
    if s != [] && IsSpace(s[0]) {
      LeftKeepsSigns(s[1..]);
      assert s == [s[0]] + s[1..];
    }
  }

  lemma {:induction false} RightKeepsSigns(s: string)
    requires NoHash(TrimRight(s))
    ensures NoHash(s)
  {
    if s != [] && IsSpace(s[|s| - 1]) {
      RightKeepsSigns(s[..|s| - 1]);
      assert s == s[..|s| - 1] + [s[|s| - 1]];
    }
  }

  /** Note by note, the two counts differ by padding one way and by signs the other. */
  lemma {:induction false} NoteBalance(n: Note)
    requires WellCoded(n)
    ensures UblOf(n) + (if Padded(n) then 1 else 0) == (if Counted(n) then 1 else 0) + ExtraOf(n)
  {
    CountedWhen(n);
    if NoHash(n.content) {
      PlainNote(n);
      hide UblOf, Counted, IsListed, Trim, WellCoded;
    } else {
      if IsListed(Trim(n.content)) {
        ListedDiffer();
        TrimKeepsSigns(n.content);
        assert false;
      }
    }
  }

  lemma {:induction false} SumBalance(notes: seq<Note>)
    requires AllWellCoded(notes)
    ensures UblSum(notes) + PaddedCount(notes) == CiiCount(notes) + Extra(notes)
  {
    hide UblOf, Padded, Counted, ExtraOf, WellCoded;
    if notes != [] {
      NoteBalance(notes[0]);
      SumBalance(notes[1..]);
    }
  }

  /** The two forms of BR-FR-31 on any notes with proper subject codes and any contents: the UBL
      count lacks the padded values and has the matches that signs inside contents make. So the
      counts are equal exactly when these are, and the verdicts when the difference does not take
      the count across one. */
  lemma {:induction false} FormsAgree(notes: seq<Note>)
    requires AllWellCoded(notes)
    ensures UblCount(Texts(notes)) + PaddedCount(notes) as real == (CiiCount(notes) + Extra(notes)) as real
    ensures UblCount(Texts(notes)) == CiiCount(notes) as real <==> PaddedCount(notes) == Extra(notes)
    ensures UblOk(Texts(notes)) <==> CiiCount(notes) + Extra(notes) <= 1 + PaddedCount(notes)
  {
    hide UblCount, UblSum, PaddedCount, CiiCount, Extra, AfterBar, Segments, Joined, BarTexts, Texts;
    UblCountsExact(Texts(notes));
    CountsAddUp(notes);
    SumBalance(notes);
  }

  predicate NonePadded(notes: seq<Note>) { forall i :: 0 <= i < |notes| ==> !Padded(notes[i]) }

  predicate NoSigns(notes: seq<Note>) { forall i :: 0 <= i < |notes| ==> NoHash(notes[i].content) }

  lemma {:induction false} NoExtra(notes: seq<Note>)
    ensures NoSigns(notes) ==> Extra(notes) == 0
    ensures PaddedCount(notes) == 0 <==> NonePadded(notes)
  {
    hide Padded, NoHash;
    if notes != [] {
      var rest := notes[1..];
      NoExtra(rest);
      assert forall i :: 0 < i < |notes| ==> notes[i] == rest[i - 1];
      assert forall i :: 0 <= i < |rest| ==> rest[i] == notes[i + 1];
    }
  }

  /** Without signs inside contents, the counts are equal exactly when no listed value is padded,
      and the UBL form is never the stricter one. */
  lemma {:induction false} FormsAgreeWithoutSigns(notes: seq<Note>)
    requires AllWellCoded(notes) && NoSigns(notes)
    ensures UblCount(Texts(notes)) == CiiCount(notes) as real <==> NonePadded(notes)
    ensures CiiOk(notes) ==> UblOk(Texts(notes))
    ensures NonePadded(notes) ==> (UblOk(Texts(notes)) <==> CiiOk(notes))
  {
    hide UblCount, UblOk, Extra, PaddedCount, CiiCount, NonePadded, NoSigns, AllWellCoded;
    FormsAgree(notes);
    NoExtra(notes);
  }

  // ---- Where the verdicts differ ----

  lemma {:induction false} TwoNotes(a: Note, b: Note)
    ensures CiiCount([a, b]) == (if Counted(a) then 1 else 0) + (if Counted(b) then 1 else 0)
    ensures PaddedCount([a, b]) == (if Padded(a) then 1 else 0) + (if Padded(b) then 1 else 0)
    ensures Extra([a, b]) == ExtraOf(a) + ExtraOf(b)
  {
    hide Counted, Padded, ExtraOf;
    OneNote(b);
    assert [a, b][1..] == [b];
  }

  lemma {:induction false} OneNote(n: Note)
    ensures CiiCount([n]) == if Counted(n) then 1 else 0
    ensures PaddedCount([n]) == if Padded(n) then 1 else 0
    ensures Extra([n]) == ExtraOf(n)
  {
    hide Counted, Padded, ExtraOf;
    assert [n][1..] == [];
  }

  lemma {:induction false} BarIsCode(content: string)
    ensures WellCoded(Note(Some("BAR"), content))
  {
    ListedDiffer();
    assert EndsBar("BAR");
    hide EndsBar;
  }

  /** Padding is enough to split the verdicts: a value that is listed only after trimming is
      counted by the CII form and not by the UBL form. */
  lemma {:induction false} PaddingSplits(v: string, padded: string)
    requires IsListed(v) && IsListed(Trim(padded)) && !IsListed(padded) && NoHash(padded)
    ensures var notes := [Note(Some("BAR"), v), Note(Some("BAR"), padded)];
            AllWellCoded(notes) && UblOk(Texts(notes)) && !CiiOk(notes)
  {
    var a, b := Note(Some("BAR"), v), Note(Some("BAR"), padded);
    ListedIs(v);
    hide IsListed, Trim, Contains, TextOf, UblOf;
    BarIsCode(v);
    BarIsCode(padded);
    CountedWhen(a);
    CountedWhen(b);
    assert ExtraOf(a) == 0 && ExtraOf(b) == 0;
    hide Counted, NoHash, WellCoded, UblOk, CiiCount, PaddedCount, Extra, Texts, ExtraOf;
    TwoNotes(a, b);
    FormsAgree([a, b]);
  }

  lemma {:induction false} PaddedListed(w: string)
    requires IsListed(w)
    ensures IsListed(Trim(w + " ")) && !IsListed(w + " ") && NoHash(w + " ")
  {
    ListedIs(w);
    var s := w + " ";
    assert s[0] == w[0] && IsSpace(s[|w|]) && s[..|w|] == w;
    hide IsListed;
    TrimNothing(w);
    assert Trim(s) == w;
    if IsListed(s) {
      ListedIs(s);
      assert false;
    }
  }

  /** For instance with a trailing space. */
  lemma {:induction false} TrailingSpaceSplits(v: string, w: string)
    requires IsListed(v) && IsListed(w)
    ensures var notes := [Note(Some("BAR"), v), Note(Some("BAR"), w + " ")]; UblOk(Texts(notes)) && !CiiOk(notes)
  {
    hide IsListed, Trim, NoHash, UblOk, CiiOk, Texts;
    PaddedListed(w);
    PaddingSplits(v, w + " ");
  }

  /** Signs split them the other way: one note with two values between signs is counted twice by
      the UBL form and not at all by the CII form. */
  lemma {:induction false} SignsSplit(v: string, w: string)
    requires IsListed(v) && IsListed(w)
    ensures var notes := [Note(Some("BAR"), v + "#BAR#" + w)]; !UblOk(Texts(notes)) && CiiOk(notes)
  {
    var n := Note(Some("BAR"), v + "#BAR#" + w);
    assert n.content[|v|] == '#';
    BarIsCode(n.content);
    SignsCount(v, w);
    NoteBalance(n);
    OneNote(n);
    hide IsListed, Counted, Padded, UblOk, Texts, CiiCount, PaddedCount, Extra, WellCoded, UblOf;
    FormsAgree([n]);
  }

  lemma {:induction false} SignsText(v: string, w: string)
    ensures var text := TextOf(Note(Some("BAR"), v + "#BAR#" + w));
            text == "" + "#" + ("BAR" + "#" + (v + "#" + ("BAR" + "#" + w))) && Contains(text, "#BAR#")
  {
    var text, rest := TextOf(Note(Some("BAR"), v + "#BAR#" + w)), v + "#" + ("BAR" + "#" + w);
    assert v + "#BAR#" + w == rest;
    assert text == "#BAR#" + rest;
    assert "#BAR#" + rest == "" + "#" + ("BAR" + "#" + rest);
  }

  lemma {:induction false} PairOfSegments(a: string, b: string, t: string)
    requires NoHash(a) && NoHash(b)
    ensures Segments(a + "#" + (b + "#" + t)) == [a, b] + Segments(t)
  {
    hide Segments;
    SegmentsThen(a, b + "#" + t);
    SegmentsThen(b, t);
  }

  lemma {:induction false} SignsSegments(v: string, w: string)
    requires NoHash(v) && NoHash(w)
    ensures Segments("" + "#" + ("BAR" + "#" + (v + "#" + ("BAR" + "#" + w)))) == ["", "BAR", v, "BAR", w]
  {
    var rest := v + "#" + ("BAR" + "#" + w);
    assert NoHash("BAR") && NoHash("");
    hide Segments, NoHash;
    PairOfSegments("", "BAR", rest);
    PairOfSegments(v, "BAR", w);
    SegmentsFree(w);
    assert ["", "BAR"] + ([v, "BAR"] + [w]) == ["", "BAR", v, "BAR", w];
  }

  lemma {:induction false} SignsCount(v: string, w: string)
    requires IsListed(v) && IsListed(w)
    ensures UblOf(Note(Some("BAR"), v + "#BAR#" + w)) == 2
  {
    SignsText(v, w);
    hide IsListed, EndsBar, Segments, AfterBar, Contains, TextOf, Spaceless, NoHash;
    ListedIs(v);
    ListedIs(w);
    SignsSegments(v, w);
    FivePieces(v, w);
  }

  lemma {:induction false} AfterBarOf(e: string, b: string, v: string, w: string)
    requires !EndsBar(e) && EndsBar(b) && IsListed(v) && !EndsBar(v) && IsListed(w)
    ensures AfterBar([e, b, v, b, w]) == 2
  {
    hide EndsBar, IsListed;
    var s1, s2, s3, s4 := [b, v, b, w], [v, b, w], [b, w], [w];
    assert [e, b, v, b, w][1..] == s1 && s1[1..] == s2 && s2[1..] == s3 && s3[1..] == s4;
    assert AfterBar(s4) == 0;
    assert AfterBar(s3) == 1;
    assert AfterBar(s2) == AfterBar(s3);
    assert AfterBar(s1) == 1 + AfterBar(s2);
  }

  lemma {:induction false} FivePieces(v: string, w: string)
    requires IsListed(v) && IsListed(w) && !EndsBar(v)
    ensures AfterBar(["", "BAR", v, "BAR", w]) == 2
  {
    assert EndsBar("BAR") && !EndsBar("");
    hide EndsBar, IsListed, AfterBar;
    AfterBarOf("", "BAR", v, w);
  }
}
