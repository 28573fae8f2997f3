/** The basic validator: extraction, parsing, the schema check with guidance, and the
    repository's own rules for the profiles that have them. */
module LiteValidator {
  import opened Wrappers
  import opened Decimal
  import opened Strings
  import opened Humanize
  import opened ErrorMap
  import opened Service
  import Invoice
  import Xml
  import Template
  import CoreRules

  /** A failed assertion of the rules: its severity attribute and its text. */
  datatype Failed = Failed(severity: Option<string>, text: Option<string>)

  /** How the rules went; a run that breaks off reports nothing. */
  datatype Rules = Missing | Broke | Reports(asserts: seq<Failed>)

  /** What the library makes of the document: a format and a level, or an error and the
      guideline identifier found instead. */
  datatype Detection = Known(format: Option<string>, level: Option<string>) | Unknown(reason: string, urn: string)

  datatype Document = Unparsable(reason: string) | Parsed(detection: Detection)

  datatype Schema = Passes | Raises(reason: string)

  /** Everything the validator meets outside itself. */
  datatype File = File(named: bool, extraction: Extraction, document: Document, schema: Schema, rules: Rules)

  datatype Outcome = Outcome(valid: bool, format: Option<string>, flavor: Option<string>, errors: seq<string>)

  // ---- The rules ----

  predicate Advisory(a: Failed) {
    var severity := Lower(a.severity.GetOr("fatal"));
    severity == "warning" || severity == "info"
  }

  predicate AllAdvisory(s: seq<Failed>) { forall i :: 0 <= i < |s| ==> Advisory(s[i]) }

  function TextOf(a: Failed): (s: string) {
    Trim(if a.text.GetOr("") == "" then "Unknown rule violation" else a.text.value)
  }

  function BlockingTexts(asserts: seq<Failed>): (r: seq<string>) {
    if asserts == [] then []
    else BlockingTexts(asserts[..|asserts| - 1])
         + (if Advisory(asserts[|asserts| - 1]) then [] else [TextOf(asserts[|asserts| - 1])])
  }

  method CheckSchematron(rules: Rules) returns (errors: seq<string>)
    requires !rules.Missing?
    ensures errors == if rules.Reports? then BlockingTexts(rules.asserts) else []
  {
    errors := [];
    if rules.Reports? {
      var i := 0;
      while i < |rules.asserts|
        invariant 0 <= i <= |rules.asserts|
        invariant errors == BlockingTexts(rules.asserts[..i])
      {
        assert rules.asserts[..i + 1][..i] == rules.asserts[..i];
        if !Advisory(rules.asserts[i]) {
          errors := errors + [TextOf(rules.asserts[i])];
        }
        i := i + 1;
      }
      assert rules.asserts[..i] == rules.asserts;
    }
  }

  // ---- The decision ----

  /** Format and level, with the guideline identifier as a second source. */
  function Detected(d: Detection): (r: Option<(Option<string>, Option<string>)>) {
    match d
    case Known(format, level) => Some((format, level))
    case Unknown(_, urn) =>
      if Contains(Lower(urn), "en16931") || Contains(Lower(urn), "xrechnung") then Some((Some("factur-x"), Some("en16931")))
      else None
  }

  predicate HasRules(level: Option<string>) { level == Some("en16931") || level == Some("extended") }

  /** `validate_file`, one early return after another. */
  method ValidateFile(f: File) returns (r: Outcome)
    ensures r.valid <==> Passing(f)
    ensures r.valid ==> r.errors == [] && Some((r.format, r.flavor)) == Detected(f.document.detection)
    ensures r.errors == [] <==> r.valid || Wordless(f)
    ensures Reached(f) && f.schema.Passes? && HasRules(r.flavor) && f.rules.Reports?
            ==> r.errors == BlockingTexts(f.rules.asserts)
    ensures Reached(f) && f.schema.Raises? ==> r.errors == Humanized(ERROR_MAP, [f.schema.reason])
    ensures Reached(f) ==> Some((r.format, r.flavor)) == Detected(f.document.detection)
    ensures !Reached(f) ==> r.format == None && r.flavor == None
    ensures f.named && f.extraction.NoXml? ==> r.errors == ["No Factur-X/ZUGFeRD XML found in PDF"]
    ensures f.named && f.extraction.ExtractFails? ==> r.errors == ["Failed to extract XML from PDF: " + f.extraction.reason]
    ensures Readable(f) && f.document.Unparsable? ==> r.errors == ["Invalid XML syntax: " + f.document.reason]
    ensures Readable(f) && f.document.Parsed? && Detected(f.document.detection).None?
            ==> f.document.detection.Unknown? && r.errors == ["Invalid XML syntax: " + f.document.detection.reason]
  {
    hide Message, Pattern, Contains, BlockingTexts, Humanized;
    if !f.named {
      return Outcome(false, None, None, ["Unexpected validation error: 'NoneType' object has no attribute 'lower'"]);
    }
    match f.extraction {
      case NotPdf =>
      case Extracted =>
      case NoXml => return Outcome(false, None, None, ["No Factur-X/ZUGFeRD XML found in PDF"]);
      case ExtractFails(reason) => return Outcome(false, None, None, ["Failed to extract XML from PDF: " + reason]);
    }
    var format: Option<string>, flavor: Option<string> := None, None;
    match f.document {
      case Unparsable(reason) => return Outcome(false, None, None, ["Invalid XML syntax: " + reason]);
      case Parsed(Known(known, level)) => format, flavor := known, level;
      case Parsed(Unknown(reason, urn)) =>
        if Contains(Lower(urn), "en16931") || Contains(Lower(urn), "xrechnung") {
          format, flavor := Some("factur-x"), Some("en16931");
        } else {
          return Outcome(false, None, None, ["Invalid XML syntax: " + reason]);
        }
    }
    if f.schema.Raises? {
      var errors := HumanizeErrors(ERROR_MAP, [f.schema.reason]);
      OneMessage(ERROR_MAP, f.schema.reason);
      return Outcome(false, format, flavor, errors);
    }
    if HasRules(flavor) && !f.rules.Missing? {
      var errors := CheckSchematron(f.rules);
      if f.rules.Reports? {
        BlockingTextsNone(f.rules.asserts);
      }
      if errors != [] {
        return Outcome(false, format, flavor, errors);
      }
    }
    return Outcome(true, format, flavor, []);
  }

  predicate Readable(f: File) { f.named && (f.extraction.NotPdf? || f.extraction.Extracted?) }

  /** The file is read and its profile known. */
  predicate Reached(f: File) {
    && f.named && (f.extraction.NotPdf? || f.extraction.Extracted?)
    && f.document.Parsed? && Detected(f.document.detection).Some?
  }

  /** The schema accepts, and no rule that applies to the profile blocks. */
  predicate Passing(f: File) {
    && Reached(f) && f.schema.Passes?
    && (HasRules(Detected(f.document.detection).value.1) && f.rules.Reports? ==> AllAdvisory(f.rules.asserts))
  }

  /** The profile, from the library or, failing that, from the guideline identifier. */
  lemma {:induction false} DetectedIs(d: Detection)
    ensures d.Known? ==> Detected(d) == Some((d.format, d.level))
    ensures d.Unknown? ==>
      Detected(d) == if Contains(Lower(d.urn), "en16931") || Contains(Lower(d.urn), "xrechnung")
                     then Some((Some("factur-x"), Some("en16931"))) else None
  {
    hide Contains;
  }

  /** An assertion is advice only if its severity says so. */
  lemma {:induction false} AdvisoryIs(a: Failed)
    ensures Advisory(a) <==> a.severity.Some? && (Lower(a.severity.value) == "warning" || Lower(a.severity.value) == "info")
  {
    assert Lower("fatal")[0] == 'f' && "warning"[0] == 'w' && "info"[0] == 'i';
  }

  /** A file passes if it is read, its profile known, the schema accepts it and, in the two
      profiles that have rules, every assertion of the report is advice. */
  lemma {:induction false} PassingIs(f: File)
    ensures Passing(f) <==>
            && Readable(f) && f.document.Parsed? && Detected(f.document.detection).Some? && f.schema.Passes?
            && var level := Detected(f.document.detection).value.1;
            ((level == Some("en16931") || level == Some("extended")) && f.rules.Reports? ==>
               forall i :: 0 <= i < |f.rules.asserts| ==> Advisory(f.rules.asserts[i]))
  {
    hide Detected, Advisory;
  }

  /** The texts of the blocking assertions, in order; one without a text is an unknown violation. */
  lemma {:induction false} BlockingTextsThen(asserts: seq<Failed>, a: Failed)
    ensures BlockingTexts([]) == []
    ensures BlockingTexts(asserts + [a])
         == BlockingTexts(asserts)
            + (if Advisory(a) then []
               else [Trim(if a.text.Some? && a.text.value != "" then a.text.value else "Unknown rule violation")])
  {
    assert (asserts + [a])[..|asserts|] == asserts;
    hide Advisory, Trim;
  }

  /** The schema check fails with an empty message, which the guidance drops: the one way to
      an invalid file without an error. */
  predicate Wordless(f: File) { Reached(f) && f.schema == Raises("") }

  lemma {:induction false} OneMessage(table: Table, err: string)
    ensures Humanized(table, [err]) == [] <==> err == ""
  {
    hide Guidance;
    HumanizedIs(table, [err]);
    assert err in [err];
    if err != "" {
      assert Guidance(table, err) in Humanized(table, [err]);
    } else {
      assert [err][..0] == [] && Mapped(table, [err]) == [];
    }
  }

  lemma {:induction false} BlockingTextsNone(asserts: seq<Failed>)
    ensures BlockingTexts(asserts) == [] <==> AllAdvisory(asserts)
  {
    hide Advisory, TextOf;
    if asserts != [] {
      var before, a := asserts[..|asserts| - 1], asserts[|asserts| - 1];
      BlockingTextsNone(before);
      assert asserts == before + [a];
      AdvisoryJoin(before, [a]);
    }
  }

  // ---- The rules on a rendered invoice ----

  const RULES := [CoreRules.BR_FR_01, CoreRules.BR_DE_01, CoreRules.BR_CO_13, CoreRules.BR_CO_16, CoreRules.BR_FR_04]

  function SeverityOf(r: CoreRules.Rule): (s: string) { if CoreRules.Fatal(r) then "fatal" else "warning" }

  /** The report of the stylesheet on a document: the violated rules, in order. */
  function ReportOn(root: Xml.Node, says: CoreRules.Rule -> string, rules: seq<CoreRules.Rule>): (r: seq<Failed>) {
    if rules == [] then []
    else (if CoreRules.Violated(root, rules[0]) then [Failed(Some(SeverityOf(rules[0])), Some(says(rules[0])))] else [])
         + ReportOn(root, says, rules[1..])
  }

  lemma {:induction false} SeverityBlocks(r: CoreRules.Rule, text: Option<string>)
    ensures Advisory(Failed(Some(SeverityOf(r)), text)) <==> !CoreRules.Fatal(r)
  {
    assert Lower("fatal")[0] == 'f' && "warning"[0] == 'w' && "info"[0] == 'i';
    assert Lower("warning") == "warning";
  }

  /** None of the rules is fatal and violated. */
  predicate NoneFatal(root: Xml.Node, rules: seq<CoreRules.Rule>) {
    forall k :: 0 <= k < |rules| ==> CoreRules.Violated(root, rules[k]) ==> !CoreRules.Fatal(rules[k])
  }

  lemma {:induction false} NoneFatalStep(root: Xml.Node, r: CoreRules.Rule, rest: seq<CoreRules.Rule>)
    ensures NoneFatal(root, [r] + rest) <==> (CoreRules.Violated(root, r) ==> !CoreRules.Fatal(r)) && NoneFatal(root, rest)
  {
    hide CoreRules.Violated, CoreRules.Fatal;
    var rules := [r] + rest;
    assert rules[0] == r;
    assert forall k :: 0 < k < |rules| ==> rules[k] == rest[k - 1];
    assert forall k :: 0 <= k < |rest| ==> rest[k] == rules[k + 1];
  }

  lemma {:induction false} ReportBlocks(root: Xml.Node, says: CoreRules.Rule -> string, rules: seq<CoreRules.Rule>)
    ensures AllAdvisory(ReportOn(root, says, rules)) <==> NoneFatal(root, rules)
  {
    hide Advisory, SeverityOf, CoreRules.Violated, CoreRules.Fatal;
    if rules != [] {
      var r, rest := rules[0], rules[1..];
      ReportBlocks(root, says, rest);
      SeverityBlocks(r, Some(says(r)));
      assert rules == [r] + rest;
      NoneFatalStep(root, r, rest);
      var here := if CoreRules.Violated(root, r) then [Failed(Some(SeverityOf(r)), Some(says(r)))] else [];
      AdvisoryJoin(here, ReportOn(root, says, rest));
    }
  }

  lemma {:induction false} AdvisoryJoin(a: seq<Failed>, b: seq<Failed>)
    ensures AllAdvisory(a + b) <==> AllAdvisory(a) && AllAdvisory(b)
  {
    hide Advisory;
    assert forall i :: 0 <= i < |a| ==> (a + b)[i] == a[i];
    assert forall i :: 0 <= i < |b| ==> (a + b)[|a| + i] == b[i];
  }

  /** A rendered invoice that the schema accepts passes the basic validator exactly when its
      metadata meets the four fatal rules; a missing IBAN never stops it. */
  lemma {:induction false} RenderedPasses(
      f: File, m: Invoice.Metadata, repr: Float -> string, says: CoreRules.Rule -> string)
    requires Reached(f) && f.schema.Passes? && HasRules(Detected(f.document.detection).value.1)
    requires f.rules == Reports(ReportOn(Template.Render(m, repr), says, RULES))
    ensures Passing(f) <==>
            && !CoreRules.Expected(m, CoreRules.BR_FR_01) && !CoreRules.Expected(m, CoreRules.BR_DE_01)
            && !CoreRules.Expected(m, CoreRules.BR_CO_13) && !CoreRules.Expected(m, CoreRules.BR_CO_16)
  {
    hide Advisory, CoreRules.Violated, CoreRules.Expected, Template.Render, Reached, Detected;
    var root := Template.Render(m, repr);
    ReportBlocks(root, says, RULES);
    forall r: CoreRules.Rule ensures CoreRules.Violated(root, r) <==> CoreRules.Expected(m, r) {
      CoreRules.RenderedReport(m, repr, r);
    }
    assert NoneFatal(root, RULES) <==>
           !CoreRules.Violated(root, RULES[0]) && !CoreRules.Violated(root, RULES[1])
           && !CoreRules.Violated(root, RULES[2]) && !CoreRules.Violated(root, RULES[3]);
  }
}
