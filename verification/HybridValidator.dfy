/** The two-layer validator: schema check, then business rules. */
module HybridValidator {
  import opened Wrappers
  import opened Strings

  datatype Layer = Xsd | Schematron | System

  datatype Finding = Finding(ruleId: string, message: string, location: string, severity: string, layer: Layer)

  datatype Verdict = Verdict(isValid: bool, xsdValid: bool, schematronValid: bool, errors: seq<Finding>)

  /** How the schema check went. */
  datatype XsdRun = NoSchema | Accepted | Rejected(log: seq<(string, string)>) | XsdBroke(reason: string)

  /** The text of a failed assertion: no text element, an empty one, or its stripped text. */
  datatype AssertText = NoText | EmptyText | Says(text: string)

  datatype Assert = Assert(id: Option<string>, role: Option<string>, location: Option<string>, text: AssertText)

  /** How the rules went: not run, broken off before a report, or a report of failed assertions. */
  datatype SaxonRun = NoRules | SaxonBroke(reason: string) | Report(asserts: seq<Assert>)

  predicate Blocking(severity: string) { Lower(severity) == "error" || Lower(severity) == "fatal" }

  /** `error_count` */
  function ErrorCount(fs: seq<Finding>): (n: nat)
    ensures n == 0 <==> forall i :: 0 <= i < |fs| ==> !Blocking(fs[i].severity)
  {
    if fs == [] then 0 else ErrorCount(fs[1..]) + (if Blocking(fs[0].severity) then 1 else 0)
  }

  /** The role of an assertion: an absent or empty one counts as an error. */
  function RoleOf(a: Assert): (r: string) {
    Lower(if a.role.Some? && a.role.value != "" then a.role.value else "error")
  }

  function XsdFinding(entry: (string, string)): (f: Finding) {
    Finding("XSD-INVALID", entry.0, entry.1, "error", Xsd)
  }

  function XsdFindings(x: XsdRun): (r: seq<Finding>) {
    match x
    case NoSchema => []
    case Accepted => []
    case Rejected(log) => seq(|log|, i requires 0 <= i < |log| => XsdFinding(log[i]))
    case XsdBroke(reason) => [Finding("SYS-XSD", reason, "", "error", System)]
  }

  function AssertFinding(a: Assert): (f: Finding)
    requires !a.text.EmptyText?
  {
    Finding(a.id.GetOr("RULE-FAIL"), if a.text.Says? then a.text.text else "Rule violation",
            a.location.GetOr(""), RoleOf(a), Schematron)
  }

  const NO_STRIP := Finding("SYS-SAXON", "'NoneType' object has no attribute 'strip'", "", "error", System)

  /** An assertion with an empty text element breaks off the loop over the report. */
  function Scan(asserts: seq<Assert>): (r: seq<Finding>) {
    if asserts == [] then []
    else if asserts[0].text.EmptyText? then [NO_STRIP]
    else [AssertFinding(asserts[0])] + Scan(asserts[1..])
  }

  function SaxonFindings(s: SaxonRun): (r: seq<Finding>) {
    match s
    case NoRules => []
    case SaxonBroke(reason) => [Finding("SYS-SAXON", reason, "", "error", System)]
    case Report(asserts) => Scan(asserts)
  }

  predicate XsdOk(x: XsdRun) { x.NoSchema? || x.Accepted? }

  predicate Blocks(a: Assert) { RoleOf(a) == "error" || RoleOf(a) == "fatal" }

  /** The rules hold when every assertion of the report could be read and none blocks. */
  predicate SaxonOk(s: SaxonRun) {
    match s
    case NoRules => true
    case SaxonBroke(_) => false
    case Report(asserts) => forall i :: 0 <= i < |asserts| ==> !asserts[i].text.EmptyText? && !Blocks(asserts[i])
  }

  function VerdictOf(x: XsdRun, s: SaxonRun): (v: Verdict) {
    Verdict(XsdOk(x) && SaxonOk(s), XsdOk(x), SaxonOk(s), XsdFindings(x) + SaxonFindings(s))
  }

  // ---- The validator as it runs ----

  /** `validate`: `errors` grows and the two flags fall along loops and handlers. */
  method Validate(x: XsdRun, s: SaxonRun) returns (v: Verdict)
    ensures v == VerdictOf(x, s)
  {
    var errors: seq<Finding> := [];
    var xsdValid, schematronValid := true, true;
    match x {
      case NoSchema =>
      case Accepted =>
      case Rejected(log) =>
        xsdValid := false;
        var i := 0;
        while i < |log|
          invariant 0 <= i <= |log|
          invariant errors == XsdFindings(x)[..i]
        {
          errors := errors + [XsdFinding(log[i])];
          i := i + 1;
        }
      case XsdBroke(reason) =>
        errors := errors + [Finding("SYS-XSD", reason, "", "error", System)];
        xsdValid := false;
    }
    assert errors == XsdFindings(x);
    match s {
      case NoRules =>
      case SaxonBroke(reason) =>
        errors := errors + [Finding("SYS-SAXON", reason, "", "error", System)];
        schematronValid := false;
      case Report(asserts) =>
        var found, ok := ReadReport(asserts);
        errors := errors + found;
        schematronValid := ok;
    }
    v := Verdict(xsdValid && schematronValid, xsdValid, schematronValid, errors);
  }

  /** The loop over the failed assertions, with the exception that ends it early. */
  method ReadReport(asserts: seq<Assert>) returns (found: seq<Finding>, ok: bool)
    ensures found == Scan(asserts)
    ensures ok <==> SaxonOk(Report(asserts))
  {
    found, ok := [], true;
    var i := 0;
    while i < |asserts|
      invariant 0 <= i <= |asserts|
      invariant Scan(asserts) == found + Scan(asserts[i..])
      invariant ok <==> forall j :: 0 <= j < i ==> !asserts[j].text.EmptyText? && !Blocks(asserts[j])
    {
      hide Scan, AssertFinding;
      var a := asserts[i];
      ScanAt(asserts, i);
      if Blocks(a) {
        ok := false;
      }
      hide Blocks;
      if a.text.EmptyText? {
        found := found + [NO_STRIP];
        ok := false;
        return;
      }
      found := found + [AssertFinding(a)];
      i := i + 1;
    }
  }

  lemma {:induction false} ScanAt(asserts: seq<Assert>, i: nat)
    requires i < |asserts|
    ensures Scan(asserts[i..])
         == if asserts[i].text.EmptyText? then [NO_STRIP] else [AssertFinding(asserts[i])] + Scan(asserts[i + 1..])
  {
    assert asserts[i..][1..] == asserts[i + 1..];
  }

  // ---- Which assertions are reported ----

  /** The finding is that of this assertion: its rule, its place and its role. */
  predicate Mentions(f: Finding, a: Assert) {
    && f.layer == Schematron && f.ruleId == a.id.GetOr("RULE-FAIL")
    && f.location == a.location.GetOr("") && f.severity == RoleOf(a)
  }

  /** Every assertion is reported, in order. */
  predicate AllReported(fs: seq<Finding>, asserts: seq<Assert>) {
    |fs| == |asserts| && forall i :: 0 <= i < |fs| ==> Mentions(fs[i], asserts[i])
  }

  predicate Readable(asserts: seq<Assert>) { forall i :: 0 <= i < |asserts| ==> !asserts[i].text.EmptyText? }

  lemma {:induction false} ScanReadable(asserts: seq<Assert>)
    requires Readable(asserts)
    ensures |Scan(asserts)| == |asserts|
    ensures forall i :: 0 <= i < |asserts| ==> Scan(asserts)[i] == AssertFinding(asserts[i])
  {
    hide AssertFinding;
    if asserts != [] {
      var rest := asserts[1..];
      ScanReadable(rest);
      assert forall i :: 0 < i < |asserts| ==> asserts[i] == rest[i - 1];
    }
  }

  /** From the first empty text on, whatever follows is lost: the report ends with the
      exception, whatever the assertions after it say. */
  lemma {:induction false} RestIsLost(before: seq<Assert>, broken: Assert, after: seq<Assert>)
    requires Readable(before) && broken.text.EmptyText?
    ensures Scan(before + [broken] + after) == Scan(before) + [NO_STRIP]
    ensures |Scan(before + [broken] + after)| == |before| + 1
  {
    hide AssertFinding;
    var all := before + [broken] + after;
    ScanReadable(before);
    if before != [] {
      assert all[1..] == before[1..] + [broken] + after && all[0] == before[0];
      RestIsLost(before[1..], broken, after);
    }
  }

  lemma {:induction false} FirstEmpty(asserts: seq<Assert>) returns (k: nat)
    requires !Readable(asserts)
    ensures k < |asserts| && Readable(asserts[..k]) && asserts[k].text.EmptyText?
  {
    k := 0;
    while !asserts[k].text.EmptyText?
      invariant k < |asserts| && Readable(asserts[..k]) && exists i :: k <= i < |asserts| && asserts[i].text.EmptyText?
      decreases |asserts| - k
    {
      k := k + 1;
    }
  }

  /** The report is complete exactly when no assertion has an empty text element. */
  lemma {:induction false} ReportedExactly(asserts: seq<Assert>)
    ensures AllReported(Scan(asserts), asserts) <==> Readable(asserts)
  {
    hide Scan;
    if Readable(asserts) {
      ScanReadable(asserts);
    } else {
      var k := FirstEmpty(asserts);
      var before := asserts[..k];
      assert asserts == before + [asserts[k]] + asserts[k + 1..];
      RestIsLost(before, asserts[k], asserts[k + 1..]);
      ScanReadable(before);
      assert Scan(asserts)[k] == NO_STRIP;
      assert !Mentions(Scan(asserts)[k], asserts[k]);
    }
  }

  // ---- Which assertions block ----

  /** An assertion lets the file pass only if it says so: it has a role, and in lower case that is
      neither `error` nor `fatal`. */
  predicate LetsPass(a: Assert) {
    a.role.Some? && a.role.value != "" && Lower(a.role.value) != "error" && Lower(a.role.value) != "fatal"
  }

  /** The rules hold if and only if every assertion of the report could be read and lets the file
      pass; without a role, as in the official rules, it never does. */
  lemma {:induction false} RulesHold(asserts: seq<Assert>)
    ensures SaxonOk(Report(asserts)) <==>
            forall i :: 0 <= i < |asserts| ==> !asserts[i].text.EmptyText? && LetsPass(asserts[i])
  {
    forall a: Assert ensures Blocks(a) <==> !LetsPass(a) {
      assert Lower("error") == "error";
    }
    hide Blocks, LetsPass;
  }

  /** The finding of an assertion, field by field. */
  lemma {:induction false} FindingIs(a: Assert)
    requires !a.text.EmptyText?
    ensures var f := AssertFinding(a);
            && f.ruleId == (if a.id.Some? then a.id.value else "RULE-FAIL")
            && f.message == (if a.text.Says? then a.text.text else "Rule violation")
            && f.location == (if a.location.Some? then a.location.value else "")
            && f.severity == (if a.role.Some? && a.role.value != "" then Lower(a.role.value) else "error")
            && f.layer == Schematron
  {
    assert Lower("error") == "error";
  }

  /** The findings of a schema check: one for each entry of its log, and none of them advice. */
  lemma {:induction false} SchemaFindings(x: XsdRun)
    ensures x.Rejected? ==>
              && |XsdFindings(x)| == |x.log|
              && forall i :: 0 <= i < |x.log| ==> XsdFindings(x)[i] == Finding("XSD-INVALID", x.log[i].0, x.log[i].1, "error", Xsd)
    ensures x.XsdBroke? ==> XsdFindings(x) == [Finding("SYS-XSD", x.reason, "", "error", System)]
    ensures x.NoSchema? || x.Accepted? ==> XsdFindings(x) == []
  {
  }

  /** The verdict of the two layers together, and its findings: those of the schema first. */
  lemma {:induction false} VerdictIs(x: XsdRun, s: SaxonRun)
    ensures var v := VerdictOf(x, s);
            && (v.xsdValid <==> x.NoSchema? || x.Accepted?)
            && (v.schematronValid <==> s.NoRules? || (s.Report? && SaxonOk(s)))
            && (v.isValid <==> v.xsdValid && v.schematronValid)
            && v.errors == XsdFindings(x) + (match s case NoRules => []
                                                     case SaxonBroke(reason) => [Finding("SYS-SAXON", reason, "", "error", System)]
                                                     case Report(asserts) => Scan(asserts))
  {
    hide XsdFindings, Scan;
  }

  lemma {:induction false} RoleBlocks(a: Assert)
    ensures Blocking(RoleOf(a)) <==> Blocks(a)
  {
    LowerTwice(if a.role.Some? && a.role.value != "" then a.role.value else "error");
  }

  lemma {:induction false} CountThen(a: seq<Finding>, b: seq<Finding>)
    ensures ErrorCount(a + b) == ErrorCount(a) + ErrorCount(b)
  {
    if a == [] {
      assert a + b == b;
    } else {
      assert (a + b)[1..] == a[1..] + b;
      CountThen(a[1..], b);
    }
  }

  /** `error_count` counts the findings whose severity is error or fatal in lower case. */
  lemma {:induction false} CountIs(fs: seq<Finding>, f: Finding)
    ensures ErrorCount([]) == 0
    ensures ErrorCount(fs + [f]) == ErrorCount(fs) + (if Lower(f.severity) == "error" || Lower(f.severity) == "fatal" then 1 else 0)
  {
    CountThen(fs, [f]);
    assert [f][1..] == [];
    hide Lower;
  }

  /** Counting the findings of a report tells whether the rules hold. */
  lemma {:induction false} ScanCount(asserts: seq<Assert>)
    ensures ErrorCount(Scan(asserts)) == 0 <==> SaxonOk(Report(asserts))
  {
    hide Blocking, Blocks, ErrorCount, AssertFinding;
    if asserts == [] {
      EmptyCount();
    } else {
      var a, rest := asserts[0], asserts[1..];
      ScanCount(rest);
      FirstCount(a);
      assert forall i :: 0 < i < |asserts| ==> asserts[i] == rest[i - 1];
      assert forall i :: 0 <= i < |rest| ==> rest[i] == asserts[i + 1];
      if !a.text.EmptyText? {
        CountThen([AssertFinding(a)], Scan(rest));
      }
    }
  }

  lemma {:induction false} EmptyCount()
    ensures ErrorCount([]) == 0
  {
  }

  lemma {:induction false} FirstCount(a: Assert)
    ensures ErrorCount([NO_STRIP]) == 1
    ensures !a.text.EmptyText? ==> ErrorCount([AssertFinding(a)]) == if Blocks(a) then 1 else 0
  {
    ErrorIsBlocking();
    RoleBlocks(a);
    hide RoleOf, Blocking, Blocks;
    assert [NO_STRIP][1..] == [];
    if !a.text.EmptyText? {
      assert [AssertFinding(a)][1..] == [];
    }
  }

  // ---- Verdict and findings agree ----

  lemma {:induction false} ErrorIsBlocking()
    ensures Blocking("error")
  {
    assert Lower("error") == "error";
  }

  lemma {:induction false} XsdCount(x: XsdRun)
    ensures ErrorCount(XsdFindings(x)) == 0 <==> XsdOk(x) || x == Rejected([])
  {
    ErrorIsBlocking();
    if x.Rejected? && x.log != [] {
      assert XsdFindings(x)[0].severity == "error";
    }
    if x.XsdBroke? {
      assert XsdFindings(x)[0].severity == "error";
    }
  }

  lemma {:induction false} SaxonCount(s: SaxonRun)
    ensures ErrorCount(SaxonFindings(s)) == 0 <==> SaxonOk(s)
  {
    if s.Report? {
      ScanCount(s.asserts);
    } else if s.SaxonBroke? {
      ErrorIsBlocking();
      assert SaxonFindings(s)[0].severity == "error";
    }
  }

  /** The schema check refused the file and said nothing. */
  predicate SilentReject(x: XsdRun, s: SaxonRun) { x == Rejected([]) && SaxonOk(s) }

  /** For every outcome of the two layers, a report broken off part-way included, the verdict
      is valid exactly when no finding blocks, unless the schema check rejects silently. */
  lemma {:induction false} ValidIffNoErrors(x: XsdRun, s: SaxonRun)
    ensures var v := VerdictOf(x, s); (v.isValid <==> ErrorCount(v.errors) == 0) <==> !SilentReject(x, s)
  {
    XsdCount(x);
    SaxonCount(s);
    CountThen(XsdFindings(x), SaxonFindings(s));
  }
}
