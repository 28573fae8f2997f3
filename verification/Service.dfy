/** The validation service: extraction, parsing, schemas and the process pool around the validator. */
module Service {
  import opened Wrappers
  import opened HybridValidator

  datatype Extraction = NotPdf | NoXml | ExtractFails(reason: string) | Extracted

  /** Parsing may fail after the format is known but before the profile is. */
  datatype Parsed = ParseFails(reason: string, known: Option<string>) | ParsedAs(format: string, profile: string)

  datatype Worker = Ran(xsd: XsdRun, saxon: SaxonRun) | WorkerRaised(reason: string)

  datatype Pool = Done(worker: Worker) | TimedOut | PoolBroke(reason: string)

  /** Everything the service meets outside itself while it handles one file. */
  datatype Job = Job(
    named: bool, extraction: Extraction, parsed: Parsed, xsdThere: bool, xsltThere: bool,
    executorFails: Option<string>, pool: Pool)

  datatype Result = Result(
    isValid: bool, format: Option<string>, profile: Option<string>,
    xsdValid: Option<bool>, schematronValid: Option<bool>, errors: seq<Finding>, lite: bool)

  const BLANK := Result(false, None, None, None, None, [], false)

  function Problem(id: string, message: string, layer: Layer): (f: Finding) {
    Finding(id, message, "", "error", layer)
  }

  function Fail(r: Result, id: string, message: string, layer: Layer): (r': Result) {
    r.(errors := r.errors + [Problem(id, message, layer)])
  }

  /** The worker skips a layer whose file is missing. */
  function WorkerVerdict(j: Job, x: XsdRun, s: SaxonRun): (v: Verdict) {
    VerdictOf(if j.xsdThere then x else NoSchema, if j.xsltThere then s else NoRules)
  }

  function FromPool(j: Job, r: Result): (r': Result) {
    match j.pool
    case TimedOut => Fail(r, "FX-TIMEOUT", "Validation timed out after 30s", System)
    case PoolBroke(reason) => Fail(r, "FX-POOL-ERROR", "Process pool error: " + reason, System)
    case Done(WorkerRaised(reason)) => Fail(r, "FX-HYBRID-ERROR", reason, System)
    case Done(Ran(x, s)) =>
      var v := WorkerVerdict(j, x, s);
      r.(isValid := v.isValid, xsdValid := Some(v.xsdValid), schematronValid := Some(v.schematronValid),
         errors := v.errors)
  }

  function FromXml(j: Job): (r: Result) {
    match j.parsed
    case ParseFails(reason, format) => Fail(BLANK.(format := format), "FX-PARSE-ERROR", "Invalid XML: " + reason, Xsd)
    case ParsedAs(format, profile) =>
      var r := BLANK.(format := Some(format), profile := Some(profile));
      if !j.xsdThere && !j.xsltThere then r.(lite := true, isValid := true)
      else if j.executorFails.Some? then Fail(r, "FX-INTERNAL", "Internal error: " + j.executorFails.value, System)
      else FromPool(j, r)
  }

  /** What the service answers, branch by branch. */
  function Serve(j: Job): (r: Result) {
    if !j.named then Fail(BLANK, "FX-INTERNAL", "Internal error: 'NoneType' object has no attribute 'lower'", System)
    else match j.extraction
      case NoXml => Fail(BLANK, "FX-NO-XML", "No Factur-X/ZUGFeRD XML found in PDF", System)
      case ExtractFails(reason) => Fail(BLANK, "FX-EXTRACT-FAIL", "Failed to extract XML: " + reason, System)
      case NotPdf => FromXml(j)
      case Extracted => FromXml(j)
  }

  /** `validate`: one result record, filled in along branches that return early. Invalid always
      means a blocking finding and valid none, except after a silent rejection. */
  method Validate(j: Job) returns (result: Result)
    ensures result == Serve(j)
    ensures Consistent(result) <==> !Silent(j)
  {
    ResultConsistent(j);
    hide Consistent, Silent;
    result := BLANK;
    if !j.named {
      result := Fail(result, "FX-INTERNAL", "Internal error: 'NoneType' object has no attribute 'lower'", System);
      return;
    }
    match j.extraction {
      case NotPdf =>
      case Extracted =>
      case NoXml =>
        result := Fail(result, "FX-NO-XML", "No Factur-X/ZUGFeRD XML found in PDF", System);
        return;
      case ExtractFails(reason) =>
        result := Fail(result, "FX-EXTRACT-FAIL", "Failed to extract XML: " + reason, System);
        return;
    }
    match j.parsed {
      case ParseFails(reason, format) =>
        result := result.(format := format);
        result := Fail(result, "FX-PARSE-ERROR", "Invalid XML: " + reason, Xsd);
        return;
      case ParsedAs(format, profile) =>
        result := result.(format := Some(format));
        result := result.(profile := Some(profile));
    }
    if !j.xsdThere && !j.xsltThere {
      result := result.(lite := true);
      result := result.(isValid := true);
      return;
    }
    if j.executorFails.Some? {
      result := Fail(result, "FX-INTERNAL", "Internal error: " + j.executorFails.value, System);
      return;
    }
    match j.pool {
      case TimedOut =>
        result := Fail(result, "FX-TIMEOUT", "Validation timed out after 30s", System);
      case PoolBroke(reason) =>
        result := Fail(result, "FX-POOL-ERROR", "Process pool error: " + reason, System);
      case Done(WorkerRaised(reason)) =>
        result := Fail(result, "FX-HYBRID-ERROR", reason, System);
        return;
      case Done(Ran(x, s)) =>
        var xsd, saxon := if j.xsdThere then x else NoSchema, if j.xsltThere then s else NoRules;
        var v := HybridValidator.Validate(xsd, saxon);
        result := result.(isValid := v.isValid);
        result := result.(xsdValid := Some(v.xsdValid));
        result := result.(schematronValid := Some(v.schematronValid));
        result := result.(errors := v.errors);
    }
  }

  // ---- Verdict and report agree through every branch ----

  /** The job reaches the validator, and its schema check rejects without a word. */
  predicate Silent(j: Job) {
    && j.named && (j.extraction.NotPdf? || j.extraction.Extracted?) && j.parsed.ParsedAs?
    && j.xsdThere && j.executorFails.None? && j.pool.Done? && j.pool.worker.Ran?
    && SilentReject(j.pool.worker.xsd, if j.xsltThere then j.pool.worker.saxon else NoRules)
  }

  predicate Consistent(r: Result) { r.isValid <==> ErrorCount(r.errors) == 0 }

  /** A branch that gives up reports one blocking problem. */
  lemma {:induction false} FailConsistent(r: Result, id: string, message: string, layer: Layer)
    requires !r.isValid && r.errors == []
    ensures Consistent(Fail(r, id, message, layer))
  {
    ErrorIsBlocking();
    assert Fail(r, id, message, layer).errors[0].severity == "error";
  }

  lemma {:induction false} PoolConsistent(j: Job, r: Result)
    requires !r.isValid && r.errors == []
    ensures Consistent(FromPool(j, r))
       <==> !(j.xsdThere && j.pool.Done? && j.pool.worker.Ran?
              && SilentReject(j.pool.worker.xsd, if j.xsltThere then j.pool.worker.saxon else NoRules))
  {
    hide Fail, VerdictOf, ErrorCount;
    match j.pool
    case TimedOut => FailConsistent(r, "FX-TIMEOUT", "Validation timed out after 30s", System);
    case PoolBroke(reason) => FailConsistent(r, "FX-POOL-ERROR", "Process pool error: " + reason, System);
    case Done(WorkerRaised(reason)) => FailConsistent(r, "FX-HYBRID-ERROR", reason, System);
    case Done(Ran(x, s)) =>
      ValidIffNoErrors(if j.xsdThere then x else NoSchema, if j.xsltThere then s else NoRules);
  }

  lemma {:induction false} XmlConsistent(j: Job)
    requires j.named && (j.extraction.NotPdf? || j.extraction.Extracted?)
    ensures Consistent(FromXml(j)) <==> !Silent(j)
  {
    hide Fail, FromPool;
    match j.parsed
    case ParseFails(reason, format) =>
      FailConsistent(BLANK.(format := format), "FX-PARSE-ERROR", "Invalid XML: " + reason, Xsd);
    case ParsedAs(format, profile) =>
      var r := BLANK.(format := Some(format), profile := Some(profile));
      if j.executorFails.Some? {
        FailConsistent(r, "FX-INTERNAL", "Internal error: " + j.executorFails.value, System);
      } else {
        PoolConsistent(j, r);
      }
  }

  /** An invalid result carries a blocking finding and a valid one carries none, through
      every failure branch, exactly unless the schema check rejected silently. */
  lemma {:induction false} ResultConsistent(j: Job)
    ensures Consistent(Serve(j)) <==> !Silent(j)
  {
    hide Fail, FromXml, Consistent;
    if !j.named {
      FailConsistent(BLANK, "FX-INTERNAL", "Internal error: 'NoneType' object has no attribute 'lower'", System);
    } else {
      match j.extraction
      case NoXml => FailConsistent(BLANK, "FX-NO-XML", "No Factur-X/ZUGFeRD XML found in PDF", System);
      case ExtractFails(reason) =>
        FailConsistent(BLANK, "FX-EXTRACT-FAIL", "Failed to extract XML: " + reason, System);
      case NotPdf => XmlConsistent(j);
      case Extracted => XmlConsistent(j);
    }
  }

  /** A silent rejection is invalid with no blocking finding. */
  lemma {:induction false} SilentIsInvalid(j: Job)
    requires Silent(j)
    ensures !Serve(j).isValid && ErrorCount(Serve(j).errors) == 0
  {
    ResultConsistent(j);
  }

  // ---- What each situation gives ----

  /** The file is read and its profile known. */
  predicate Reached(j: Job) { j.named && (j.extraction.NotPdf? || j.extraction.Extracted?) && j.parsed.ParsedAs? }

  /** Which layers run: both files missing, none, and the parsed file passes; otherwise the layers
      whose files are there, and the file passes when these accept it. */
  lemma {:induction false} LayersThatRun(j: Job)
    requires Reached(j)
    ensures !j.xsdThere && !j.xsltThere ==>
              Serve(j) == Result(true, Some(j.parsed.format), Some(j.parsed.profile), None, None, [], true)
    ensures j.xsdThere && j.xsltThere && j.executorFails.None? && j.pool.Done? && j.pool.worker.Ran? ==>
              (Serve(j).isValid <==> (j.pool.worker.xsd.NoSchema? || j.pool.worker.xsd.Accepted?) && SaxonOk(j.pool.worker.saxon))
    ensures j.xsdThere && !j.xsltThere && j.executorFails.None? && j.pool.Done? && j.pool.worker.Ran? ==>
              (Serve(j).isValid <==> j.pool.worker.xsd.NoSchema? || j.pool.worker.xsd.Accepted?)
    ensures !j.xsdThere && j.xsltThere && j.executorFails.None? && j.pool.Done? && j.pool.worker.Ran? ==>
              (Serve(j).isValid <==> SaxonOk(j.pool.worker.saxon))
  {
    hide XsdFindings, SaxonFindings, Fail;
  }

  /** When the worker has answered, the service passes its answer on with format and profile. */
  lemma {:induction false} WorkerPassedOn(j: Job)
    requires Reached(j) && (j.xsdThere || j.xsltThere) && j.executorFails.None? && j.pool.Done? && j.pool.worker.Ran?
    ensures var v := VerdictOf(if j.xsdThere then j.pool.worker.xsd else NoSchema,
                               if j.xsltThere then j.pool.worker.saxon else NoRules);
            Serve(j) == Result(v.isValid, Some(j.parsed.format), Some(j.parsed.profile), Some(v.xsdValid),
                               Some(v.schematronValid), v.errors, false)
  {
    hide VerdictOf, Fail;
  }

  predicate Failure(j: Job, id: string, message: string, layer: Layer) {
    !Serve(j).isValid && Serve(j).errors == [Finding(id, message, "", "error", layer)]
  }

  /** Every failure is reported as the one finding that names it. */
  lemma {:induction false} FailuresNamed(j: Job)
    ensures j.named && j.extraction.NoXml? ==> Failure(j, "FX-NO-XML", "No Factur-X/ZUGFeRD XML found in PDF", System)
    ensures j.named && j.extraction.ExtractFails? ==>
              Failure(j, "FX-EXTRACT-FAIL", "Failed to extract XML: " + j.extraction.reason, System)
    ensures j.named && (j.extraction.NotPdf? || j.extraction.Extracted?) && j.parsed.ParseFails? ==>
              Failure(j, "FX-PARSE-ERROR", "Invalid XML: " + j.parsed.reason, Xsd) && Serve(j).format == j.parsed.known
    ensures Reached(j) && (j.xsdThere || j.xsltThere) && j.executorFails.Some? ==>
              Failure(j, "FX-INTERNAL", "Internal error: " + j.executorFails.value, System)
    ensures Reached(j) && (j.xsdThere || j.xsltThere) && j.executorFails.None? && j.pool.TimedOut? ==>
              Failure(j, "FX-TIMEOUT", "Validation timed out after 30s", System)
    ensures Reached(j) && (j.xsdThere || j.xsltThere) && j.executorFails.None? && j.pool.PoolBroke? ==>
              Failure(j, "FX-POOL-ERROR", "Process pool error: " + j.pool.reason, System)
    ensures Reached(j) && (j.xsdThere || j.xsltThere) && j.executorFails.None? && j.pool.Done? && j.pool.worker.WorkerRaised?
            ==> Failure(j, "FX-HYBRID-ERROR", j.pool.worker.reason, System)
  {
    hide VerdictOf;
  }
}
