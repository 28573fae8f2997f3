/** The validate endpoint in Pro and Teaser mode, the record it leaves in the metrics, and the
    quality gate of the generator. */
module Endpoint {
  import opened Wrappers
  import opened Decimal
  import opened HybridValidator
  import opened Service
  import Metrics

  datatype Reply = Reply(
    valid: bool, format: Option<string>, flavor: Option<string>, errors: seq<string>, mode: string)

  /** The line that replaces the findings a Teaser reply hides. */
  function HiddenNotice(n: nat): (s: string) { "\U{26A0}\U{FE0F} " + Digits(n) + NOTICE }

  const NOTICE :=
    " autres erreurs de conformit\U{E9} critique d\U{E9}tect\U{E9}es. "
    + "Activez la version Pro pour le rapport complet et garantir l'acceptation par Chorus Pro/PPF."

  function Messages(fs: seq<Finding>): (r: seq<string>)
    ensures |r| == |fs| && forall i :: 0 <= i < |fs| ==> r[i] == fs[i].message
  {
    seq(|fs|, i requires 0 <= i < |fs| => fs[i].message)
  }

  /** The rule identifiers of the findings that have one. */
  function Rules(fs: seq<Finding>): (r: seq<string>) {
    if fs == [] then [] else (if fs[0].ruleId == "" then [] else [fs[0].ruleId]) + Rules(fs[1..])
  }

  /** The rules in order, one for each finding that names one. */
  lemma {:induction false} RulesThen(fs: seq<Finding>, f: Finding)
    ensures Rules([]) == [] && Rules(fs + [f]) == Rules(fs) + (if f.ruleId != "" then [f.ruleId] else [])
  {
    if fs == [] {
      assert [f][1..] == [] && fs + [f] == [f];
    } else {
      assert (fs + [f])[1..] == fs[1..] + [f];
      RulesThen(fs[1..], f);
    }
  }

  function ProReply(r: Result): (p: Reply) {
    Reply(r.isValid, r.format, r.profile, Messages(r.errors), "pro")
  }

  /** Teaser mode counts every finding, blocking or not, and shows the first. */
  function TeaserErrors(fs: seq<Finding>): (r: seq<string>) {
    if fs == [] then []
    else ["[" + fs[0].ruleId + "] " + fs[0].message] + (if |fs| > 1 then [HiddenNotice(|fs| - 1)] else [])
  }

  function TeaserReply(r: Result): (p: Reply) {
    Reply(r.errors == [], r.format, r.profile, TeaserErrors(r.errors), "teaser")
  }

  function ReplyOf(pro: bool, r: Result): (p: Reply) { if pro then ProReply(r) else TeaserReply(r) }

  /** What the endpoint records of a validation. */
  function RecordOf(pro: bool, r: Result): (v: Metrics.Validation) {
    if pro then Metrics.Validation("pro", r.isValid, r.profile, Rules(r.errors), 0)
    else if r.errors == [] then Metrics.Validation("teaser", true, r.profile, [], 0)
    else Metrics.Validation("teaser", false, r.profile, Rules(r.errors), |r.errors| - 1)
  }

  /** The reporting half of `validate_facturx`: record, then reply. */
  method Respond(pro: bool, r: Result, metrics: Metrics.Collector) returns (p: Reply)
    modifies metrics
    ensures p == ReplyOf(pro, r)
    ensures metrics.View() == Metrics.Apply(old(metrics.View()), Metrics.Calls(RecordOf(pro, r)))
  {
    hide HiddenNotice, Metrics.Calls, Metrics.Apply;
    if pro {
      metrics.RecordValidation(Metrics.Validation("pro", r.isValid, r.profile, Rules(r.errors), 0));
      return Reply(r.isValid, r.format, r.profile, Messages(r.errors), "pro");
    }
    if |r.errors| == 0 {
      metrics.RecordValidation(Metrics.Validation("teaser", true, r.profile, [], 0));
      return Reply(true, r.format, r.profile, [], "teaser");
    }
    var first, hidden := r.errors[0], |r.errors| - 1;
    var shown := ["[" + first.ruleId + "] " + first.message];
    if hidden > 0 {
      shown := shown + [HiddenNotice(hidden)];
    }
    metrics.RecordValidation(Metrics.Validation("teaser", false, r.profile, Rules(r.errors), hidden));
    return Reply(false, r.format, r.profile, shown, "teaser");
  }

  // ---- Pro and Teaser compared ----

  /** Findings, none of which blocks. */
  predicate OnlyAdvice(fs: seq<Finding>) { fs != [] && ErrorCount(fs) == 0 }

  /** On every file that is not rejected silently, a Teaser-valid file is Pro-valid, and the
      two verdicts differ exactly when the file has findings of which none blocks. */
  lemma {:induction false} TeaserAgainstPro(j: Job)
    requires !Silent(j)
    ensures TeaserReply(Serve(j)).valid ==> ProReply(Serve(j)).valid
    ensures TeaserReply(Serve(j)).valid != ProReply(Serve(j)).valid <==> OnlyAdvice(Serve(j).errors)
  {
    hide Serve;
    ResultConsistent(j);
  }

  /** A silently rejected file whose rules report nothing is valid in Teaser mode and invalid
      in Pro mode: the only way the implication from Teaser to Pro fails. */
  lemma {:induction false} TeaserBeatsPro(j: Job)
    ensures TeaserReply(Serve(j)).valid && !ProReply(Serve(j)).valid <==> Silent(j) && Serve(j).errors == []
  {
    hide Serve;
    ResultConsistent(j);
    if Silent(j) {
      SilentIsInvalid(j);
    }
  }

  /** A Teaser reply shows the first finding, with its rule, and says exactly how many it hides. */
  lemma {:induction false} TeaserShows(r: Result)
    ensures TeaserReply(r).valid <==> |r.errors| == 0
    ensures TeaserReply(r).format == r.format && TeaserReply(r).flavor == r.profile && TeaserReply(r).mode == "teaser"
    ensures |TeaserReply(r).errors| == if |r.errors| <= 1 then |r.errors| else 2
    ensures r.errors != [] ==> TeaserReply(r).errors[0] == "[" + r.errors[0].ruleId + "] " + r.errors[0].message
    ensures RecordOf(false, r).hidden == if r.errors == [] then 0 else |r.errors| - 1
    ensures RecordOf(false, r).hidden > 0 ==> TeaserReply(r).errors[1] == HiddenNotice(RecordOf(false, r).hidden)
  {
    hide HiddenNotice;
  }

  /** A Pro reply gives the verdict and every message in order. */
  lemma {:induction false} ProShows(r: Result)
    ensures var p := ProReply(r);
            && p.valid == r.isValid && p.format == r.format && p.flavor == r.profile && p.mode == "pro"
            && |p.errors| == |r.errors| && forall i :: 0 <= i < |r.errors| ==> p.errors[i] == r.errors[i].message
  {
  }

  lemma {:induction false} NoticeTells(a: nat, b: nat)
    requires HiddenNotice(a) == HiddenNotice(b)
    ensures a == b
  {
    hide NOTICE;
    var head, tail := "\U{26A0}\U{FE0F} ", NOTICE;
    assert head + Digits(a) + tail == head + Digits(b) + tail;
    hide HiddenNotice;
    assert |Digits(a)| == |Digits(b)|;
    assert (head + Digits(a) + tail)[|head|..|head| + |Digits(a)|] == Digits(a);
    assert (head + Digits(b) + tail)[|head|..|head| + |Digits(b)|] == Digits(b);
    NatOfDigits(a);
    NatOfDigits(b);
  }

  /** A Teaser reply tells exactly how many findings there are, although it shows only the first:
      replies to results with different numbers of findings differ. */
  lemma {:induction false} TeaserTells(r: Result, r': Result)
    requires TeaserReply(r).errors == TeaserReply(r').errors
    ensures |r.errors| == |r'.errors|
  {
    hide HiddenNotice;
    if |r.errors| >= 2 && |r'.errors| >= 2 {
      assert TeaserErrors(r.errors)[1] == HiddenNotice(|r.errors| - 1);
      assert TeaserErrors(r'.errors)[1] == HiddenNotice(|r'.errors| - 1);
      NoticeTells(|r.errors| - 1, |r'.errors| - 1);
    }
  }

  // ---- The quality gate ----

  datatype Generated = Delivered | Refused(reason: string)

  /** `generate_facturx_pdf` after the file is made: only a valid file leaves. */
  function Gate(r: Result): (g: Generated) {
    if r.isValid then Delivered
    else Refused("Generated Factur-X PDF failed compliance check: "
                 + if r.errors != [] then r.errors[0].message else "Unknown validation error")
  }

  /** The gate delivers exactly the files without a blocking finding, silent rejections aside;
      and it never has to say that the error is unknown. */
  lemma {:induction false} GateDelivers(j: Job)
    requires !Silent(j)
    ensures Gate(Serve(j)).Delivered? <==> ErrorCount(Serve(j).errors) == 0
    ensures Gate(Serve(j)).Refused? ==>
              && Serve(j).errors != []
              && Gate(Serve(j)).reason == "Generated Factur-X PDF failed compliance check: " + Serve(j).errors[0].message
  {
    hide Serve;
    ResultConsistent(j);
  }
}
