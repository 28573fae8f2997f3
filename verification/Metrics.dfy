/** The metrics collector: counters, a gauge, bounded windows and labelled counters. */
module Metrics {
  import opened Wrappers

  /** The collector's four tables. */
  datatype Tables = Tables(
    counters: map<string, int>, gauges: map<string, int>,
    histograms: map<string, seq<real>>, labelled: map<string, map<string, int>>)

  const WINDOW := 1000

  const TOTAL := "requests_total"
  const CONVERT := "requests_convert"
  const VALIDATE := "requests_validate"
  const EXTRACT := "requests_extract"
  const XML := "requests_xml"
  const ERRORS := "errors_total"
  const ACTIVE := "active_requests"
  const DURATION := "request_duration_seconds"
  const OUTCOME := "validation_outcome"
  const PROFILE := "validation_profile"
  const ERROR_TYPE := "validation_error_type"
  const HIDDEN := "teaser_hidden_errors"

  const FRESH := Tables(
    map[TOTAL := 0, CONVERT := 0, VALIDATE := 0, EXTRACT := 0, XML := 0, ERRORS := 0],
    map[ACTIVE := 0],
    map[DURATION := []],
    map[OUTCOME := map[], PROFILE := map[], ERROR_TYPE := map[], HIDDEN := map[]])

  // ---- What each operation does to the tables; an unknown name is ignored ----

  function Inc(m: Tables, name: string, value: int): (r: Tables) {
    if name in m.counters then m.(counters := m.counters[name := m.counters[name] + value]) else m
  }

  function AddGauge(m: Tables, name: string, value: int): (r: Tables) {
    if name in m.gauges then m.(gauges := m.gauges[name := m.gauges[name] + value]) else m
  }

  /** The last `WINDOW` values. */
  function Last(h: seq<real>): (r: seq<real>) { if |h| > WINDOW then h[|h| - WINDOW..] else h }

  function Observe(m: Tables, name: string, value: real): (r: Tables) {
    if name in m.histograms then m.(histograms := m.histograms[name := Last(m.histograms[name] + [value])]) else m
  }

  function Bump(tags: map<string, int>, tag: string, value: int): (r: map<string, int>) {
    tags[tag := (if tag in tags then tags[tag] else 0) + value]
  }

  function IncLabelled(m: Tables, metric: string, tag: string, value: int): (r: Tables) {
    if metric in m.labelled then m.(labelled := m.labelled[metric := Bump(m.labelled[metric], tag, value)]) else m
  }

  // ---- Recording a validation ----

  datatype Validation = Validation(mode: string, valid: bool, profile: Option<string>, rules: seq<string>, hidden: nat)

  const TOP := 5

  function Bucket(hidden: nat): (s: string) { if hidden == 1 then "1" else if hidden <= 5 then "2-5" else "6+" }

  function RuleCalls(rules: seq<string>): (r: seq<(string, string)>)
    ensures |r| == |rules| && forall i :: 0 <= i < |r| ==> r[i] == (ERROR_TYPE, rules[i])
  {
    seq(|rules|, i requires 0 <= i < |rules| => (ERROR_TYPE, rules[i]))
  }

  /** The labelled increments of one recorded validation, in order. */
  function Calls(v: Validation): (r: seq<(string, string)>) {
    [(OUTCOME, v.mode + ":" + (if v.valid then "valid" else "invalid"))]
    + (if v.profile.Some? && v.profile.value != "" then [(PROFILE, v.profile.value)] else [])
    + RuleCalls(if |v.rules| > TOP then v.rules[..TOP] else v.rules)
    + (if v.mode == "teaser" && v.hidden > 0 then [(HIDDEN, Bucket(v.hidden))] else [])
  }

  function Apply(m: Tables, calls: seq<(string, string)>): (r: Tables) {
    if calls == [] then m
    else var (metric, tag) := calls[|calls| - 1]; IncLabelled(Apply(m, calls[..|calls| - 1]), metric, tag, 1)
  }

  lemma {:induction false} ApplyThen(m: Tables, a: seq<(string, string)>, b: seq<(string, string)>)
    ensures Apply(m, a + b) == Apply(Apply(m, a), b)
    decreases |b|
  {
    if b == [] {
      assert a + b == a;
    } else {
      assert (a + b)[..|a + b| - 1] == a + b[..|b| - 1];
      ApplyThen(m, a, b[..|b| - 1]);
    }
  }

  lemma {:induction false} ApplyOne(m: Tables, metric: string, tag: string)
    ensures Apply(m, [(metric, tag)]) == IncLabelled(m, metric, tag, 1)
  {
    assert [(metric, tag)][..0] == [];
  }

  /** The collector itself: each method holds its lock from start to end, and its effect is
      that of the function of the same name. */
  class Collector {
    var counters: map<string, int>
    var gauges: map<string, int>
    var histograms: map<string, seq<real>>
    var labelled: map<string, map<string, int>>

    function View(): (m: Tables) reads this { Tables(counters, gauges, histograms, labelled) }

    constructor ()
      ensures View() == FRESH
      ensures counters.Keys == {"requests_total", "requests_convert", "requests_validate", "requests_extract",
                                "requests_xml", "errors_total"}
      ensures gauges.Keys == {"active_requests"} && histograms.Keys == {"request_duration_seconds"}
      ensures labelled.Keys == {"validation_outcome", "validation_profile", "validation_error_type", "teaser_hidden_errors"}
      ensures (forall k :: k in counters ==> counters[k] == 0) && (forall k :: k in labelled ==> labelled[k] == map[])
    {
      counters := FRESH.counters;
      gauges := FRESH.gauges;
      histograms := FRESH.histograms;
      labelled := FRESH.labelled;
    }

    method AddTo(name: string, value: int)
      modifies this
      ensures View() == Inc(old(View()), name, value)
      ensures name in old(counters) ==> counters == old(counters)[name := old(counters)[name] + value]
      ensures name !in old(counters) ==> counters == old(counters)
      ensures gauges == old(gauges) && histograms == old(histograms) && labelled == old(labelled)
    {
      if name in counters {
        counters := counters[name := counters[name] + value];
      }
    }

    method SetGauge(name: string, value: int)
      modifies this
      ensures View() == if name in old(gauges) then old(View()).(gauges := old(gauges)[name := value]) else old(View())
    {
      if name in gauges {
        gauges := gauges[name := value];
      }
    }

    method IncGauge(name: string, value: int)
      modifies this
      ensures View() == AddGauge(old(View()), name, value)
      ensures name in old(gauges) ==> gauges == old(gauges)[name := old(gauges)[name] + value]
      ensures name !in old(gauges) ==> gauges == old(gauges)
      ensures counters == old(counters) && histograms == old(histograms) && labelled == old(labelled)
    {
      if name in gauges {
        gauges := gauges[name := gauges[name] + value];
      }
    }

    method DecGauge(name: string, value: int)
      modifies this
      ensures View() == AddGauge(old(View()), name, -value)
      ensures name in old(gauges) ==> gauges == old(gauges)[name := old(gauges)[name] - value]
      ensures name !in old(gauges) ==> gauges == old(gauges)
      ensures counters == old(counters) && histograms == old(histograms) && labelled == old(labelled)
    {
      if name in gauges {
        gauges := gauges[name := gauges[name] - value];
      }
    }

    method Record(name: string, value: real)
      modifies this
      ensures View() == Observe(old(View()), name, value)
    {
      if name in histograms {
        histograms := histograms[name := histograms[name] + [value]];
        if |histograms[name]| > WINDOW {
          histograms := histograms[name := histograms[name][|histograms[name]| - WINDOW..]];
        }
      }
    }

    method AddLabel(metric: string, tag: string, value: int)
      modifies this
      ensures View() == IncLabelled(old(View()), metric, tag, value)
      ensures metric !in old(labelled) ==> labelled == old(labelled)
      ensures metric in old(labelled) ==>
                metric in labelled && tag in labelled[metric] && labelled[metric][tag]
                == (if tag in old(labelled)[metric] then old(labelled)[metric][tag] else 0) + value
    {
      if metric in labelled {
        if tag !in labelled[metric] {
          labelled := labelled[metric := labelled[metric][tag := 0]];
        }
        labelled := labelled[metric := labelled[metric][tag := labelled[metric][tag] + value]];
        assert labelled[metric] == Bump(old(labelled)[metric], tag, value);
        assert labelled == old(labelled)[metric := labelled[metric]];
      }
    }

    /** The rules of one validation, five at most. */
    method AddRules(rules: seq<string>)
      modifies this
      ensures View() == Apply(old(View()), RuleCalls(if |rules| > TOP then rules[..TOP] else rules))
    {
      var top := if |rules| > TOP then rules[..TOP] else rules;
      var i := 0;
      while i < |top|
        invariant 0 <= i <= |top|
        invariant View() == Apply(old(View()), RuleCalls(top)[..i])
      {
        AddLabel(ERROR_TYPE, top[i], 1);
        assert RuleCalls(top)[..i + 1][..i] == RuleCalls(top)[..i];
        i := i + 1;
      }
      assert RuleCalls(top)[..i] == RuleCalls(top);
    }

    method RecordValidation(v: Validation)
      modifies this
      ensures View() == Apply(old(View()), Calls(v))
    {
      ghost var m := View();
      var result := if v.valid then "valid" else "invalid";
      ghost var a := [(OUTCOME, v.mode + ":" + result)];
      AddLabel(OUTCOME, v.mode + ":" + result, 1);
      ApplyOne(m, OUTCOME, v.mode + ":" + result);
      ghost var b: seq<(string, string)> := [];
      if v.profile.Some? && v.profile.value != "" {
        b := [(PROFILE, v.profile.value)];
        ApplyOne(View(), PROFILE, v.profile.value);
        AddLabel(PROFILE, v.profile.value, 1);
      }
      ApplyThen(m, a, b);
      ghost var c := RuleCalls(if |v.rules| > TOP then v.rules[..TOP] else v.rules);
      AddRules(v.rules);
      ApplyThen(m, a + b, c);
      ghost var d: seq<(string, string)> := [];
      if v.mode == "teaser" && v.hidden > 0 {
        d := [(HIDDEN, Bucket(v.hidden))];
        ApplyOne(View(), HIDDEN, Bucket(v.hidden));
        AddLabel(HIDDEN, Bucket(v.hidden), 1);
      }
      ApplyThen(m, a + b + c, d);
    }
  }

  // ---- The bounded window ----

  function ObserveAll(m: Tables, name: string, values: seq<real>): (r: Tables) {
    if values == [] then m else Observe(ObserveAll(m, name, values[..|values| - 1]), name, values[|values| - 1])
  }

  /** After any observations, the window holds the last thousand of them in order, and nothing
      else has changed; so the exported count is the number observed, up to a thousand. */
  lemma {:induction false} WindowIsLast(m: Tables, name: string, values: seq<real>)
    requires name in m.histograms && |m.histograms[name]| <= WINDOW
    ensures ObserveAll(m, name, values) == m.(histograms := m.histograms[name := Last(m.histograms[name] + values)])
  {
    hide Last;
    var h := m.histograms[name];
    if values == [] {
      assert h + values == h;
      ShortWindow(h);
      assert m.histograms[name := h] == m.histograms;
    } else {
      var before, v := values[..|values| - 1], values[|values| - 1];
      WindowIsLast(m, name, before);
      assert h + values == h + before + [v];
      SlideWindow(h + before, v);
      var slid := m.histograms[name := Last(h + before)];
      assert slid[name := Last(h + values)] == m.histograms[name := Last(h + values)];
    }
  }

  lemma {:induction false} ShortWindow(h: seq<real>)
    requires |h| <= WINDOW
    ensures Last(h) == h
  {
  }

  lemma {:induction false} SlideWindow(h: seq<real>, v: real)
    ensures Last(Last(h) + [v]) == Last(h + [v])
  {
  }

  /** The exported duration window of a collector that has observed `values`. */
  lemma {:induction false} ExportedWindow(values: seq<real>)
    ensures var m, name := ObserveAll(FRESH, "request_duration_seconds", values), "request_duration_seconds";
            && name in m.histograms
            && m.histograms[name] == (if |values| <= 1000 then values else values[|values| - 1000..])
            && |m.histograms[name]| == if |values| <= 1000 then |values| else 1000
  {
    WindowIsLast(FRESH, DURATION, values);
    assert [] + values == values;
  }
}
