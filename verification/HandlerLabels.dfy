/** The labelled counters, label by label: how many validations of each kind were recorded. */
module HandlerLabels {
  import opened Wrappers
  import opened Metrics
  import opened Handlers
  import Endpoint
  import Service

  // ---- One label ----

  /** The value of a label; one that was never counted is zero. */
  function Label(m: Tables, metric: string, tag: string): (n: int) {
    if metric in m.labelled && tag in m.labelled[metric] then m.labelled[metric][tag] else 0
  }

  /** How often a call is among the calls. */
  function CountCall(calls: seq<(string, string)>, call: (string, string)): (n: nat) {
    if calls == [] then 0 else CountCall(calls[..|calls| - 1], call) + (if calls[|calls| - 1] == call then 1 else 0)
  }

  function MadeCall(call: (string, string)): (f: Handler -> int) {
    (h: Handler) => if h.made <= |Planned(h)| then CountCall(Planned(h)[..h.made], call) else 0
  }

  ghost predicate LabelsOk(s: State) {
    forall metric, tag :: IsMetric(metric) ==> Label(s.tables, metric, tag) == Sum(s.handlers, MadeCall((metric, tag)))
  }

  lemma {:induction false} OneMoreCall(calls: seq<(string, string)>, k: nat, call: (string, string))
    requires k < |calls|
    ensures CountCall(calls[..k + 1], call) == CountCall(calls[..k], call) + (if calls[k] == call then 1 else 0)
  {
    assert calls[..k + 1][..k] == calls[..k];
  }

  /** What a step does to the labels and to the handler that makes it. */
  lemma {:induction false} StepOf(s: State, a: Action)
    requires Inv(s) && !a.Arrive? && Next(s, a).Some?
    ensures var s' := Next(s, a).value;
            && a.i < |s.handlers| && |s'.handlers| == |s.handlers|
            && s'.handlers == s.handlers[a.i := s'.handlers[a.i]]
            && var h, h' := s.handlers[a.i], s'.handlers[a.i];
            if a.Go? && h.pc == Working then
              && h.made < |Planned(h)| && h' == h.(made := h.made + 1)
              && s'.tables == IncLabelled(s.tables, Planned(h)[h.made].0, Planned(h)[h.made].1, 1)
            else
              s'.tables.labelled == s.tables.labelled && h'.made == h.made && (h'.source == h.source || h.made == 0)
  {
    hide Sum, SumLabels, MadeOn, IncLabelled;
    assert HandlerOk(s.handlers[a.i]);
    NothingPlanned(s.handlers[a.i]);
    hide Planned;
  }

  lemma {:induction false} NothingPlanned(h: Handler)
    ensures h.source.None? ==> Planned(h) == []
  {
  }

  lemma {:induction false} BumpLabel(m: Tables, metric: string, tag: string, other: string, name: string)
    requires metric in m.labelled
    ensures Label(IncLabelled(m, metric, tag, 1), other, name)
         == Label(m, other, name) + (if (other, name) == (metric, tag) then 1 else 0)
  {
  }

  lemma {:induction false} SameCalls(h: Handler, h': Handler, call: (string, string))
    requires h'.made == h.made && (h'.source == h.source || h.made == 0)
    ensures MadeCall(call)(h') == MadeCall(call)(h)
  {
    if h.made == 0 {
      assert Planned(h)[..0] == [] && Planned(h')[..0] == [];
    }
  }

  lemma {:induction false} ArriveLabels(s: State, route: Route)
    requires LabelsOk(s)
    ensures LabelsOk(s.(handlers := s.handlers + [Handler(route, Arrived, false, None, 0)]))
  {
    hide Sum;
    var h := Handler(route, Arrived, false, None, 0);
    forall call ensures Sum(s.handlers + [h], MadeCall(call)) == Sum(s.handlers, MadeCall(call)) {
      SumAdd(s.handlers, h, MadeCall(call));
      assert Planned(h)[..0] == [];
    }
  }

  /** The labels move by exactly what the handler's move is worth. */
  lemma {:induction false} PutLabels(s: State, m: Tables, i: nat, h': Handler)
    requires LabelsOk(s) && i < |s.handlers|
    requires forall metric, tag :: IsMetric(metric) ==>
               Label(m, metric, tag) - Label(s.tables, metric, tag)
               == MadeCall((metric, tag))(h') - MadeCall((metric, tag))(s.handlers[i])
    ensures LabelsOk(State(m, s.handlers[i := h']))
  {
    hide Sum, Label, MadeCall, IsMetric;
    forall metric, tag | IsMetric(metric)
      ensures Label(m, metric, tag) == Sum(s.handlers[i := h'], MadeCall((metric, tag))) {
      SumPut(s.handlers, i, h', MadeCall((metric, tag)));
    }
  }

  lemma {:induction false} LabelsStep(s: State, a: Action)
    requires Inv(s) && LabelsOk(s) && Next(s, a).Some?
    ensures LabelsOk(Next(s, a).value)
  {
    hide LabelsOk, Planned, IncLabelled, Sum, Advance, MadeCall;
    if a.Arrive? {
      ArriveLabels(s, a.route);
    } else {
      StepOf(s, a);
      var s' := Next(s, a).value;
      var h, h' := s.handlers[a.i], s'.handlers[a.i];
      hide Inv, Next;
      forall metric, tag | IsMetric(metric)
        ensures Label(s'.tables, metric, tag) - Label(s.tables, metric, tag)
             == MadeCall((metric, tag))(h') - MadeCall((metric, tag))(h) {
        if a.Go? && h.pc == Working {
          InvGives(s, a.i);
          CallStep(s, h, h', metric, tag);
        } else {
          SameCalls(h, h', (metric, tag));
        }
      }
      PutLabels(s, s'.tables, a.i, h');
    }
  }

  lemma {:induction false} CallStep(s: State, h: Handler, h': Handler, metric: string, tag: string)
    requires Shaped(s.tables) && h.made < |Planned(h)| && h' == h.(made := h.made + 1)
    ensures var (other, name) := Planned(h)[h.made];
            Label(IncLabelled(s.tables, other, name, 1), metric, tag) - Label(s.tables, metric, tag)
            == MadeCall((metric, tag))(h') - MadeCall((metric, tag))(h)
  {
    var (other, name) := Planned(h)[h.made];
    PlannedMetric(h, h.made);
    assert Planned(h') == Planned(h);
    hide Planned, IncLabelled;
    BumpLabel(s.tables, other, name, metric, tag);
    OneMoreCall(Planned(h), h.made, (metric, tag));
  }

  lemma {:induction false} InitLabels()
    ensures LabelsOk(INIT)
  {
    NamesDiffer();
  }

  lemma {:induction false} RunLabels(actions: seq<Action>)
    ensures Run(actions).Some? ==> LabelsOk(Run(actions).value)
  {
    hide LabelsOk, Inv;
    if actions == [] {
      InitLabels();
    } else {
      var before := actions[..|actions| - 1];
      RunLabels(before);
      RunKeeps(before);
      if Run(actions).Some? {
        LabelsStep(Run(before).value, actions[|actions| - 1]);
      }
    }
  }

  // ---- The calls of one recording ----

  lemma {:induction false} CallsThen(a: seq<(string, string)>, b: seq<(string, string)>, call: (string, string))
    ensures CountCall(a + b, call) == CountCall(a, call) + CountCall(b, call)
    decreases |b|
  {
    if b == [] {
      assert a + b == a;
    } else {
      assert (a + b)[..|a + b| - 1] == a + b[..|b| - 1];
      CallsThen(a, b[..|b| - 1], call);
    }
  }

  /** As many as there are, up to `k`. */
  function UpTo(k: int, n: nat): (r: nat) { if k < 0 then 0 else if k <= n then k else n }

  lemma {:induction false} CallsUpTo(a: seq<(string, string)>, b: seq<(string, string)>, k: nat, call: (string, string))
    requires k <= |a| + |b|
    ensures CountCall((a + b)[..k], call) == CountCall(a[..UpTo(k, |a|)], call) + CountCall(b[..UpTo(k - |a|, |b|)], call)
  {
    assert (a + b)[..k] == a[..UpTo(k, |a|)] + b[..UpTo(k - |a|, |b|)];
    CallsThen(a[..UpTo(k, |a|)], b[..UpTo(k - |a|, |b|)], call);
  }

  /** No call on another metric is that call. */
  lemma {:induction false} OtherMetric(calls: seq<(string, string)>, k: nat, name: string, call: (string, string))
    requires k <= |calls| && (forall i :: 0 <= i < |calls| ==> calls[i].0 == name) && name != call.0
    ensures CountCall(calls[..k], call) == 0
  {
    if k > 0 {
      assert calls[..k][..k - 1] == calls[..k - 1];
      OtherMetric(calls, k - 1, name, call);
    }
  }

  lemma {:induction false} SingleCall(one: (string, string), k: nat, call: (string, string))
    requires k <= 1
    ensures CountCall([one][..k], call) == One(k == 1 && one == call)
  {
    if k == 1 {
      assert [one][..1] == [one] && [one][..0] == [];
    }
  }

  /** How often a rule is among the first `n`. */
  function RuleCount(rules: seq<string>, n: nat, rule: string): (k: nat)
    requires n <= |rules|
  {
    if n == 0 then 0 else RuleCount(rules, n - 1, rule) + (if rules[n - 1] == rule then 1 else 0)
  }

  lemma {:induction false} RulesCounted(rules: seq<string>, all: seq<string>, n: nat, rule: string)
    requires n <= |rules| <= |all| && rules == all[..|rules|]
    ensures CountCall(RuleCalls(rules)[..n], (ERROR_TYPE, rule)) == RuleCount(all, n, rule)
  {
    if n > 0 {
      RulesCounted(rules, all, n - 1, rule);
      var calls := RuleCalls(rules);
      assert calls[..n][..n - 1] == calls[..n - 1];
      assert rules[n - 1] == all[n - 1];
    }
  }

  function Outcomes(v: Validation): (r: seq<(string, string)>) {
    [(OUTCOME, v.mode + ":" + (if v.valid then "valid" else "invalid"))]
  }

  function Profiles(v: Validation): (r: seq<(string, string)>)
    ensures |r| <= 1 && (|r| == 1 <==> v.profile.Some? && v.profile.value != "")
  {
    if v.profile.Some? && v.profile.value != "" then [(PROFILE, v.profile.value)] else []
  }

  function TopRules(v: Validation): (r: seq<string>)
    ensures |r| <= |v.rules| && r == v.rules[..|r|] && |r| == UpTo(5, |v.rules|)
  {
    if |v.rules| > TOP then v.rules[..TOP] else v.rules
  }

  function Hiddens(v: Validation): (r: seq<(string, string)>) {
    if v.mode == "teaser" && v.hidden > 0 then [(HIDDEN, Bucket(v.hidden))] else []
  }

  lemma {:induction false} CallsAre(v: Validation)
    ensures Calls(v) == Outcomes(v) + (Profiles(v) + (RuleCalls(TopRules(v)) + Hiddens(v)))
  {
    hide RuleCalls, Bucket;
  }

  /** A count among the first `k` calls, section by section. */
  lemma {:induction false} Sections(v: Validation, k: nat, call: (string, string))
    requires k <= |Calls(v)|
    ensures var a, b, c, d := Outcomes(v), Profiles(v), RuleCalls(TopRules(v)), Hiddens(v);
            && |Calls(v)| == |a| + |b| + |c| + |d|
            && CountCall(Calls(v)[..k], call)
               == CountCall(a[..UpTo(k, |a|)], call) + CountCall(b[..UpTo(k - |a|, |b|)], call)
                + CountCall(c[..UpTo(k - |a| - |b|, |c|)], call) + CountCall(d[..UpTo(k - |a| - |b| - |c|, |d|)], call)
  {
    hide Calls, Outcomes, Profiles, Hiddens, RuleCalls, TopRules, CountCall;
    var a, b, c, d := Outcomes(v), Profiles(v), RuleCalls(TopRules(v)), Hiddens(v);
    CallsAre(v);
    CallsUpTo(a, b + (c + d), k, call);
    CallsUpTo(b, c + d, UpTo(k - |a|, |b + (c + d)|), call);
    CallsUpTo(c, d, UpTo(UpTo(k - |a|, |b + (c + d)|) - |b|, |c + d|), call);
  }

  /** What a recording of which `k` calls are made has put on each label. */
  lemma {:induction false} RecordCounts(v: Validation, k: nat, tag: string)
    requires k <= |Calls(v)|
    ensures CountCall(Calls(v)[..k], (OUTCOME, tag)) == One(k >= 1 && Outcomes(v)[0].1 == tag)
    ensures CountCall(Calls(v)[..k], (PROFILE, tag)) == One(k >= 2 && |Profiles(v)| == 1 && v.profile == Some(tag))
    ensures CountCall(Calls(v)[..k], (ERROR_TYPE, tag))
         == RuleCount(v.rules, UpTo(k - 1 - |Profiles(v)|, UpTo(5, |v.rules|)), tag)
    ensures CountCall(Calls(v)[..k], (HIDDEN, tag))
         == One(k == |Calls(v)| && v.mode == "teaser" && v.hidden > 0 && Bucket(v.hidden) == tag)
  {
    var a, b, c, d := Outcomes(v), Profiles(v), RuleCalls(TopRules(v)), Hiddens(v);
    NamesDiffer();
    var n := UpTo(k - |a| - |b|, |c|);
    RulesCounted(TopRules(v), v.rules, n, tag);
    forall metric | IsMetric(metric) && metric != OUTCOME ensures CountCall(a[..UpTo(k, |a|)], (metric, tag)) == 0 {
      OtherMetric(a, UpTo(k, |a|), OUTCOME, (metric, tag));
    }
    forall metric | IsMetric(metric) && metric != PROFILE ensures CountCall(b[..UpTo(k - |a|, |b|)], (metric, tag)) == 0 {
      OtherMetric(b, UpTo(k - |a|, |b|), PROFILE, (metric, tag));
    }
    forall metric | IsMetric(metric) && metric != ERROR_TYPE ensures CountCall(c[..n], (metric, tag)) == 0 {
      OtherMetric(c, n, ERROR_TYPE, (metric, tag));
    }
    forall metric | IsMetric(metric) && metric != HIDDEN
      ensures CountCall(d[..UpTo(k - |a| - |b| - |c|, |d|)], (metric, tag)) == 0 {
      OtherMetric(d, UpTo(k - |a| - |b| - |c|, |d|), HIDDEN, (metric, tag));
    }
    SingleCall(a[0], UpTo(k, 1), (OUTCOME, tag));
    if |b| == 1 {
      SingleCall(b[0], UpTo(k - |a|, 1), (PROFILE, tag));
    }
    if |d| == 1 {
      SingleCall(d[0], UpTo(k - |a| - |b| - |c|, 1), (HIDDEN, tag));
    }
    Sections(v, k, (OUTCOME, tag));
    Sections(v, k, (PROFILE, tag));
    Sections(v, k, (ERROR_TYPE, tag));
    Sections(v, k, (HIDDEN, tag));
    hide Calls, CountCall, RuleCount, RuleCalls, Bucket;
  }

  // ---- Handlers by what they recorded ----

  predicate Begun(h: Handler, k: nat) { h.source.Some? && h.made >= k }

  /** A Pro or a Teaser validation whose recording has begun, by its verdict: in Pro mode that of
      the service, in Teaser mode whether there are findings at all. */
  function Verdicts(pro: bool, valid: bool): (f: Handler -> int) {
    (h: Handler) => One(Begun(h, 1) && h.source.value.0 == pro
                        && (if pro then h.source.value.1.isValid else h.source.value.1.errors == []) == valid)
  }

  function OfProfile(profile: string): (f: Handler -> int) {
    (h: Handler) => One(Begun(h, 2) && h.source.value.1.profile == Some(profile))
  }

  /** A Teaser validation, recorded to the end, that hides so many findings. */
  function Hides(least: nat, most: nat): (f: Handler -> int) {
    (h: Handler) => One(h.source.Some? && !h.source.value.0 && Complete(h)
                        && least <= |h.source.value.1.errors| - 1 <= most)
  }

  function HidesMore(h: Handler): (n: int) {
    One(h.source.Some? && !h.source.value.0 && Complete(h) && |h.source.value.1.errors| - 1 >= 6)
  }

  /** How often a rule is among the first five that the handler has recorded so far. */
  function Reported(rule: string): (f: Handler -> int) {
    (h: Handler) =>
      if h.source.None? then 0
      else
        var r := h.source.value.1;
        var rules := Endpoint.Rules(r.errors);
        RuleCount(rules, UpTo(h.made - (if r.profile.GetOr("") != "" then 2 else 1), UpTo(5, |rules|)), rule)
  }

  lemma {:induction false} OutcomeNames(pro: bool, r: Service.Result)
    ensures var tag := Outcomes(Endpoint.RecordOf(pro, r))[0].1;
            && (tag == "pro:valid" <==> pro && r.isValid) && (tag == "pro:invalid" <==> pro && !r.isValid)
            && (tag == "teaser:valid" <==> !pro && r.errors == [])
            && (tag == "teaser:invalid" <==> !pro && r.errors != [])
  {
    assert "pro" + ":" + "valid" == "pro:valid" && "pro" + ":" + "invalid" == "pro:invalid";
    assert "teaser" + ":" + "valid" == "teaser:valid" && "teaser" + ":" + "invalid" == "teaser:invalid";
    assert |"pro:valid"| == 9 && |"pro:invalid"| == 11 && |"teaser:valid"| == 12 && |"teaser:invalid"| == 14;
  }

  lemma {:induction false} BucketNames(hidden: nat)
    requires hidden > 0
    ensures (Bucket(hidden) == "1" <==> hidden == 1) && (Bucket(hidden) == "2-5" <==> 2 <= hidden <= 5)
    ensures Bucket(hidden) == "6+" <==> hidden >= 6
  {
    assert |"1"| == 1 && |"2-5"| == 3 && |"6+"| == 2;
  }

  lemma {:induction false} HandlerOutcome(h: Handler)
    requires HandlerOk(h)
    ensures MadeCall(("validation_outcome", "pro:valid"))(h) == Verdicts(true, true)(h)
    ensures MadeCall(("validation_outcome", "pro:invalid"))(h) == Verdicts(true, false)(h)
    ensures MadeCall(("validation_outcome", "teaser:valid"))(h) == Verdicts(false, true)(h)
    ensures MadeCall(("validation_outcome", "teaser:invalid"))(h) == Verdicts(false, false)(h)
  {
    NothingPlanned(h);
    if h.source.Some? {
      var v := Endpoint.RecordOf(h.source.value.0, h.source.value.1);
      assert Planned(h) == Calls(v);
      OutcomeNames(h.source.value.0, h.source.value.1);
      hide Planned, Calls, Outcomes, Endpoint.RecordOf, CountCall, RuleCount;
      RecordCounts(v, h.made, "pro:valid");
      RecordCounts(v, h.made, "pro:invalid");
      RecordCounts(v, h.made, "teaser:valid");
      RecordCounts(v, h.made, "teaser:invalid");
    }
  }

  lemma {:induction false} RecordFields(pro: bool, r: Service.Result)
    ensures var v := Endpoint.RecordOf(pro, r);
            && v.profile == r.profile && v.rules == Endpoint.Rules(r.errors)
            && (v.mode == "teaser" <==> !pro) && (!pro && |r.errors| >= 2 ==> v.hidden == |r.errors| - 1)
            && (v.hidden > 0 ==> !pro && |r.errors| >= 2)
  {
    assert "pro"[0] != "teaser"[0];
  }

  lemma {:induction false} HandlerProfile(h: Handler, tag: string)
    requires HandlerOk(h) && tag != ""
    ensures MadeCall(("validation_profile", tag))(h) == OfProfile(tag)(h)
  {
    NothingPlanned(h);
    if h.source.Some? {
      var v := Endpoint.RecordOf(h.source.value.0, h.source.value.1);
      assert Planned(h) == Calls(v);
      RecordFields(h.source.value.0, h.source.value.1);
      hide Planned, Calls, Outcomes, Endpoint.RecordOf, Endpoint.Rules, CountCall, RuleCount, HandlerOk;
      RecordCounts(v, h.made, tag);
    }
  }

  lemma {:induction false} PlannedAre(h: Handler)
    requires HandlerOk(h) && h.source.Some?
    ensures var v := Endpoint.RecordOf(h.source.value.0, h.source.value.1);
            && h.made <= |Planned(h)| && Planned(h) == Calls(v) && v.rules == Endpoint.Rules(h.source.value.1.errors)
            && |Profiles(v)| == (if h.source.value.1.profile.GetOr("") != "" then 1 else 0)
  {
    hide Calls, Endpoint.Rules;
    RecordFields(h.source.value.0, h.source.value.1);
  }

  lemma {:induction false} HandlerRules(h: Handler, rule: string)
    requires HandlerOk(h)
    ensures MadeCall(("validation_error_type", rule))(h) == Reported(rule)(h)
  {
    if h.source.None? {
      NothingPlanned(h);
      hide Planned, Calls;
    } else {
      hide *;
      PlannedAre(h);
      var v := Endpoint.RecordOf(h.source.value.0, h.source.value.1);
      RuleCalled(v, h.made, rule);
      RulesOf(h, v, rule);
    }
  }

  lemma {:induction false} RuleCalled(v: Validation, k: nat, rule: string)
    requires k <= |Calls(v)|
    ensures CountCall(Calls(v)[..k], ("validation_error_type", rule))
         == RuleCount(v.rules, UpTo(k - 1 - |Profiles(v)|, UpTo(5, |v.rules|)), rule)
  {
    hide Calls, CountCall, RuleCount, Profiles, UpTo;
    RecordCounts(v, k, rule);
  }

  lemma {:induction false} RulesOf(h: Handler, v: Validation, rule: string)
    requires h.source.Some? && h.made <= |Planned(h)| && Planned(h) == Calls(v)
    requires v.rules == Endpoint.Rules(h.source.value.1.errors)
    requires |Profiles(v)| == (if h.source.value.1.profile.GetOr("") != "" then 1 else 0)
    requires CountCall(Calls(v)[..h.made], ("validation_error_type", rule))
          == RuleCount(v.rules, UpTo(h.made - 1 - |Profiles(v)|, UpTo(5, |v.rules|)), rule)
    ensures MadeCall(("validation_error_type", rule))(h) == Reported(rule)(h)
  {
    hide Planned, Calls, CountCall, RuleCount, Profiles, Endpoint.Rules;
  }

  lemma {:induction false} HandlerHides(h: Handler)
    requires HandlerOk(h)
    ensures MadeCall(("teaser_hidden_errors", "1"))(h) == Hides(1, 1)(h)
    ensures MadeCall(("teaser_hidden_errors", "2-5"))(h) == Hides(2, 5)(h)
    ensures MadeCall(("teaser_hidden_errors", "6+"))(h) == HidesMore(h)
  {
    NothingPlanned(h);
    if h.source.Some? {
      var v := Endpoint.RecordOf(h.source.value.0, h.source.value.1);
      assert Planned(h) == Calls(v);
      RecordFields(h.source.value.0, h.source.value.1);
      if v.hidden > 0 {
        BucketNames(v.hidden);
      }
      hide Planned, Calls, Outcomes, Endpoint.RecordOf, Endpoint.Rules, CountCall, RuleCount, Bucket;
      RecordCounts(v, h.made, "1");
      RecordCounts(v, h.made, "2-5");
      RecordCounts(v, h.made, "6+");
    }
  }

  // ---- The laws ----

  lemma {:induction false} SumSame(hs: seq<Handler>, f: Handler -> int, g: Handler -> int)
    requires forall i :: 0 <= i < |hs| ==> f(hs[i]) == g(hs[i])
    ensures Sum(hs, f) == Sum(hs, g)
  {
    if hs != [] {
      SumSame(hs[..|hs| - 1], f, g);
    }
  }

  ghost predicate AllOk(s: State) {
    LabelsOk(s) && forall i :: 0 <= i < |s.handlers| ==> HandlerOk(s.handlers[i])
  }

  lemma {:induction false} RunOk(actions: seq<Action>)
    requires Run(actions).Some?
    ensures AllOk(Run(actions).value)
  {
    RunKeeps(actions);
    RunLabels(actions);
    hide Run, LabelsOk, HandlerOk, Sum, SumLabels, MadeOn;
  }

  /** A label whose calls are counted by `f` handler by handler. */
  lemma {:induction false} LabelIs(s: State, metric: string, tag: string, f: Handler -> int)
    requires AllOk(s) && IsMetric(metric)
    requires forall h: Handler :: HandlerOk(h) ==> MadeCall((metric, tag))(h) == f(h)
    ensures Label(s.tables, metric, tag) == Sum(s.handlers, f)
  {
    hide HandlerOk, MadeCall, Sum, Label, IsMetric;
    SumSame(s.handlers, MadeCall((metric, tag)), f);
  }

  /** Over every interleaving, cut-short recordings included, each outcome label is the number of
      validations of that mode and verdict whose recording has begun. */
  lemma {:induction false} OutcomeLabels(actions: seq<Action>)
    requires Run(actions).Some?
    ensures var s := Run(actions).value;
            && Label(s.tables, "validation_outcome", "pro:valid") == Sum(s.handlers, Verdicts(true, true))
            && Label(s.tables, "validation_outcome", "pro:invalid") == Sum(s.handlers, Verdicts(true, false))
            && Label(s.tables, "validation_outcome", "teaser:valid") == Sum(s.handlers, Verdicts(false, true))
            && Label(s.tables, "validation_outcome", "teaser:invalid") == Sum(s.handlers, Verdicts(false, false))
  {
    RunOk(actions);
    var s := Run(actions).value;
    assert IsMetric("validation_outcome");
    hide Run, AllOk, HandlerOk, MadeCall, Verdicts, Sum, Label, IsMetric;
    forall h | HandlerOk(h)
      ensures MadeCall(("validation_outcome", "pro:valid"))(h) == Verdicts(true, true)(h)
      ensures MadeCall(("validation_outcome", "pro:invalid"))(h) == Verdicts(true, false)(h)
      ensures MadeCall(("validation_outcome", "teaser:valid"))(h) == Verdicts(false, true)(h)
      ensures MadeCall(("validation_outcome", "teaser:invalid"))(h) == Verdicts(false, false)(h) {
      HandlerOutcome(h);
    }
    LabelIs(s, "validation_outcome", "pro:valid", Verdicts(true, true));
    LabelIs(s, "validation_outcome", "pro:invalid", Verdicts(true, false));
    LabelIs(s, "validation_outcome", "teaser:valid", Verdicts(false, true));
    LabelIs(s, "validation_outcome", "teaser:invalid", Verdicts(false, false));
  }

  /** Each profile label is the number of validations with that profile recorded so far, each rule
      label the number of times the rule is among the first five of a recording, and each bucket
      the number of complete Teaser recordings that hide so many findings. */
  lemma {:induction false} OtherLabels(actions: seq<Action>, profile: string, rule: string)
    requires Run(actions).Some? && profile != ""
    ensures var s := Run(actions).value;
            && Label(s.tables, "validation_profile", profile) == Sum(s.handlers, OfProfile(profile))
            && Label(s.tables, "validation_error_type", rule) == Sum(s.handlers, Reported(rule))
            && Label(s.tables, "teaser_hidden_errors", "1") == Sum(s.handlers, Hides(1, 1))
            && Label(s.tables, "teaser_hidden_errors", "2-5") == Sum(s.handlers, Hides(2, 5))
            && Label(s.tables, "teaser_hidden_errors", "6+") == Sum(s.handlers, HidesMore)
  {
    RunOk(actions);
    var s := Run(actions).value;
    assert IsMetric("validation_profile") && IsMetric("validation_error_type") && IsMetric("teaser_hidden_errors");
    hide Run, AllOk, HandlerOk, MadeCall, OfProfile, Reported, Hides, HidesMore, Sum, Label, IsMetric;
    forall h | HandlerOk(h)
      ensures MadeCall(("validation_profile", profile))(h) == OfProfile(profile)(h)
      ensures MadeCall(("validation_error_type", rule))(h) == Reported(rule)(h)
      ensures MadeCall(("teaser_hidden_errors", "1"))(h) == Hides(1, 1)(h)
      ensures MadeCall(("teaser_hidden_errors", "2-5"))(h) == Hides(2, 5)(h)
      ensures MadeCall(("teaser_hidden_errors", "6+"))(h) == HidesMore(h) {
      HandlerProfile(h, profile);
      HandlerRules(h, rule);
      HandlerHides(h);
    }
    LabelIs(s, "validation_profile", profile, OfProfile(profile));
    LabelIs(s, "validation_error_type", rule, Reported(rule));
    LabelIs(s, "teaser_hidden_errors", "1", Hides(1, 1));
    LabelIs(s, "teaser_hidden_errors", "2-5", Hides(2, 5));
    LabelIs(s, "teaser_hidden_errors", "6+", HidesMore);
  }
}
