/** The four request handlers, interleaved step by step over one metrics collector. Each call
    on the collector holds its lock, so it is one step; everything else may be cut anywhere. */
module Handlers {
  import opened Wrappers
  import opened Metrics
  import Endpoint
  import Service

  datatype Route = Convert | Xml | Validate | Extract

  /** Where a handler is: before its first increment, between the two request counters, before
      the gauge, in the body, in the except block, in the finally block, or gone. */
  datatype Pc = Arrived | Counted | Named | Working | Failed | Leaving | Left | Finished

  /** `source` is the validation being recorded, once there is one, and `made` the number of
      its labelled increments made so far. */
  datatype Handler = Handler(route: Route, pc: Pc, errored: bool, source: Option<(bool, Service.Result)>, made: nat)

  datatype State = State(tables: Tables, handlers: seq<Handler>)

  datatype Action =
    | Arrive(route: Route)
    | Go(i: nat)                                          // the next call on the collector
    | Report(i: nat, pro: bool, result: Service.Result)   // the service has answered
    | Succeed(i: nat)
    | Raise(i: nat)                                       // an exception that the handler catches
    | Escape(i: nat)                                      // one that only the finally block sees
    | Measure(i: nat, elapsed: real)

  const INIT := State(FRESH, [])

  function CounterOf(r: Route): (s: string) {
    match r case Convert => CONVERT case Xml => XML case Validate => VALIDATE case Extract => EXTRACT
  }

  /** The increments the handler has to make for its validation. */
  function Planned(h: Handler): (r: seq<(string, string)>) {
    if h.source.None? then [] else Calls(Endpoint.RecordOf(h.source.value.0, h.source.value.1))
  }

  /** Leaving the body: only three of the handlers hold the gauge. */
  function Leave(h: Handler): (r: Handler) { h.(pc := if h.route == Xml then Left else Leaving) }

  function Put(s: State, m: Tables, i: nat, h: Handler): (r: State)
    requires i < |s.handlers|
  {
    State(m, s.handlers[i := h])
  }

  function Advance(s: State, i: nat): (r: Option<State>)
    requires i < |s.handlers|
  {
    var m, h := s.tables, s.handlers[i];
    match h.pc
    case Arrived => Some(Put(s, Inc(m, TOTAL, 1), i, h.(pc := Counted)))
    case Counted => Some(Put(s, Inc(m, CounterOf(h.route), 1), i, h.(pc := if h.route == Xml then Working else Named)))
    case Named => Some(Put(s, AddGauge(m, ACTIVE, 1), i, h.(pc := Working)))
    case Working =>
      if h.made < |Planned(h)| then
        var (metric, tag) := Planned(h)[h.made];
        Some(Put(s, IncLabelled(m, metric, tag, 1), i, h.(made := h.made + 1)))
      else None
    case Failed => Some(Put(s, Inc(m, ERRORS, 1), i, Leave(h.(errored := true))))
    case Leaving => Some(Put(s, AddGauge(m, ACTIVE, -1), i, h.(pc := Left)))
    case Left => None
    case Finished => None
  }

  function Next(s: State, a: Action): (r: Option<State>) {
    if a.Arrive? then Some(s.(handlers := s.handlers + [Handler(a.route, Arrived, false, None, 0)]))
    else if a.i >= |s.handlers| then None
    else
      var m, h := s.tables, s.handlers[a.i];
      match a
      case Go(i) => Advance(s, i)
      case Report(i, pro, result) =>
        if h.pc == Working && h.route == Validate && h.source.None?
        then Some(Put(s, m, i, h.(source := Some((pro, result))))) else None
      case Succeed(i) => if h.pc == Working && h.made == |Planned(h)| then Some(Put(s, m, i, Leave(h))) else None
      case Raise(i) => if h.pc == Working then Some(Put(s, m, i, h.(pc := Failed))) else None
      case Escape(i) => if h.pc == Working then Some(Put(s, m, i, Leave(h))) else None
      case Measure(i, elapsed) =>
        if h.pc == Left then Some(Put(s, Observe(m, DURATION, elapsed), i, h.(pc := Finished))) else None
  }

  function Run(actions: seq<Action>): (r: Option<State>) {
    if actions == [] then Some(INIT) else
      match Run(actions[..|actions| - 1])
      case None => None
      case Some(s) => Next(s, actions[|actions| - 1])
  }

  // ---- Counting handlers ----

  function Sum(hs: seq<Handler>, f: Handler -> int): (n: int) {
    if hs == [] then 0 else Sum(hs[..|hs| - 1], f) + f(hs[|hs| - 1])
  }

  lemma {:induction false} SumPut(hs: seq<Handler>, i: nat, h: Handler, f: Handler -> int)
    requires i < |hs|
    ensures Sum(hs[i := h], f) == Sum(hs, f) - f(hs[i]) + f(h)
  {
    var n := |hs| - 1;
    if i == n {
      assert hs[i := h][..n] == hs[..n];
    } else {
      assert hs[i := h][..n] == hs[..n][i := h];
      SumPut(hs[..n], i, h, f);
    }
  }

  lemma {:induction false} SumAdd(hs: seq<Handler>, h: Handler, f: Handler -> int)
    ensures Sum(hs + [h], f) == Sum(hs, f) + f(h)
  {
    assert (hs + [h])[..|hs|] == hs;
  }

  function One(b: bool): (n: int) { if b then 1 else 0 }

  function Started(h: Handler): (n: int) { One(h.pc != Arrived) }
  function NamedAs(r: Route): (f: Handler -> int) { (h: Handler) => One(h.route == r && h.pc != Arrived && h.pc != Counted) }
  function Between(h: Handler): (n: int) { One(h.pc == Counted) }
  function Active(h: Handler): (n: int) { One(h.route != Xml && (h.pc == Working || h.pc == Failed || h.pc == Leaving)) }
  function Errored(h: Handler): (n: int) { One(h.errored) }
  function Measured(h: Handler): (n: int) { One(h.pc == Finished) }

  /** How many of the calls are on a given metric. */
  function CountOn(calls: seq<(string, string)>, metric: string): (n: nat) {
    if calls == [] then 0
    else CountOn(calls[..|calls| - 1], metric) + (if calls[|calls| - 1].0 == metric then 1 else 0)
  }

  function MadeOn(metric: string): (f: Handler -> int) {
    (h: Handler) => if h.made <= |Planned(h)| then CountOn(Planned(h)[..h.made], metric) else 0
  }

  // ---- Sums of labels ----

  ghost function SumLabels(m: map<string, int>): (n: int)
    decreases |m|
  {
    if m == map[] then 0 else
      var k :| k in m;
      m[k] + SumLabels(m - {k})
  }

  lemma {:induction false} SumWithout(m: map<string, int>, k: string)
    requires k in m
    ensures SumLabels(m) == m[k] + SumLabels(m - {k})
    decreases |m|
  {
    var j :| j in m && SumLabels(m) == m[j] + SumLabels(m - {j});
    if j != k {
      SumWithout(m - {j}, k);
      SumWithout(m - {k}, j);
      assert m - {j} - {k} == m - {k} - {j};
    }
  }

  lemma {:induction false} SumBump(m: map<string, int>, tag: string, value: int)
    ensures SumLabels(Bump(m, tag, value)) == SumLabels(m) + value
  {
    var m' := Bump(m, tag, value);
    SumWithout(m', tag);
    if tag in m {
      SumWithout(m, tag);
      assert m' - {tag} == m - {tag};
    } else {
      assert m' - {tag} == m;
    }
  }

  // ---- The invariant ----

  predicate IsMetric(metric: string) { metric == OUTCOME || metric == PROFILE || metric == ERROR_TYPE || metric == HIDDEN }

  ghost predicate Shaped(m: Tables) {
    && TOTAL in m.counters && ERRORS in m.counters && (forall r: Route :: CounterOf(r) in m.counters)
    && ACTIVE in m.gauges && DURATION in m.histograms && (forall metric :: IsMetric(metric) ==> metric in m.labelled)
  }

  predicate HandlerOk(h: Handler) {
    && h.made <= |Planned(h)|
    && (h.errored ==> h.pc == Leaving || h.pc == Left || h.pc == Finished)
    && (h.pc == Named || h.pc == Leaving ==> h.route != Xml)
    && (h.source.Some? ==> h.route == Validate && h.pc != Arrived && h.pc != Counted && h.pc != Named)
  }

  function Capped(n: int): (r: int) { if n <= WINDOW then n else WINDOW }

  /** Every table entry is the number of handlers that have passed the steps it counts. */
  ghost predicate Inv(s: State) {
    var m, hs := s.tables, s.handlers;
    && Shaped(m)
    && (forall i :: 0 <= i < |hs| ==> HandlerOk(hs[i]))
    && m.counters[TOTAL] == Sum(hs, Started)
    && (forall r: Route :: m.counters[CounterOf(r)] == Sum(hs, NamedAs(r)))
    && m.counters[ERRORS] == Sum(hs, Errored)
    && m.gauges[ACTIVE] == Sum(hs, Active)
    && |m.histograms[DURATION]| == Capped(Sum(hs, Measured))
    && (forall metric :: IsMetric(metric) ==> SumLabels(m.labelled[metric]) == Sum(hs, MadeOn(metric)))
  }

  /** The tables move from `m` to `m'` by exactly what the handler's move from `h` to `h'` is
      worth in each count. */
  ghost predicate Balanced(m: Tables, h: Handler, m': Tables, h': Handler)
    requires Shaped(m)
  {
    && Shaped(m')
    && m'.counters[TOTAL] - m.counters[TOTAL] == Started(h') - Started(h)
    && (forall r: Route :: m'.counters[CounterOf(r)] - m.counters[CounterOf(r)] == NamedAs(r)(h') - NamedAs(r)(h))
    && m'.counters[ERRORS] - m.counters[ERRORS] == Errored(h') - Errored(h)
    && m'.gauges[ACTIVE] - m.gauges[ACTIVE] == Active(h') - Active(h)
    && Measured(h') >= Measured(h)
    && |m'.histograms[DURATION]| == (if Measured(h') == Measured(h) then |m.histograms[DURATION]|
                                     else Capped(|m.histograms[DURATION]| + 1))
    && (forall metric :: IsMetric(metric) ==>
          SumLabels(m'.labelled[metric]) - SumLabels(m.labelled[metric]) == MadeOn(metric)(h') - MadeOn(metric)(h))
  }

  lemma {:induction false} BalancedKeeps(s: State, m: Tables, i: nat, h: Handler)
    requires Inv(s) && i < |s.handlers| && HandlerOk(h) && Balanced(s.tables, s.handlers[i], m, h)
    ensures Inv(Put(s, m, i, h))
  {
    hide SumLabels, MadeOn, HandlerOk, Sum;
    SumPut(s.handlers, i, h, Started);
    SumPut(s.handlers, i, h, Errored);
    SumPut(s.handlers, i, h, Active);
    SumPut(s.handlers, i, h, Measured);
    forall r: Route ensures Sum(s.handlers[i := h], NamedAs(r))
                         == Sum(s.handlers, NamedAs(r)) - NamedAs(r)(s.handlers[i]) + NamedAs(r)(h) {
      SumPut(s.handlers, i, h, NamedAs(r));
    }
    forall metric | IsMetric(metric) ensures Sum(s.handlers[i := h], MadeOn(metric))
                         == Sum(s.handlers, MadeOn(metric)) - MadeOn(metric)(s.handlers[i]) + MadeOn(metric)(h) {
      SumPut(s.handlers, i, h, MadeOn(metric));
    }
  }

  lemma {:induction false} NamesDiffer()
    ensures TOTAL != ERRORS && (forall r: Route :: CounterOf(r) != TOTAL && CounterOf(r) != ERRORS)
    ensures forall r: Route, q: Route :: CounterOf(r) == CounterOf(q) ==> r == q
    ensures OUTCOME != PROFILE && OUTCOME != ERROR_TYPE && OUTCOME != HIDDEN
    ensures PROFILE != ERROR_TYPE && PROFILE != HIDDEN && ERROR_TYPE != HIDDEN
  {
    assert TOTAL[0] != ERRORS[0];
    assert CONVERT[9] == 'c' && VALIDATE[9] == 'v' && EXTRACT[9] == 'e' && XML[9] == 'x' && TOTAL[9] == 't';
    assert ERRORS[0] == 'e' && CONVERT[0] == VALIDATE[0] == EXTRACT[0] == XML[0] == 'r';
    assert OUTCOME[11] == 'o' && PROFILE[11] == 'p' && ERROR_TYPE[11] == 'e' && HIDDEN[0] == 't' != 'v';
    assert OUTCOME[0] == PROFILE[0] == ERROR_TYPE[0] == 'v';
  }

  // ---- Every step is balanced ----

  /** A move that only changes the position in the code is worth nothing on the labels. */
  lemma {:induction false} SameMade(h: Handler, h': Handler, metric: string)
    requires h'.made == h.made && h'.source == h.source
    ensures MadeOn(metric)(h') == MadeOn(metric)(h)
  {
  }

  lemma {:induction false} CountBalanced(m: Tables, h: Handler, name: string, h': Handler)
    requires Shaped(m) && h'.made == h.made && h'.source == h.source && h'.route == h.route
    requires Active(h') == Active(h) && Measured(h') == Measured(h)
    requires name == TOTAL || name == ERRORS || name == CounterOf(h.route)
    requires Started(h') - Started(h) == One(name == TOTAL)
    requires Errored(h') - Errored(h) == One(name == ERRORS)
    requires NamedAs(h.route)(h') - NamedAs(h.route)(h) == One(name == CounterOf(h.route))
    ensures Balanced(m, h, Inc(m, name, 1), h')
  {
    NamesDiffer();
    forall metric | IsMetric(metric) ensures MadeOn(metric)(h') == MadeOn(metric)(h) {
      SameMade(h, h', metric);
    }
    hide MadeOn, SumLabels, Planned;
  }

  /** A move without a counter: the gauge, or nothing at all. */
  lemma {:induction false} GaugeBalanced(m: Tables, h: Handler, d: int, h': Handler)
    requires Shaped(m) && h'.route == h.route && h'.errored == h.errored
    requires h.pc != Arrived && h.pc != Counted && h'.pc != Arrived && h'.pc != Counted
    requires h.pc != Finished && h'.pc != Finished
    requires Active(h') - Active(h) == d
    requires forall metric :: IsMetric(metric) ==> MadeOn(metric)(h') == MadeOn(metric)(h)
    ensures Balanced(m, h, AddGauge(m, ACTIVE, d), h')
    ensures d == 0 ==> Balanced(m, h, m, h')
  {
    hide MadeOn, SumLabels, Planned;
  }

  lemma {:induction false} MeasureBalanced(m: Tables, h: Handler, elapsed: real, h': Handler)
    requires Shaped(m) && h.pc == Left && h' == h.(pc := Finished) && |m.histograms[DURATION]| <= WINDOW
    ensures Balanced(m, h, Observe(m, DURATION, elapsed), h')
  {
    forall metric | IsMetric(metric) ensures MadeOn(metric)(h') == MadeOn(metric)(h) {
      SameMade(h, h', metric);
    }
    hide MadeOn, SumLabels, Planned;
  }

  lemma {:induction false} PlannedMetric(h: Handler, k: nat)
    requires k < |Planned(h)|
    ensures IsMetric(Planned(h)[k].0)
  {
  }

  lemma {:induction false} CountOneMore(calls: seq<(string, string)>, k: nat, metric: string)
    requires k < |calls|
    ensures CountOn(calls[..k + 1], metric) == CountOn(calls[..k], metric) + (if calls[k].0 == metric then 1 else 0)
  {
    assert calls[..k + 1][..k] == calls[..k];
  }

  lemma {:induction false} OneMoreMade(h: Handler, h': Handler, metric: string)
    requires h.made < |Planned(h)| && h' == h.(made := h.made + 1)
    ensures MadeOn(metric)(h') == MadeOn(metric)(h) + (if Planned(h)[h.made].0 == metric then 1 else 0)
  {
    assert Planned(h') == Planned(h);
    hide Planned;
    CountOneMore(Planned(h), h.made, metric);
  }

  lemma {:induction false} LabelBalanced(m: Tables, h: Handler, h': Handler)
    requires Shaped(m) && h.pc == Working && h.made < |Planned(h)| && h' == h.(made := h.made + 1)
    ensures var (metric, tag) := Planned(h)[h.made]; Balanced(m, h, IncLabelled(m, metric, tag, 1), h')
  {
    var (metric, tag) := Planned(h)[h.made];
    PlannedMetric(h, h.made);
    hide MadeOn, SumLabels, Planned, Bump;
    SumBump(m.labelled[metric], tag, 1);
    forall other | IsMetric(other)
      ensures MadeOn(other)(h') == MadeOn(other)(h) + (if other == metric then 1 else 0) {
      OneMoreMade(h, h', other);
    }
  }

  lemma {:induction false} InvGives(s: State, i: nat)
    requires Inv(s) && i < |s.handlers|
    ensures Shaped(s.tables) && HandlerOk(s.handlers[i]) && |s.tables.histograms[DURATION]| <= WINDOW
  {
  }

  lemma {:induction false} CountKeeps(s: State, i: nat)
    requires Inv(s) && i < |s.handlers|
    requires s.handlers[i].pc == Arrived || s.handlers[i].pc == Counted || s.handlers[i].pc == Failed
    ensures Inv(Advance(s, i).value)
  {
    var m, h := s.tables, s.handlers[i];
    var s' := Advance(s, i).value;
    var h' := s'.handlers[i];
    var name := if h.pc == Arrived then TOTAL else if h.pc == Counted then CounterOf(h.route) else ERRORS;
    assert s' == Put(s, Inc(m, name, 1), i, h');
    InvGives(s, i);
    NamesDiffer();
    hide Inv, Balanced, Inc, Shaped, CounterOf, Planned;
    assert HandlerOk(h');
    CountBalanced(m, h, name, h');
    BalancedKeeps(s, Inc(m, name, 1), i, h');
  }

  lemma {:induction false} GaugeKeeps(s: State, i: nat)
    requires Inv(s) && i < |s.handlers| && (s.handlers[i].pc == Named || s.handlers[i].pc == Leaving)
    ensures Inv(Advance(s, i).value)
  {
    var m, h := s.tables, s.handlers[i];
    var s' := Advance(s, i).value;
    var h', d := s'.handlers[i], if h.pc == Named then 1 else -1;
    assert s' == Put(s, AddGauge(m, ACTIVE, d), i, h');
    InvGives(s, i);
    forall metric | IsMetric(metric) ensures MadeOn(metric)(h') == MadeOn(metric)(h) {
      SameMade(h, h', metric);
    }
    hide Inv, Balanced, AddGauge, Shaped, MadeOn, Planned;
    assert HandlerOk(h');
    GaugeBalanced(m, h, d, h');
    BalancedKeeps(s, AddGauge(m, ACTIVE, d), i, h');
  }

  lemma {:induction false} LabelKeeps(s: State, i: nat)
    requires Inv(s) && i < |s.handlers| && s.handlers[i].pc == Working && Advance(s, i).Some?
    ensures Inv(Advance(s, i).value)
  {
    var m, h := s.tables, s.handlers[i];
    var h' := h.(made := h.made + 1);
    var (metric, tag) := Planned(h)[h.made];
    assert Advance(s, i).value == Put(s, IncLabelled(m, metric, tag, 1), i, h');
    InvGives(s, i);
    assert HandlerOk(h');
    hide Inv, Balanced, IncLabelled, Shaped, HandlerOk;
    LabelBalanced(m, h, h');
    BalancedKeeps(s, IncLabelled(m, metric, tag, 1), i, h');
  }

  /** Moves inside the body leave the tables alone. */
  lemma {:induction false} BodyKeeps(s: State, i: nat, h': Handler)
    requires Inv(s) && i < |s.handlers| && s.handlers[i].pc == Working
    requires var h := s.handlers[i];
             || h' == Leave(h) || h' == h.(pc := Failed)
             || exists source :: h' == h.(source := source) && h.source.None? && h.route == Validate
    ensures Inv(Put(s, s.tables, i, h'))
  {
    var m, h := s.tables, s.handlers[i];
    InvGives(s, i);
    assert h.source.None? ==> Planned(h) == [] && h.made == 0;
    assert h.source.None? ==> Planned(h)[..0] == Planned(h')[..0] == [];
    forall metric | IsMetric(metric) ensures MadeOn(metric)(h') == MadeOn(metric)(h) {
    }
    assert HandlerOk(h');
    hide Inv, Balanced, Shaped, MadeOn, HandlerOk;
    BodyBalanced(m, h, h');
    BalancedKeeps(s, m, i, h');
  }

  /** Leaving the body without a gauge to give back happens only where none was taken. */
  lemma {:induction false} BodyBalanced(m: Tables, h: Handler, h': Handler)
    requires Shaped(m) && h.pc == Working && h'.route == h.route && h'.errored == h.errored
    requires h'.pc == Working || h'.pc == Failed || h'.pc == Leave(h).pc
    requires forall metric :: IsMetric(metric) ==> MadeOn(metric)(h') == MadeOn(metric)(h)
    ensures Balanced(m, h, m, h')
  {
    hide Balanced, Shaped, MadeOn;
    GaugeBalanced(m, h, 0, h');
  }

  lemma {:induction false} MeasureKeeps(s: State, i: nat, elapsed: real)
    requires Inv(s) && i < |s.handlers| && s.handlers[i].pc == Left
    ensures Inv(Put(s, Observe(s.tables, DURATION, elapsed), i, s.handlers[i].(pc := Finished)))
  {
    var h := s.handlers[i];
    var h' := h.(pc := Finished);
    InvGives(s, i);
    assert Planned(h') == Planned(h);
    hide Inv, Balanced, Shaped, Observe, Planned;
    MeasureBalanced(s.tables, h, elapsed, h');
    BalancedKeeps(s, Observe(s.tables, DURATION, elapsed), i, h');
  }

  /** A handler that has only arrived counts nowhere. */
  lemma {:induction false} ArrivedCounts(h: Handler, metric: string)
    requires h.pc == Arrived && !h.errored && h.source.None? && h.made == 0
    ensures HandlerOk(h) && MadeOn(metric)(h) == 0
    ensures Started(h) == 0 && Errored(h) == 0 && Active(h) == 0 && Measured(h) == 0
    ensures forall r: Route :: NamedAs(r)(h) == 0
  {
  }

  lemma {:induction false} ArriveKeeps(s: State, route: Route)
    requires Inv(s)
    ensures Inv(s.(handlers := s.handlers + [Handler(route, Arrived, false, None, 0)]))
  {
    hide Sum, SumLabels, HandlerOk, Shaped, MadeOn, NamedAs, Started, Errored, Active, Measured, IsMetric, Capped, CounterOf;
    var h := Handler(route, Arrived, false, None, 0);
    ArrivedCounts(h, "");
    SumAdd(s.handlers, h, Started);
    SumAdd(s.handlers, h, Errored);
    SumAdd(s.handlers, h, Active);
    SumAdd(s.handlers, h, Measured);
    forall r: Route ensures Sum(s.handlers + [h], NamedAs(r)) == Sum(s.handlers, NamedAs(r)) {
      SumAdd(s.handlers, h, NamedAs(r));
    }
    forall metric ensures Sum(s.handlers + [h], MadeOn(metric)) == Sum(s.handlers, MadeOn(metric)) {
      ArrivedCounts(h, metric);
      SumAdd(s.handlers, h, MadeOn(metric));
    }
  }

  lemma {:induction false} NextKeeps(s: State, a: Action)
    requires Inv(s) && Next(s, a).Some?
    ensures Inv(Next(s, a).value)
  {
    hide Inv, Planned;
    match a
    case Arrive(route) => ArriveKeeps(s, route);
    case Go(i) =>
      var pc := s.handlers[i].pc;
      if pc == Arrived || pc == Counted || pc == Failed {
        CountKeeps(s, i);
      } else if pc == Named || pc == Leaving {
        GaugeKeeps(s, i);
      } else {
        LabelKeeps(s, i);
      }
    case Report(i, pro, result) => BodyKeeps(s, i, s.handlers[i].(source := Some((pro, result))));
    case Succeed(i) => BodyKeeps(s, i, Leave(s.handlers[i]));
    case Raise(i) => BodyKeeps(s, i, s.handlers[i].(pc := Failed));
    case Escape(i) => BodyKeeps(s, i, Leave(s.handlers[i]));
    case Measure(i, elapsed) => MeasureKeeps(s, i, elapsed);
  }

  lemma {:induction false} InitKeeps()
    ensures Inv(INIT)
  {
    NamesDiffer();
    assert SumLabels(map[]) == 0;
  }

  lemma {:induction false} RunKeeps(actions: seq<Action>)
    ensures Run(actions).Some? ==> Inv(Run(actions).value)
  {
    hide Inv;
    if actions == [] {
      InitKeeps();
    } else {
      RunKeeps(actions[..|actions| - 1]);
      if Run(actions).Some? {
        NextKeeps(Run(actions[..|actions| - 1]).value, actions[|actions| - 1]);
      }
    }
  }

  // ---- Conservation ----

  /** One inequality or equation per handler, summed over all of them. */
  lemma {:induction false} SumsMeet(hs: seq<Handler>)
    requires forall i :: 0 <= i < |hs| ==> HandlerOk(hs[i])
    ensures Sum(hs, Started) == Sum(hs, NamedAs(Convert)) + Sum(hs, NamedAs(Xml)) + Sum(hs, NamedAs(Validate))
                              + Sum(hs, NamedAs(Extract)) + Sum(hs, Between)
    ensures 0 <= Sum(hs, Errored) <= Sum(hs, Started)
    ensures 0 <= Sum(hs, Active)
    ensures (forall i :: 0 <= i < |hs| ==> hs[i].pc == Finished) ==>
              Sum(hs, Between) == 0 && Sum(hs, Active) == 0 && Sum(hs, Measured) == Sum(hs, Started) == |hs|
  {
    hide Planned;
    if hs != [] {
      SumsMeet(hs[..|hs| - 1]);
    }
  }

  ghost predicate AtRest(s: State) { forall i :: 0 <= i < |s.handlers| ==> s.handlers[i].pc == Finished }

  /** Over every interleaving and every way out of the handlers: each endpoint's counter is the
      number of its handlers past their second increment, the request total is the sum of the
      four and of the handlers between their two increments, the gauge is the number of handlers
      that hold it, errors never exceed requests, and at rest the gauge is back to zero and every
      request was measured. */
  lemma {:induction false} Conservation(actions: seq<Action>)
    requires Run(actions).Some?
    ensures var s := Run(actions).value;
            var c, hs := s.tables.counters, s.handlers;
            && Shaped(s.tables)
            && "requests_convert" in c && "requests_xml" in c && "requests_validate" in c && "requests_extract" in c
            && "requests_total" in c && "errors_total" in c && "active_requests" in s.tables.gauges
            && c["requests_convert"] == Sum(hs, NamedAs(Convert)) && c["requests_xml"] == Sum(hs, NamedAs(Xml))
            && c["requests_validate"] == Sum(hs, NamedAs(Validate)) && c["requests_extract"] == Sum(hs, NamedAs(Extract))
            && c["requests_total"] == c["requests_convert"] + c["requests_xml"] + c["requests_validate"] + c["requests_extract"]
                                      + Sum(hs, Between)
            && s.tables.gauges["active_requests"] == Sum(hs, Active) >= 0
            && 0 <= c["errors_total"] <= c["requests_total"]
            && (AtRest(s) ==>
                  && c["requests_total"] == |hs|
                     == c["requests_convert"] + c["requests_xml"] + c["requests_validate"] + c["requests_extract"]
                  && s.tables.gauges["active_requests"] == 0
                  && |s.tables.histograms[DURATION]| == if |hs| <= 1000 then |hs| else 1000)
  {
    RunKeeps(actions);
    var s := Run(actions).value;
    hide Sum, SumLabels, MadeOn, HandlerOk, Run, NamedAs, Between, Active, Errored, Started, Measured;
    SumsMeet(s.handlers);
    EndpointNames(s);
  }

  /** The counters by the names under which they are exported. */
  lemma {:induction false} EndpointNames(s: State)
    requires Inv(s)
    ensures var c, hs := s.tables.counters, s.handlers;
            && "requests_convert" in c && c["requests_convert"] == Sum(hs, NamedAs(Convert))
            && "requests_xml" in c && c["requests_xml"] == Sum(hs, NamedAs(Xml))
            && "requests_validate" in c && c["requests_validate"] == Sum(hs, NamedAs(Validate))
            && "requests_extract" in c && c["requests_extract"] == Sum(hs, NamedAs(Extract))
            && "requests_total" in c && c["requests_total"] == Sum(hs, Started)
            && "errors_total" in c && c["errors_total"] == Sum(hs, Errored)
  {
    hide Sum, SumLabels, MadeOn, HandlerOk, NamedAs;
    var c, hs := s.tables.counters, s.handlers;
    assert CounterOf(Convert) in c && c[CounterOf(Convert)] == Sum(hs, NamedAs(Convert));
    assert CounterOf(Xml) in c && c[CounterOf(Xml)] == Sum(hs, NamedAs(Xml));
    assert CounterOf(Validate) in c && c[CounterOf(Validate)] == Sum(hs, NamedAs(Validate));
    assert CounterOf(Extract) in c && c[CounterOf(Extract)] == Sum(hs, NamedAs(Extract));
  }

  // ---- Labels ----

  /** A validation whose recording has begun. */
  function Recorded(h: Handler): (n: int) { One(h.made >= 1) }

  predicate Complete(h: Handler) { h.made == |Planned(h)| }

  /** A Teaser validation with two findings or more, recorded to the end. */
  function Concealing(h: Handler): (n: int) {
    One(h.source.Some? && !h.source.value.0 && |h.source.value.1.errors| >= 2 && Complete(h))
  }

  lemma {:induction false} CountJoin(a: seq<(string, string)>, b: seq<(string, string)>, metric: string)
    ensures CountOn(a + b, metric) == CountOn(a, metric) + CountOn(b, metric)
    decreases |b|
  {
    if b == [] {
      assert a + b == a;
    } else {
      assert (a + b)[..|a + b| - 1] == a + b[..|b| - 1];
      CountJoin(a, b[..|b| - 1], metric);
    }
  }

  lemma {:induction false} CountAll(calls: seq<(string, string)>, name: string, metric: string)
    requires forall i :: 0 <= i < |calls| ==> calls[i].0 == name
    ensures CountOn(calls, metric) == if name == metric then |calls| else 0
  {
    if calls != [] {
      CountAll(calls[..|calls| - 1], name, metric);
    }
  }

  lemma {:induction false} CountFour(
      a: seq<(string, string)>, b: seq<(string, string)>, c: seq<(string, string)>, d: seq<(string, string)>, metric: string)
    requires forall i :: 0 <= i < |a| ==> a[i].0 == OUTCOME
    requires forall i :: 0 <= i < |b| ==> b[i].0 == PROFILE
    requires forall i :: 0 <= i < |c| ==> c[i].0 == ERROR_TYPE
    requires forall i :: 0 <= i < |d| ==> d[i].0 == HIDDEN
    ensures CountOn(a + b + c + d, metric)
         == (if metric == OUTCOME then |a| else 0) + (if metric == PROFILE then |b| else 0)
          + (if metric == ERROR_TYPE then |c| else 0) + (if metric == HIDDEN then |d| else 0)
  {
    hide CountOn;
    CountJoin(a, b, metric);
    CountJoin(a + b, c, metric);
    CountJoin(a + b + c, d, metric);
    CountAll(a, OUTCOME, metric);
    CountAll(b, PROFILE, metric);
    CountAll(c, ERROR_TYPE, metric);
    CountAll(d, HIDDEN, metric);
  }

  /** The calls of one recording, metric by metric. */
  lemma {:induction false} CallsShape(v: Validation)
      returns (a: seq<(string, string)>, b: seq<(string, string)>, c: seq<(string, string)>, d: seq<(string, string)>)
    ensures Calls(v) == a + b + c + d && |a| == 1 && |c| <= TOP && |d| == One(v.mode == "teaser" && v.hidden > 0)
    ensures forall i :: 0 <= i < |a| ==> a[i].0 == OUTCOME
    ensures forall i :: 0 <= i < |b| ==> b[i].0 == PROFILE
    ensures forall i :: 0 <= i < |c| ==> c[i].0 == ERROR_TYPE
    ensures forall i :: 0 <= i < |d| ==> d[i].0 == HIDDEN
  {
    a := [(OUTCOME, v.mode + ":" + (if v.valid then "valid" else "invalid"))];
    b := if v.profile.Some? && v.profile.value != "" then [(PROFILE, v.profile.value)] else [];
    c := RuleCalls(if |v.rules| > TOP then v.rules[..TOP] else v.rules);
    d := if v.mode == "teaser" && v.hidden > 0 then [(HIDDEN, Bucket(v.hidden))] else [];
    hide Bucket, RuleCalls;
  }

  /** The totals of one recording. */
  lemma {:induction false} CallsTotals(v: Validation)
    ensures CountOn(Calls(v), OUTCOME) == 1 && CountOn(Calls(v), ERROR_TYPE) <= TOP
    ensures CountOn(Calls(v), HIDDEN) == One(v.mode == "teaser" && v.hidden > 0)
  {
    hide CountOn, Calls;
    var a, b, c, d := CallsShape(v);
    NamesDiffer();
    hide OUTCOME, PROFILE, ERROR_TYPE, HIDDEN;
    CountFour(a, b, c, d, OUTCOME);
    CountFour(a, b, c, d, ERROR_TYPE);
    CountFour(a, b, c, d, HIDDEN);
  }

  lemma {:induction false} CountPrefix(calls: seq<(string, string)>, k: nat, metric: string)
    requires k <= |calls|
    ensures CountOn(calls[..k], metric) <= CountOn(calls, metric)
    ensures k >= 1 && calls[0].0 == metric ==> CountOn(calls[..k], metric) >= 1
  {
    assert calls == calls[..k] + calls[k..];
    CountJoin(calls[..k], calls[k..], metric);
    if k >= 1 {
      assert calls[..k] == [calls[0]] + calls[1..k];
      CountJoin([calls[0]], calls[1..k], metric);
      CountAll([calls[0]], calls[0].0, metric);
    }
  }

  /** The hidden-error increment is the last one, so only a complete recording has made it. */
  lemma {:induction false} HiddenIsLast(v: Validation, k: nat)
    requires k <= |Calls(v)|
    ensures CountOn(Calls(v)[..k], HIDDEN) == One(v.mode == "teaser" && v.hidden > 0 && k == |Calls(v)|)
  {
    var a, b, c, d := CallsShape(v);
    CallsTotals(v);
    var calls := Calls(v);
    hide CountOn, Calls;
    if k == |calls| {
      assert calls[..k] == calls;
    } else {
      var n := |calls| - 1;
      assert calls[..n][..k] == calls[..k];
      assert calls[..n + 1] == calls;
      CountPrefix(calls, n, HIDDEN);
      CountPrefix(calls[..n], k, HIDDEN);
      CountOneMore(calls, n, HIDDEN);
      assert d != [] ==> calls[n] == d[0];
    }
  }

  /** What one recording, complete or cut short, has put on each metric. */
  lemma {:induction false} PlannedCounts(h: Handler)
    requires HandlerOk(h)
    ensures MadeOn(OUTCOME)(h) == Recorded(h)
    ensures MadeOn(ERROR_TYPE)(h) <= TOP * Recorded(h)
    ensures MadeOn(HIDDEN)(h) == Concealing(h)
  {
    if h.source.Some? {
      var v := Endpoint.RecordOf(h.source.value.0, h.source.value.1);
      CallsTotals(v);
      assert Calls(v)[0].0 == OUTCOME;
      CountPrefix(Calls(v), h.made, OUTCOME);
      CountPrefix(Calls(v), h.made, ERROR_TYPE);
      HiddenIsLast(v, h.made);
      ModeOf(h.source.value.0, h.source.value.1);
      hide Calls, Endpoint.RecordOf;
    }
  }

  lemma {:induction false} ModeOf(pro: bool, r: Service.Result)
    ensures var v := Endpoint.RecordOf(pro, r); v.mode == "teaser" && v.hidden > 0 <==> !pro && |r.errors| >= 2
  {
    assert "pro"[0] != "teaser"[0];
  }

  lemma {:induction false} LabelSums(hs: seq<Handler>)
    requires forall i :: 0 <= i < |hs| ==> HandlerOk(hs[i])
    ensures Sum(hs, MadeOn(OUTCOME)) == Sum(hs, Recorded)
    ensures Sum(hs, MadeOn(ERROR_TYPE)) <= TOP * Sum(hs, Recorded)
    ensures Sum(hs, MadeOn(HIDDEN)) == Sum(hs, Concealing)
  {
    if hs != [] {
      PlannedCounts(hs[|hs| - 1]);
      hide Planned, HandlerOk, MadeOn, Recorded, Concealing;
      LabelSums(hs[..|hs| - 1]);
    }
  }

  /** Over every interleaving: the outcome labels add up to the validations recorded, the rule
      labels to at most five times that, and the hidden-error labels to the Teaser validations
      with two findings or more that are recorded to the end, whatever is still under way or was
      cut short. */
  lemma {:induction false} LabelLaws(actions: seq<Action>)
    requires Run(actions).Some?
    ensures var s := Run(actions).value;
            var tags := s.tables.labelled;
            && "validation_outcome" in tags && "validation_error_type" in tags && "teaser_hidden_errors" in tags
            && SumLabels(tags["validation_outcome"]) == Sum(s.handlers, Recorded)
            && SumLabels(tags["validation_error_type"]) <= 5 * SumLabels(tags["validation_outcome"])
            && SumLabels(tags["teaser_hidden_errors"]) == Sum(s.handlers, Concealing)
  {
    RunKeeps(actions);
    var s := Run(actions).value;
    hide Sum, SumLabels, MadeOn, HandlerOk, Run;
    LabelSums(s.handlers);
    assert IsMetric(OUTCOME) && IsMetric(ERROR_TYPE) && IsMetric(HIDDEN);
  }
}
