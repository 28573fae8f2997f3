/** The exported numbers against the history of the run: what arrived, what raised and what was
    measured. */
module HandlerTrace {
  import opened Wrappers
  import opened Metrics
  import opened Handlers

  // ---- The history ----

  function Arrivals(actions: seq<Action>, r: Route): (n: nat) {
    if actions == [] then 0
    else Arrivals(actions[..|actions| - 1], r) + (if actions[|actions| - 1] == Arrive(r) then 1 else 0)
  }

  /** How many handlers raised an exception that they catch. */
  function Raises(actions: seq<Action>): (n: nat) {
    if actions == [] then 0 else Raises(actions[..|actions| - 1]) + (if actions[|actions| - 1].Raise? then 1 else 0)
  }

  /** The measured durations, in order. */
  function Durations(actions: seq<Action>): (r: seq<real>) {
    if actions == [] then []
    else Durations(actions[..|actions| - 1])
         + (if actions[|actions| - 1].Measure? then [actions[|actions| - 1].elapsed] else [])
  }

  // ---- The handlers against it ----

  function OfRoute(r: Route): (f: Handler -> int) { (h: Handler) => One(h.route == r) }
  function Waiting(r: Route): (f: Handler -> int) {
    (h: Handler) => One(h.route == r && (h.pc == Arrived || h.pc == Counted))
  }
  function AtFailed(h: Handler): (n: int) { One(h.pc == Failed) }
  function JustArrived(h: Handler): (n: int) { One(h.pc == Arrived) }

  function Raised(h: Handler): (n: int) { One(h.errored || h.pc == Failed) }

  ghost predicate Traced(actions: seq<Action>, s: State) {
    && (forall r: Route :: Sum(s.handlers, OfRoute(r)) == Arrivals(actions, r))
    && Sum(s.handlers, Raised) == Raises(actions)
    && DURATION in s.tables.histograms && s.tables.histograms[DURATION] == Last(Durations(actions))
  }

  /** A step of a handler: its route stays, and it counts as having raised exactly when the action
      says so. */
  lemma {:induction false} StepOf(s: State, a: Action)
    requires Inv(s) && !a.Arrive? && Next(s, a).Some?
    ensures var s' := Next(s, a).value;
            && a.i < |s.handlers| && |s'.handlers| == |s.handlers|
            && s'.handlers == s.handlers[a.i := s'.handlers[a.i]]
            && s'.handlers[a.i].route == s.handlers[a.i].route
            && Raised(s'.handlers[a.i]) == Raised(s.handlers[a.i]) + One(a.Raise?)
  {
    hide Sum, SumLabels, MadeOn, Planned, Inc, AddGauge, Observe, IncLabelled;
    assert HandlerOk(s.handlers[a.i]);
  }

  lemma {:induction false} WindowOf(s: State, a: Action, d: seq<real>)
    requires Next(s, a).Some? && DURATION in s.tables.histograms && s.tables.histograms[DURATION] == Last(d)
    ensures var m := Next(s, a).value.tables;
            && DURATION in m.histograms
            && m.histograms[DURATION] == Last(d + (if a.Measure? then [a.elapsed] else []))
  {
    assert d + [] == d;
    if a.Measure? {
      SlideWindow(d, a.elapsed);
    }
    hide Last, Planned;
  }

  lemma {:induction false} ArrivalTraced(hs: seq<Handler>, h: Handler)
    requires h.pc == Arrived && !h.errored
    ensures forall r: Route :: Sum(hs + [h], OfRoute(r)) == Sum(hs, OfRoute(r)) + One(h.route == r)
    ensures Sum(hs + [h], Raised) == Sum(hs, Raised)
  {
    hide Sum;
    forall r: Route ensures Sum(hs + [h], OfRoute(r)) == Sum(hs, OfRoute(r)) + One(h.route == r) {
      SumAdd(hs, h, OfRoute(r));
    }
    SumAdd(hs, h, Raised);
  }

  lemma {:induction false} MoveTraced(hs: seq<Handler>, i: nat, h: Handler)
    requires i < |hs| && h.route == hs[i].route
    ensures forall r: Route :: Sum(hs[i := h], OfRoute(r)) == Sum(hs, OfRoute(r))
    ensures Sum(hs[i := h], Raised) == Sum(hs, Raised) - Raised(hs[i]) + Raised(h)
  {
    hide Sum, Raised;
    forall r: Route ensures Sum(hs[i := h], OfRoute(r)) == Sum(hs, OfRoute(r)) {
      SumPut(hs, i, h, OfRoute(r));
    }
    SumPut(hs, i, h, Raised);
  }

  lemma {:induction false} HistoryStep(actions: seq<Action>, a: Action)
    ensures forall r: Route :: Arrivals(actions + [a], r) == Arrivals(actions, r) + (if a == Arrive(r) then 1 else 0)
    ensures Raises(actions + [a]) == Raises(actions) + (if a.Raise? then 1 else 0)
    ensures Durations(actions + [a]) == Durations(actions) + (if a.Measure? then [a.elapsed] else [])
  {
    assert (actions + [a])[..|actions|] == actions;
  }

  lemma {:induction false} TracedStep(actions: seq<Action>, s: State, a: Action)
    requires Inv(s) && Traced(actions, s) && Next(s, a).Some?
    ensures Traced(actions + [a], Next(s, a).value)
  {
    hide Inv, Sum, Last, Raised, OfRoute, Arrivals, Raises, Durations, Advance;
    var s' := Next(s, a).value;
    WindowOf(s, a, Durations(actions));
    HistoryStep(actions, a);
    if a.Arrive? {
      ArrivalTraced(s.handlers, Handler(a.route, Arrived, false, None, 0));
    } else {
      StepOf(s, a);
      hide Next;
      MoveTraced(s.handlers, a.i, s'.handlers[a.i]);
    }
  }

  lemma {:induction false} InitTraced()
    ensures Traced([], INIT)
  {
  }

  lemma {:induction false} RunTraced(actions: seq<Action>)
    ensures Run(actions).Some? ==> Traced(actions, Run(actions).value)
  {
    hide Traced, Inv;
    if actions == [] {
      InitTraced();
    } else {
      var before, a := actions[..|actions| - 1], actions[|actions| - 1];
      RunTraced(before);
      RunKeeps(before);
      if Run(actions).Some? {
        TracedStep(before, Run(before).value, a);
        assert before + [a] == actions;
      }
    }
  }

  lemma {:induction false} SumsSplit(hs: seq<Handler>)
    requires forall i :: 0 <= i < |hs| ==> HandlerOk(hs[i])
    ensures forall r: Route :: Sum(hs, OfRoute(r)) == Sum(hs, NamedAs(r)) + Sum(hs, Waiting(r))
    ensures Sum(hs, Raised) == Sum(hs, Errored) + Sum(hs, AtFailed)
    ensures Sum(hs, Started) + Sum(hs, JustArrived)
         == Sum(hs, OfRoute(Convert)) + Sum(hs, OfRoute(Xml)) + Sum(hs, OfRoute(Validate)) + Sum(hs, OfRoute(Extract))
  {
    hide Planned;
    if hs != [] {
      SumsSplit(hs[..|hs| - 1]);
    }
  }

  /** Over every interleaving: each endpoint's counter and the total are what arrived less what is
      still on its way to them, `errors_total` is what raised less what is still to be counted,
      and the durations are the last thousand measured, in order. */
  lemma {:induction false} TraceLaws(actions: seq<Action>)
    requires Run(actions).Some?
    ensures var s := Run(actions).value;
            var c, hs, window := s.tables.counters, s.handlers, Durations(actions);
            && "requests_convert" in c && c["requests_convert"] == Arrivals(actions, Convert) - Sum(hs, Waiting(Convert))
            && "requests_xml" in c && c["requests_xml"] == Arrivals(actions, Xml) - Sum(hs, Waiting(Xml))
            && "requests_validate" in c && c["requests_validate"] == Arrivals(actions, Validate) - Sum(hs, Waiting(Validate))
            && "requests_extract" in c && c["requests_extract"] == Arrivals(actions, Extract) - Sum(hs, Waiting(Extract))
            && "requests_total" in c
            && c["requests_total"] == Arrivals(actions, Convert) + Arrivals(actions, Xml) + Arrivals(actions, Validate)
                                      + Arrivals(actions, Extract) - Sum(hs, JustArrived)
            && "errors_total" in c && c["errors_total"] == Raises(actions) - Sum(hs, AtFailed)
            && "request_duration_seconds" in s.tables.histograms
            && s.tables.histograms["request_duration_seconds"]
               == (if |window| <= 1000 then window else window[|window| - 1000..])
  {
    RunKeeps(actions);
    RunTraced(actions);
    var s := Run(actions).value;
    hide Run, Sum, SumLabels, MadeOn, HandlerOk, NamedAs, Waiting, OfRoute, Errored, Raised, AtFailed, JustArrived, Started;
    SumsSplit(s.handlers);
    hide Inv;
    EndpointNames(s);
  }
}
