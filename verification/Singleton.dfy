/** The creation of the one metrics collector. The object is published before its fields are
    filled, and its lock is the last of them: until then `self._lock` is the lock of the
    class, which the creating call holds. */
module Singleton {
  import opened Wrappers

  const FIELDS := 6

  /** How many of its fields are assigned, and who holds the object's own lock. */
  datatype Object = Object(filled: nat, lock: Option<nat>)

  /** Where a thread is in `__new__`, or in a method of the object it was given: a method takes
      the object's own lock, or the class's when it looked the lock up too early. */
  datatype Thread =
    | Outside
    | Missed
    | Locked
    | Empty
    | Made(obj: nat)
    | Building(obj: nat)
    | Unlocking
    | Found
    | Holding(obj: nat)
    | Calling(obj: nat, own: bool)
    | Inside(obj: nat, own: bool)

  datatype State = State(instance: Option<nat>, lock: Option<nat>, objects: seq<Object>, threads: seq<Thread>)

  /** A new thread, or the next step of a thread. */
  datatype Action = Spawn | Go(t: nat)

  const INIT := State(None, None, [], [])

  function Move(s: State, t: nat, p: Thread): (r: State)
    requires t < |s.threads|
  {
    s.(threads := s.threads[t := p])
  }

  function Update(s: State, o: nat, x: Object): (r: State)
    requires o < |s.objects|
  {
    s.(objects := s.objects[o := x])
  }

  function Advance(s: State, t: nat): (r: Option<State>)
    requires t < |s.threads|
  {
    match s.threads[t]
    case Outside => Some(Move(s, t, if s.instance.None? then Missed else Found))
    case Missed => if s.lock.None? then Some(Move(s.(lock := Some(t)), t, Locked)) else None
    case Locked => Some(Move(s, t, if s.instance.None? then Empty else Unlocking))
    case Empty => Some(Move(s.(objects := s.objects + [Object(0, None)]), t, Made(|s.objects|)))
    case Made(o) => Some(Move(s.(instance := Some(o)), t, Building(o)))
    case Building(o) =>
      if o >= |s.objects| then None
      else if s.objects[o].filled < FIELDS
      then Some(Update(s, o, s.objects[o].(filled := s.objects[o].filled + 1)))
      else Some(Move(s, t, Unlocking))
    case Unlocking => Some(Move(s.(lock := None), t, Found))
    case Found => if s.instance.Some? then Some(Move(s, t, Holding(s.instance.value))) else None
    case Holding(o) => if o < |s.objects| then Some(Move(s, t, Calling(o, s.objects[o].filled == FIELDS))) else None
    case Calling(o, own) =>
      if !own then (if s.lock.None? then Some(Move(s.(lock := Some(t)), t, Inside(o, false))) else None)
      else if o < |s.objects| && s.objects[o].lock.None?
      then Some(Move(Update(s, o, s.objects[o].(lock := Some(t))), t, Inside(o, true))) else None
    case Inside(o, own) =>
      if !own then Some(Move(s.(lock := None), t, Holding(o)))
      else if o < |s.objects| then Some(Move(Update(s, o, s.objects[o].(lock := None)), t, Holding(o))) else None
  }

  function Next(s: State, a: Action): (r: Option<State>) {
    match a
    case Spawn => Some(s.(threads := s.threads + [Outside]))
    case Go(t) => if t < |s.threads| then Advance(s, t) else None
  }

  function RunFrom(s: State, actions: seq<Action>): (r: Option<State>) {
    if actions == [] then Some(s) else
      match RunFrom(s, actions[..|actions| - 1])
      case None => None
      case Some(s') => Next(s', actions[|actions| - 1])
  }

  // ---- The invariant ----

  predicate HoldsClass(p: Thread) {
    p.Locked? || p.Empty? || p.Made? || p.Building? || p.Unlocking? || (p.Inside? && !p.own)
  }

  predicate HoldsOwn(p: Thread) { p.Inside? && p.own }

  predicate Published(s: State) { s.instance == Some(0) && |s.objects| == 1 && s.objects[0].filled <= FIELDS }

  predicate Complete(s: State) { Published(s) && s.objects[0].filled == FIELDS }

  predicate ThreadOk(s: State, p: Thread) {
    match p
    case Outside => true
    case Missed => true
    case Locked => true
    case Empty => s.objects == []
    case Made(o) => o == 0 && s.instance.None? && |s.objects| == 1 && s.objects[0].filled == 0
    case Building(o) => o == 0 && Published(s)
    case Unlocking => Complete(s)
    case Found => Published(s)
    case Holding(o) => o == 0 && Published(s)
    case Calling(o, own) => o == 0 && Published(s) && (own ==> Complete(s))
    case Inside(o, own) => o == 0 && Complete(s)
  }

  /** Nothing exists yet, one object is being made or built by the holder of the class lock, or
      the one object is complete. */
  predicate Phase(s: State) {
    || (s.instance.None? && s.objects == [])
    || Complete(s)
    || (s.lock.Some? && s.lock.value < |s.threads| && |s.objects| == 1
        && (var p := s.threads[s.lock.value]; p == Made(0) || (p == Building(0) && Published(s))))
  }

  ghost predicate Inv(s: State) {
    && Phase(s)
    && (forall t: nat :: t < |s.threads| ==> ThreadOk(s, s.threads[t]))
    && (forall t: nat :: t < |s.threads| ==> (HoldsClass(s.threads[t]) <==> s.lock == Some(t)))
    && (s.lock.Some? ==> s.lock.value < |s.threads|)
    && (forall t: nat :: t < |s.threads| && HoldsOwn(s.threads[t]) ==> |s.objects| == 1 && s.objects[0].lock == Some(t))
  }

  lemma {:induction false} CreateKeeps(s: State, t: nat)
    requires Inv(s) && t < |s.threads| && Advance(s, t).Some?
    requires var p := s.threads[t]; p.Locked? || p.Empty? || p.Made? || p.Building? || p.Unlocking?
    ensures Inv(Advance(s, t).value)
  {
    assert ThreadOk(s, s.threads[t]);
    var s' := Advance(s, t).value;
    assert forall u: nat :: u < |s.threads| && u != t ==> s'.threads[u] == s.threads[u];
  }

  lemma {:induction false} AskKeeps(s: State, t: nat)
    requires Inv(s) && t < |s.threads| && Advance(s, t).Some?
    requires var p := s.threads[t]; p.Outside? || p.Missed? || p.Found? || p.Holding?
    ensures Inv(Advance(s, t).value)
  {
    assert ThreadOk(s, s.threads[t]);
    var s' := Advance(s, t).value;
    assert forall u: nat :: u < |s.threads| && u != t ==> s'.threads[u] == s.threads[u];
  }

  lemma {:induction false} MethodKeeps(s: State, t: nat)
    requires Inv(s) && t < |s.threads| && Advance(s, t).Some? && (s.threads[t].Calling? || s.threads[t].Inside?)
    ensures Inv(Advance(s, t).value)
  {
    assert ThreadOk(s, s.threads[t]);
    var s' := Advance(s, t).value;
    assert forall u: nat :: u < |s.threads| && u != t ==> s'.threads[u] == s.threads[u];
  }

  lemma {:induction false} NextKeeps(s: State, a: Action)
    requires Inv(s) && Next(s, a).Some?
    ensures Inv(Next(s, a).value)
  {
    if a.Go? {
      hide Inv;
      var p := s.threads[a.t];
      if p.Locked? || p.Empty? || p.Made? || p.Building? || p.Unlocking? {
        CreateKeeps(s, a.t);
      } else if p.Calling? || p.Inside? {
        MethodKeeps(s, a.t);
      } else {
        AskKeeps(s, a.t);
      }
    }
  }

  lemma {:induction false} RunKeeps(s: State, actions: seq<Action>)
    requires Inv(s)
    ensures RunFrom(s, actions).Some? ==> Inv(RunFrom(s, actions).value)
  {
    hide Inv;
    if actions != [] {
      RunKeeps(s, actions[..|actions| - 1]);
      if RunFrom(s, actions).Some? {
        NextKeeps(RunFrom(s, actions[..|actions| - 1]).value, actions[|actions| - 1]);
      }
    }
  }

  // ---- What every run keeps ----

  predicate Busy(s: State, t: nat) { t < |s.threads| && s.threads[t].Inside? }

  /** Over every interleaving: one object at most is ever made and every call returns that one;
      no method body runs on an object whose fields are not all assigned, although such an
      object can be handed out; and two bodies run at once only when exactly one of the two
      looked its lock up before the object was complete. */
  lemma {:induction false} OneCollector(actions: seq<Action>)
    requires RunFrom(INIT, actions).Some?
    ensures var s := RunFrom(INIT, actions).value;
            && |s.objects| <= 1
            && (forall t: nat :: t < |s.threads| && s.threads[t].Holding? ==> Some(s.threads[t].obj) == s.instance)
            && (forall t: nat :: Busy(s, t) ==> Complete(s) && s.threads[t].obj == 0)
            && (forall t: nat, u: nat :: Busy(s, t) && Busy(s, u) && t != u ==> s.threads[t].own != s.threads[u].own)
  {
    RunKeeps(INIT, actions);
    hide RunFrom;
    var s := RunFrom(INIT, actions).value;
    forall t: nat | t < |s.threads|
      ensures s.threads[t].Holding? ==> Some(s.threads[t].obj) == s.instance
      ensures Busy(s, t) ==> Complete(s) && s.threads[t].obj == 0
    {
      assert ThreadOk(s, s.threads[t]);
    }
  }

  // ---- Construction before use ----

  /** The object is complete and nobody is about to use, or is using, the class's lock for it. */
  ghost predicate Settled(s: State) {
    Complete(s) && forall t: nat :: t < |s.threads| && (s.threads[t].Calling? || s.threads[t].Inside?) ==> s.threads[t].own
  }

  lemma {:induction false} SettledStays(s: State, actions: seq<Action>)
    requires Inv(s) && Settled(s)
    ensures RunFrom(s, actions).Some? ==> Settled(RunFrom(s, actions).value)
  {
    if actions != [] {
      var before := actions[..|actions| - 1];
      SettledStays(s, before);
      RunKeeps(s, before);
      if RunFrom(s, actions).Some? {
        SettledStep(RunFrom(s, before).value, actions[|actions| - 1]);
      }
    }
  }

  lemma {:induction false} SettledStep(s: State, a: Action)
    requires Inv(s) && Settled(s) && Next(s, a).Some?
    ensures Settled(Next(s, a).value)
  {
    if a.Go? {
      assert ThreadOk(s, s.threads[a.t]);
    }
  }

  ghost predicate SettledAfter(first: seq<Action>) {
    RunFrom(INIT, first).Some? && Settled(RunFrom(INIT, first).value)
  }

  /** Where the collector is built before anyone else asks for it, as the module does on import,
      at most one method body runs at any time ever after. */
  lemma {:induction false} BuiltFirst(first: seq<Action>, rest: seq<Action>)
    requires SettledAfter(first)
    requires RunFrom(RunFrom(INIT, first).value, rest).Some?
    ensures var s := RunFrom(RunFrom(INIT, first).value, rest).value;
            forall t: nat, u: nat :: Busy(s, t) && Busy(s, u) ==> t == u
  {
    RunKeeps(INIT, first);
    hide RunFrom;
    var s := RunFrom(INIT, first).value;
    RunKeeps(s, rest);
    SettledStays(s, rest);
  }

  // ---- What the early publication allows ----

  ghost predicate Reachable(s: State) { exists actions :: RunFrom(INIT, actions) == Some(s) }

  lemma {:induction false} Step(s: State, a: Action) returns (s': State)
    requires Reachable(s) && Next(s, a).Some?
    ensures Reachable(s') && Next(s, a) == Some(s')
  {
    s' := Next(s, a).value;
    var actions :| RunFrom(INIT, actions) == Some(s);
    assert (actions + [a])[..|actions|] == actions;
    assert RunFrom(INIT, actions + [a]) == Some(s');
  }

  lemma {:induction false} TwoThreads() returns (s: State)
    ensures Reachable(s) && s == INIT.(threads := [Outside, Outside])
  {
    assert RunFrom(INIT, []) == Some(INIT);
    hide Reachable;
    s := Step(INIT, Spawn);
    s := Step(s, Spawn);
  }

  lemma {:induction false} MadeByFirst()
    ensures Reachable(State(None, Some(0), [Object(0, None)], [Made(0), Outside]))
  {
    var s := TwoThreads();
    hide Reachable, RunFrom;
    s := Step(s, Go(0));
    s := Step(s, Go(0));
    s := Step(s, Go(0));
    assert s == State(None, Some(0), [], [Empty, Outside]);
    s := Step(s, Go(0));
    assert s == State(None, Some(0), [Object(0, None)], [Made(0), Outside]);
  }

  /** Thread 0 has just published the object; thread 1 is given it without a single field. */
  lemma {:induction false} HandedOutEarly()
    ensures Reachable(State(Some(0), Some(0), [Object(0, None)], [Building(0), Holding(0)]))
  {
    MadeByFirst();
    var s := State(None, Some(0), [Object(0, None)], [Made(0), Outside]);
    hide Reachable, RunFrom;
    s := Step(s, Go(0));
    assert s == State(Some(0), Some(0), [Object(0, None)], [Building(0), Outside]);
    s := Step(s, Go(1));
    s := Step(s, Go(1));
    assert s == State(Some(0), Some(0), [Object(0, None)], [Building(0), Holding(0)]);
  }

  lemma {:induction false} FillUp(s: State) returns (s': State)
    requires Reachable(s) && |s.threads| > 0 && s.threads[0] == Building(0) && |s.objects| == 1
    requires s.objects[0].filled <= FIELDS
    ensures Reachable(s') && s' == s.(objects := [s.objects[0].(filled := FIELDS)])
    decreases FIELDS - s.objects[0].filled
  {
    if s.objects[0].filled == FIELDS {
      s' := s;
    } else {
      s' := Step(s, Go(0));
      s' := FillUp(s');
    }
  }

  lemma {:induction false} FetchedEarly()
    ensures Reachable(State(Some(0), None, [Object(FIELDS, None)], [Holding(0), Calling(0, false)]))
  {
    HandedOutEarly();
    var s := State(Some(0), Some(0), [Object(0, None)], [Building(0), Holding(0)]);
    hide Reachable, RunFrom;
    s := Step(s, Go(1));
    s := FillUp(s);
    assert s == State(Some(0), Some(0), [Object(FIELDS, None)], [Building(0), Calling(0, false)]);
    s := Step(s, Go(0));
    s := Step(s, Go(0));
    s := Step(s, Go(0));
    assert s == State(Some(0), None, [Object(FIELDS, None)], [Holding(0), Calling(0, false)]);
  }

  /** Two threads inside the methods of one collector at the same time: thread 1 has looked the
      lock up before the object had its own. */
  lemma {:induction false} TwoBodiesAtOnce()
    ensures Reachable(State(Some(0), Some(1), [Object(FIELDS, Some(0))], [Inside(0, true), Inside(0, false)]))
  {
    FetchedEarly();
    var s := State(Some(0), None, [Object(FIELDS, None)], [Holding(0), Calling(0, false)]);
    hide Reachable, RunFrom;
    s := Step(s, Go(0));
    s := Step(s, Go(0));
    s := Step(s, Go(1));
    assert s == State(Some(0), Some(1), [Object(FIELDS, Some(0))], [Inside(0, true), Inside(0, false)]);
  }

  // ---- The import ----

  lemma {:induction false} LonePublishes()
    ensures Reachable(State(Some(0), Some(0), [Object(0, None)], [Building(0)]))
  {
    assert RunFrom(INIT, []) == Some(INIT);
    hide Reachable, RunFrom;
    var s := Step(INIT, Spawn);
    s := Step(s, Go(0));
    s := Step(s, Go(0));
    s := Step(s, Go(0));
    assert s == State(None, Some(0), [], [Empty]);
    s := Step(s, Go(0));
    s := Step(s, Go(0));
    assert s == State(Some(0), Some(0), [Object(0, None)], [Building(0)]);
  }

  /** A thread that is alone, as the import is, builds the collector and holds it with both
      locks free. */
  lemma {:induction false} LoneThread()
    ensures Reachable(State(Some(0), None, [Object(FIELDS, None)], [Holding(0)]))
  {
    LonePublishes();
    var s := State(Some(0), Some(0), [Object(0, None)], [Building(0)]);
    hide Reachable, RunFrom;
    s := FillUp(s);
    assert s == State(Some(0), Some(0), [Object(FIELDS, None)], [Building(0)]);
    s := Step(s, Go(0));
    s := Step(s, Go(0));
    s := Step(s, Go(0));
    assert s == State(Some(0), None, [Object(FIELDS, None)], [Holding(0)]);
  }

  /** So there is a run that settles the collector: the import. */
  lemma {:induction false} ImportSettles()
    ensures exists first :: SettledAfter(first)
  {
    LoneThread();
    var s := State(Some(0), None, [Object(FIELDS, None)], [Holding(0)]);
    var first :| RunFrom(INIT, first) == Some(s);
    assert SettledAfter(first);
  }
}
