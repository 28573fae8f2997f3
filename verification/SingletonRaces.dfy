/** Exactly when two method bodies of the collector can still overlap: in every reachable state
    that is not settled, some continuation gets there. */
module SingletonRaces {
  import opened Wrappers
  import opened Singleton

  /** The object's own lock is held by a thread that is inside one of its methods. */
  predicate OwnHeld(s: State) {
    |s.objects| == 1 && s.objects[0].lock.Some? ==>
      s.objects[0].lock.value < |s.threads| && HoldsOwn(s.threads[s.objects[0].lock.value])
  }

  ghost predicate Ok(s: State) { Inv(s) && OwnHeld(s) }

  lemma {:induction false} OwnHeldStep(s: State, a: Action)
    requires Ok(s) && Next(s, a).Some?
    ensures OwnHeld(Next(s, a).value)
  {
    if a.Go? {
      assert ThreadOk(s, s.threads[a.t]);
    }
  }

  lemma {:induction false} OkStays(s: State, actions: seq<Action>)
    requires Ok(s)
    ensures RunFrom(s, actions).Some? ==> Ok(RunFrom(s, actions).value)
  {
    hide Inv, OwnHeld;
    if actions != [] {
      OkStays(s, actions[..|actions| - 1]);
      if RunFrom(s, actions).Some? {
        var before := RunFrom(s, actions[..|actions| - 1]).value;
        NextKeeps(before, actions[|actions| - 1]);
        OwnHeldStep(before, actions[|actions| - 1]);
      }
    }
  }

  /** `s` comes after `o`. */
  ghost predicate Later(o: State, s: State) { exists actions :: RunFrom(o, actions) == Some(s) }

  ghost predicate Overlap(s: State) { exists t: nat, u: nat :: t != u && Busy(s, t) && Busy(s, u) }

  lemma {:induction false} Walk(o: State, s: State, a: Action) returns (s': State)
    requires Later(o, s) && Ok(s) && Next(s, a).Some?
    ensures Later(o, s') && Ok(s') && Next(s, a) == Some(s')
  {
    s' := Next(s, a).value;
    NextKeeps(s, a);
    OwnHeldStep(s, a);
    hide Inv, OwnHeld;
    var actions :| RunFrom(o, actions) == Some(s);
    assert (actions + [a])[..|actions|] == actions;
    assert RunFrom(o, actions + [a]) == Some(s');
  }

  /** A new thread, which asks for the collector once it is published. */
  lemma {:induction false} Newcomer(o: State, s: State) returns (s': State)
    requires Later(o, s) && Ok(s) && Published(s)
    ensures Later(o, s') && Ok(s') && s' == s.(threads := s.threads + [Holding(0)])
  {
    hide Later, Ok;
    var u := |s.threads|;
    s' := Walk(o, s, Spawn);
    s' := Walk(o, s', Go(u));
    s' := Walk(o, s', Go(u));
  }

  /** A body under the class's lock: another one can always join it. */
  lemma {:induction false} Joined(o: State, s: State, t: nat) returns (s': State)
    requires Later(o, s) && Ok(s) && t < |s.threads| && s.threads[t] == Inside(0, false)
    ensures Later(o, s') && Overlap(s')
  {
    assert ThreadOk(s, s.threads[t]);
    if s.objects[0].lock.Some? {
      s' := s;
      assert Busy(s, t) && Busy(s, s.objects[0].lock.value);
    } else {
      hide Later, Ok;
      var u := |s.threads|;
      s' := Newcomer(o, s);
      s' := Walk(o, s', Go(u));
      s' := Walk(o, s', Go(u));
      assert Busy(s', t) && Busy(s', u);
    }
  }

  /** The class's lock comes free once the object is complete, or is held by a method body. */
  lemma {:induction false} Released(o: State, s: State) returns (s': State)
    requires Later(o, s) && Ok(s) && Complete(s)
    ensures Later(o, s') && Ok(s') && Complete(s') && |s'.threads| == |s.threads|
    ensures forall t: nat :: t < |s.threads| && s.threads[t].Calling? ==> s'.threads[t] == s.threads[t]
    ensures s'.lock.None? || s'.threads[s'.lock.value] == Inside(0, false)
  {
    s' := s;
    if s.lock.Some? {
      var h := s.lock.value;
      assert ThreadOk(s, s.threads[h]) && HoldsClass(s.threads[h]);
      hide Later, Ok;
      if s.threads[h].Locked? || s.threads[h].Building? {
        s' := Walk(o, s', Go(h));
      }
      if s'.threads[h].Unlocking? {
        s' := Walk(o, s', Go(h));
      }
    }
  }

  /** A method that looked the lock up too early can overlap with another. */
  lemma {:induction false} EarlyCall(o: State, s: State, t: nat) returns (s': State)
    requires Later(o, s) && Ok(s) && Complete(s) && t < |s.threads| && s.threads[t] == Calling(0, false)
    ensures Later(o, s') && Overlap(s')
  {
    s' := Released(o, s);
    if s'.lock.Some? {
      assert s'.lock.value < |s'.threads|;
      s' := Joined(o, s', s'.lock.value);
    } else {
      hide Ok;
      s' := Walk(o, s', Go(t));
      s' := Joined(o, s', t);
    }
  }

  lemma {:induction false} Filled(o: State, s: State, h: nat) returns (s': State)
    requires Later(o, s) && Ok(s) && h < |s.threads| && s.threads[h] == Building(0) && Published(s)
    ensures Later(o, s') && Ok(s') && Complete(s') && s'.threads == s.threads
    decreases FIELDS - s.objects[0].filled
  {
    s' := s;
    if s.objects[0].filled < FIELDS {
      hide Later, Ok;
      s' := Walk(o, s, Go(h));
      s' := Filled(o, s', h);
    }
  }

  /** While the object is being built, a newcomer looks its lock up too early. */
  lemma {:induction false} WhileBuilding(o: State, s: State, h: nat) returns (s': State)
    requires Later(o, s) && Ok(s) && h < |s.threads| && s.threads[h] == Building(0) && Published(s) && !Complete(s)
    ensures Later(o, s') && Overlap(s')
  {
    hide Later, Ok, Overlap;
    var u := |s.threads|;
    s' := Newcomer(o, s);
    s' := Walk(o, s', Go(u));
    assert s'.threads[u] == Calling(0, false) && s'.threads[h] == Building(0);
    s' := Filled(o, s', h);
    s' := EarlyCall(o, s', u);
  }

  lemma {:induction false} FromMade(o: State, s: State, h: nat) returns (s': State)
    requires Later(o, s) && Ok(s) && h < |s.threads| && s.threads[h] == Made(0)
    ensures Later(o, s') && Overlap(s')
  {
    assert ThreadOk(s, s.threads[h]);
    hide Later, Ok, Overlap;
    s' := Walk(o, s, Go(h));
    s' := WhileBuilding(o, s', h);
  }

  lemma {:induction false} FromLocked(o: State, s: State, h: nat) returns (s': State)
    requires Later(o, s) && Ok(s) && h < |s.threads| && s.instance.None? && s.objects == []
    requires s.threads[h] == Locked || s.threads[h] == Empty
    ensures Later(o, s') && Overlap(s')
  {
    hide Later, Ok, Overlap;
    s' := s;
    if s.threads[h] == Locked {
      s' := Walk(o, s', Go(h));
    }
    s' := Walk(o, s', Go(h));
    s' := FromMade(o, s', h);
  }

  lemma {:induction false} FromNothing(o: State, s: State) returns (s': State)
    requires Later(o, s) && Ok(s) && s.instance.None? && s.objects == []
    ensures Later(o, s') && Overlap(s')
  {
    if s.lock.Some? {
      var h := s.lock.value;
      assert ThreadOk(s, s.threads[h]) && HoldsClass(s.threads[h]);
      s' := FromLocked(o, s, h);
    } else {
      hide Later, Ok, Overlap;
      var u := |s.threads|;
      s' := Walk(o, s, Spawn);
      s' := Walk(o, s', Go(u));
      s' := Walk(o, s', Go(u));
      s' := FromLocked(o, s', u);
    }
  }

  lemma {:induction false} Unsettled(o: State, s: State) returns (s': State)
    requires Later(o, s) && Ok(s) && !Settled(s)
    ensures Later(o, s') && Overlap(s')
  {
    if Complete(s) {
      var t: nat :| t < |s.threads| && (s.threads[t].Calling? || s.threads[t].Inside?) && !s.threads[t].own;
      assert ThreadOk(s, s.threads[t]);
      if s.threads[t].Calling? {
        s' := EarlyCall(o, s, t);
      } else {
        s' := Joined(o, s, t);
      }
    } else if s.instance.None? && s.objects == [] {
      s' := FromNothing(o, s);
    } else {
      var h := s.lock.value;
      if s.threads[h] == Made(0) {
        s' := FromMade(o, s, h);
      } else {
        s' := WhileBuilding(o, s, h);
      }
    }
  }

  /** After any run, two bodies can still come to overlap if and only if the collector is not
      settled. */
  lemma {:induction false} OverlapExactly(first: seq<Action>)
    requires RunFrom(INIT, first).Some?
    ensures var s := RunFrom(INIT, first).value; (exists s' :: Later(s, s') && Overlap(s')) <==> !Settled(s)
  {
    var s := RunFrom(INIT, first).value;
    assert Ok(INIT);
    OkStays(INIT, first);
    if !Settled(s) {
      assert RunFrom(s, []) == Some(s);
      assert Later(s, s);
      var s' := Unsettled(s, s);
    } else {
      hide Settled, Busy, RunFrom, Inv;
      forall s' | Later(s, s') ensures !Overlap(s') {
        var rest :| RunFrom(s, rest) == Some(s');
        BuiltFirst(first, rest);
      }
    }
  }
}
