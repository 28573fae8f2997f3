/** Particular runs of the licence protocol: a call alone, and two runs that show how sharp
    the guarantees are. */
module LicenseRuns {
  import opened Wrappers
  import opened License
  import opened LicenseProtocol

  function Exec(w: World, s: State, actions: seq<Action>): (r: Option<State>)
    decreases |actions|
  {
    if actions == [] then Some(s) else
      match Next(w, s, actions[0])
      case None => None
      case Some(s') => Exec(w, s', actions[1..])
  }

  lemma {:induction false} ExecStep(w: World, s: State, a: Action, rest: seq<Action>)
    requires Next(w, s, a).Some?
    ensures Exec(w, s, [a] + rest) == Exec(w, Next(w, s, a).value, rest)
  {
    assert ([a] + rest)[1..] == rest;
  }

  lemma {:induction false} ExecThen(w: World, s: State, a: seq<Action>, b: seq<Action>)
    requires Exec(w, s, a).Some?
    ensures Exec(w, s, a + b) == Exec(w, Exec(w, s, a).value, b)
    decreases |a|
  {
    if a == [] {
      assert a + b == b;
    } else {
      assert (a + b)[1..] == a[1..] + b;
      ExecThen(w, Next(w, s, a[0]).value, a[1..], b);
    }
  }

  /** Executing from the start is running. */
  lemma {:induction false} ExecIsRun(w: World, actions: seq<Action>)
    ensures Exec(w, INIT, actions) == Run(w, actions)
    decreases |actions|
  {
    if actions != [] {
      var before, a := actions[..|actions| - 1], actions[|actions| - 1];
      ExecIsRun(w, before);
      assert actions == before + [a];
      if Run(w, before).Some? {
        ExecThen(w, INIT, before, [a]);
        assert [a][1..] == [];
      } else {
        ExecStuck(w, INIT, before, [a]);
      }
    }
  }

  lemma {:induction false} ExecStuck(w: World, s: State, a: seq<Action>, b: seq<Action>)
    requires Exec(w, s, a) == None
    ensures Exec(w, s, a + b) == None
    decreases |a|
  {
    if a != [] {
      assert (a + b)[1..] == a[1..] + b;
      if Next(w, s, a[0]).Some? {
        ExecStuck(w, Next(w, s, a[0]).value, a[1..], b);
      }
    }
  }

  lemma {:induction false} Overwrite(threads: seq<Thread>, t: nat)
    requires t < |threads|
    ensures forall p, q :: Put(Put(threads, t, p), t, q) == Put(threads, t, q)
  {
  }

  predicate Ready(s: State, t: nat) {
    t < |s.threads| && s.lock == None && (s.threads[t].Idle? || s.threads[t].Returned?)
  }

  function Enter(t: nat, key: string): (r: seq<Action>) { [ReadClock(t), ReadKey(t, key), Lock(t)] }

  lemma {:induction false} Entered(w: World, s: State, t: nat, key: string)
    requires Ready(s, t)
    ensures Exec(w, s, Enter(t, key)) == Some(Move(s.(lock := Some(t)), t, Looking(s.clock, key)))
  {
    Overwrite(s.threads, t);
    var s1 := Move(s, t, Clocked(s.clock));
    var s2 := Move(s, t, Keyed(s.clock, key));
    var s3 := Move(s.(lock := Some(t)), t, Looking(s.clock, key));
    assert Next(w, s, ReadClock(t)) == Some(s1);
    assert Next(w, s1, ReadKey(t, key)) == Some(s2);
    assert Next(w, s2, Lock(t)) == Some(s3);
    hide Next, Move;
    assert Enter(t, key) == [ReadClock(t)] + [ReadKey(t, key), Lock(t)];
    ExecStep(w, s, ReadClock(t), [ReadKey(t, key), Lock(t)]);
    assert [ReadKey(t, key), Lock(t)] == [ReadKey(t, key)] + [Lock(t)];
    ExecStep(w, s1, ReadKey(t, key), [Lock(t)]);
    assert [Lock(t)] == [Lock(t)] + [];
    ExecStep(w, s2, Lock(t), []);
  }

  lemma {:induction false} ExecFour(w: World, s: State, t: nat, s1: State, s2: State, s3: State, s4: State)
    requires Next(w, s, Go(t)) == Some(s1) && Next(w, s1, Go(t)) == Some(s2)
    requires Next(w, s2, Go(t)) == Some(s3) && Next(w, s3, Go(t)) == Some(s4)
    ensures Exec(w, s, [Go(t), Go(t), Go(t), Go(t)]) == Some(s4)
  {
    var g := Go(t);
    hide Next;
    assert [g, g, g, g] == [g] + [g, g, g] && [g, g, g] == [g] + [g, g] && [g, g] == [g] + [g] && [g] == [g] + [];
    ExecStep(w, s, g, [g, g, g]);
    ExecStep(w, s1, g, [g, g]);
    ExecStep(w, s2, g, [g]);
    ExecStep(w, s3, g, []);
  }

  /** A call that finds a fresh entry for its key, undisturbed. */
  lemma {:induction false} HitAlone(w: World, s: State, t: nat, key: string)
    requires Ready(s, t) && Hit(s.cache, s.clock, key)
    ensures Exec(w, s, Enter(t, key) + [Go(t), Go(t), Go(t), Go(t)])
         == Some(Move(s, t, Returned(s.clock, key, s.cache.valid, true)))
  {
    Overwrite(s.threads, t);
    Entered(w, s, t, key);
    var l := s.(lock := Some(t));
    var s0 := Move(l, t, Looking(s.clock, key));
    ExecThen(w, s, Enter(t, key), [Go(t), Go(t), Go(t), Go(t)]);
    ExecFour(w, s0, t, Move(l, t, Fresh(s.clock, key)), Move(l, t, Same(s.clock, key)),
             Move(l, t, Held(s.clock, key, s.cache.valid)), Move(s, t, Returned(s.clock, key, s.cache.valid, true)));
  }

  /** The steps of a call that misses, up to its check. */
  function Miss(c: Cache, now: real, t: nat, key: string): (r: seq<Action>) {
    Enter(t, key) + if c.expires > now then [Go(t), Go(t), Go(t), Go(t)] else [Go(t), Go(t), Go(t)]
  }

  function AfterCheck(w: World, s: State, t: nat, key: string): (r: State)
    requires t < |s.threads|
  {
    var verdict := Verdict(w, key, s.clock);
    Move(s.(log := s.log + {Check(key, s.clock, s.clock, verdict)}), t, Checked(s.clock, key, Some(verdict)))
  }

  lemma {:induction false} MissAlone(w: World, s: State, t: nat, key: string)
    requires Ready(s, t) && !Hit(s.cache, s.clock, key)
    ensures Exec(w, s, Miss(s.cache, s.clock, t, key)) == Some(AfterCheck(w, s, t, key))
  {
    Overwrite(s.threads, t);
    Entered(w, s, t, key);
    var g, l := Go(t), s.(lock := Some(t));
    var s0 := Move(l, t, Looking(s.clock, key));
    var stale, missed := Move(l, t, Stale(s.clock, key)), Move(s, t, Missed(s.clock, key));
    assert Next(w, stale, g) == Some(missed) && Next(w, missed, g) == Some(AfterCheck(w, s, t, key));
    if s.cache.expires > s.clock {
      ExecThen(w, s, Enter(t, key), [g, g, g, g]);
      var young := Move(l, t, Fresh(s.clock, key));
      assert Next(w, s0, g) == Some(young) && Next(w, young, g) == Some(stale);
      ExecFour(w, s0, t, young, stale, missed, AfterCheck(w, s, t, key));
    } else {
      ExecThen(w, s, Enter(t, key), [g, g, g]);
      assert Next(w, s0, g) == Some(stale);
      hide Next, AfterCheck, Move;
      assert [g, g, g] == [g] + [g, g] && [g, g] == [g] + [g] && [g] == [g] + [];
      ExecStep(w, s0, g, [g, g]);
      ExecStep(w, stale, g, [g]);
      ExecStep(w, missed, g, []);
    }
  }

  function Write(t: nat): (r: seq<Action>) { [Lock(t)] + [Go(t), Go(t), Go(t), Go(t)] }

  /** Writing out a checked verdict, undisturbed. */
  lemma {:induction false} WriteAlone(w: World, s: State, t: nat)
    requires t < |s.threads| && s.lock == None && s.threads[t].Checked?
    ensures var p := s.threads[t];
            Exec(w, s, Write(t))
            == Some(Move(s.(cache := Cache(p.verdict, p.now + Ttl(p.key), Some(p.key))), t,
                         Returned(p.now, p.key, p.verdict, false)))
  {
    Overwrite(s.threads, t);
    var p, g, l := s.threads[t], Go(t), s.(lock := Some(t));
    var c := s.cache;
    var s0 := Move(l, t, Writing(p.now, p.key, p.verdict, 0));
    assert Next(w, s, Lock(t)) == Some(s0);
    ExecStep(w, s, Lock(t), [g, g, g, g]);
    var c1 := c.(valid := p.verdict);
    var c2 := c1.(expires := p.now + Ttl(p.key));
    var c3 := c2.(key := Some(p.key));
    var s1 := Move(l.(cache := c1), t, Writing(p.now, p.key, p.verdict, 1));
    var s2 := Move(l.(cache := c2), t, Writing(p.now, p.key, p.verdict, 2));
    var s3 := Move(l.(cache := c3), t, Writing(p.now, p.key, p.verdict, 3));
    WriteStep(w, l, t, c, p, 0);
    WriteStep(w, l, t, c1, p, 1);
    WriteStep(w, l, t, c2, p, 2);
    assert s0 == Move(l.(cache := c), t, Writing(p.now, p.key, p.verdict, 0));
    ExecFour(w, s0, t, s1, s2, s3,
             Move(s.(cache := c3), t, Returned(p.now, p.key, p.verdict, false)));
  }

  lemma {:induction false} WriteStep(w: World, l: State, t: nat, c: Cache, p: Thread, written: nat)
    requires t < |l.threads| && p.Checked? && written < 3
    ensures var q := Writing(p.now, p.key, p.verdict, written);
            Next(w, Move(l.(cache := c), t, q), Go(t))
            == Some(Move(l.(cache := WriteField(c, q)), t, Writing(p.now, p.key, p.verdict, written + 1)))
  {
    Overwrite(l.threads, t);
  }

  /** From `s` to `s'`, thread `t` has made one sequential call. */
  predicate Answered(w: World, s: State, s': State, t: nat, key: string)
    requires t < |s.threads|
  {
    var (cache, verdict) := CallAlone(w, s.cache, s.clock, key, s.clock);
    s'.cache == cache && s'.threads == Put(s.threads, t, Returned(s.clock, key, verdict, Hit(s.cache, s.clock, key)))
  }

  /** A step of thread `t` within a call with this key. */
  predicate OwnStep(a: Action, t: nat, key: string) { a == ReadKey(t, key) || a == Lock(t) || a == Go(t) }

  predicate OwnSteps(actions: seq<Action>, t: nat, key: string) {
    forall i :: 0 <= i < |actions| ==> OwnStep(actions[i], t, key)
  }

  /** One call of thread `t` and nothing else: it reads the clock once and then makes its steps. */
  predicate OneCall(actions: seq<Action>, t: nat, key: string) {
    actions != [] && actions[0] == ReadClock(t) && OwnSteps(actions[1..], t, key)
  }

  /** The run goes through, and leaves thread `t` with an answer. */
  predicate Returns(w: World, s: State, actions: seq<Action>, t: nat) {
    var r := Exec(w, s, actions); r.Some? && t < |r.value.threads| && r.value.threads[t].Returned?
  }

  /** Inside a call a thread has one step to make, if any, and none once it has returned. */
  lemma {:induction false} OneStep(w: World, s: State, t: nat, key: string, a: Action, b: Action)
    requires OwnStep(a, t, key) && Next(w, s, a).Some?
    ensures t < |s.threads| && !s.threads[t].Returned?
    ensures OwnStep(b, t, key) && Next(w, s, b).Some? ==> a == b
  {
  }

  lemma {:induction false} OnlyWay(w: World, s: State, t: nat, key: string, a: seq<Action>, b: seq<Action>)
    requires OwnSteps(a, t, key) && OwnSteps(b, t, key) && Returns(w, s, a, t) && Returns(w, s, b, t)
    ensures a == b
    decreases |a|
  {
    if a == [] && b == [] {
    } else if a == [] {
      OneStep(w, s, t, key, b[0], b[0]);
    } else if b == [] {
      OneStep(w, s, t, key, a[0], a[0]);
    } else {
      OneStep(w, s, t, key, a[0], b[0]);
      hide Next;
      assert OwnSteps(a[1..], t, key) && OwnSteps(b[1..], t, key);
      OnlyWay(w, Next(w, s, a[0]).value, t, key, a[1..], b[1..]);
      assert a == [a[0]] + a[1..] && b == [b[0]] + b[1..];
    }
  }

  /** The steps of a call that nobody disturbs. */
  function CallSteps(s: State, t: nat, key: string): (r: seq<Action>) {
    if Hit(s.cache, s.clock, key) then Enter(t, key) + [Go(t), Go(t), Go(t), Go(t)]
    else Miss(s.cache, s.clock, t, key) + Write(t)
  }

  lemma {:induction false} CallReturns(w: World, s: State, t: nat, key: string)
    requires Ready(s, t)
    ensures var a := CallSteps(s, t, key);
            OneCall(a, t, key) && Returns(w, s, a, t) && Answered(w, s, Exec(w, s, a).value, t, key)
  {
    if Hit(s.cache, s.clock, key) {
      HitAlone(w, s, t, key);
    } else {
      MissAlone(w, s, t, key);
      WriteAlone(w, AfterCheck(w, s, t, key), t);
      ExecThen(w, s, Miss(s.cache, s.clock, t, key), Write(t));
    }
  }

  /** A call that no other thread disturbs can run to its end, and every such run does to the
      cache, and answers, exactly what the sequential call does. */
  lemma {:induction false} AloneIsSequential(w: World, s: State, t: nat, key: string, actions: seq<Action>)
    requires Ready(s, t)
    ensures Returns(w, s, CallSteps(s, t, key), t) && OneCall(CallSteps(s, t, key), t, key)
    ensures OneCall(actions, t, key) && Returns(w, s, actions, t) ==> Answered(w, s, Exec(w, s, actions).value, t, key)
  {
    var a := CallSteps(s, t, key);
    CallReturns(w, s, t, key);
    hide CallSteps, Answered, Next, Ready;
    if OneCall(actions, t, key) && Returns(w, s, actions, t) {
      var s' := Next(w, s, ReadClock(t)).value;
      OnlyWay(w, s', t, key, actions[1..], a[1..]);
      assert actions == [actions[0]] + actions[1..] && a == [a[0]] + a[1..];
    }
  }

  // ---- How sharp the guarantees are ----

  /** The clock at `at`, and `n` idle threads. */
  function Start(at: real, n: nat): (s: State) { State(at, None, EMPTY, seq(n, _ => Idle), {}) }

  function Spawns(n: nat): (r: seq<Action>) { if n == 0 then [] else Spawns(n - 1) + [Spawn] }

  lemma {:induction false} Started(w: World, at: real, n: nat)
    requires at >= 0.0
    ensures Exec(w, INIT, [Tick(at)] + Spawns(n)) == Some(Start(at, n))
  {
    var ticked := [Tick(at)];
    if n == 0 {
      ExecStep(w, INIT, Tick(at), []);
      assert seq(0, _ => Idle) == [];
    } else {
      Started(w, at, n - 1);
      ExecThen(w, INIT, ticked + Spawns(n - 1), [Spawn]);
      assert ticked + Spawns(n) == ticked + Spawns(n - 1) + [Spawn];
      assert [Spawn] == [Spawn] + [];
      ExecStep(w, Start(at, n - 1), Spawn, []);
      assert seq(n, _ => Idle) == seq(n - 1, _ => Idle) + [Idle];
    }
  }

  lemma {:induction false} Ticked(w: World, s: State, elapsed: real)
    requires elapsed >= 0.0
    ensures Exec(w, s, [Tick(elapsed)]) == Some(s.(clock := s.clock + elapsed))
  {
    assert [Tick(elapsed)] == [Tick(elapsed)] + [];
    ExecStep(w, s, Tick(elapsed), []);
  }

  /** Some run of the first thread alone ends with this answer. */
  ghost predicate Answers(w: World, actions: seq<Action>, p: Thread) {
    Run(w, actions).Some? && |Run(w, actions).value.threads| > 0 && Run(w, actions).value.threads[0] == p
  }

  /** A call at the expiry instant, on a fresh cache: checked true and written out. */
  lemma {:induction false} CheckedAtExpiry(w: World, key: string, expiry: real, n: nat)
    requires key != "" && w.expiry(key) == Some(expiry) && expiry >= 0.0 && n > 0
    ensures var a := [Tick(expiry)] + Spawns(n) + Miss(EMPTY, expiry, 0, key);
            Exec(w, INIT, a) == Some(AfterCheck(w, Start(expiry, n), 0, key))
  {
    Started(w, expiry, n);
    MissAlone(w, Start(expiry, n), 0, key);
    ExecThen(w, INIT, [Tick(expiry)] + Spawns(n), Miss(EMPTY, expiry, 0, key));
  }

  /** The minute of grace is real: whatever the expiry and the delay short of a minute, some
      run serves a true verdict that long after the expiry. */
  lemma {:induction false} LateByAlmostAMinute(w: World, key: string, expiry: real, delay: real)
    requires key != "" && w.expiry(key) == Some(expiry) && expiry >= 0.0 && 0.0 <= delay < 60.0
    ensures var p := Returned(expiry + delay, key, Some(true), true); exists actions :: Answers(w, actions, p)
  {
    var s1 := AfterCheck(w, Start(expiry, 1), 0, key);
    var a1 := [Tick(expiry)] + Spawns(1) + Miss(EMPTY, expiry, 0, key);
    var a2, a3, a4 := Write(0), [Tick(delay)], Enter(0, key) + [Go(0), Go(0), Go(0), Go(0)];
    CheckedAtExpiry(w, key, expiry, 1);
    WriteAlone(w, s1, 0);
    var s2 := Exec(w, s1, a2).value;
    var s3 := s2.(clock := s2.clock + delay);
    HitAlone(w, s3, 0, key);
    var p := Returned(expiry + delay, key, Some(true), true);
    assert Exec(w, s3, a4).value.threads[0] == p;
    hide Next, Move, AfterCheck, Miss, Write, Enter, Spawns, Run, Exec;
    Ticked(w, s2, delay);
    ExecThen(w, INIT, a1, a2);
    ExecThen(w, INIT, a1 + a2, a3);
    ExecThen(w, INIT, a1 + a2 + a3, a4);
    ExecIsRun(w, a1 + a2 + a3 + a4);
    assert Answers(w, a1 + a2 + a3 + a4, p);
  }

  predicate Says(p: Thread, key: string, verdict: bool) { p.Returned? && p.key == key && p.verdict == Some(verdict) }

  /** At the instant `said` thread `t` has answered false; thread `u`, which has not started
      then, later reads the clock at `now` and answers true for the same key. */
  ghost predicate Revived(
      w: World, before: seq<Action>, after: seq<Action>, key: string, said: real, now: real, t: nat, u: nat)
  {
    && Run(w, before).Some? && Run(w, before + after).Some?
    && var s, s' := Run(w, before).value, Run(w, before + after).value;
    && t < |s.threads| && u < |s.threads| && u < |s'.threads|
    && s.clock == said && Says(s.threads[t], key, false) && s.threads[u] == Idle
    && Says(s'.threads[u], key, true) && s'.threads[u].now == now
  }

  /** Thread 0 checks at the expiry instant and stalls before writing; at `said` thread 1
      checks, writes false and returns. */
  lemma {:induction false} Stall(w: World, key: string, expiry: real, said: real) returns (before: seq<Action>, s: State)
    requires key != "" && w.expiry(key) == Some(expiry) && expiry >= 0.0 && said > expiry
    ensures Exec(w, INIT, before) == Some(s) && s.lock == None && s.clock == said
    ensures s.threads == [Checked(expiry, key, Some(true)), Returned(said, key, Some(false), false), Idle]
  {
    var s1 := AfterCheck(w, Start(expiry, 3), 0, key);
    var a1, a2 := [Tick(expiry)] + Spawns(3) + Miss(EMPTY, expiry, 0, key), Miss(EMPTY, said, 1, key);
    CheckedAtExpiry(w, key, expiry, 3);
    var s2 := s1.(clock := said);
    Ticked(w, s1, said - expiry);
    MissAlone(w, s2, 1, key);
    var s3 := AfterCheck(w, s2, 1, key);
    WriteAlone(w, s3, 1);
    s := Exec(w, s3, Write(1)).value;
    hide Exec, Next, Miss, Write, Spawns;
    Four(w, INIT, a1, s1, [Tick(said - expiry)], s2, a2, s3, Write(1), s);
    before := a1 + [Tick(said - expiry)] + a2 + Write(1);
  }

  /** Thread 0 then writes its older verdict, and at `now` thread 2 is served it. */
  lemma {:induction false} Restore(w: World, key: string, expiry: real, said: real, now: real, s: State)
      returns (after: seq<Action>, s': State)
    requires key != "" && s.lock == None && s.clock == said && said <= now < expiry + 60.0
    requires s.threads == [Checked(expiry, key, Some(true)), Returned(said, key, Some(false), false), Idle]
    ensures Exec(w, s, after) == Some(s') && |s'.threads| == 3
    ensures s'.threads[2] == Returned(now, key, Some(true), true)
  {
    WriteAlone(w, s, 0);
    var s1 := Exec(w, s, Write(0)).value;
    var s2 := s1.(clock := now);
    Ticked(w, s1, now - said);
    HitAlone(w, s2, 2, key);
    var a := Enter(2, key) + [Go(2), Go(2), Go(2), Go(2)];
    s' := Exec(w, s2, a).value;
    hide Exec, Next, Write, Enter;
    ExecThen(w, s, Write(0), [Tick(now - said)]);
    ExecThen(w, s, Write(0) + [Tick(now - said)], a);
    after := Write(0) + [Tick(now - said)] + a;
  }

  lemma {:induction false} VerdictRevives(w: World, key: string, expiry: real, said: real, now: real)
    requires key != "" && w.expiry(key) == Some(expiry) && expiry >= 0.0 && expiry < said <= now < expiry + 60.0
    ensures exists before, after :: Revived(w, before, after, key, said, now, 1, 2)
  {
    hide Exec, Run;
    var before, s := Stall(w, key, expiry, said);
    var after, s' := Restore(w, key, expiry, said, now, s);
    ExecThen(w, INIT, before, after);
    ExecIsRun(w, before);
    ExecIsRun(w, before + after);
    assert Revived(w, before, after, key, said, now, 1, 2);
  }

  /** A false answer for a key that expires is given only after the expiry. */
  lemma {:induction false} FalseIsLate(w: World, s: State, t: nat)
    requires Inv(w, s) && t < |s.threads| && s.threads[t].Returned? && s.threads[t].verdict == Some(false)
    requires s.threads[t].key != "" && w.expiry(s.threads[t].key).Some?
    ensures s.clock > w.expiry(s.threads[t].key).value
  {
    var p := s.threads[t];
    assert ThreadOk(s, p);
    var begun := p.now;
    if p.hit {
      begun :| begun + Ttl(p.key) > p.now && Backed(s, p.key, p.verdict, begun);
    }
    var c :| c in s.log && c.key == p.key && c.begun == begun && Some(c.verdict) == p.verdict;
    assert CheckOk(w, s, c);
  }

  /** Thread `u` has not read the clock before the instant `since`. */
  predicate NotBefore(s: State, u: nat, since: real) {
    u < |s.threads| && s.clock >= since && (s.threads[u].Idle? || s.threads[u].now >= since)
  }

  lemma {:induction false} NotBeforeStep(w: World, s: State, a: Action, u: nat, since: real)
    requires NotBefore(s, u, since) && Next(w, s, a).Some?
    ensures NotBefore(Next(w, s, a).value, u, since)
  {
  }

  lemma {:induction false} NotBeforeStays(w: World, s: State, actions: seq<Action>, u: nat, since: real)
    requires NotBefore(s, u, since) && Exec(w, s, actions).Some?
    ensures NotBefore(Exec(w, s, actions).value, u, since)
    decreases |actions|
  {
    if actions != [] {
      hide Next, NotBefore;
      NotBeforeStep(w, s, actions[0], u, since);
      NotBeforeStays(w, Next(w, s, actions[0]).value, actions[1..], u, since);
    }
  }

  lemma {:induction false} RevivedWithin(
      w: World, before: seq<Action>, after: seq<Action>, key: string, expiry: real, said: real, now: real, t: nat, u: nat)
    requires key != "" && w.expiry(key) == Some(expiry) && Revived(w, before, after, key, said, now, t, u)
    ensures expiry < said <= now < expiry + 60.0
  {
    var s := Run(w, before).value;
    RunKeeps(w, before);
    FalseIsLate(w, s, t);
    NoLateLicense(w, before + after, u);
    ExecIsRun(w, before);
    ExecIsRun(w, before + after);
    ExecThen(w, INIT, before, after);
    NotBeforeStays(w, s, after, u, said);
  }

  /** Answers for one key are not monotone, exactly within the minute after its expiry: some run
      has answered false by `said` and later answers true at `now` if and only if both lie there. */
  lemma {:induction false} RevivesExactly(w: World, key: string, expiry: real, said: real, now: real)
    requires key != "" && w.expiry(key) == Some(expiry) && expiry >= 0.0
    ensures (exists before, after, t, u :: Revived(w, before, after, key, said, now, t, u))
       <==> expiry < said <= now < expiry + 60.0
  {
    hide Revived;
    if expiry < said <= now < expiry + 60.0 {
      VerdictRevives(w, key, expiry, said, now);
    }
    forall before, after, t, u | Revived(w, before, after, key, said, now, t, u)
      ensures expiry < said <= now < expiry + 60.0 {
      RevivedWithin(w, before, after, key, expiry, said, now, t, u);
    }
  }

  lemma {:induction false} Four(w: World, s: State, a: seq<Action>, s1: State, b: seq<Action>, s2: State,
                                c: seq<Action>, s3: State, d: seq<Action>, s4: State)
    requires Exec(w, s, a) == Some(s1) && Exec(w, s1, b) == Some(s2)
    requires Exec(w, s2, c) == Some(s3) && Exec(w, s3, d) == Some(s4)
    ensures Exec(w, s, a + b + c + d) == Some(s4)
  {
    hide Exec;
    ExecThen(w, s, a, b);
    ExecThen(w, s, a + b, c);
    ExecThen(w, s, a + b + c, d);
  }
}
