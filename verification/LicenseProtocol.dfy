/** The licence check under threads: clock and environment are read outside the lock, the
    cache is tested and written field by field inside it, and the check itself, which may be
    slow, runs outside again. */
module LicenseProtocol {
  import opened Wrappers
  import opened License

  /** Where a thread is in `is_licensed`. */
  datatype Thread =
    | Idle
    | Clocked(now: real)
    | Keyed(now: real, key: string)
    | Looking(now: real, key: string)
    | Fresh(now: real, key: string)
    | Same(now: real, key: string)
    | Held(now: real, key: string, verdict: Option<bool>)
    | Stale(now: real, key: string)
    | Missed(now: real, key: string)
    | Checked(now: real, key: string, verdict: Option<bool>)
    | Writing(now: real, key: string, verdict: Option<bool>, written: nat)
    | Returned(now: real, key: string, verdict: Option<bool>, hit: bool)

  /** A real check: the clock reading of the call that made it, and the instant it was made. */
  datatype Check = Check(key: string, begun: real, at: real, verdict: bool)

  datatype State = State(clock: real, lock: Option<nat>, cache: Cache, threads: seq<Thread>, log: set<Check>)

  datatype Action =
    | Tick(elapsed: real)
    | Spawn
    | ReadClock(t: nat)
    | ReadKey(t: nat, key: string)
    | Lock(t: nat)
    | Go(t: nat)

  const INIT := State(0.0, None, EMPTY, [], {})

  predicate HoldsLock(p: Thread) { p.Looking? || p.Fresh? || p.Same? || p.Held? || p.Stale? || p.Writing? }

  function Put(threads: seq<Thread>, t: nat, p: Thread): (r: seq<Thread>)
    requires t < |threads|
    ensures |r| == |threads|
  {
    threads[t := p]
  }

  function Move(s: State, t: nat, p: Thread): (r: State)
    requires t < |s.threads|
  {
    s.(threads := Put(s.threads, t, p))
  }

  /** The next field of the entry, in the order the code assigns them. */
  function WriteField(c: Cache, p: Thread): (r: Cache)
    requires p.Writing?
  {
    if p.written == 0 then c.(valid := p.verdict)
    else if p.written == 1 then c.(expires := p.now + Ttl(p.key))
    else c.(key := Some(p.key))
  }

  /** The thread's next step when it needs neither input nor the lock. */
  function Advance(w: World, s: State, t: nat): (r: Option<State>)
    requires t < |s.threads|
  {
    match s.threads[t]
    case Looking(now, key) => Some(Move(s, t, if s.cache.expires > now then Fresh(now, key) else Stale(now, key)))
    case Fresh(now, key) => Some(Move(s, t, if s.cache.key == Some(key) then Same(now, key) else Stale(now, key)))
    case Same(now, key) => Some(Move(s, t, Held(now, key, s.cache.valid)))
    case Held(now, key, verdict) => Some(Move(s.(lock := None), t, Returned(now, key, verdict, true)))
    case Stale(now, key) => Some(Move(s.(lock := None), t, Missed(now, key)))
    case Missed(now, key) =>
      var verdict := Verdict(w, key, s.clock);
      Some(Move(s.(log := s.log + {Check(key, now, s.clock, verdict)}), t, Checked(now, key, Some(verdict))))
    case Writing(now, key, verdict, written) =>
      if written < 3 then
        Some(Move(s.(cache := WriteField(s.cache, s.threads[t])), t, Writing(now, key, verdict, written + 1)))
      else
        Some(Move(s.(lock := None), t, Returned(now, key, verdict, false)))
    case _ => None
  }

  /** One step of the whole system; None when the action is not enabled. */
  function Next(w: World, s: State, a: Action): (r: Option<State>) {
    match a
    case Tick(elapsed) => if elapsed >= 0.0 then Some(s.(clock := s.clock + elapsed)) else None
    case Spawn => Some(s.(threads := s.threads + [Idle]))
    case ReadClock(t) =>
      if t < |s.threads| && (s.threads[t].Idle? || s.threads[t].Returned?) then Some(Move(s, t, Clocked(s.clock))) else None
    case ReadKey(t, key) =>
      if t < |s.threads| && s.threads[t].Clocked? then Some(Move(s, t, Keyed(s.threads[t].now, key))) else None
    case Lock(t) =>
      if t >= |s.threads| || s.lock.Some? then None
      else (
        match s.threads[t]
        case Keyed(now, key) => Some(Move(s.(lock := Some(t)), t, Looking(now, key)))
        case Checked(now, key, verdict) => Some(Move(s.(lock := Some(t)), t, Writing(now, key, verdict, 0)))
        case _ => None)
    case Go(t) => if t < |s.threads| then Advance(w, s, t) else None
  }

  /** The state after a run of actions; None when one of them was not enabled. */
  function Run(w: World, actions: seq<Action>): (r: Option<State>) {
    if actions == [] then Some(INIT) else
      match Run(w, actions[..|actions| - 1])
      case None => None
      case Some(s) => Next(w, s, actions[|actions| - 1])
  }

  // ---- The invariant ----

  /** A verdict backed by a real check of that key, begun at `begun`. */
  ghost predicate Backed(s: State, key: string, verdict: Option<bool>, begun: real) {
    exists c :: c in s.log && c.key == key && c.begun == begun && Some(c.verdict) == verdict
  }

  /** A complete cache entry repeats some real check, and lapses with it. */
  ghost predicate Sound(s: State) {
    s.cache.key.Some? ==> Backed(s, s.cache.key.value, s.cache.valid, s.cache.expires - Ttl(s.cache.key.value))
  }

  /** The entry is being overwritten: some fields are new and some are old. */
  predicate Torn(s: State) {
    s.lock.Some? && s.lock.value < |s.threads| && s.threads[s.lock.value].Writing?
    && 0 < s.threads[s.lock.value].written < 3
  }

  ghost predicate ThreadOk(s: State, p: Thread) {
    && (!p.Idle? ==> p.now <= s.clock)
    && (p.Fresh? ==> s.cache.expires > p.now)
    && (p.Same? ==> Hit(s.cache, p.now, p.key))
    && (p.Held? ==> exists begun: real :: begun + Ttl(p.key) > p.now && Backed(s, p.key, p.verdict, begun))
    && (p.Checked? || p.Writing? ==> Backed(s, p.key, p.verdict, p.now))
    && (p.Writing? ==> WriterOk(s.cache, p))
    && (p.Returned? && !p.hit ==> Backed(s, p.key, p.verdict, p.now))
    && (p.Returned? && p.hit ==> exists begun: real :: begun + Ttl(p.key) > p.now && Backed(s, p.key, p.verdict, begun))
  }

  predicate WriterOk(c: Cache, p: Thread)
    requires p.Writing?
  {
    && p.written <= 3
    && (p.written >= 1 ==> c.valid == p.verdict)
    && (p.written >= 2 ==> c.expires == p.now + Ttl(p.key))
    && (p.written >= 3 ==> c.key == Some(p.key))
  }

  ghost predicate CheckOk(w: World, s: State, c: Check) {
    c.begun <= c.at <= s.clock && c.verdict == Verdict(w, c.key, c.at)
  }

  ghost predicate Inv(w: World, s: State) {
    && (forall t :: 0 <= t < |s.threads| ==> (HoldsLock(s.threads[t]) <==> s.lock == Some(t)))
    && (s.lock.Some? ==> s.lock.value < |s.threads|)
    && (forall t :: 0 <= t < |s.threads| ==> ThreadOk(s, s.threads[t]))
    && (forall c :: c in s.log ==> CheckOk(w, s, c))
    && (!Torn(s) ==> Sound(s))
  }

  // ---- Every step keeps it ----

  lemma {:induction false} BackedGrows(s: State, s': State, key: string, verdict: Option<bool>, begun: real)
    requires s.log <= s'.log && Backed(s, key, verdict, begun)
    ensures Backed(s', key, verdict, begun)
  {
    var c :| c in s.log && c.key == key && c.begun == begun && Some(c.verdict) == verdict;
    assert c in s'.log;
  }

  /** A thread that stands still stays in order while the log and the clock grow, provided
      the cache is untouched or the thread does not hold the lock. */
  lemma {:induction false} StandStill(s: State, s': State, p: Thread)
    requires ThreadOk(s, p) && s.log <= s'.log && s.clock <= s'.clock
    requires s'.cache == s.cache || !HoldsLock(p)
    ensures ThreadOk(s', p)
  {
    if p.Checked? || p.Writing? || (p.Returned? && !p.hit) {
      BackedGrows(s, s', p.key, p.verdict, p.now);
    }
    if p.Held? || (p.Returned? && p.hit) {
      var begun: real :| begun + Ttl(p.key) > p.now && Backed(s, p.key, p.verdict, begun);
      BackedGrows(s, s', p.key, p.verdict, begun);
    }
  }

  /** What remains to be shown of a step in which thread `t` moves to `p`. */
  lemma {:induction false} MoveKeeps(w: World, s: State, s': State, t: nat, p: Thread)
    requires Inv(w, s) && t < |s.threads| && s'.threads == s.threads[t := p]
    requires s.log <= s'.log && s.clock == s'.clock
    requires s'.cache == s.cache || HoldsLock(s.threads[t])
    requires s'.lock == s.lock || (s.lock == None && s'.lock == Some(t)) || (s.lock == Some(t) && s'.lock == None)
    requires HoldsLock(p) <==> s'.lock == Some(t)
    requires ThreadOk(s', p)
    requires forall c :: c in s'.log - s.log ==> CheckOk(w, s', c)
    requires !Torn(s') ==> Sound(s')
    ensures Inv(w, s')
  {
    forall u | 0 <= u < |s'.threads| ensures ThreadOk(s', s'.threads[u]) {
      if u != t {
        StandStill(s, s', s.threads[u]);
      }
    }
    forall c | c in s'.log ensures CheckOk(w, s', c) {
      if c in s.log {
        assert CheckOk(w, s, c);
      }
    }
  }

  lemma {:induction false} SoundGrows(s: State, s': State)
    requires Sound(s) && s.log <= s'.log && s'.cache == s.cache
    ensures Sound(s')
  {
    if s.cache.key.Some? {
      BackedGrows(s, s', s.cache.key.value, s.cache.valid, s.cache.expires - Ttl(s.cache.key.value));
    }
  }

  /** The clock moves, or a thread appears. */
  lemma {:induction false} QuietKeeps(w: World, s: State, s': State)
    requires Inv(w, s) && s.log == s'.log && s.clock <= s'.clock && s.cache == s'.cache && s.lock == s'.lock
    requires s'.threads == s.threads || s'.threads == s.threads + [Idle]
    ensures Inv(w, s')
  {
    forall u | 0 <= u < |s'.threads| ensures ThreadOk(s', s'.threads[u]) {
      if u < |s.threads| {
        StandStill(s, s', s.threads[u]);
      }
    }
    forall c | c in s'.log ensures CheckOk(w, s', c) {
      assert CheckOk(w, s, c);
    }
    if !Torn(s') {
      SoundGrows(s, s');
    }
  }

  /** Testing and reading the cache under the lock. */
  lemma {:induction false} LookKeeps(w: World, s: State, t: nat)
    requires Inv(w, s) && t < |s.threads|
    requires s.threads[t].Looking? || s.threads[t].Fresh? || s.threads[t].Same?
    ensures Inv(w, Advance(w, s, t).value)
  {
    var s' := Advance(w, s, t).value;
    var p := s.threads[t];
    assert ThreadOk(s, p);
    if p.Same? {
      var begun := s.cache.expires - Ttl(p.key);
      assert Backed(s', p.key, s.cache.valid, begun) by { BackedGrows(s, s', p.key, s.cache.valid, begun); }
    }
    SoundGrows(s, s');
    MoveKeeps(w, s, s', t, s'.threads[t]);
  }

  /** Leaving the lock, by a hit or by a miss. */
  lemma {:induction false} LeaveKeeps(w: World, s: State, t: nat)
    requires Inv(w, s) && t < |s.threads| && (s.threads[t].Held? || s.threads[t].Stale?)
    ensures Inv(w, Advance(w, s, t).value)
  {
    var s' := Advance(w, s, t).value;
    StandStill(s, s', s.threads[t]);
    SoundGrows(s, s');
    MoveKeeps(w, s, s', t, s'.threads[t]);
  }

  lemma {:induction false} CheckKeeps(w: World, s: State, t: nat)
    requires Inv(w, s) && t < |s.threads| && s.threads[t].Missed?
    ensures Inv(w, Advance(w, s, t).value)
  {
    var s' := Advance(w, s, t).value;
    var p := s.threads[t];
    var c := Check(p.key, p.now, s.clock, Verdict(w, p.key, s.clock));
    assert ThreadOk(s, p);
    assert c in s'.log;
    if !Torn(s') {
      assert s'.lock == s.lock != Some(t);
      SoundGrows(s, s');
    }
    MoveKeeps(w, s, s', t, s'.threads[t]);
  }

  /** Writing one field, and releasing the lock after the last. */
  lemma {:induction false} WriteKeeps(w: World, s: State, t: nat)
    requires Inv(w, s) && t < |s.threads| && s.threads[t].Writing?
    ensures Inv(w, Advance(w, s, t).value)
  {
    var s' := Advance(w, s, t).value;
    var p := s.threads[t];
    assert ThreadOk(s, p);
    BackedGrows(s, s', p.key, p.verdict, p.now);
    if p.written >= 2 {
      assert s'.cache == Entry(p.now, p.key, true).(valid := p.verdict);
      assert s'.cache.expires - Ttl(p.key) == p.now;
    }
    MoveKeeps(w, s, s', t, s'.threads[t]);
  }

  lemma {:induction false} LockKeeps(w: World, s: State, t: nat)
    requires Inv(w, s) && Next(w, s, Lock(t)).Some?
    ensures Inv(w, Next(w, s, Lock(t)).value)
  {
    var s' := Next(w, s, Lock(t)).value;
    StandStill(s, s', s.threads[t]);
    assert !Torn(s) && !Torn(s');
    SoundGrows(s, s');
    MoveKeeps(w, s, s', t, s'.threads[t]);
  }

  lemma {:induction false} ReadKeeps(w: World, s: State, a: Action)
    requires Inv(w, s) && (a.ReadClock? || a.ReadKey?) && Next(w, s, a).Some?
    ensures Inv(w, Next(w, s, a).value)
  {
    var s' := Next(w, s, a).value;
    assert ThreadOk(s, s.threads[a.t]);
    if !Torn(s') {
      assert !Torn(s);
      SoundGrows(s, s');
    }
    MoveKeeps(w, s, s', a.t, s'.threads[a.t]);
  }

  lemma {:induction false} NextKeeps(w: World, s: State, a: Action)
    requires Inv(w, s) && Next(w, s, a).Some?
    ensures Inv(w, Next(w, s, a).value)
  {
    hide Inv, Advance;
    match a
    case Tick(_) => QuietKeeps(w, s, Next(w, s, a).value);
    case Spawn => QuietKeeps(w, s, Next(w, s, a).value);
    case ReadClock(_) => ReadKeeps(w, s, a);
    case ReadKey(_, _) => ReadKeeps(w, s, a);
    case Lock(t) => LockKeeps(w, s, t);
    case Go(t) => GoKeeps(w, s, t);
  }

  lemma {:induction false} GoKeeps(w: World, s: State, t: nat)
    requires Inv(w, s) && t < |s.threads| && Advance(w, s, t).Some?
    ensures Inv(w, Advance(w, s, t).value)
  {
    var p := s.threads[t];
    assert p.Looking? || p.Fresh? || p.Same? || p.Held? || p.Stale? || p.Missed? || p.Writing?;
    hide Inv, Advance;
    if p.Looking? || p.Fresh? || p.Same? {
      LookKeeps(w, s, t);
    } else if p.Held? || p.Stale? {
      LeaveKeeps(w, s, t);
    } else if p.Missed? {
      CheckKeeps(w, s, t);
    } else {
      WriteKeeps(w, s, t);
    }
  }

  /** The invariant holds in every reachable state. */
  lemma {:induction false} RunKeeps(w: World, actions: seq<Action>)
    ensures Run(w, actions).Some? ==> Inv(w, Run(w, actions).value)
  {
    if actions != [] {
      var before := actions[..|actions| - 1];
      RunKeeps(w, before);
      if Run(w, actions).Some? {
        NextKeeps(w, Run(w, before).value, actions[|actions| - 1]);
      }
    }
  }

  // ---- What it gives ----

  /** A verdict returned from the cache is that of a real check of the same key, begun less
      than a minute before (five for the empty key); it is never the initial None. */
  lemma {:induction false} HitIsReal(w: World, actions: seq<Action>, t: nat)
    requires Run(w, actions).Some? && t < |Run(w, actions).value.threads|
    requires Run(w, actions).value.threads[t].Returned? && Run(w, actions).value.threads[t].hit
    ensures var s := Run(w, actions).value;
            var p := s.threads[t];
            exists c :: c in s.log && c.key == p.key && Some(c.verdict) == p.verdict
                     && c.begun > p.now - (if p.key == "" then 300.0 else 60.0) && CheckOk(w, s, c)
  {
    RunKeeps(w, actions);
    var s := Run(w, actions).value;
    var p := s.threads[t];
    assert ThreadOk(s, p);
    var begun: real :| begun + Ttl(p.key) > p.now && Backed(s, p.key, p.verdict, begun);
    var c :| c in s.log && c.key == p.key && c.begun == begun && Some(c.verdict) == p.verdict;
    assert CheckOk(w, s, c);
  }

  /** Over every interleaving, no call whose clock reading is a minute or more past the expiry
      of its key returns true, and no call with a bad key ever does. */
  lemma {:induction false} NoLateLicense(w: World, actions: seq<Action>, t: nat)
    requires Run(w, actions).Some? && t < |Run(w, actions).value.threads|
    requires Run(w, actions).value.threads[t].Returned?
    requires Run(w, actions).value.threads[t].verdict == Some(true)
    ensures var p := Run(w, actions).value.threads[t];
            p.key != "" && w.expiry(p.key).Some? && p.now < w.expiry(p.key).value + 60.0
  {
    RunKeeps(w, actions);
    var s := Run(w, actions).value;
    var p := s.threads[t];
    assert ThreadOk(s, p);
    var begun := p.now;
    if p.hit {
      begun :| begun + Ttl(p.key) > p.now && Backed(s, p.key, p.verdict, begun);
    }
    var c :| c in s.log && c.key == p.key && c.begun == begun && Some(c.verdict) == p.verdict;
    assert CheckOk(w, s, c);
  }
}
