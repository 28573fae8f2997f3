/** Technical messages turned into guidance: each message becomes that of the first pattern it
    contains, empty ones are dropped, and repetitions are dropped in the end. */
module Humanize {
  import opened Strings

  /** Patterns and their messages, in order. */
  type Table = seq<(string, string)>

  function Guidance(table: Table, err: string): (r: string) {
    if table == [] then err
    else if Contains(err, table[0].0) then table[0].1
    else Guidance(table[1..], err)
  }

  function Mapped(table: Table, errs: seq<string>): (r: seq<string>) {
    if errs == [] then []
    else Mapped(table, errs[..|errs| - 1])
         + (if errs[|errs| - 1] == "" then [] else [Guidance(table, errs[|errs| - 1])])
  }

  /** `list(dict.fromkeys(s))` */
  function Distinct(s: seq<string>): (r: seq<string>) {
    if s == [] then []
    else
      var before := Distinct(s[..|s| - 1]);
      if s[|s| - 1] in before then before else before + [s[|s| - 1]]
  }

  function Humanized(table: Table, errs: seq<string>): (r: seq<string>) { Distinct(Mapped(table, errs)) }

  // ---- The loops ----

  method FindGuidance(table: Table, err: string) returns (r: string)
    ensures r == Guidance(table, err)
  {
    var found := false;
    r := err;
    var k := 0;
    while k < |table| && !found
      invariant 0 <= k <= |table|
      invariant !found ==> r == err && Guidance(table, err) == Guidance(table[k..], err)
      invariant found ==> r == Guidance(table, err)
    {
      assert table[k..][0] == table[k] && table[k..][1..] == table[k + 1..];
      if Contains(err, table[k].0) {
        r := table[k].1;
        found := true;
      }
      k := k + 1;
    }
  }

  method DropRepeats(s: seq<string>) returns (r: seq<string>)
    ensures r == Distinct(s)
  {
    r := [];
    var i := 0;
    while i < |s|
      invariant 0 <= i <= |s|
      invariant r == Distinct(s[..i])
    {
      assert s[..i + 1][..i] == s[..i];
      if s[i] !in r {
        r := r + [s[i]];
      }
      i := i + 1;
    }
    assert s[..i] == s;
  }

  method HumanizeErrors(table: Table, errs: seq<string>) returns (r: seq<string>)
    ensures r == Humanized(table, errs)
  {
    var human: seq<string> := [];
    if errs == [] {
      return [];
    }
    var i := 0;
    while i < |errs|
      invariant 0 <= i <= |errs|
      invariant human == Mapped(table, errs[..i])
    {
      assert errs[..i + 1][..i] == errs[..i];
      if errs[i] != "" {
        var message := FindGuidance(table, errs[i]);
        human := human + [message];
      }
      i := i + 1;
    }
    assert errs[..i] == errs;
    r := DropRepeats(human);
  }

  // ---- What comes out ----

  predicate NoRepeats(s: seq<string>) { forall i, j :: 0 <= i < j < |s| ==> s[i] != s[j] }

  /** `x` comes first in `s` at a place before any `y`. */
  predicate Earlier(s: seq<string>, x: string, y: string) { exists k :: 0 <= k < |s| && s[k] == x && y !in s[..k + 1] }

  predicate InOrderOf(r: seq<string>, s: seq<string>) { forall i, j :: 0 <= i < j < |r| ==> Earlier(s, r[i], r[j]) }

  lemma {:induction false} EarlierStays(s: seq<string>, x: string, y: string, more: seq<string>)
    requires Earlier(s, x, y)
    ensures Earlier(s + more, x, y)
  {
    var k :| 0 <= k < |s| && s[k] == x && y !in s[..k + 1];
    assert (s + more)[k] == x && (s + more)[..k + 1] == s[..k + 1];
  }

  lemma {:induction false} EarlierThanNew(s: seq<string>, x: string, y: string)
    requires x in s && y !in s
    ensures Earlier(s + [y], x, y)
  {
    var k :| 0 <= k < |s| && s[k] == x;
    assert (s + [y])[k] == x && (s + [y])[..k + 1] == s[..k + 1];
  }

  /** The list without repetitions: each element once, all of them, by first occurrence. */
  lemma {:induction false} DistinctIs(s: seq<string>)
    ensures NoRepeats(Distinct(s)) && (forall x :: x in Distinct(s) <==> x in s) && InOrderOf(Distinct(s), s)
  {
    if s != [] {
      var before, x := s[..|s| - 1], s[|s| - 1];
      DistinctIs(before);
      assert s == before + [x];
      var d, r := Distinct(before), Distinct(s);
      forall i, j | 0 <= i < j < |r| ensures Earlier(s, r[i], r[j]) {
        if j < |d| {
          EarlierStays(before, d[i], d[j], [x]);
        } else {
          EarlierThanNew(before, d[i], x);
        }
      }
    }
  }

  /** Nothing else has these three properties. */
  lemma {:induction false} OnlyDistinct(r: seq<string>, s: seq<string>)
    requires NoRepeats(r) && (forall x :: x in r <==> x in s) && InOrderOf(r, s)
    ensures r == Distinct(s)
  {
    DistinctIs(s);
    SameOrder(r, Distinct(s), s);
  }

  lemma {:induction false} NotBoth(s: seq<string>, x: string, y: string)
    requires Earlier(s, x, y)
    ensures !Earlier(s, y, x)
  {
    var k :| 0 <= k < |s| && s[k] == x && y !in s[..k + 1];
    forall j | 0 <= j <= k ensures s[j] != y {
      assert s[..k + 1][j] == s[j];
    }
    forall j | 0 <= j < |s| && s[j] == y ensures x in s[..j + 1] {
      assert s[..j + 1][k] == x;
    }
  }

  lemma {:induction false} InRest(a: seq<string>, y: string)
    requires NoRepeats(a) && a != []
    ensures y in a[1..] <==> y in a && y != a[0]
  {
    if y in a && y != a[0] {
      var i :| 0 <= i < |a| && a[i] == y;
      assert a[1..][i - 1] == y;
    }
  }

  lemma {:induction false} SomeIn(b: seq<string>)
    ensures b != [] ==> exists x :: x in b
  {
    if b != [] {
      assert b[0] in b;
    }
  }

  lemma {:induction false} SameOrder(a: seq<string>, b: seq<string>, s: seq<string>)
    requires NoRepeats(a) && NoRepeats(b) && InOrderOf(a, s) && InOrderOf(b, s)
    requires forall x :: x in a <==> x in b
    ensures a == b
  {
    if a == [] {
      SomeIn(b);
    } else {
      var x := a[0];
      assert x in b;
      assert b[0] in a;
      if b[0] != x {
        var i :| 0 <= i < |b| && b[i] == x;
        var j :| 0 <= j < |a| && a[j] == b[0];
        NotBoth(s, x, b[0]);
        assert false;
      }
      forall y ensures y in a[1..] <==> y in b[1..] {
        InRest(a, y);
        InRest(b, y);
      }
      SameOrder(a[1..], b[1..], s);
    }
  }

  lemma {:induction false} InLonger(s: seq<string>, x: string)
    ensures forall y :: y in s + [x] <==> y in s || y == x
  {
  }

  lemma {:induction false} MappedIs(table: Table, errs: seq<string>)
    ensures forall x :: x in Mapped(table, errs) <==> exists e :: e in errs && e != "" && x == Guidance(table, e)
  {
    if errs != [] {
      var before, e := errs[..|errs| - 1], errs[|errs| - 1];
      MappedIs(table, before);
      InLonger(before, e);
      assert errs == before + [e];
      hide Guidance;
      forall x ensures x in Mapped(table, errs) <==> exists e :: e in errs && e != "" && x == Guidance(table, e) {
        InLonger(Mapped(table, before), Guidance(table, e));
        assert x in Mapped(table, errs) <==> x in Mapped(table, before) || (e != "" && x == Guidance(table, e));
      }
    }
  }

  /** One message after another, the empty ones left out. */
  lemma {:induction false} MappedThen(table: Table, errs: seq<string>, err: string)
    ensures Mapped(table, []) == []
    ensures Mapped(table, errs + [err]) == Mapped(table, errs) + (if err == "" then [] else [Guidance(table, err)])
  {
    hide Guidance;
    assert (errs + [err])[..|errs|] == errs;
  }

  /** The guidance given: no repetition, the guidance of every message that is not empty and
      nothing else, in order of first occurrence. */
  lemma {:induction false} HumanizedIs(table: Table, errs: seq<string>)
    ensures NoRepeats(Humanized(table, errs))
    ensures forall x :: x in Humanized(table, errs) <==> exists e :: e in errs && e != "" && x == Guidance(table, e)
    ensures InOrderOf(Humanized(table, errs), Mapped(table, errs))
  {
    MappedIs(table, errs);
    DistinctIs(Mapped(table, errs));
  }

  /** The guidance of a message is that of the first pattern it contains, and the message itself
      when it contains none. */
  lemma {:induction false} GuidanceIs(table: Table, err: string, k: nat)
    ensures k < |table| && Contains(err, table[k].0) && (forall j :: 0 <= j < k ==> !Contains(err, table[j].0))
            ==> Guidance(table, err) == table[k].1
    ensures (forall j :: 0 <= j < |table| ==> !Contains(err, table[j].0)) ==> Guidance(table, err) == err
  {
    hide Contains;
    if table != [] {
      var rest := table[1..];
      assert forall j :: 0 < j < |table| ==> table[j] == rest[j - 1];
      assert forall j :: 0 <= j < |rest| ==> rest[j] == table[j + 1];
      GuidanceIs(rest, err, if k == 0 then 0 else k - 1);
    }
  }

  // ---- Guidance of guidance ----

  /** Every message of the table is its own guidance. */
  predicate Settled(table: Table) {
    forall k :: 0 <= k < |table| ==> table[k].1 != "" && Guidance(table, table[k].1) == table[k].1
  }

  lemma {:induction false} GuidanceFrom(table: Table, err: string)
    ensures Guidance(table, err) == err || exists k :: 0 <= k < |table| && Guidance(table, err) == table[k].1
  {
    if table != [] {
      GuidanceFrom(table[1..], err);
      if !Contains(err, table[0].0) && Guidance(table, err) != err {
        var k :| 0 <= k < |table[1..]| && Guidance(table[1..], err) == table[1..][k].1;
        assert table[k + 1] == table[1..][k];
      } else {
        assert Contains(err, table[0].0) ==> Guidance(table, err) == table[0].1;
      }
    }
  }

  lemma {:induction false} GuidanceTwice(table: Table, err: string)
    requires Settled(table) && err != ""
    ensures Guidance(table, err) != "" && Guidance(table, Guidance(table, err)) == Guidance(table, err)
  {
    hide Guidance;
    GuidanceFrom(table, err);
  }

  lemma {:induction false} MappedFixed(table: Table, errs: seq<string>)
    requires forall e :: e in errs ==> e != "" && Guidance(table, e) == e
    ensures Mapped(table, errs) == errs
  {
    if errs != [] {
      var before, e := errs[..|errs| - 1], errs[|errs| - 1];
      assert errs == before + [e] && e in errs;
      InLonger(before, e);
      MappedFixed(table, before);
    }
  }

  lemma {:induction false} DistinctFixed(s: seq<string>)
    requires NoRepeats(s)
    ensures Distinct(s) == s
  {
    assert InOrderOf(s, s) by {
      forall i, j | 0 <= i < j < |s| ensures Earlier(s, s[i], s[j]) {
        assert s[j] !in s[..i + 1];
      }
    }
    OnlyDistinct(s, s);
  }

  /** With a settled table, humanizing twice is humanizing once. */
  lemma {:induction false} Idempotent(table: Table, errs: seq<string>)
    requires Settled(table)
    ensures Humanized(table, Humanized(table, errs)) == Humanized(table, errs)
  {
    var r := Humanized(table, errs);
    HumanizedIs(table, errs);
    forall x | x in r ensures x != "" && Guidance(table, x) == x {
      var e :| e in errs && e != "" && x == Guidance(table, e);
      GuidanceTwice(table, e);
    }
    MappedFixed(table, r);
    DistinctFixed(r);
  }
}
