// What a run does and what it reports: which actions are performed, in which
// order, and the list of errors that Execute joins (seeder/seeder.go).
module Schedule {
  import opened Wire
  import opened Engine
  import opened Runs
  import opened Traces

  function Flatten<T>(f: seq<seq<T>>): seq<T> {
    if f == [] then [] else f[0] + Flatten(f[1..])
  }

  // performAction returns the errors it was handed together with its own, and
  // Execute appends all of them to the list that it had.
  function Accumulate(errs: seq<Error>, f: seq<seq<Error>>): seq<Error>
    decreases |f|
  {
    if f == [] then errs else Accumulate(errs + errs + f[0], f[1..])
  }

  function KnownOnes(acts: seq<Action>): seq<Action> {
    if acts == [] then []
    else if Known(acts[0]) then [acts[0]] + KnownOnes(acts[1..]) else KnownOnes(acts[1..])
  }

  // `n` entries, doubled by each of `k` later actions.
  function Scaled(n: nat, k: nat): nat {
    if k == 0 then n else 2 * Scaled(n, k - 1)
  }

  // How often an error is listed: twice as often for each later known action.
  function Copies(f: seq<seq<Error>>, e: Error): nat {
    if f == [] then 0 else Scaled(multiset(f[0])[e], |f| - 1) + Copies(f[1..], e)
  }

  function Total(f: seq<seq<Error>>): nat {
    if f == [] then 0 else Scaled(|f[0]|, |f| - 1) + Total(f[1..])
  }

  // The elements in order of their first occurrence.
  function FirstOccurrences<T(==)>(l: seq<T>): seq<T> {
    if l == [] then []
    else
      var r := FirstOccurrences(l[..|l| - 1]);
      if l[|l| - 1] in l[..|l| - 1] then r else r + [l[|l| - 1]]
  }

  lemma {:induction false} RunAccumulates<W>(perform: (Action, W) -> (W, seq<Error>), acts: seq<Action>, w: W,
      errs: seq<Error>)
    ensures var deeds := Deeds(perform, false, acts, w);
            Loop(perform, false, acts, w, errs) == (EndOf(deeds, w), Accumulate(errs, Raised(deeds)))
    decreases |acts|
  {
    if acts == [] {
    } else if !Known(acts[0]) {
      RunAccumulates(perform, acts[1..], w, errs);
    } else {
      var (w', raised) := perform(acts[0], w);
      var rest := Deeds(perform, false, acts[1..], w');
      var deeds := Deeds(perform, false, acts, w);
      assert deeds == [Deed(acts[0], w, w', raised)] + rest && deeds[1..] == rest;
      var errs' := errs + errs + raised;
      assert errs + (errs + raised) == errs';
      RunAccumulates(perform, acts[1..], w', errs');
      assert Loop(perform, false, acts, w, errs) == Loop(perform, false, acts[1..], w', errs');
      assert EndOf(deeds, w) == EndOf(rest, w');
    }
  }

  // With FailFast the run ends at the first action that raises anything, and
  // reports exactly what that action raised.
  lemma {:induction false} FailFastRun<W>(perform: (Action, W) -> (W, seq<Error>), acts: seq<Action>, w: W)
    ensures var deeds := Deeds(perform, true, acts, w);
            && Loop(perform, true, acts, w, [])
               == (EndOf(deeds, w), if deeds == [] then [] else deeds[|deeds| - 1].raised)
            && Quiet(deeds)
    decreases |acts|
  {
    if acts == [] {
    } else if !Known(acts[0]) {
      FailFastRun(perform, acts[1..], w);
    } else {
      var (w', raised) := perform(acts[0], w);
      assert [] + raised == raised && [] + ([] + raised) == raised;
      if raised == [] {
        FailFastRun(perform, acts[1..], w');
        QuietExtends(Deed(acts[0], w, w', raised), Deeds(perform, true, acts[1..], w'));
      }
    }
  }

  // Nothing is raised before the last action.
  ghost predicate Quiet<W>(deeds: seq<Deed<W>>) {
    forall i :: 0 <= i < |deeds| - 1 ==> deeds[i].raised == []
  }

  lemma QuietExtends<W>(d: Deed<W>, rest: seq<Deed<W>>)
    requires d.raised == [] && Quiet(rest)
    ensures Quiet([d] + rest)
  {
    assert forall i :: 1 <= i < |rest| + 1 ==> ([d] + rest)[i] == rest[i - 1];
  }

  // The performed actions are the known ones in order: all of them, or with
  // FailFast the prefix that ends at the first failure.
  lemma {:induction false} PerformedActions<W>(perform: (Action, W) -> (W, seq<Error>), failFast: bool,
      acts: seq<Action>, w: W)
    ensures var deeds := Deeds(perform, failFast, acts, w);
            && |deeds| <= |KnownOnes(acts)|
            && (forall i :: 0 <= i < |deeds| ==> deeds[i].action == KnownOnes(acts)[i])
            && (|deeds| < |KnownOnes(acts)| ==> failFast && deeds != [] && deeds[|deeds| - 1].raised != [])
    decreases |acts|
  {
    if acts == [] {
    } else if !Known(acts[0]) {
      PerformedActions(perform, failFast, acts[1..], w);
    } else {
      var (w', raised) := perform(acts[0], w);
      PerformedActions(perform, failFast, acts[1..], w');
    }
  }

  lemma {:induction false} ScaledIsLinear(m: nat, n: nat, k: nat)
    ensures Scaled(2 * m + n, k) == Scaled(m, k + 1) + Scaled(n, k)
    ensures Scaled(m, k) >= m && (m == 0 ==> Scaled(m, k) == 0)
  {
    if k > 0 {
      ScaledIsLinear(m, n, k - 1);
    }
  }

  lemma {:induction false} CopiesOfAnError(errs: seq<Error>, f: seq<seq<Error>>, e: Error)
    ensures multiset(Accumulate(errs, f))[e] == Scaled(multiset(errs)[e], |f|) + Copies(f, e)
    decreases |f|
  {
    if f != [] {
      CopiesOfAnError(errs + errs + f[0], f[1..], e);
      assert multiset(errs + errs + f[0])[e] == 2 * multiset(errs)[e] + multiset(f[0])[e];
      ScaledIsLinear(multiset(errs)[e], multiset(f[0])[e], |f| - 1);
    }
  }

  lemma {:induction false} LengthOfTheList(errs: seq<Error>, f: seq<seq<Error>>)
    ensures |Accumulate(errs, f)| == Scaled(|errs|, |f|) + Total(f)
    decreases |f|
  {
    if f != [] {
      LengthOfTheList(errs + errs + f[0], f[1..]);
      ScaledIsLinear(|errs|, |f[0]|, |f| - 1);
    }
  }

  // At most 2 * (2^n - 1) errors, as each action raises one or two.
  lemma {:induction false} TotalIsBounded(f: seq<seq<Error>>)
    requires forall g <- f :: |g| <= 2
    ensures Total(f) + 2 <= Scaled(2, |f|)
  {
    if f != [] {
      assert f[0] in f && forall g <- f[1..] :: g in f;
      TotalIsBounded(f[1..]);
      ScaledIsLinear(2, 0, |f| - 1);
      ScaledIsMonotone(|f[0]|, 2, |f| - 1);
    }
  }

  lemma {:induction false} ScaledIsMonotone(m: nat, n: nat, k: nat)
    requires m <= n
    ensures Scaled(m, k) <= Scaled(n, k)
  {
    if k > 0 {
      ScaledIsMonotone(m, n, k - 1);
    }
  }

  lemma {:induction false} RepeatsAddNothing<T>(l: seq<T>, again: seq<T>)
    requires forall e <- again :: e in l
    ensures FirstOccurrences(l + again) == FirstOccurrences(l)
  {
    if again == [] {
      assert l + again == l;
    } else {
      var init := again[..|again| - 1];
      assert (l + again)[..|l + again| - 1] == l + init;
      assert again[|again| - 1] in l;
      RepeatsAddNothing(l, init);
    }
  }

  lemma {:induction false} DoubledPrefix<T>(l: seq<T>, tail: seq<T>)
    ensures FirstOccurrences(l + l + tail) == FirstOccurrences(l + tail)
  {
    if tail == [] {
      assert l + l + tail == l + l && l + tail == l;
      RepeatsAddNothing(l, l);
    } else {
      var init := tail[..|tail| - 1];
      assert (l + l + tail)[..|l + l + tail| - 1] == l + l + init;
      assert (l + tail)[..|l + tail| - 1] == l + init;
      DoubledPrefix(l, init);
    }
  }

  lemma {:induction false} DistinctErrorsInRunOrder(errs: seq<Error>, f: seq<seq<Error>>)
    ensures FirstOccurrences(Accumulate(errs, f)) == FirstOccurrences(errs + Flatten(f))
    decreases |f|
  {
    if f == [] {
      assert errs + Flatten(f) == errs;
    } else {
      DistinctErrorsInRunOrder(errs + errs + f[0], f[1..]);
      var tail := Flatten(f[1..]);
      assert errs + errs + f[0] + tail == errs + errs + (f[0] + tail);
      DoubledPrefix(errs, f[0] + tail);
    }
  }

  lemma {:induction false} AtMostTwoErrorsEach<S>(x: Ctx<S>, cm: Option<Manager>, failFast: bool, acts: seq<Action>,
      w: World<S>)
    ensures forall g <- Raised(Deeds(Performer(x, cm), failFast, acts, w)) :: |g| <= 2
    ensures |Raised(Deeds(Performer(x, cm), failFast, acts, w))| == |Deeds(Performer(x, cm), failFast, acts, w)|
    decreases |acts|
  {
    if acts == [] {
    } else if !Known(acts[0]) {
      AtMostTwoErrorsEach(x, cm, failFast, acts[1..], w);
    } else {
      var (w', raised) := Perform(x, cm, acts[0], w);
      AtMostTwoErrorsEach(x, cm, failFast, acts[1..], w');
      var rest := if raised != [] && failFast then [] else Deeds(Performer(x, cm), failFast, acts[1..], w');
      assert Deeds(Performer(x, cm), failFast, acts, w)[1..] == rest;
    }
  }

  // The error list of a run without FailFast, in closed form.
  lemma ErrorList<S>(x: Ctx<S>, cm: Option<Manager>, acts: seq<Action>, w: World<S>)
    ensures var f := Raised(Deeds(Performer(x, cm), false, acts, w));
            var errs := Execute(x, cm, false, acts, w).1;
            && |f| == |KnownOnes(acts)|
            && (forall e :: multiset(errs)[e] == Copies(f, e))
            && |errs| == Total(f) <= Scaled(2, |f|) - 2
            && FirstOccurrences(errs) == FirstOccurrences(Flatten(f))
            && (errs == [] <==> forall g <- f :: g == [])
  {
    var f := Raised(Deeds(Performer(x, cm), false, acts, w));
    RunAccumulates(Performer(x, cm), acts, w, []);
    PerformedActions(Performer(x, cm), false, acts, w);
    AtMostTwoErrorsEach(x, cm, false, acts, w);
    LengthOfTheList([], f);
    ScaledIsLinear(0, 0, |f|);
    TotalIsBounded(f);
    forall e ensures multiset(Accumulate([], f))[e] == Copies(f, e) {
      CopiesOfAnError([], f, e);
      ScaledIsLinear(0, 0, |f|);
    }
    DistinctErrorsInRunOrder([], f);
    assert [] + Flatten(f) == Flatten(f);
    NothingRaised(f);
  }

  lemma {:induction false} NothingRaised(f: seq<seq<Error>>)
    ensures Total(f) == 0 <==> forall g <- f :: g == []
  {
    if f != [] {
      NothingRaised(f[1..]);
      ScaledIsLinear(|f[0]|, 0, |f| - 1);
      assert f[0] in f && forall g <- f[1..] :: g in f;
      assert forall g <- f :: g == f[0] || g in f[1..];
      assert Total(f) == Scaled(|f[0]|, |f| - 1) + Total(f[1..]);
    }
  }

  // An error raised once, by the j-th known action alone, is listed 2^(n-1-j) times.
  lemma {:induction false} CopiesOfALoneError(f: seq<seq<Error>>, j: nat, e: Error)
    requires j < |f| && multiset(f[j])[e] == 1
    requires forall i :: 0 <= i < |f| && i != j ==> e !in f[i]
    ensures Copies(f, e) == Scaled(1, |f| - 1 - j)
  {
    if j == 0 {
      NoCopies(f[1..], e);
    } else {
      assert e !in multiset(f[0]);
      ScaledIsLinear(0, 0, |f| - 1);
      CopiesOfALoneError(f[1..], j - 1, e);
    }
  }

  lemma {:induction false} NoCopies(f: seq<seq<Error>>, e: Error)
    requires forall i :: 0 <= i < |f| ==> e !in f[i]
    ensures Copies(f, e) == 0
  {
    if f != [] {
      assert e !in multiset(f[0]);
      ScaledIsLinear(0, 0, |f| - 1);
      NoCopies(f[1..], e);
    }
  }

  // Each deed is one performance of a known action, and begins where the one
  // before it ended.
  ghost predicate Linked<W>(perform: (Action, W) -> (W, seq<Error>), deeds: seq<Deed<W>>, w: W) {
    && (deeds != [] ==> deeds[0].before == w)
    && (forall i :: 0 < i < |deeds| ==> deeds[i].before == deeds[i - 1].after)
    && (forall d <- deeds :: Known(d.action) && perform(d.action, d.before) == (d.after, d.raised))
  }

  lemma {:induction false} DeedsAreLinked<W>(perform: (Action, W) -> (W, seq<Error>), failFast: bool,
      acts: seq<Action>, w: W)
    ensures Linked(perform, Deeds(perform, failFast, acts, w), w)
    decreases |acts|
  {
    if acts == [] {
    } else if !Known(acts[0]) {
      DeedsAreLinked(perform, failFast, acts[1..], w);
    } else {
      var (w', raised) := perform(acts[0], w);
      DeedsAreLinked(perform, failFast, acts[1..], w');
      var rest := if raised != [] && failFast then [] else Deeds(perform, failFast, acts[1..], w');
      var d := Deed(acts[0], w, w', raised);
      assert forall i :: 1 <= i < |rest| + 1 ==> ([d] + rest)[i] == rest[i - 1];
    }
  }

  // One action of a run: its requests are as Traces.dfy says, with an empty
  // private id to begin with, and it raises nothing of its own exactly when it
  // ends well.
  ghost predicate Proper<S>(x: Ctx<S>, cm: Option<Manager>, d: Deed<World<S>>) {
    && Known(d.action) && d.before.log <= d.after.log
    && var s, a, t := Registered(d.action.strategy).value, Effective(cm, d.action), Trace(d.before, d.after);
       && Verbs(t) in Language(s) && Orderly(s, a, t)
       && AsExpected(x.lib, s, a, "", d.before, t)
       && (d.raised == ReplaceErrors(cm, d.action) <==> EndsWell(x.lib, s, a, t))
  }

  lemma PerformIsProper<S>(x: Ctx<S>, cm: Option<Manager>, d: Deed<World<S>>)
    requires Known(d.action) && Perform(x, cm, d.action, d.before) == (d.after, d.raised)
    ensures Proper(x, cm, d)
  {
    var s, a := Registered(d.action.strategy).value, Effective(cm, d.action);
    TraceOfAnAction(x, s, a, "", d.before);
    var err := RunStrategy(x, s, a, "", d.before).1;
    assert |d.raised| == |ReplaceErrors(cm, d.action)| + |AsList(err)|;
    assert err.None? ==> d.raised == ReplaceErrors(cm, d.action);
  }

  // The requests of a whole run are those of its actions one after the other.
  lemma EveryDeedIsProper<S>(x: Ctx<S>, cm: Option<Manager>, failFast: bool, acts: seq<Action>, w: World<S>)
    ensures var deeds := Deeds(Performer(x, cm), failFast, acts, w);
            Linked(Performer(x, cm), deeds, w) && forall d <- deeds :: Proper(x, cm, d)
  {
    var deeds := Deeds(Performer(x, cm), failFast, acts, w);
    DeedsAreLinked(Performer(x, cm), failFast, acts, w);
    forall d | d in deeds ensures Proper(x, cm, d) {
      assert Performer(x, cm)(d.action, d.before) == (d.after, d.raised);
      PerformIsProper(x, cm, d);
    }
  }

  // What holds throughout a run is what every performed action finds.
  lemma {:induction false} ThroughoutIsEveryDeed<W>(ok: (Action, W) -> bool, perform: (Action, W) -> (W, seq<Error>),
      failFast: bool, acts: seq<Action>, w: W)
    ensures Throughout(ok, perform, failFast, acts, w)
       <==> forall d <- Deeds(perform, failFast, acts, w) :: ok(d.action, d.before)
    decreases |acts|
  {
    if acts != [] {
      if !Known(acts[0]) {
        ThroughoutIsEveryDeed(ok, perform, failFast, acts[1..], w);
      } else {
        var (w', raised) := perform(acts[0], w);
        ThroughoutIsEveryDeed(ok, perform, failFast, acts[1..], w');
        var rest := if raised != [] && failFast then [] else Deeds(perform, failFast, acts[1..], w');
        var deeds := [Deed(acts[0], w, w', raised)] + rest;
        assert Deeds(perform, failFast, acts, w) == deeds && deeds[0] in deeds;
        assert forall d <- deeds :: d == deeds[0] || d in rest;
        assert forall d <- rest :: d in deeds;
      }
    }
  }
}
