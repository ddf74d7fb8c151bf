// The periodic resync: an update is enqueued when the hour is a multiple of the
// period and the minute is zero, whatever its generation
// (controller/internal/k8s/controller.go, doPeriodResync). Times are seconds
// since some midnight, on a clock that does not jump.
module Resync {
  const MINUTE := 60
  const HOUR := 3600

  function HourOf(t: nat): nat {
    (t / 3600) % 24
  }

  function MinuteOf(t: nat): nat {
    (t / 60) % 60
  }

  // doPeriodResync at a given hour and minute.
  predicate Due(hour: nat, minute: nat, period: nat)
    requires period >= 1
  {
    hour % period == 0 && minute == 0
  }

  predicate DueAt(t: nat, period: nat)
    requires period >= 1
  {
    Due(HourOf(t), MinuteOf(t), period)
  }

  function Min(a: nat, b: nat): nat {
    if a <= b then a else b
  }

  // Hours counted since that midnight; an hour matches by its place in the day.
  predicate Matches(h: nat, period: nat)
    requires period >= 1
  {
    (h % 24) % period == 0
  }

  // `h2` is the matching hour after the matching hour `h1`.
  ghost predicate Next(h1: nat, h2: nat, period: nat)
    requires period >= 1
  {
    h1 < h2 && Matches(h1, period) && Matches(h2, period) && forall h :: h1 < h < h2 ==> !Matches(h, period)
  }

  lemma DivMod(h: nat) returns (day: nat, hour: nat)
    ensures h == 24 * day + hour && hour < 24 && h % 24 == hour
  {
    day, hour := h / 24, h % 24;
  }

  lemma ModIs(day: nat, hour: nat)
    requires hour < 24
    ensures (24 * day + hour) % 24 == hour
  {
  }

  // A multiple of the period among the next `period` hours of the same day.
  lemma {:induction false} RoundUp(hour: nat, period: nat) returns (m: nat)
    requires period >= 1
    ensures hour <= m < hour + period && m % period == 0
  {
    if hour < period {
      m := if hour == 0 then 0 else period;
      if hour != 0 {
        MultipleModIsZero(1, period);
      }
    } else {
      m := RoundUp(hour - period, period);
      m := m + period;
      AddPeriod(m - period, period);
    }
  }

  lemma {:induction false} AddPeriod(m: nat, period: nat)
    requires period >= 1
    ensures (m + period) % period == m % period
  {
    var q, r := m / period, m % period;
    assert m + period == (q + 1) * period + r;
    UniqueRemainder(m + period, q + 1, r, period);
  }

  lemma AtLeastOnce(d: int, period: nat)
    requires d >= 1
    ensures d * period >= period
  {
    assert d * period == (d - 1) * period + period;
  }

  lemma UniqueRemainder(m: nat, q: nat, r: nat, period: nat)
    requires period >= 1 && m == q * period + r && r < period
    ensures m % period == r && m / period == q
  {
    Divides(m, period);
    SameQuotient(q, m / period, r, m % period, period);
  }

  lemma Divides(m: nat, period: nat)
    requires period >= 1
    ensures m == (m / period) * period + m % period
  {
  }

  lemma SameQuotient(q: nat, q': nat, r: nat, r': nat, period: nat)
    requires r < period && r' < period && q * period + r == q' * period + r'
    ensures q == q'
  {
    assert (q - q') * period == r' - r;
    assert (q' - q) * period == r - r';
    if q > q' {
      AtLeastOnce(q - q', period);
    } else if q' > q {
      AtLeastOnce(q' - q, period);
    }
  }

  lemma MultipleModIsZero(n: nat, period: nat)
    requires period >= 1
    ensures (n * period) % period == 0
  {
    UniqueRemainder(n * period, n, 0, period);
  }

  // From any hour on, one of the next min(period, 24) hours matches.
  lemma SomeHourMatches(h: nat, period: nat) returns (h': nat)
    requires period >= 1
    ensures h <= h' < h + Min(period, 24) && Matches(h', period)
  {
    var day, hour := DivMod(h);
    var m := RoundUp(hour, period);
    if m < 24 {
      h' := 24 * day + m;
      ModIs(day, m);
    } else if hour == 0 {
      h' := h;
      assert 0 % period == 0;
    } else {
      h' := 24 * (day + 1);
      ModIs(day + 1, 0);
      assert 0 % period == 0;
    }
  }

  // Matching hours are never further apart than that.
  lemma GapsAreBounded(h1: nat, h2: nat, period: nat)
    requires period >= 1 && Next(h1, h2, period)
    ensures h2 - h1 <= Min(period, 24)
  {
    var h := SomeHourMatches(h1 + 1, period);
  }

  // With an informer tick every minute, at any phase, every window of
  // min(period, 24) hours holds a tick that enqueues.
  lemma EveryWindowHasATick(phase: nat, t0: nat, period: nat) returns (i: nat)
    requires period >= 1 && phase <= t0
    ensures t0 <= phase + MINUTE * i < t0 + HOUR * Min(period, 24)
    ensures DueAt(phase + MINUTE * i, period)
  {
    var o := phase % 60;
    var h := (t0 - o + 3599) / 3600;
    var h' := SomeHourMatches(h, period);
    i := (3600 * h' + o - phase) / 60;
    assert phase + 60 * i == 3600 * h' + o;
    TickIsDue(h', o, period);
  }

  lemma TickIsDue(h: nat, o: nat, period: nat)
    requires period >= 1 && o < 60 && Matches(h, period)
    ensures DueAt(3600 * h + o, period)
  {
    assert (3600 * h + o) / 3600 == h;
    assert (3600 * h + o) / 60 == 60 * h;
  }

  // ---- Every `period` hours? ----

  ghost predicate EveryPeriod(period: nat)
    requires period >= 1
  {
    forall h1: nat, h2: nat :: Next(h1, h2, period) ==> h2 - h1 == period
  }

  lemma {:induction false} MultiplesMatch(n: nat, h: nat, period: nat)
    requires period >= 1
    ensures (n * period + h) % period == h % period
  {
    Divides(h, period);
    assert n * period + h == (n + h / period) * period + h % period;
    UniqueRemainder(n * period + h, n + h / period, h % period, period);
  }

  // If the period divides 24, the day does not matter.
  lemma MatchesIsMultiple(h: nat, period: nat)
    requires period >= 1 && 24 % period == 0
    ensures Matches(h, period) <==> h % period == 0
  {
    var day, hour := DivMod(h);
    Divides(24, period);
    var n := day * (24 / period);
    assert 24 * day == n * period;
    MultiplesMatch(n, hour, period);
  }

  lemma DividingPeriodsAreExact(period: nat, h1: nat, h2: nat)
    requires period >= 1 && 24 % period == 0 && Next(h1, h2, period)
    ensures h2 - h1 == period
  {
    MatchesIsMultiple(h1, period);
    MatchesIsMultiple(h2, period);
    MatchesIsMultiple(h1 + period, period);
    AddPeriod(h1, period);
    Divides(h1, period);
    Divides(h2, period);
    if h2 / period <= h1 / period {
      MulMonotone(h2 / period, h1 / period, period);
    } else {
      AtLeastOnce(h2 / period - h1 / period, period);
      assert h2 - h1 == (h2 / period - h1 / period) * period;
    }
  }

  lemma MulMonotone(a: nat, b: nat, period: nat)
    requires a <= b
    ensures a * period <= b * period
  {
    if a < b {
      assert b * period == a * period + (b - a) * period;
    }
  }

  // The last matching hour of a day is too close to midnight otherwise.
  lemma OtherPeriodsAreNot(period: nat) returns (h1: nat, h2: nat)
    requires period >= 1 && 24 % period != 0
    ensures Next(h1, h2, period) && h2 - h1 != period
  {
    Divides(23, period);
    h1, h2 := 23 - 23 % period, 24;
    MultipleModIsZero(23 / period, period);
    assert 0 % period == 0;
    forall h | h1 < h < h2 ensures !Matches(h, period) {
      UniqueRemainder(h, 23 / period, h - h1, period);
    }
    AddPeriod(h1, period);
  }

  // A resync happens every `period` hours exactly when the period divides 24.
  lemma WhenThePeriodIsKept(period: nat)
    requires period >= 1
    ensures EveryPeriod(period) <==> 24 % period == 0
  {
    if 24 % period == 0 {
      forall h1: nat, h2: nat | Next(h1, h2, period) ensures h2 - h1 == period {
        DividingPeriodsAreExact(period, h1, h2);
      }
    } else {
      var h1, h2 := OtherPeriodsAreNot(period);
    }
  }

  // ---- When no resync is due ----

  // A resync is due in the first minute of a matching hour and at no other time.
  lemma WhenDue(t: nat, period: nat)
    requires period >= 1
    ensures DueAt(t, period) <==> ((t / 3600) % 24) % period == 0 && t % 3600 < 60
  {
    var h, s := t / 3600, t % 3600;
    assert t == 3600 * h + s;
    assert t / 60 == 60 * h + s / 60;
    assert (60 * h + s / 60) % 60 == s / 60;
  }

  // None is due from the end of that minute until the next matching hour.
  lemma NoneDueBetween(h1: nat, h2: nat, t: nat, period: nat)
    requires period >= 1 && Next(h1, h2, period) && 3600 * h1 + 60 <= t < 3600 * h2
    ensures !DueAt(t, period)
  {
    WhenDue(t, period);
    var h := t / 3600;
    assert h1 <= h < h2;
    assert h == h1 ==> t % 3600 == t - 3600 * h1;
    assert h > h1 ==> !Matches(h, period);
  }

  // If the period divides 24, resyncs of different hours are almost `period`
  // hours apart.
  lemma DueTicksAreApart(t1: nat, t2: nat, period: nat)
    requires period >= 1 && 24 % period == 0
    requires DueAt(t1, period) && DueAt(t2, period) && t1 / 3600 < t2 / 3600
    ensures t2 - t1 > 3600 * period - 60
  {
    var h1, h2 := t1 / 3600, t2 / 3600;
    WhenDue(t1, period);
    WhenDue(t2, period);
    MatchesIsMultiple(h1, period);
    MatchesIsMultiple(h2, period);
    Divides(h1, period);
    Divides(h2, period);
    if h2 / period <= h1 / period {
      MulMonotone(h2 / period, h1 / period, period);
    } else {
      AtLeastOnce(h2 / period - h1 / period, period);
      assert h2 - h1 == (h2 / period - h1 / period) * period;
    }
  }
}
