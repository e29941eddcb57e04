/** The request ceiling (ratelimit.py): timestamps per key, pruned on read and swept when keys pile up. */
module Limiter {
  import opened Common

  /** Seconds; the clock is monotonic and continuous. */
  type Time = real

  const WINDOW := 60.0
  const SWEEP_THRESHOLD := 4096

  ghost predicate Rising(h: seq<Time>) {
    forall i, j :: 0 <= i <= j < |h| ==> h[i] <= h[j]
  }

  /** Hits not older than the window, counted over the whole history. */
  function Recent(h: seq<Time>, now: Time): nat {
    if h == [] then 0 else Recent(h[..|h| - 1], now) + if h[|h| - 1] >= now - WINDOW then 1 else 0
  }

  /** The hits of the last sixty seconds, one by one. */
  lemma {:induction false} RecentCounts(h: seq<Time>, now: Time)
    ensures Recent(h, now) == |set i | 0 <= i < |h| && now - h[i] <= 60.0|
  {
    var them := set i | 0 <= i < |h| && now - h[i] <= 60.0;
    if h != [] {
      var n := |h| - 1;
      RecentCounts(h[..n], now);
      var before := set i | 0 <= i < |h[..n]| && now - h[..n][i] <= 60.0;
      assert them == if now - h[n] <= 60.0 then before + {n} else before;
    }
  }

  /** What is kept of a history: its end, the rest having left the window by `clock`. */
  ghost predicate Suffix(kept: seq<Time>, whole: seq<Time>, clock: Time) {
    |kept| <= |whole| && kept == whole[|whole| - |kept|..]
    && forall i :: 0 <= i < |whole| - |kept| ==> whole[i] < clock - WINDOW
  }

  function Of(m: map<string, seq<Time>>, key: string): seq<Time> {
    if key in m then m[key] else []
  }

  lemma {:induction false} RecentOf(kept: seq<Time>, whole: seq<Time>, now: Time)
    requires Rising(whole) && Suffix(kept, whole, now) && (kept != [] ==> kept[0] >= now - WINDOW)
    ensures Recent(whole, now) == |kept|
    decreases |whole|
  {
    var n := |whole| - 1;
    if whole != [] {
      if kept != [] {
        assert whole[n] == kept[|kept| - 1] && kept[0] <= whole[n] by {
          assert kept[0] == whole[|whole| - |kept|];
        }
        assert kept[..|kept| - 1] == whole[..n][n - (|kept| - 1)..];
        RecentOf(kept[..|kept| - 1], whole[..n], now);
      } else {
        RecentOf([], whole[..n], now);
      }
    }
  }

  /** One key's bookkeeping against its whole history. */
  ghost predicate Kept(kept: seq<Time>, whole: seq<Time>, clock: Time) {
    Rising(whole) && Suffix(kept, whole, clock) && (whole != [] ==> whole[|whole| - 1] <= clock)
  }

  lemma KeptLater(kept: seq<Time>, whole: seq<Time>, clock: Time, now: Time)
    requires Kept(kept, whole, clock) && clock <= now
    ensures Kept(kept, whole, now)
  {
  }

  lemma KeptWithoutFirst(kept: seq<Time>, whole: seq<Time>, now: Time)
    requires Kept(kept, whole, now) && kept != [] && kept[0] < now - WINDOW
    ensures Kept(kept[1..], whole, now)
  {
  }

  lemma KeptCounts(kept: seq<Time>, whole: seq<Time>, now: Time)
    requires Kept(kept, whole, now) && (kept != [] ==> kept[0] >= now - WINDOW)
    ensures Recent(whole, now) == |kept|
  {
    RecentOf(kept, whole, now);
  }

  /** The last of these hits is still in the window. */
  predicate LastIn(kept: seq<Time>, now: Time) {
    kept != [] && kept[|kept| - 1] >= now - WINDOW
  }

  class RequestLimiter {
    const perMinute: int
    var hits: map<string, seq<Time>>
    /** Every accepted hit there ever was, and the last reading of the clock. */
    ghost var accepted: map<string, seq<Time>>
    ghost var clock: Time

    ghost predicate Valid()
      reads this
    {
      forall key :: Kept(Of(hits, key), Of(accepted, key), clock)
    }

    constructor (perMinute: int, now: Time)
      ensures Valid() && accepted == map[] && clock == now && this.perMinute == perMinute
    {
      this.perMinute := perMinute;
      hits, accepted, clock := map[], map[], now;
    }

    /** Spend one request. The answer is the one a limiter that forgets nothing would give. */
    method Allow(key: string, limit: Option<int>, now: Time) returns (allowed: bool)
      requires Valid() && now >= clock
      modifies this
      ensures Valid() && clock == now
      ensures allowed <==> Recent(Of(old(accepted), key), now) < (if limit.Some? then limit.value else perMinute)
      ensures accepted == if allowed then old(accepted)[key := Of(old(accepted), key) + [now]] else old(accepted)
      ensures key in hits && |hits[key]| == Recent(Of(accepted, key), now)
      ensures |old(hits)| <= SWEEP_THRESHOLD ==> hits.Keys == old(hits).Keys + {key}
      ensures |old(hits)| > SWEEP_THRESHOLD ==> forall k :: k in hits && k != key ==> LastIn(hits[k], now)
    {
      hide Recent, Kept;
      var ceiling := if limit.Some? then limit.value else perMinute;
      forall k ensures Kept(Of(hits, k), Of(accepted, k), now) {
        KeptLater(Of(hits, k), Of(accepted, k), clock, now);
      }
      clock := now;
      if |hits| > SWEEP_THRESHOLD {
        Sweep(now);
      }
      allowed := Spend(key, ceiling, now);
    }

    method Spend(key: string, ceiling: int, now: Time) returns (allowed: bool)
      requires Valid() && clock == now
      modifies this`hits, this`accepted
      ensures Valid() && (allowed <==> Recent(Of(old(accepted), key), now) < ceiling)
      ensures accepted == if allowed then old(accepted)[key := Of(old(accepted), key) + [now]] else old(accepted)
      ensures key in hits && |hits[key]| == Recent(Of(accepted, key), now) && hits == old(hits)[key := hits[key]]
    {
      hide Recent, Kept;
      var kept := Of(hits, key);
      ghost var whole := Of(accepted, key);
      var cutoff := now - WINDOW;
      while kept != [] && kept[0] < cutoff
        invariant Kept(kept, whole, now) && Valid() && hits == old(hits) && accepted == old(accepted) && clock == now
      {
        KeptWithoutFirst(kept, whole, now);
        kept := kept[1..];
      }
      KeptCounts(kept, whole, now);
      if |kept| >= ceiling {
        hits := hits[key := kept];
        return false;
      }
      Longer(kept, whole, now);
      OneMoreRecent(whole, now);
      hits := hits[key := kept + [now]];
      accepted := accepted[key := whole + [now]];
      forall k ensures Kept(Of(hits, k), Of(accepted, k), clock) {
        assert k != key ==> Kept(Of(old(hits), k), Of(old(accepted), k), clock);
      }
      return true;
    }

    /** Forget keys whose last hit has left the window. */
    method Sweep(now: Time)
      requires Valid() && clock == now
      modifies this`hits
      ensures Valid()
      ensures forall key :: key in hits <==>
        key in old(hits) && LastIn(old(hits)[key], now)
      ensures forall key :: key in hits ==> hits[key] == old(hits)[key]
    {
      hide Kept;
      var cutoff := now - WINDOW;
      var left := set key | key in hits && (hits[key] == [] || hits[key][|hits[key]| - 1] < cutoff);
      ghost var idle := left;
      ghost var before := hits;
      while left != {}
        invariant Valid() && left <= idle && forall key :: key in left ==> key in hits
        invariant forall key :: key in hits <==> key in before && (key in idle ==> key in left)
        invariant forall key :: key in hits ==> hits[key] == before[key]
        decreases left
      {
        var key :| key in left;
        left := left - {key};
        IdleGoes(hits[key], Of(accepted, key), now);
        hits := hits - {key};
      }
    }
  }

  lemma OneMoreRecent(whole: seq<Time>, now: Time)
    ensures Recent(whole + [now], now) == Recent(whole, now) + 1
  {
    assert (whole + [now])[..|whole|] == whole;
  }

  lemma Longer(kept: seq<Time>, whole: seq<Time>, now: Time)
    requires Kept(kept, whole, now)
    ensures Kept(kept + [now], whole + [now], now)
  {
  }

  lemma IdleGoes(kept: seq<Time>, whole: seq<Time>, now: Time)
    requires Kept(kept, whole, now) && (kept == [] || kept[|kept| - 1] < now - WINDOW)
    ensures Kept([], whole, now)
  {
    forall i | 0 <= i < |whole| ensures whole[i] < now - WINDOW {
      if kept != [] {
        assert whole[|whole| - 1] == kept[|kept| - 1];
      }
    }
  }

  // ------------------------------------------------------------------ what the ceiling means

  /** Any hit comes more than a window after the one `ceiling` hits before it. */
  ghost predicate Spaced(h: seq<Time>, ceiling: nat) {
    forall i :: ceiling <= i < |h| ==> h[i - ceiling] < h[i] - WINDOW
  }

  lemma {:induction false} RecentAtLeast(h: seq<Time>, now: Time, n: nat)
    requires Rising(h) && n <= |h| && (n > 0 ==> h[|h| - n] >= now - WINDOW)
    ensures Recent(h, now) >= n
    decreases |h|
  {
    if n > 0 {
      assert h[|h| - n] <= h[|h| - 1];
      if n > 1 {
        assert h[..|h| - 1][|h| - 1 - (n - 1)] == h[|h| - n];
      }
      RecentAtLeast(h[..|h| - 1], now, n - 1);
    }
  }

  /** Accepting only below the ceiling keeps hits spaced. */
  lemma AcceptedSpaced(h: seq<Time>, now: Time, ceiling: nat)
    requires Rising(h) && Spaced(h, ceiling) && Recent(h, now) < ceiling
    ensures Spaced(h + [now], ceiling)
  {
    if |h| >= ceiling && h[|h| - ceiling] >= now - WINDOW {
      RecentAtLeast(h, now, ceiling);
    }
  }

  ghost function Within(h: seq<Time>, from: Time): set<int> {
    set i | 0 <= i < |h| && from <= h[i] <= from + WINDOW
  }

  /** No closed window, wherever it starts, holds more accepted hits of a key than the ceiling. */
  lemma WindowHoldsCeiling(h: seq<Time>, ceiling: nat, from: Time)
    requires Rising(h) && Spaced(h, ceiling)
    ensures |Within(h, from)| <= ceiling
  {
    var first := FirstFrom(h, from, |h|);
    forall i | i in Within(h, from) ensures first <= i < first + ceiling {
      if i >= first + ceiling {
        FarApart(h, ceiling, first, i);
      }
    }
    Range(Within(h, from), first, ceiling);
  }

  lemma FarApart(h: seq<Time>, ceiling: nat, first: nat, i: nat)
    requires Rising(h) && Spaced(h, ceiling) && first + ceiling <= i < |h|
    ensures h[first] < h[i] - WINDOW
  {
    assert h[first] <= h[i - ceiling];
  }

  lemma {:induction false} FirstFrom(h: seq<Time>, from: Time, n: nat) returns (first: nat)
    requires Rising(h) && n <= |h|
    ensures first <= n && (forall i :: 0 <= i < first ==> h[i] < from) && forall i :: first <= i < n ==> from <= h[i]
  {
    if n == 0 || h[n - 1] < from {
      first := n;
    } else {
      first := FirstFrom(h, from, n - 1);
    }
  }

  lemma {:induction false} Range(s: set<int>, first: int, n: nat)
    requires forall i :: i in s ==> first <= i < first + n
    ensures |s| <= n
  {
    if n == 0 {
      assert forall i :: i !in s;
      assert s == {};
    } else {
      Range(s - {first + n - 1}, first, n - 1);
    }
  }

  /** The accepted hits of one key, asked for at these times under one ceiling. */
  function Spent(times: seq<Time>, ceiling: int): seq<Time> {
    if times == [] then [] else AfterOne(Spent(times[..|times| - 1], ceiling), times[|times| - 1], ceiling)
  }

  function AfterOne(h: seq<Time>, now: Time, ceiling: int): seq<Time> {
    if Recent(h, now) < ceiling then h + [now] else h
  }

  /** What is known of accepted hits, the last of them no later than `now`. */
  ghost predicate SpacedBy(h: seq<Time>, now: Time, ceiling: nat) {
    Rising(h) && Spaced(h, ceiling) && (h != [] ==> h[|h| - 1] <= now)
  }

  lemma SpendSpaced(h: seq<Time>, before: Time, now: Time, ceiling: nat)
    requires SpacedBy(h, before, ceiling) && before <= now
    ensures SpacedBy(AfterOne(h, now, ceiling), now, ceiling)
  {
    hide Recent, Spaced;
    if Recent(h, now) < ceiling {
      AcceptedSpaced(h, now, ceiling);
    }
  }

  lemma {:induction false} SpentSpaced(times: seq<Time>, ceiling: nat)
    requires Rising(times) && times != []
    ensures SpacedBy(Spent(times, ceiling), times[|times| - 1], ceiling)
  {
    hide SpacedBy, AfterOne;
    var n := |times| - 1;
    if n == 0 {
      NoneSpaced(times[0], ceiling);
      SpendSpaced([], times[0], times[0], ceiling);
    } else {
      SpentSpaced(times[..n], ceiling);
      SpendSpaced(Spent(times[..n], ceiling), times[n - 1], times[n], ceiling);
    }
  }

  lemma NoneSpaced(now: Time, ceiling: nat)
    ensures SpacedBy([], now, ceiling)
  {
  }

  /** Whatever a client does, and whichever 60 seconds are looked at, at most `ceiling` requests got through. */
  lemma CeilingHolds(times: seq<Time>, ceiling: nat, from: Time)
    requires Rising(times)
    ensures |Within(Spent(times, ceiling), from)| <= ceiling
  {
    if times == [] {
      assert Within([], from) == {};
    } else {
      SpentSpaced(times, ceiling);
      WindowHoldsCeiling(Spent(times, ceiling), ceiling, from);
    }
  }

  // ------------------------------------------------------------------ a client's whole conversation

  datatype Request = Request(key: string, at: Time)

  function TimesOf(requests: seq<Request>, key: string): seq<Time> {
    if requests == [] then []
    else TimesOf(requests[..|requests| - 1], key) + (if requests[|requests| - 1].key == key then [requests[|requests| - 1].at] else [])
  }

  ghost predicate InOrder(requests: seq<Request>) {
    forall i, j :: 0 <= i <= j < |requests| ==> requests[i].at <= requests[j].at
  }

  lemma {:induction false} TimesRise(requests: seq<Request>, key: string)
    requires InOrder(requests)
    ensures Rising(TimesOf(requests, key))
    ensures TimesOf(requests, key) != [] ==>
      requests != [] && TimesOf(requests, key)[|TimesOf(requests, key)| - 1] <= requests[|requests| - 1].at
  {
    if requests != [] {
      TimesRise(requests[..|requests| - 1], key);
    }
  }

  /**
   One limiter serving any requests of any clients, interleaved as they come, its map swept whenever it grows: in every
   closed window at most `perMinute` requests of a key got through.
  */
  method Serve(limiter: RequestLimiter, requests: seq<Request>) returns (answers: seq<bool>)
    requires limiter.Valid() && limiter.accepted == map[] && limiter.perMinute >= 0
    requires InOrder(requests) && (requests != [] ==> limiter.clock <= requests[0].at)
    modifies limiter
    ensures limiter.Valid() && |answers| == |requests|
    ensures forall key :: Of(limiter.accepted, key) == Spent(TimesOf(requests, key), limiter.perMinute)
    ensures forall key, from :: |Within(Of(limiter.accepted, key), from)| <= limiter.perMinute
  {
    hide AfterOne, Recent, Within, Spent, TimesOf, Kept;
    answers := [];
    var n := 0;
    NothingSpent(requests, limiter.perMinute);
    while n < |requests|
      invariant 0 <= n <= |requests| && |answers| == n && limiter.Valid()
      invariant n < |requests| ==> limiter.clock <= requests[n].at
      invariant forall key :: Of(limiter.accepted, key) == Spent(TimesOf(requests[..n], key), limiter.perMinute)
    {
      ghost var before := limiter.accepted;
      var allowed := limiter.Allow(requests[n].key, None, requests[n].at);
      answers := answers + [allowed];
      ServedOne(before, limiter.accepted, requests, n, limiter.perMinute, allowed);
      n := n + 1;
    }
    assert requests[..n] == requests;
    forall key, from ensures |Within(Of(limiter.accepted, key), from)| <= limiter.perMinute {
      TimesRise(requests, key);
      CeilingHolds(TimesOf(requests, key), limiter.perMinute, from);
    }
  }

  lemma NothingSpent(requests: seq<Request>, ceiling: int)
    ensures forall key :: Spent(TimesOf(requests[..0], key), ceiling) == []
  {
  }

  lemma ServedOne(before: map<string, seq<Time>>, after: map<string, seq<Time>>, requests: seq<Request>, n: nat,
                  ceiling: int, allowed: bool)
    requires n < |requests| && forall key :: Of(before, key) == Spent(TimesOf(requests[..n], key), ceiling)
    requires allowed <==> Recent(Of(before, requests[n].key), requests[n].at) < ceiling
    requires after == if allowed then before[requests[n].key := Of(before, requests[n].key) + [requests[n].at]]
      else before
    ensures forall key :: Of(after, key) == Spent(TimesOf(requests[..n + 1], key), ceiling)
  {
    hide Recent, Spent, TimesOf;
    var more := requests[..n + 1];
    assert more[..|more| - 1] == requests[..n];
    forall key ensures Of(after, key) == Spent(TimesOf(more, key), ceiling) {
      TimesStep(more, key);
      if key == requests[n].key {
        SpentStep(TimesOf(requests[..n], key), requests[n].at, ceiling);
      }
    }
  }

  lemma TimesStep(requests: seq<Request>, key: string)
    requires requests != []
    ensures var n := |requests| - 1;
      TimesOf(requests, key) == if requests[n].key == key then TimesOf(requests[..n], key) + [requests[n].at]
        else TimesOf(requests[..n], key)
  {
    assert TimesOf(requests[..|requests| - 1], key) + [] == TimesOf(requests[..|requests| - 1], key);
  }

  lemma SpentStep(times: seq<Time>, now: Time, ceiling: int)
    ensures Spent(times + [now], ceiling) == AfterOne(Spent(times, ceiling), now, ceiling)
  {
    assert (times + [now])[..|times|] == times;
  }
}
