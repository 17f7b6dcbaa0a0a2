/** The quota tracker of the market-data client (class RateLimiter in
    src/lib/api/coinapi.ts): a trailing one-minute window of request instants
    and a monthly counter that rolls over after thirty days.  The clock is an
    explicit `now` argument in milliseconds. */
module RateLimiting {
  import opened Types

  /** Length of the short window: one minute. */
  const WINDOW_MS: int := 60000
  /** Length of the monthly period: thirty days. */
  const MONTH_MS: int := 30 * 24 * 60 * 60 * 1000

  // ---------------------------------------------------------------------
  // The short window

  /** The instants strictly later than `cutoff`, in their original order
      (`requests.filter(time => time > cutoff)`). */
  function Recent(ts: seq<int>, cutoff: int): (r: seq<int>)
    ensures |r| <= |ts|
  {
    if ts == [] then []
    else (if ts[0] > cutoff then [ts[0]] else []) + Recent(ts[1..], cutoff)
  }

  /** An instant survives the filter exactly when it was present and is
      strictly later than the cutoff. */
  lemma {:induction false} RecentMembers(ts: seq<int>, cutoff: int)
    ensures forall t :: t in Recent(ts, cutoff) <==> t in ts && t > cutoff
  {
    if ts != [] {
      RecentMembers(ts[1..], cutoff);
      assert ts == [ts[0]] + ts[1..];
    }
  }

  /** The filter preserves order: filtering a concatenation concatenates the
      filtered parts. */
  lemma {:induction false} RecentAppend(a: seq<int>, b: seq<int>, cutoff: int)
    ensures Recent(a + b, cutoff) == Recent(a, cutoff) + Recent(b, cutoff)
  {
    if a == [] {
      assert a + b == b;
    } else {
      assert (a + b)[1..] == a[1..] + b;
      RecentAppend(a[1..], b, cutoff);
    }
  }

  /** When every instant is later than the cutoff, nothing is dropped. */
  lemma {:induction false} RecentKeepsFresh(ts: seq<int>, cutoff: int)
    requires forall t :: t in ts ==> t > cutoff
    ensures Recent(ts, cutoff) == ts
  {
    if ts != [] {
      assert ts[0] in ts;
      forall t | t in ts[1..] ensures t > cutoff { assert t in ts; }
      RecentKeepsFresh(ts[1..], cutoff);
      assert ts == [ts[0]] + ts[1..];
    }
  }

  /** When no instant is later than the cutoff, everything is dropped. */
  lemma {:induction false} RecentDropsStale(ts: seq<int>, cutoff: int)
    requires forall t :: t in ts ==> t <= cutoff
    ensures Recent(ts, cutoff) == []
  {
    if ts != [] {
      assert ts[0] in ts;
      forall t | t in ts[1..] ensures t <= cutoff { assert t in ts; }
      RecentDropsStale(ts[1..], cutoff);
    }
  }

  /** Filtering twice with the same cutoff is filtering once. */
  lemma RecentIdempotent(ts: seq<int>, cutoff: int)
    ensures Recent(Recent(ts, cutoff), cutoff) == Recent(ts, cutoff)
  {
    RecentMembers(ts, cutoff);
    RecentKeepsFresh(Recent(ts, cutoff), cutoff);
  }

  /** The largest element (`Math.max(...s)` on a non-empty list). */
  function MaxOf(s: seq<int>): (m: int)
    requires |s| > 0
    ensures m in s
    ensures forall t :: t in s ==> t <= m
  {
    if |s| == 1 then s[0]
    else
      var rest := MaxOf(s[1..]);
      assert s == [s[0]] + s[1..];
      if s[0] >= rest then s[0] else rest
  }

  // ---------------------------------------------------------------------
  // The limiter's state as a value

  /** The three fields the limiter updates: the request instants of the
      short window, the monthly counter and the instant the month began. */
  datatype Quota = Quota(requests: seq<int>, monthlyRequests: int, monthStart: int)

  /** The two caps, fixed at construction (defaults 20 per minute, 500 per month). */
  datatype Limits = Limits(perMinute: int, perMonth: int)

  /** The housekeeping `canMakeRequest` does before it answers: drop the
      instants at least a minute old, and start a new month when more than
      thirty days have passed since the current one began. */
  function Purge(q: Quota, now: int): Quota
  {
    var kept := Recent(q.requests, now - WINDOW_MS);
    if now - q.monthStart > MONTH_MS then Quota(kept, 0, now)
    else Quota(kept, q.monthlyRequests, q.monthStart)
  }

  /** The answer of `canMakeRequest` on an already purged state. */
  predicate Admits(q: Quota, limits: Limits)
  {
    |q.requests| < limits.perMinute && q.monthlyRequests < limits.perMonth
  }

  /** `recordRequest` at `now`. */
  function Record(q: Quota, now: int): Quota
  {
    Quota(q.requests + [now], q.monthlyRequests + 1, q.monthStart)
  }

  /** `n` requests recorded at the same instant. */
  function Charge(q: Quota, now: int, n: nat): Quota
  {
    if n == 0 then q else Record(Charge(q, now, n - 1), now)
  }

  /** A state that the housekeeping at `now` leaves alone. */
  ghost predicate Settled(q: Quota, now: int)
  {
    (forall t :: t in q.requests ==> t > now - WINDOW_MS) && now - q.monthStart <= MONTH_MS
  }

  /** `getRateLimitInfo`: the smaller of the two remaining budgets, and the
      instant a minute after the latest recorded request. */
  function Info(q: Quota, limits: Limits, now: int): RateLimitInfo
  {
    var recent := |Recent(q.requests, now - WINDOW_MS)|;
    var remaining := if limits.perMinute - recent <= limits.perMonth - q.monthlyRequests
                     then limits.perMinute - recent
                     else limits.perMonth - q.monthlyRequests;
    RateLimitInfo(remaining, if |q.requests| == 0 then None else Some(MaxOf(q.requests) + WINDOW_MS))
  }

  // ---------------------------------------------------------------------
  // What the housekeeping guarantees

  /** After the housekeeping the window holds exactly the earlier instants
      later than `now - 60000`, in their order, and the month began at most
      thirty days ago: the state is settled at `now`. */
  lemma PurgeSettles(q: Quota, now: int)
    ensures Purge(q, now).requests == Recent(q.requests, now - WINDOW_MS)
    ensures forall t :: t in Purge(q, now).requests <==> t in q.requests && t > now - WINDOW_MS
    ensures Settled(Purge(q, now), now)
  {
    RecentMembers(q.requests, now - WINDOW_MS);
  }

  /** A settled state is a fixpoint of the housekeeping. */
  lemma SettledIsFixpoint(q: Quota, now: int)
    requires Settled(q, now)
    ensures Purge(q, now) == q
  {
    RecentKeepsFresh(q.requests, now - WINDOW_MS);
  }

  /** Polling `canMakeRequest` again at the same instant changes nothing: in
      particular the month does not roll over a second time. */
  lemma PurgeIdempotent(q: Quota, now: int)
    ensures Purge(Purge(q, now), now) == Purge(q, now)
  {
    PurgeSettles(q, now);
    SettledIsFixpoint(Purge(q, now), now);
  }

  /** A rollover at `now` sets the counter to zero and the month start to
      `now`, and no poll within the following thirty days resets it again. */
  lemma RolloverOncePerPeriod(q: Quota, now: int, later: int)
    requires now - q.monthStart > MONTH_MS
    requires now <= later <= now + MONTH_MS
    ensures Purge(q, now).monthlyRequests == 0 && Purge(q, now).monthStart == now
    ensures Purge(Purge(q, now), later).monthlyRequests == 0
    ensures Purge(Purge(q, now), later).monthStart == now
  {
  }

  /** The month rolls over exactly when more than thirty days have elapsed. */
  lemma RolloverIffMonthElapsed(q: Quota, now: int)
    requires q.monthStart != now
    ensures Purge(q, now).monthStart == now <==> now - q.monthStart > MONTH_MS
  {
  }

  /** Charging n requests at `now` appends n copies of `now` and adds n to
      the monthly counter. */
  lemma {:induction false} ChargeShape(q: Quota, now: int, n: nat)
    ensures Charge(q, now, n).requests == q.requests + seq(n, _ => now)
    ensures |Charge(q, now, n).requests| == |q.requests| + n
    ensures Charge(q, now, n).monthlyRequests == q.monthlyRequests + n
    ensures Charge(q, now, n).monthStart == q.monthStart
    ensures forall t :: t in Charge(q, now, n).requests <==> t in q.requests || (n > 0 && t == now)
  {
    if n > 0 {
      ChargeShape(q, now, n - 1);
      assert seq(n, _ => now) == seq(n - 1, _ => now) + [now];
    }
  }

  /** Requests recorded at `now` keep a state settled at `now`. */
  lemma ChargeSettled(q: Quota, now: int, n: nat)
    requires Settled(q, now)
    ensures Settled(Charge(q, now, n), now)
  {
    ChargeShape(q, now, n);
  }

  /** A window that already holds `perMinute` instants of the last minute
      denies the next request. */
  lemma FullWindowDenies(q: Quota, limits: Limits, now: int)
    requires forall t :: t in q.requests ==> t > now - WINDOW_MS
    requires |q.requests| >= limits.perMinute
    ensures !Admits(Purge(q, now), limits)
  {
    RecentKeepsFresh(q.requests, now - WINDOW_MS);
  }

  /** An instant at least a minute old is dropped by the filter, so the
      window shrinks. */
  lemma {:induction false} RecentDropsAged(ts: seq<int>, cutoff: int, t: int)
    requires t in ts && t <= cutoff
    ensures |Recent(ts, cutoff)| < |ts|
  {
    assert ts == [ts[0]] + ts[1..];
    if ts[0] != t {
      assert t in ts[1..];
      RecentDropsAged(ts[1..], cutoff, t);
    }
  }

  /** The other half of the window's promise: a full window denies only
      until its oldest instant ages out.  Once some recorded instant is a
      minute old, a window holding at most the cap has room again, and with
      room in the month the next check admits. */
  lemma AgedOutAdmits(q: Quota, limits: Limits, now: int, t: int)
    requires t in q.requests && t <= now - WINDOW_MS
    requires |q.requests| <= limits.perMinute
    requires 0 <= q.monthlyRequests < limits.perMonth
    ensures |Purge(q, now).requests| < limits.perMinute
    ensures Admits(Purge(q, now), limits)
  {
    RecentDropsAged(q.requests, now - WINDOW_MS, t);
  }

  /** From the reported reset time on, the short window is empty again. */
  lemma ResetTimeClearsWindow(q: Quota, limits: Limits, now: int)
    requires |q.requests| > 0
    requires Info(q, limits, now).resetTime.Some?
    requires now >= Info(q, limits, now).resetTime.value
    ensures Purge(q, now).requests == []
  {
    RecentDropsStale(q.requests, now - WINDOW_MS);
  }

  /** Under the caps' discipline the reported remaining budget is never negative. */
  lemma InfoNonNegative(q: Quota, limits: Limits, now: int)
    requires |q.requests| <= limits.perMinute && q.monthlyRequests <= limits.perMonth
    ensures Info(q, limits, now).requestsRemaining >= 0
  {
  }

  // ---------------------------------------------------------------------
  // The order of checks and records

  /** What the limiter has been asked: a check with its answer, or a record. */
  datatype Event = Checked(admitted: bool) | Recorded

  /** Every record follows immediately after a check that admitted it. */
  predicate RecordsFollowAdmission(h: seq<Event>)
  {
    forall i :: 0 <= i < |h| && h[i].Recorded? ==> 0 < i && h[i - 1] == Checked(true)
  }

  /** Once a check has denied, every later event is a denied check. */
  predicate DenialIsFinal(h: seq<Event>)
  {
    forall i, j :: 0 <= i < j < |h| && h[i] == Checked(false) ==> h[j] == Checked(false)
  }

  predicate LastAdmitted(h: seq<Event>)
  {
    |h| > 0 && h[|h| - 1] == Checked(true)
  }

  /** Extending a log whose denials are final by events that are all
      denials, if it holds one, keeps its denials final. */
  lemma DenialAppend(a: seq<Event>, b: seq<Event>)
    requires DenialIsFinal(a) && DenialIsFinal(b)
    requires Checked(false) in a ==> forall k :: 0 <= k < |b| ==> b[k] == Checked(false)
    ensures DenialIsFinal(a + b)
  {
    forall i, j | 0 <= i < j < |a + b| && (a + b)[i] == Checked(false)
      ensures (a + b)[j] == Checked(false)
    {
      if j >= |a| && i < |a| {
        assert a[i] == Checked(false);
        assert b[j - |a|] == Checked(false);
      } else if i >= |a| {
        assert b[i - |a|] == Checked(false);
      }
    }
  }

  // ---------------------------------------------------------------------
  // One orchestration at a fixed instant

  /** The limiter's state after the events of an orchestration at the
      instant `now`: a check purges, a record charges one request. */
  function Replay(q: Quota, now: int, events: seq<Event>): Quota
    decreases |events|
  {
    if events == [] then q
    else
      var p := Replay(q, now, events[..|events| - 1]);
      if events[|events| - 1].Checked? then Purge(p, now) else Record(p, now)
  }

  /** The number of records among the events. */
  function Calls(events: seq<Event>): nat
    decreases |events|
  {
    if events == [] then 0
    else Calls(events[..|events| - 1]) + (if events[|events| - 1].Recorded? then 1 else 0)
  }

  /** Every check reports what the limiter answers in the state the earlier
      events left, and every record comes right after an admitting check. */
  predicate Legal(q: Quota, caps: Limits, now: int, events: seq<Event>)
    decreases |events|
  {
    events == [] ||
    var prefix := events[..|events| - 1];
    Legal(q, caps, now, prefix) &&
    match events[|events| - 1]
    case Checked(ok) => ok == Admits(Purge(Replay(q, now, prefix), now), caps)
    case Recorded => LastAdmitted(prefix)
  }

  /** What one orchestration at the fixed instant `now` did to a limiter that
      started in state q0 and ended in q1: it began with a check, its events
      are legal, q1 is their replay, and it made one upstream call per record. */
  predicate Orderly(q0: Quota, caps: Limits, now: int, q1: Quota, events: seq<Event>, calls: nat)
  {
    (events != [] ==> events[0].Checked?) &&
    Legal(q0, caps, now, events) && q1 == Replay(q0, now, events) && calls == Calls(events)
  }

  lemma {:induction false} ReplayAppend(q: Quota, now: int, a: seq<Event>, b: seq<Event>)
    ensures Replay(q, now, a + b) == Replay(Replay(q, now, a), now, b)
    decreases |b|
  {
    if b == [] {
      assert a + b == a;
    } else {
      assert (a + b)[..|a + b| - 1] == a + b[..|b| - 1];
      ReplayAppend(q, now, a, b[..|b| - 1]);
    }
  }

  lemma {:induction false} CallsAppend(a: seq<Event>, b: seq<Event>)
    ensures Calls(a + b) == Calls(a) + Calls(b)
    decreases |b|
  {
    if b == [] {
      assert a + b == a;
    } else {
      assert (a + b)[..|a + b| - 1] == a + b[..|b| - 1];
      CallsAppend(a, b[..|b| - 1]);
    }
  }

  /** Legal events from the state legal events left, starting with a
      check, extend them legally. */
  lemma {:induction false} LegalAppend(q: Quota, caps: Limits, now: int, a: seq<Event>, b: seq<Event>)
    requires Legal(q, caps, now, a)
    requires Legal(Replay(q, now, a), caps, now, b)
    requires b != [] ==> b[0].Checked?
    ensures Legal(q, caps, now, a + b)
    decreases |b|
  {
    if b == [] {
      assert a + b == a;
    } else {
      var b' := b[..|b| - 1];
      assert (a + b)[..|a + b| - 1] == a + b';
      assert (a + b)[|a + b| - 1] == b[|b| - 1];
      assert b' != [] ==> b'[0] == b[0];
      LegalAppend(q, caps, now, a, b');
      ReplayAppend(q, now, a, b');
      if b' != [] {
        assert (a + b')[|a + b'| - 1] == b'[|b'| - 1];
      }
    }
  }

  /** One check is orderly. */
  lemma OrderlyCheck(q: Quota, caps: Limits, now: int)
    ensures Orderly(q, caps, now, Purge(q, now), [Checked(Admits(Purge(q, now), caps))], 0)
  {
    var e := [Checked(Admits(Purge(q, now), caps))];
    assert e[..0] == [];
    assert Legal(q, caps, now, []);
  }

  /** Recording right after an admitting check, and making the one
      upstream call that record pays for, keeps an orchestration orderly. */
  lemma OrderlyThenRecord(q0: Quota, caps: Limits, now: int, q1: Quota, events: seq<Event>, calls: nat)
    requires Orderly(q0, caps, now, q1, events, calls)
    requires LastAdmitted(events)
    ensures Orderly(q0, caps, now, Record(q1, now), events + [Recorded], calls + 1)
  {
    var e := events + [Recorded];
    assert e[..|e| - 1] == events;
    assert e[0] == events[0];
  }

  /** Two orderly orchestrations at the same instant, one after the other,
      are one orderly orchestration. */
  lemma OrderlyCompose(q0: Quota, caps: Limits, now: int, q1: Quota, e1: seq<Event>, c1: nat,
                       q2: Quota, e2: seq<Event>, c2: nat)
    requires Orderly(q0, caps, now, q1, e1, c1)
    requires Orderly(q1, caps, now, q2, e2, c2)
    ensures Orderly(q0, caps, now, q2, e1 + e2, c1 + c2)
    ensures e1 != [] ==> (e1 + e2)[0] == e1[0]
    ensures Checked(false) in e1 + e2 <==> Checked(false) in e1 || Checked(false) in e2
  {
    ReplayAppend(q0, now, e1, e2);
    CallsAppend(e1, e2);
    LegalAppend(q0, caps, now, e1, e2);
    if e1 == [] {
      assert e1 + e2 == e2;
    }
  }

  /** An orderly orchestration is charged exactly one request at `now` per
      upstream call, on top of the housekeeping of its first check, and
      leaves the limiter settled. */
  lemma {:induction false} OrderlyCharges(q0: Quota, caps: Limits, now: int, q1: Quota, events: seq<Event>, calls: nat)
    requires Orderly(q0, caps, now, q1, events, calls) && events != []
    ensures q1 == Charge(Purge(q0, now), now, calls)
    ensures Settled(q1, now)
    decreases |events|
  {
    var p := events[..|events| - 1];
    PurgeSettles(q0, now);
    if p == [] {
      assert events == [events[0]];
    } else {
      assert p[0] == events[0];
      OrderlyCharges(q0, caps, now, Replay(q0, now, p), p, Calls(p));
      if events[|events| - 1].Checked? {
        SettledIsFixpoint(Replay(q0, now, p), now);
      } else {
        ChargeSettled(Purge(q0, now), now, calls);
      }
    }
  }

  /** In an orderly orchestration records follow admitting checks, a denial
      is final, after a denial the limiter still denies, and an orchestration
      whose first check is denied makes no upstream call. */
  lemma {:induction false} OrderlyDenialIsFinal(q0: Quota, caps: Limits, now: int, q1: Quota, events: seq<Event>, calls: nat)
    requires Orderly(q0, caps, now, q1, events, calls)
    ensures RecordsFollowAdmission(events) && DenialIsFinal(events)
    ensures Checked(false) in events ==> !Admits(q1, caps) && events[|events| - 1] == Checked(false)
    ensures events != [] && events[0] == Checked(false) ==> calls == 0
    decreases |events|
  {
    if events != [] {
      var p := events[..|events| - 1];
      var e := events[|events| - 1];
      assert events == p + [e];
      if p == [] {
        assert Replay(q0, now, p) == q0;
        assert q1 == Purge(q0, now);
        assert Calls(events) == 0;
      } else {
        assert p[0] == events[0];
        var qp := Replay(q0, now, p);
        OrderlyDenialIsFinal(q0, caps, now, qp, p, Calls(p));
        OrderlyCharges(q0, caps, now, qp, p, Calls(p));
        SettledIsFixpoint(qp, now);
        if Checked(false) in p {
          assert p[|p| - 1] == Checked(false);
          assert e == Checked(false);
        }
        DenialAppend(p, [e]);
        assert RecordsFollowAdmission(events) by {
          forall i | 0 <= i < |events| && events[i].Recorded? ensures 0 < i && events[i - 1] == Checked(true) {
            if i < |p| { assert p[i] == events[i]; }
          }
        }
        if Checked(false) in events && Checked(false) !in p {
          assert e == Checked(false);
        }
      }
    }
  }


  /** Whatever follows a denial at the same instant is denied too: the
      second of two orderly orchestrations in a row, when the first holds a
      denial, consists of denied checks only. */
  lemma OrderlyDenialPersists(q0: Quota, caps: Limits, now: int, q1: Quota, e1: seq<Event>, c1: nat,
                              q2: Quota, e2: seq<Event>, c2: nat)
    requires Orderly(q0, caps, now, q1, e1, c1)
    requires Orderly(q1, caps, now, q2, e2, c2)
    ensures Checked(false) in e1 ==> forall k :: 0 <= k < |e2| ==> e2[k] == Checked(false)
  {
    if Checked(false) in e1 {
      OrderlyCompose(q0, caps, now, q1, e1, c1, q2, e2, c2);
      OrderlyDenialIsFinal(q0, caps, now, q2, e1 + e2, c1 + c2);
      var i :| 0 <= i < |e1| && e1[i] == Checked(false);
      forall k | 0 <= k < |e2| ensures e2[k] == Checked(false) {
        assert (e1 + e2)[i] == Checked(false);
        assert (e1 + e2)[|e1| + k] == e2[k];
      }
    }
  }

  /** An orderly orchestration appended to a history in which every record
      followed an admitting check keeps that discipline: the property holds
      for any series of orchestrations. */
  lemma OrderlyKeepsDiscipline(h: seq<Event>, q0: Quota, caps: Limits, now: int, q1: Quota,
                               events: seq<Event>, calls: nat)
    requires Orderly(q0, caps, now, q1, events, calls)
    ensures RecordsFollowAdmission(h) ==> RecordsFollowAdmission(h + events)
  {
    OrderlyDenialIsFinal(q0, caps, now, q1, events, calls);
    if RecordsFollowAdmission(h) {
      var w := h + events;
      forall i | 0 <= i < |w| && w[i].Recorded? ensures 0 < i && w[i - 1] == Checked(true) {
        if i < |h| {
          assert h[i] == w[i];
          assert h[i - 1] == w[i - 1];
        } else {
          assert events[i - |h|] == w[i];
          assert events[i - |h| - 1] == w[i - 1];
        }
      }
    }
  }

  // ---------------------------------------------------------------------
  // The limiter object

  class RateLimiter {
    var requests: seq<int>
    const maxRequestsPerMinute: int
    const maxRequestsPerMonth: int
    var monthlyRequests: int
    var monthStart: int
    /** Every check and record so far, in order. */
    ghost var history: seq<Event>

    ghost function State(): Quota
      reads this
    {
      Quota(requests, monthlyRequests, monthStart)
    }

    function Caps(): Limits
    {
      Limits(maxRequestsPerMinute, maxRequestsPerMonth)
    }

    /** The answer of the last check is true of the current state, and as
        long as every record followed an admitting check, the recorded
        requests stay within both caps. */
    ghost predicate Valid()
      reads this
    {
      monthlyRequests >= 0 &&
      (LastAdmitted(history) ==> Admits(State(), Caps())) &&
      (RecordsFollowAdmission(history) && 0 <= maxRequestsPerMinute && 0 <= maxRequestsPerMonth ==>
         |requests| <= maxRequestsPerMinute && monthlyRequests <= maxRequestsPerMonth)
    }

    constructor (maxPerMinute: int, maxPerMonth: int, now: int)
      ensures Valid()
      ensures State() == Quota([], 0, now)
      ensures Caps() == Limits(maxPerMinute, maxPerMonth)
      ensures history == []
    {
      requests := [];
      maxRequestsPerMinute := maxPerMinute;
      maxRequestsPerMonth := maxPerMonth;
      monthlyRequests := 0;
      monthStart := now;
      history := [];
    }

    /** `canMakeRequest`: purge, then answer whether both budgets have room. */
    method CanMakeRequest(now: int) returns (ok: bool)
      requires Valid()
      modifies this
      ensures Valid()
      ensures State() == Purge(old(State()), now)
      ensures ok <==> Admits(State(), Caps())
      ensures history == old(history) + [Checked(ok)]
    {
      requests := Recent(requests, now - WINDOW_MS);
      if now - monthStart > MONTH_MS {
        monthlyRequests := 0;
        monthStart := now;
      }
      ok := |requests| < maxRequestsPerMinute && monthlyRequests < maxRequestsPerMonth;
      ghost var h := history;
      history := history + [Checked(ok)];
      if RecordsFollowAdmission(history) {
        assert history[..|h|] == h;
        assert RecordsFollowAdmission(h) by {
          forall i | 0 <= i < |h| && h[i].Recorded? ensures 0 < i && h[i - 1] == Checked(true) {
            assert history[i] == h[i];
            assert history[i - 1] == h[i - 1];
          }
        }
      }
    }

    /** `recordRequest`: one more request at `now`, in both budgets. */
    method RecordRequest(now: int)
      requires Valid()
      modifies this
      ensures Valid()
      ensures State() == Record(old(State()), now)
      ensures history == old(history) + [Recorded]
    {
      ghost var h := history;
      requests := requests + [now];
      monthlyRequests := monthlyRequests + 1;
      history := history + [Recorded];
      if RecordsFollowAdmission(history) {
        assert history[|h|].Recorded?;
        assert history[|h| - 1] == h[|h| - 1];
        assert LastAdmitted(h);
        assert RecordsFollowAdmission(h) by {
          forall i | 0 <= i < |h| && h[i].Recorded? ensures 0 < i && h[i - 1] == Checked(true) {
            assert history[i] == h[i];
            assert history[i - 1] == h[i - 1];
          }
        }
      }
    }

    /** `getRateLimitInfo`: reads the state without changing it.  Under the
        discipline that every record follows an admitting check, the
        remaining budget is never negative. */
    method GetRateLimitInfo(now: int) returns (info: RateLimitInfo)
      requires Valid()
      ensures info == Info(State(), Caps(), now)
      ensures info.requestsRemaining <= maxRequestsPerMinute - |Recent(requests, now - WINDOW_MS)|
      ensures info.requestsRemaining <= maxRequestsPerMonth - monthlyRequests
      ensures info.requestsRemaining == maxRequestsPerMinute - |Recent(requests, now - WINDOW_MS)| ||
              info.requestsRemaining == maxRequestsPerMonth - monthlyRequests
      ensures RecordsFollowAdmission(history) && 0 <= maxRequestsPerMinute && 0 <= maxRequestsPerMonth
              ==> info.requestsRemaining >= 0
      ensures info.resetTime.None? <==> requests == []
      ensures info.resetTime.Some? ==>
                info.resetTime.value - WINDOW_MS in requests &&
                forall t :: t in requests ==> t + WINDOW_MS <= info.resetTime.value
    {
      var recent := |Recent(requests, now - WINDOW_MS)|;
      var remaining := if maxRequestsPerMinute - recent <= maxRequestsPerMonth - monthlyRequests
                       then maxRequestsPerMinute - recent
                       else maxRequestsPerMonth - monthlyRequests;
      var reset := if |requests| == 0 then None else Some(MaxOf(requests) + WINDOW_MS);
      info := RateLimitInfo(remaining, reset);
    }
  }
}
