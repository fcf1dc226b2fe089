/** The status dispatch and the hourly monitor of the A2P service
    (a2p/main.go, `processRegistrationStatus` and `MonitorBrandRegistration`).
    Time is discrete: the ticker fires at hours 1, 2, ... and the deadline at
    hour 48. At hour 48 both are ready and Go's `select` picks one of them at
    random; `tickAtDeadline` says which. Processing a tick takes no time. */
module Monitor {
  import opened Errors
  import opened Models
  import opened PhoneNumbers
  import opened Onboarding

  const Approved := "APPROVED"
  const StatusPrefix := "Brand registration is "
  const UnknownStatusPrefix := "unknown status: "
  const TimedOutMessage := "Brand registration checking timed out"
  const Deadline := 48

  /** What the monitor returns when the deadline fires. */
  const TimedOutAnswer := Answer(FullResponse(TimedOutMessage, None), Some(Sentinel(BrandRegistrationCheckTimedOut)))

  /** The four statuses, besides approval, that the switch accepts. */
  predicate IsSettled(status: string)
  {
    status == "FAILED" || status == "IN_REVIEW" || status == "PENDING" || status == "DELETED"
  }

  predicate IsFetch(c: Call)
  {
    c.FetchBrandRegistration?
  }

  predicate IsLookup(c: Call)
  {
    c.ListIncomingPhoneNumber?
  }

  /** The number of calls in `calls` that satisfy `f`. */
  function Count(calls: seq<Call>, f: Call -> bool): (r: nat)
    ensures r <= |calls|
  {
    if calls == [] then 0 else (if f(calls[0]) then 1 else 0) + Count(calls[1..], f)
  }

  lemma {:induction false} CountAppend(a: seq<Call>, b: seq<Call>, f: Call -> bool)
    ensures Count(a + b, f) == Count(a, f) + Count(b, f)
  {
    if a != [] {
      assert (a + b)[0] == a[0];
      assert (a + b)[1..] == a[1..] + b;
      CountAppend(a[1..], b, f);
    } else {
      assert a + b == b;
    }
  }

  lemma {:induction false} CountNone(calls: seq<Call>, f: Call -> bool)
    requires forall i :: 0 <= i < |calls| ==> !f(calls[i])
    ensures Count(calls, f) == 0
  {
    if calls != [] {
      assert forall i :: 0 <= i < |calls| - 1 ==> calls[1..][i] == calls[i + 1];
      CountNone(calls[1..], f);
    }
  }

  /** `processRegistrationStatus`, started at log position `n`. */
  function ProcessOutcome(p: ParamData, pr: Provider, n: nat, status: string, sid: string): (o: Outcome<Answer>)
    requires status == Approved ==> FirstSidPresent(pr.incoming(n, p.twilioPurchasedPhoneNumber))
    ensures status != Approved ==> o.calls == []
    ensures IsSettled(status) ==> o.result == Answer(FullResponse(StatusPrefix + status, None), None)
    ensures status != Approved && !IsSettled(status) ==>
              && o.result.response == EmptyResponse
              && o.result.err.Some? && Text(o.result.err.value) == UnknownStatusPrefix + status
              && forall k :: !IsSentinel(o.result.err.value, k)
  {
    if status == Approved then CompleteOutcome(p, pr, n, sid)
    else if IsSettled(status) then Outcome([], Answer(FullResponse(StatusPrefix + status, None), None))
    else Outcome([], Failure(Formatted(UnknownStatusPrefix + status)))
  }

  /** An approved registration is handed to `CompleteOnboarding`, whose
      answer comes back unchanged; dispatch succeeds exactly for a settled
      status or a completed onboarding, and never fetches the registration. */
  lemma ProcessDelegates(p: ParamData, pr: Provider, n: nat, status: string, sid: string)
    requires status == Approved ==> FirstSidPresent(pr.incoming(n, p.twilioPurchasedPhoneNumber))
    ensures var o := ProcessOutcome(p, pr, n, status, sid);
            && (status == Approved ==> o == CompleteOutcome(p, pr, n, sid))
            && (o.result.err.None? <==> IsSettled(status) || (status == Approved && CompleteOutcome(p, pr, n, sid).result.err.None?))
            && (forall i :: 0 <= i < |o.calls| ==> !IsFetch(o.calls[i]))
  {
    if status == Approved {
      CompleteOnboardingSteps(p, pr, n, sid);
    }
  }

  /** Whether the ticker wins the `select` at `hour`. */
  predicate TickDue(hour: nat, tickAtDeadline: bool)
  {
    hour < Deadline || (hour == Deadline && tickAtDeadline)
  }

  /** How many ticks are still to come from `hour` on. */
  function Ticks(hour: nat, tickAtDeadline: bool): nat
  {
    (if hour < Deadline then Deadline - hour else 0) + (if tickAtDeadline && hour <= Deadline then 1 else 0)
  }

  /** One tick of the monitor at log position `n`: fetch the registration
      and, if that worked, dispatch its status. */
  function TickOutcome(p: ParamData, pr: Provider, n: nat, sid: string): (t: Outcome<Answer>)
    requires ListingsHaveSids(pr, p.twilioPurchasedPhoneNumber)
    ensures 1 <= |t.calls| && t.calls[0] == FetchBrandRegistration(sid)
    ensures forall i :: 1 <= i < |t.calls| ==> !IsFetch(t.calls[i])
  {
    var fetch := FetchBrandRegistration(sid);
    match pr.stage(n, fetch)
    case Err(e) => Outcome([fetch], Failure(e))
    case Ok(registration) => Then([fetch], ProcessOutcome(p, pr, n + 1, registration.status, sid))
  }

  /** The tick at log position `m` ends in an error, and the monitor waits
      for the next one. */
  predicate TickFails(p: ParamData, pr: Provider, m: nat, sid: string)
    requires ListingsHaveSids(pr, p.twilioPurchasedPhoneNumber)
  {
    TickOutcome(p, pr, m, sid).result.err.Some?
  }

  /** A tick fails exactly when the fetch failed, the status is unknown, or
      the status is approved and `CompleteOnboarding` failed; a tick that does
      not fail answers what the dispatch answered. */
  lemma TickFailsExactly(p: ParamData, pr: Provider, m: nat, sid: string)
    requires ListingsHaveSids(pr, p.twilioPurchasedPhoneNumber)
    ensures var fetched := pr.stage(m, FetchBrandRegistration(sid));
            TickFails(p, pr, m, sid) <==>
              || fetched.Err?
              || (fetched.value.status != Approved && !IsSettled(fetched.value.status))
              || (fetched.value.status == Approved && CompleteOutcome(p, pr, m + 1, sid).result.err.Some?)
    ensures var fetched := pr.stage(m, FetchBrandRegistration(sid));
            !TickFails(p, pr, m, sid) ==>
              TickOutcome(p, pr, m, sid).result == ProcessOutcome(p, pr, m + 1, fetched.value.status, sid).result
  {
  }

  /** A tick fetches exactly once. */
  lemma TickFetchesOnce(p: ParamData, pr: Provider, n: nat, sid: string)
    requires ListingsHaveSids(pr, p.twilioPurchasedPhoneNumber)
    ensures Count(TickOutcome(p, pr, n, sid).calls, IsFetch) == 1
  {
    var calls := TickOutcome(p, pr, n, sid).calls;
    var fetched := pr.stage(n, FetchBrandRegistration(sid));
    if fetched.Ok? {
      ProcessDelegates(p, pr, n + 1, fetched.value.status, sid);
    }
    assert forall i :: 0 <= i < |calls| - 1 ==> calls[1..][i] == calls[i + 1];
    CountNone(calls[1..], IsFetch);
  }

  /** The ticks of one monitor, by log position. */
  function Ticker(p: ParamData, pr: Provider, sid: string): nat -> Outcome<Answer>
    requires ListingsHaveSids(pr, p.twilioPurchasedPhoneNumber)
  {
    (m: nat) => TickOutcome(p, pr, m, sid)
  }

  /** The `for`/`select` loop from `hour` on, at log position `n`, whatever a
      tick does: a due tick that fails waits for the next one, a due tick that
      succeeds is returned, and the deadline ends the loop. */
  function Poll(tick: nat -> Outcome<Answer>, n: nat, tickAtDeadline: bool, hour: nat): (o: Outcome<Answer>)
    requires 1 <= hour <= Deadline + 1
    decreases Deadline + 1 - hour, tickAtDeadline
  {
    if !TickDue(hour, tickAtDeadline) then Outcome([], TimedOutAnswer)
    else
      var t := tick(n);
      if t.result.err.Some? then Then(t.calls, Poll(tick, n + |t.calls|, tickAtDeadline, hour + 1))
      else t
  }

  /** One due tick of the loop: a failed tick is followed by the rest of the
      loop, a successful one is the loop's outcome. */
  lemma PollStep(tick: nat -> Outcome<Answer>, n: nat, tickAtDeadline: bool, hour: nat)
    requires 1 <= hour <= Deadline + 1 && TickDue(hour, tickAtDeadline)
    ensures tick(n).result.err.Some? ==>
              Poll(tick, n, tickAtDeadline, hour) == Then(tick(n).calls, Poll(tick, n + |tick(n).calls|, tickAtDeadline, hour + 1))
    ensures tick(n).result.err.None? ==> Poll(tick, n, tickAtDeadline, hour) == tick(n)
  {
  }

  /** The loop before a failed tick, seen from the log `before` it: after the
      tick has added its calls, what remains is the rest of the loop. */
  lemma PollContinues(tick: nat -> Outcome<Answer>, before: seq<Call>, after: seq<Call>, tickAtDeadline: bool, hour: nat)
    requires 1 <= hour <= Deadline + 1 && TickDue(hour, tickAtDeadline)
    requires tick(|before|).result.err.Some? && after == before + tick(|before|).calls
    ensures Then(after, Poll(tick, |after|, tickAtDeadline, hour + 1)) == Then(before, Poll(tick, |before|, tickAtDeadline, hour))
  {
  }

  /** `tick` gives, at every position, the outcome of one tick. */
  ghost predicate TicksAs(tick: nat -> Outcome<Answer>, p: ParamData, pr: Provider, sid: string)
    requires ListingsHaveSids(pr, p.twilioPurchasedPhoneNumber)
  {
    forall m: nat {:trigger TickOutcome(p, pr, m, sid)} :: tick(m) == TickOutcome(p, pr, m, sid)
  }

  /** `Ticker` gives the tick at every position. */
  lemma TickerTicks(p: ParamData, pr: Provider, sid: string)
    requires ListingsHaveSids(pr, p.twilioPurchasedPhoneNumber)
    ensures TicksAs(Ticker(p, pr, sid), p, pr, sid)
  {
  }

  /** `MonitorBrandRegistration`, started at log position `n`. */
  function MonitorOutcome(p: ParamData, pr: Provider, n: nat, sid: string, tickAtDeadline: bool): Outcome<Answer>
    requires ListingsHaveSids(pr, p.twilioPurchasedPhoneNumber)
  {
    Poll(Ticker(p, pr, sid), n, tickAtDeadline, 1)
  }

  /** The loop ends in exactly one of two ways: the answer of a tick that
      succeeded, or the timeout with its sentinel; no other error escapes. */
  lemma {:induction false} PollEndsOnce(tick: nat -> Outcome<Answer>, n: nat, tickAtDeadline: bool, hour: nat)
    requires 1 <= hour <= Deadline + 1
    ensures var o := Poll(tick, n, tickAtDeadline, hour);
            && (o.result.err.Some? ==> o.result == TimedOutAnswer)
            && (o.result.err.None? ==> exists m: nat :: m >= n && o.result == tick(m).result)
    decreases Deadline + 1 - hour
  {
    if TickDue(hour, tickAtDeadline) {
      var t := tick(n);
      if t.result.err.Some? {
        PollEndsOnce(tick, n + |t.calls|, tickAtDeadline, hour + 1);
      } else {
        assert Poll(tick, n, tickAtDeadline, hour).result == tick(n).result;
      }
    }
  }

  /** The loop gets from `hour` at log position `n` to hour `h` at log
      position `m` only through due ticks that all failed. */
  predicate FailsUntil(tick: nat -> Outcome<Answer>, n: nat, tickAtDeadline: bool, hour: nat, m: nat, h: nat)
    requires 1 <= hour <= Deadline + 1
    decreases Deadline + 1 - hour
  {
    if h == hour then m == n
    else
      && hour < h && TickDue(hour, tickAtDeadline) && tick(n).result.err.Some?
      && FailsUntil(tick, n + |tick(n).calls|, tickAtDeadline, hour + 1, m, h)
  }

  /** Every due tick the loop reaches from `hour` on fails. */
  ghost predicate AllDueFail(tick: nat -> Outcome<Answer>, n: nat, tickAtDeadline: bool, hour: nat)
    requires 1 <= hour <= Deadline + 1
  {
    forall m: nat, h: nat :: FailsUntil(tick, n, tickAtDeadline, hour, m, h) && TickDue(h, tickAtDeadline) ==>
      tick(m).result.err.Some?
  }

  /** A loop that does not time out returns the answer of the first due tick
      that succeeded: every due tick before it failed. */
  lemma {:induction false} PollReturnsFirstSuccess(tick: nat -> Outcome<Answer>, n: nat, tickAtDeadline: bool, hour: nat)
    requires 1 <= hour <= Deadline + 1
    ensures var o := Poll(tick, n, tickAtDeadline, hour);
            o.result.err.None? ==>
              exists m: nat, h: nat :: && m >= n && FailsUntil(tick, n, tickAtDeadline, hour, m, h)
                                       && TickDue(h, tickAtDeadline) && tick(m).result.err.None?
                                       && o.result == tick(m).result
    decreases Deadline + 1 - hour
  {
    if TickDue(hour, tickAtDeadline) {
      var t := tick(n);
      if t.result.err.Some? {
        var next := n + |t.calls|;
        PollReturnsFirstSuccess(tick, next, tickAtDeadline, hour + 1);
        var rest := Poll(tick, next, tickAtDeadline, hour + 1);
        if rest.result.err.None? {
          var m: nat, h: nat :| && m >= next && FailsUntil(tick, next, tickAtDeadline, hour + 1, m, h)
                                && TickDue(h, tickAtDeadline) && tick(m).result.err.None? && rest.result == tick(m).result;
          assert FailsUntil(tick, n, tickAtDeadline, hour, m, h);
        }
      } else {
        assert FailsUntil(tick, n, tickAtDeadline, hour, n, hour);
      }
    }
  }

  /** The loop times out exactly when every due tick it reaches fails. */
  lemma {:induction false} PollTimesOutExactly(tick: nat -> Outcome<Answer>, n: nat, tickAtDeadline: bool, hour: nat)
    requires 1 <= hour <= Deadline + 1
    ensures Poll(tick, n, tickAtDeadline, hour).result == TimedOutAnswer <==> AllDueFail(tick, n, tickAtDeadline, hour)
    decreases Deadline + 1 - hour
  {
    if TickDue(hour, tickAtDeadline) {
      var t := tick(n);
      if t.result.err.Some? {
        var next := n + |t.calls|;
        PollTimesOutExactly(tick, next, tickAtDeadline, hour + 1);
        if AllDueFail(tick, next, tickAtDeadline, hour + 1) {
          forall m: nat, h: nat | FailsUntil(tick, n, tickAtDeadline, hour, m, h) && TickDue(h, tickAtDeadline)
            ensures tick(m).result.err.Some?
          {
            if h != hour {
              assert FailsUntil(tick, next, tickAtDeadline, hour + 1, m, h);
            }
          }
        } else {
          var m: nat, h: nat :| && FailsUntil(tick, next, tickAtDeadline, hour + 1, m, h)
                                && TickDue(h, tickAtDeadline) && tick(m).result.err.None?;
          assert FailsUntil(tick, n, tickAtDeadline, hour, m, h);
        }
      } else {
        assert FailsUntil(tick, n, tickAtDeadline, hour, n, hour);
      }
    }
  }

  /** When every tick makes exactly one call satisfying `f`, the loop makes at
      most one such call per remaining tick, and exactly one per tick when it
      times out. */
  lemma {:induction false} PollCountBound(tick: nat -> Outcome<Answer>, f: Call -> bool, n: nat, tickAtDeadline: bool, hour: nat)
    requires 1 <= hour <= Deadline + 1
    requires forall m: nat :: Count(tick(m).calls, f) == 1
    ensures var o := Poll(tick, n, tickAtDeadline, hour);
            && Count(o.calls, f) <= Ticks(hour, tickAtDeadline) <= Deadline
            && (o.result.err.Some? ==> Count(o.calls, f) == Ticks(hour, tickAtDeadline))
    decreases Deadline + 1 - hour
  {
    if TickDue(hour, tickAtDeadline) {
      var t := tick(n);
      assert Count(t.calls, f) == 1;
      if t.result.err.Some? {
        var rest := Poll(tick, n + |t.calls|, tickAtDeadline, hour + 1);
        PollCountBound(tick, f, n + |t.calls|, tickAtDeadline, hour + 1);
        CountAppend(t.calls, rest.calls, f);
      }
    }
  }

  /** When every tick fails, the loop runs until the deadline. */
  lemma {:induction false} PollTimesOut(tick: nat -> Outcome<Answer>, n: nat, tickAtDeadline: bool, hour: nat)
    requires 1 <= hour <= Deadline + 1
    requires forall m: nat :: tick(m).result.err.Some?
    ensures Poll(tick, n, tickAtDeadline, hour).result == TimedOutAnswer
    decreases Deadline + 1 - hour
  {
    if TickDue(hour, tickAtDeadline) {
      PollTimesOut(tick, n + |tick(n).calls|, tickAtDeadline, hour + 1);
    }
  }

  /** The monitor answers either what the first successful tick's dispatch
      answered, with a nil error, or the timeout with
      `ErrBrandRegistrationCheckTimedOut`. */
  lemma MonitorEndsOnce(p: ParamData, pr: Provider, n: nat, sid: string, tickAtDeadline: bool)
    requires ListingsHaveSids(pr, p.twilioPurchasedPhoneNumber)
    ensures var o := MonitorOutcome(p, pr, n, sid, tickAtDeadline);
            && (o.result.err.Some? ==>
                  o.result == TimedOutAnswer && IsSentinel(o.result.err.value, BrandRegistrationCheckTimedOut))
            && (o.result.err.None? ==>
                  exists m: nat, h: nat :: && m >= n && FailsUntil(Ticker(p, pr, sid), n, tickAtDeadline, 1, m, h)
                                           && TickDue(h, tickAtDeadline) && !TickFails(p, pr, m, sid)
                                           && o.result == TickOutcome(p, pr, m, sid).result)
  {
    PollEndsOnce(Ticker(p, pr, sid), n, tickAtDeadline, 1);
    PollReturnsFirstSuccess(Ticker(p, pr, sid), n, tickAtDeadline, 1);
  }

  /** The monitor times out exactly when every tick it makes before the
      deadline fails. */
  lemma MonitorTimesOutExactly(p: ParamData, pr: Provider, n: nat, sid: string, tickAtDeadline: bool)
    requires ListingsHaveSids(pr, p.twilioPurchasedPhoneNumber)
    ensures MonitorOutcome(p, pr, n, sid, tickAtDeadline).result == TimedOutAnswer
            <==> AllDueFail(Ticker(p, pr, sid), n, tickAtDeadline, 1)
  {
    PollTimesOutExactly(Ticker(p, pr, sid), n, tickAtDeadline, 1);
  }

  /** The monitor fetches at most once per tick, so at most 48 times, and on
      a timeout exactly once per tick: 47 times, or 48 when the last tick won
      the `select` at the deadline. */
  lemma MonitorFetchBound(p: ParamData, pr: Provider, n: nat, sid: string, tickAtDeadline: bool)
    requires ListingsHaveSids(pr, p.twilioPurchasedPhoneNumber)
    ensures var o := MonitorOutcome(p, pr, n, sid, tickAtDeadline);
            && Count(o.calls, IsFetch) <= Deadline
            && (o.result.err.Some? ==> Count(o.calls, IsFetch) == if tickAtDeadline then Deadline else Deadline - 1)
  {
    var tick := Ticker(p, pr, sid);
    forall m: nat
      ensures Count(tick(m).calls, IsFetch) == 1
    {
      TickFetchesOnce(p, pr, m, sid);
    }
    PollCountBound(tick, IsFetch, n, tickAtDeadline, 1);
  }

  /** When every tick fails (a fetch error, an unknown status or a failed
      completion), the monitor keeps polling until the deadline. */
  lemma MonitorTimesOutWhenEveryTickFails(p: ParamData, pr: Provider, n: nat, sid: string, tickAtDeadline: bool)
    requires ListingsHaveSids(pr, p.twilioPurchasedPhoneNumber)
    requires forall m: nat :: TickFails(p, pr, m, sid)
    ensures MonitorOutcome(p, pr, n, sid, tickAtDeadline).result == TimedOutAnswer
  {
    var tick := Ticker(p, pr, sid);
    forall m: nat
      ensures tick(m).result.err.Some?
    {
      assert TickFails(p, pr, m, sid);
    }
    PollTimesOut(tick, n, tickAtDeadline, 1);
  }

  /** Although polling would be expected to go on while a registration is
      pending or in review, a pending, in-review, failed or deleted
      registration ends the monitor on the first tick that sees it, with a nil
      error and nothing called beyond the fetch. */
  lemma SettledStatusEndsMonitor(p: ParamData, pr: Provider, n: nat, sid: string, tickAtDeadline: bool)
    requires ListingsHaveSids(pr, p.twilioPurchasedPhoneNumber)
    requires pr.stage(n, FetchBrandRegistration(sid)).Ok? && IsSettled(pr.stage(n, FetchBrandRegistration(sid)).value.status)
    ensures var status := pr.stage(n, FetchBrandRegistration(sid)).value.status;
            MonitorOutcome(p, pr, n, sid, tickAtDeadline)
              == Outcome([FetchBrandRegistration(sid)], Answer(FullResponse(StatusPrefix + status, None), None))
  {
    assert TickDue(1, tickAtDeadline);
  }

  /** An approved registration whose completion keeps failing is completed
      again on every tick: `CompleteOnboarding` looks the phone number up once
      per tick, 47 or 48 times, and the monitor times out. */
  lemma FailedCompletionIsRetried(p: ParamData, pr: Provider, n: nat, sid: string, tickAtDeadline: bool)
    requires ListingsHaveSids(pr, p.twilioPurchasedPhoneNumber)
    requires forall m: nat :: pr.stage(m, FetchBrandRegistration(sid)).Ok?
                           && pr.stage(m, FetchBrandRegistration(sid)).value.status == Approved
    requires forall m: nat :: CompleteOutcome(p, pr, m, sid).result.err.Some?
    ensures var o := MonitorOutcome(p, pr, n, sid, tickAtDeadline);
            o.result == TimedOutAnswer && Count(o.calls, IsLookup) == if tickAtDeadline then Deadline else Deadline - 1
  {
    var tick := Ticker(p, pr, sid);
    forall m: nat
      ensures tick(m) == Then([FetchBrandRegistration(sid)], CompleteOutcome(p, pr, m + 1, sid))
      ensures tick(m).result.err.Some? && Count(tick(m).calls, IsLookup) == 1
    {
      CompletionLooksUpOnce(p, pr, m + 1, sid);
      assert Count([FetchBrandRegistration(sid)], IsLookup) == 0;
      CountAppend([FetchBrandRegistration(sid)], CompleteOutcome(p, pr, m + 1, sid).calls, IsLookup);
    }
    PollTimesOut(tick, n, tickAtDeadline, 1);
    PollCountBound(tick, IsLookup, n, tickAtDeadline, 1);
  }

  /** `CompleteOnboarding` looks the phone number up exactly once. */
  lemma CompletionLooksUpOnce(p: ParamData, pr: Provider, n: nat, sid: string)
    requires FirstSidPresent(pr.incoming(n, p.twilioPurchasedPhoneNumber))
    ensures Count(CompleteOutcome(p, pr, n, sid).calls, IsLookup) == 1
  {
    var calls := CompleteOutcome(p, pr, n, sid).calls;
    CompleteOnboardingSteps(p, pr, n, sid);
    assert forall i :: 0 <= i < |calls| - 1 ==> calls[1..][i] == calls[i + 1];
    CountNone(calls[1..], IsLookup);
  }
}
