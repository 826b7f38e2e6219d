/**
 Exponential backoff in closed form: at which epochs a message that stays unacknowledged is resent.
 */
module LspBackoff {
  import opened LspEndpoint
  import opened LspWindow

  function Pow2(n: nat): nat {
    if n == 0 then 1 else 2 * Pow2(n - 1)
  }

  /** The epoch, counted from the first one after the send, of retransmission number `n`. */
  function ResendAt(maxBackoff: nat, n: nat): (t: nat)
    requires 1 <= n
    ensures n - 1 <= t
  {
    if n == 1 then 0 else ResendAt(maxBackoff, n - 1) + 1 + Min(Pow2(n - 2), maxBackoff)
  }

  /** How often `trace` says "resent". */
  function Count(trace: seq<bool>): nat {
    if trace == [] then 0
    else Count(trace[..|trace| - 1]) + if trace[|trace| - 1] then 1 else 0
  }

  /** After `prefix`, with `n` retransmissions, the next one comes at the epoch of the closed form for `n + 1`. */
  ghost predicate OnTime(maxBackoff: nat, prefix: seq<bool>, bit: bool) {
    var next := ResendAt(maxBackoff, Count(prefix) + 1);
    |prefix| <= next && (bit <==> |prefix| == next)
  }

  /** Every epoch of `trace` is on time: not a retransmission early, late, or missing. */
  ghost predicate Exact(maxBackoff: nat, trace: seq<bool>) {
    forall t :: 0 <= t < |trace| ==> OnTime(maxBackoff, trace[..t], trace[t])
  }

  /** The schedule after `t` epochs with `r` retransmissions among them. */
  predicate Timed(maxBackoff: nat, r: nat, t: nat, countdown: int, backoff: int) {
    && backoff == Min(Pow2(r), maxBackoff)
    && 0 <= countdown == ResendAt(maxBackoff, r + 1) - t
  }

  ghost predicate At(maxBackoff: nat, trace: seq<bool>, countdown: int, backoff: int) {
    Exact(maxBackoff, trace) && Timed(maxBackoff, Count(trace), |trace|, countdown, backoff)
  }

  lemma TimedStep(maxBackoff: nat, r: nat, t: nat, countdown: int, backoff: int)
    requires Timed(maxBackoff, r, t, countdown, backoff)
    ensures Timed(maxBackoff, if countdown == 0 then r + 1 else r, t + 1,
                  AgedCountdown(countdown, backoff), AgedBackoff(countdown, backoff, maxBackoff))
  {
    Pow2Positive(r);
    DoubledMin(Pow2(r), maxBackoff);
  }

  lemma ExactAppend(maxBackoff: nat, trace: seq<bool>, bit: bool)
    requires Exact(maxBackoff, trace) && OnTime(maxBackoff, trace, bit)
    ensures Exact(maxBackoff, trace + [bit])
  {
    var more := trace + [bit];
    forall t | 0 <= t < |more| ensures OnTime(maxBackoff, more[..t], more[t]) {
      if t < |trace| {
        assert more[..t] == trace[..t];
        assert OnTime(maxBackoff, trace[..t], trace[t]);
      } else {
        assert more[..t] == trace;
      }
    }
  }

  lemma CountAppend(trace: seq<bool>, bit: bool)
    ensures Count(trace + [bit]) == Count(trace) + if bit then 1 else 0
  {
    assert (trace + [bit])[..|trace|] == trace;
  }

  lemma DoubledMin(p: nat, m: nat)
    requires p >= 1
    ensures Min(2 * Min(p, m), m) == Min(2 * p, m)
  {
  }

  lemma {:induction false} Pow2Positive(n: nat)
    ensures Pow2(n) >= 1
  {
    if n > 0 {
      Pow2Positive(n - 1);
    }
  }

  lemma TimedTraceStep(maxBackoff: nat, trace: seq<bool>, countdown: int, backoff: int)
    requires Timed(maxBackoff, Count(trace), |trace|, countdown, backoff)
    ensures var more := trace + [countdown == 0];
            Timed(maxBackoff, Count(more), |more|,
                  AgedCountdown(countdown, backoff), AgedBackoff(countdown, backoff, maxBackoff))
  {
    CountAppend(trace, countdown == 0);
    TimedStep(maxBackoff, Count(trace), |trace|, countdown, backoff);
  }

  /** One live epoch moves the schedule along the closed form. */
  lemma AtStep(maxBackoff: nat, trace: seq<bool>, countdown: int, backoff: int)
    requires At(maxBackoff, trace, countdown, backoff)
    ensures At(maxBackoff, trace + [countdown == 0],
               AgedCountdown(countdown, backoff), AgedBackoff(countdown, backoff, maxBackoff))
  {
    ExactAppend(maxBackoff, trace, countdown == 0);
    TimedTraceStep(maxBackoff, trace, countdown, backoff);
  }

  // ----- the schedule of one message in a run -----

  /** Number `k` starts out with nothing to skip and one epoch (or none) as its first interval. */
  lemma SentFresh(c: Conn, n: nat, k: nat)
    requires c.Wf() && n <= |c.queue| && k in SendN(c, n).unacked
    ensures var d := SendN(c, n);
            && k in d.countdown && k in d.backoff
            && (k in c.unacked ==> d.countdown[k] == c.countdown[k] && d.backoff[k] == c.backoff[k])
            && (k !in c.unacked ==> d.countdown[k] == 0 && d.backoff[k] == Min(1, c.params.maxBackoff))
  {
    var w := Min(1, c.params.maxBackoff);
    ExtendAt(c.unacked, c.Front(), c.queue[..n], k);
    ExtendAt(c.backoff, c.Front(), Repeat(w, n), k);
    ExtendAt(c.countdown, c.Front(), Repeat(0, n), k);
  }

  ghost predicate Keeps(c: Conn, d: Conn, k: nat)
    requires c.Scheduled() && d.Scheduled() && k in d.unacked
  {
    if k in c.unacked then d.countdown[k] == c.countdown[k] && d.backoff[k] == c.backoff[k]
    else d.countdown[k] == 0 && d.backoff[k] == Min(1, c.params.maxBackoff)
  }

  /** Only an epoch moves a schedule; a message that appears has a fresh one. */
  lemma ScheduleStep(c: Conn, e: Event, k: nat)
    requires Sound(c) && Enabled(c, e) && !e.Epoch? && k in Next(c, e).unacked
    ensures Next(c, e).Scheduled() && Keeps(c, Next(c, e), k) && Next(c, e).params == c.params
  {
    NextSound(c, e);
    match e
    case Write(p) =>
      EnqueueWf(c, p);
      var d := Enqueue(c, p);
      SentFresh(d, Sendable(d, MinPending(d)), k);
    case Receive(m) =>
      if Admit(m).Some? {
        ReceiveSchedule(c, Admit(m).value, k);
      }
    case Read =>
    case Heard =>
  }

  lemma ReceiveSchedule(c: Conn, m: Message, k: nat)
    requires Sound(c) && k in OnMessage(c, m).unacked
    ensures OnMessage(c, m).Scheduled() && Keeps(c, OnMessage(c, m), k) && OnMessage(c, m).params == c.params
  {
    OnMessageSound(c, m);
    if m.Data? {
      if Accepts(c, m) && c.expected <= m.seqNum {
        DrainIds(c.(buffered := c.buffered[m.seqNum := m.payload]));
      }
    } else if !m.Connect? && c.connID != 0 && Acked(c, m) != {} {
      ForgetWf(c, Acked(c, m));
      RefillSchedule(Forget(c, Acked(c, m)), c, k);
    }
  }

  lemma RefillSchedule(d: Conn, c: Conn, k: nat)
    requires c.Wf() && d == c.(unacked := d.unacked) && d.unacked.Keys <= c.unacked.Keys && d.Wf()
    requires k in Refill(d).unacked
    ensures Refill(d).Scheduled() && Keeps(c, Refill(d), k) && Refill(d).params == c.params
  {
    var n := Sendable(d, MinPending(d));
    RefillWf(d);
    ExtendAt(d.unacked, d.Front(), d.queue[..n], k);
    SentFresh(d, n, k);
  }

  /** For each epoch from state `from` up to state `until`, whether it sent number `k` again. */
  ghost function Trace(run: seq<Conn>, events: seq<Event>, k: nat, from: nat, until: nat): seq<bool>
    requires |run| == |events| + 1 && from <= until < |run|
    requires forall i :: from <= i <= until ==> run[i].Wf() && k in run[i].unacked
    decreases until
  {
    if until == from then []
    else
      var before := Trace(run, events, k, from, until - 1);
      var c := run[until - 1];
      if events[until - 1].Epoch? then before + [DataMsg(c.connID, k, c.unacked[k]) in Resent(c)] else before
  }

  /** Number `k` is sent on the way to state `from` and stays outstanding, on a live connection, up to state `until`. */
  ghost predicate Unanswered(run: seq<Conn>, events: seq<Event>, k: nat, from: nat, until: nat) {
    && IsRun(run, events) && 1 <= from <= until < |run|
    && k !in run[from - 1].unacked
    && (forall i :: from <= i <= until ==> k in run[i].unacked)
    && (forall i :: from <= i < until && events[i].Epoch? ==> Resends(run[i]))
  }

  lemma ResentIffDue(c: Conn, k: nat)
    requires c.Wf() && Resends(c) && k in c.unacked
    ensures DataMsg(c.connID, k, c.unacked[k]) in Resent(c) <==> Due(c, k)
  {
    if Due(c, k) {
      assert DataMsg(c.connID, k, c.unacked[k]) in DueAmong(c, c.unacked.Keys);
    }
  }

  lemma RunSound(run: seq<Conn>, events: seq<Event>, i: nat)
    requires IsRun(run, events) && i < |run|
    ensures Sound(run[i])
  {
    WindowTheorem(run, events, i);
  }

  lemma SameParams(c: Conn, e: Event, k: nat)
    requires Sound(c) && Enabled(c, e) && k in c.unacked && k in Next(c, e).unacked
    ensures Next(c, e).params == c.params
  {
    if !e.Epoch? {
      ScheduleStep(c, e, k);
    }
  }

  lemma {:induction false} ParamsConstant(run: seq<Conn>, events: seq<Event>, k: nat, from: nat, i: nat)
    requires Unanswered(run, events, k, from, i)
    ensures run[i].params == run[from].params
    decreases i
  {
    if from < i {
      var x := i - 1;
      ParamsConstant(run, events, k, from, x);
      RunSound(run, events, x);
      assert StepAt(run, events, x);
      SameParams(run[x], events[x], k);
    }
  }

  ghost predicate OnSchedule(run: seq<Conn>, events: seq<Event>, k: nat, from: nat, until: nat)
    requires |run| == |events| + 1 && from <= until < |run|
  {
    && (forall i :: from <= i <= until ==> run[i].Wf() && k in run[i].unacked)
    && At(run[from].params.maxBackoff, Trace(run, events, k, from, until), run[until].countdown[k], run[until].backoff[k])
  }

  lemma FirstSent(c: Conn, e: Event, k: nat)
    requires Sound(c) && Enabled(c, e) && k !in c.unacked && k in Next(c, e).unacked
    ensures var d := Next(c, e);
            && d.Wf() && k in d.countdown && k in d.backoff
            && d.countdown[k] == 0 && d.backoff[k] == Min(1, d.params.maxBackoff)
  {
    NextSound(c, e);
    if !e.Epoch? {
      ScheduleStep(c, e, k);
    }
  }

  lemma AtStart(maxBackoff: nat)
    ensures At(maxBackoff, [], 0, Min(1, maxBackoff))
  {
  }

  lemma FirstOnSchedule(run: seq<Conn>, events: seq<Event>, k: nat, from: nat)
    requires Unanswered(run, events, k, from, from)
    ensures OnSchedule(run, events, k, from, from)
  {
    var x := from - 1;
    RunSound(run, events, x);
    assert StepAt(run, events, x);
    FirstSent(run[x], events[x], k);
    StartOnSchedule(run, events, k, from);
  }

  lemma StartOnSchedule(run: seq<Conn>, events: seq<Event>, k: nat, from: nat)
    requires |run| == |events| + 1 && from < |run| && run[from].Wf() && k in run[from].unacked
    requires run[from].countdown[k] == 0 && run[from].backoff[k] == Min(1, run[from].params.maxBackoff)
    ensures OnSchedule(run, events, k, from, from)
  {
    AtStart(run[from].params.maxBackoff);
  }

  lemma TickSchedule(c: Conn, k: nat)
    requires c.Wf() && Resends(c) && k in c.unacked
    ensures k in Tick(c).countdown && Tick(c).countdown[k] == NextCountdown(c, k)
    ensures k in Tick(c).backoff && Tick(c).backoff[k] == NextBackoff(c, k)
  {
  }

  lemma EpochOnSchedule(run: seq<Conn>, events: seq<Event>, k: nat, from: nat, x: nat)
    requires |run| == |events| + 1 && from <= x < |events| && OnSchedule(run, events, k, from, x)
    requires run[x + 1].Wf() && k in run[x + 1].unacked
    requires StepAt(run, events, x) && events[x].Epoch? && Resends(run[x]) && run[x].params == run[from].params
    ensures OnSchedule(run, events, k, from, x + 1)
  {
    var c := run[x];
    ResentIffDue(c, k);
    TickSchedule(c, k);
    AtStep(c.params.maxBackoff, Trace(run, events, k, from, x), c.countdown[k], c.backoff[k]);
  }

  lemma QuietOnSchedule(run: seq<Conn>, events: seq<Event>, k: nat, from: nat, x: nat)
    requires |run| == |events| + 1 && from <= x < |events| && OnSchedule(run, events, k, from, x)
    requires run[x + 1].Wf() && k in run[x + 1].unacked
    requires StepAt(run, events, x) && !events[x].Epoch? && Sound(run[x])
    ensures OnSchedule(run, events, k, from, x + 1)
  {
    ScheduleStep(run[x], events[x], k);
    assert Trace(run, events, k, from, x + 1) == Trace(run, events, k, from, x);
  }

  lemma ScheduledStepAt(run: seq<Conn>, events: seq<Event>, k: nat, from: nat, x: nat)
    requires |run| == |events| + 1 && from <= x < |events| && OnSchedule(run, events, k, from, x)
    requires StepAt(run, events, x) && Sound(run[x]) && run[x + 1].Wf() && k in run[x + 1].unacked
    requires run[x].params == run[from].params && (events[x].Epoch? ==> Resends(run[x]))
    ensures OnSchedule(run, events, k, from, x + 1)
  {
    if events[x].Epoch? {
      EpochOnSchedule(run, events, k, from, x);
    } else {
      QuietOnSchedule(run, events, k, from, x);
    }
  }

  lemma {:induction false} StaysOnSchedule(run: seq<Conn>, events: seq<Event>, k: nat, from: nat, until: nat)
    requires Unanswered(run, events, k, from, until)
    ensures OnSchedule(run, events, k, from, until)
    decreases until
  {
    if from == until {
      FirstOnSchedule(run, events, k, from);
    } else {
      var x := until - 1;
      StaysOnSchedule(run, events, k, from, x);
      RunSound(run, events, x);
      RunSound(run, events, until);
      ParamsConstant(run, events, k, from, x);
      assert StepAt(run, events, x);
      ScheduledStepAt(run, events, k, from, x);
    }
  }

  /**
   On a live connection, a message that stays unacknowledged is resent exactly at the epochs
   `ResendAt(1)`, `ResendAt(2)`, ...: it skips min(2^(n-1), maxBackoff) epochs between its
   retransmissions n and n+1, so never more than `maxBackoff`.
   */
  lemma BackoffTheorem(run: seq<Conn>, events: seq<Event>, k: nat, from: nat, until: nat)
    requires Unanswered(run, events, k, from, until)
    ensures forall i :: from <= i <= until ==> run[i].Wf()
    ensures Exact(run[from].params.maxBackoff, Trace(run, events, k, from, until))
  {
    StaysOnSchedule(run, events, k, from, until);
  }

  /** `t` and `u` are successive retransmissions. */
  ghost predicate Successive(trace: seq<bool>, t: nat, u: nat) {
    t < u < |trace| && trace[t] && trace[u] && forall x :: t < x < u ==> !trace[x]
  }

  lemma {:induction false} CountAfter(trace: seq<bool>, t: nat, u: nat)
    requires t < u <= |trace| && trace[t] && forall x :: t < x < u ==> !trace[x]
    ensures Count(trace[..u]) == Count(trace[..t]) + 1
    decreases u
  {
    assert trace[..u] == trace[..u - 1] + [trace[u - 1]];
    CountAppend(trace[..u - 1], trace[u - 1]);
    if t < u - 1 {
      CountAfter(trace, t, u - 1);
    }
  }

  lemma TraceGap(maxBackoff: nat, trace: seq<bool>, t: nat, u: nat)
    requires Exact(maxBackoff, trace) && Successive(trace, t, u)
    ensures u - t - 1 == Min(Pow2(Count(trace[..t])), maxBackoff)
  {
    CountAfter(trace, t, u);
    assert OnTime(maxBackoff, trace[..t], trace[t]);
    assert OnTime(maxBackoff, trace[..u], trace[u]);
  }

  /** Between two successive retransmissions, after `n` earlier ones, min(2^n, maxBackoff) epochs are skipped. */
  lemma GapLaw(run: seq<Conn>, events: seq<Event>, k: nat, from: nat, until: nat, t: nat, u: nat)
    requires Unanswered(run, events, k, from, until)
    requires forall i :: from <= i <= until ==> run[i].Wf()
    requires Successive(Trace(run, events, k, from, until), t, u)
    ensures var n := Count(Trace(run, events, k, from, until)[..t]);
            u - t - 1 == Min(Pow2(n), run[from].params.maxBackoff) <= run[from].params.maxBackoff
  {
    BackoffTheorem(run, events, k, from, until);
    TraceGap(run[from].params.maxBackoff, Trace(run, events, k, from, until), t, u);
  }
}
