/**
 Every request of more than 10000 nonces can get a complete result and then another one: a lost chunk is one
 nonce longer than what is handed out whole, so handing it on leaves its last nonce to wait once more.
 */
module SchedulerRepeat {
  import opened Mining
  import opened Scheduler
  import opened SchedulerHeld
  import opened SchedulerRun
  import opened SchedulerTally
  import opened SchedulerWork
  import opened SchedulerAnswer
  import opened SchedulerAgain

  /** Client `c` is sent a complete result by event `i` and another result by event `j`. */
  ghost predicate Repeats(run: seq<World>, events: seq<Event>, i: nat, j: nat, c: nat) {
    && IsRun(run, events) && i < j < |events| && c in Live(run[j])
    && AnswersClient(run, events, i, c) && AnswersClient(run, events, j, c)
    && Complete(run[i], events[i].id, c)
  }

  // ----- client 1 asks, and miner 3 takes chunk after chunk -----

  /** Miners work for client 1 only, on `info`, while `queue` waits. */
  ghost predicate Busy(s: Sched, r: Request, work: map<nat, nat>, queue: seq<Request>, info: map<nat, Interval>) {
    && s.free == [] && s.work == work && s.queue == queue && s.tasks.Keys == {1}
    && s.tasks[1].data == r.data && s.tasks[1].info == info && s.tasks[1].minerNum == |info|
  }

  ghost predicate Came(w: World, from: nat, until: nat) {
    forall n: nat :: from <= n < until ==> Done(w.part, 1, n)
  }

  predicate Large(r: Request) {
    r.client == 1 && r.upper + CHUNK < WORD && r.upper - r.lower >= CHUNK
  }

  /** Miner 3 is at the chunk that starts at `l`, and everything before has come in. */
  ghost predicate Climbing(w: World, r: Request, l: nat) {
    && Large(r) && r.lower <= l && l + CHUNK <= r.upper
    && Busy(w.s, r, map[3 := 1], [r.(lower := l + CHUNK)], map[3 := Interval(l, l + CHUNK)])
    && w.asked == map[1 := r] && w.seen == {1, 3} && w.miners == {3} && w.gone == {}
    && Came(w, r.lower, l)
  }

  lemma Extends(run: seq<World>, events: seq<Event>, e: Event)
    requires IsRun(run, events) && Enabled(run[|events|], e)
    ensures IsRun(run + [Next(run[|events|], e)], events + [e])
  {
    var more, longer := run + [Next(run[|events|], e)], events + [e];
    forall i: nat | i < |longer| ensures EventAt(more, longer, i) {
      if i < |events| {
        assert EventAt(run, events, i);
      }
    }
  }

  lemma AssignLarge(s: Sched, m: nat, r: Request)
    requires s.queue == [r] && r.lower <= r.upper && r.upper + CHUNK < WORD && r.upper - r.lower >= CHUNK
    ensures Assign(s, m) == Give(s.(queue := [r.(lower := r.lower + CHUNK)]), m, r.client, r.data,
                                 Interval(r.lower, r.lower + CHUNK))
  {
    NoWrap(r.lower, r.upper);
    assert s.queue[1..] + [r.(lower := r.lower + CHUNK)] == [r.(lower := r.lower + CHUNK)];
  }

  lemma Start(r: Request) returns (run: seq<World>, events: seq<Event>)
    requires Large(r)
    ensures IsRun(run, events) && Climbing(run[|events|], r, r.lower)
  {
    var w1 := Next(IDLE, Ask(1, r.data, r.lower, r.upper));
    assert w1.s.queue == [r];
    AssignLarge(w1.s, 3, r);
    Extends([IDLE], [], Ask(1, r.data, r.lower, r.upper));
    Extends([IDLE] + [w1], [] + [Ask(1, r.data, r.lower, r.upper)], Join(3));
    run := [IDLE] + [w1] + [Next(w1, Join(3))];
    events := [] + [Ask(1, r.data, r.lower, r.upper)] + [Join(3)];
  }

  lemma ReleaseOne(s: Sched, r: Request, m: nat, queue: seq<Request>, range: Interval)
    requires Busy(s, r, map[m := 1], queue, map[m := range])
    ensures Busy(Release(s, 1, m), r, map[m := 1], queue, map[])
  {
    assert map[m := range] - {m} == map[];
    assert s.tasks[1 := Release(s, 1, m).tasks[1]].Keys == {1};
  }

  lemma MorePieces(w: World, m: nat, range: Interval, from: nat)
    requires WorksFor(w.s, m, 1) && Lists(w.s, 1, m) && w.s.tasks[1].info[m] == range && Came(w, from, range.lower)
    ensures forall n: nat :: from <= n <= range.upper ==> Done(Given(w, m), 1, n)
  {
    var p := Piece(1, range);
    assert p in Given(w, m);
    forall n: nat | from <= n <= range.upper ensures Done(Given(w, m), 1, n) {
      if n < range.lower {
        DoneUnion(w.part, Finished(w.s, m), 1, n);
      } else {
        assert Within(p.range, n);
      }
    }
  }

  /** The task goes on as long as its miner gets more of it. */
  lemma GoesOn(s: Sched, r: Request, m: nat, queue: seq<Request>, range: Interval)
    requires Busy(s, r, map[m := 1], queue, map[m := range])
    ensures Busy(Conclude(s, 1, 1, 0), r, map[m := 1], queue, map[m := range])
  {
    assert |map[m := range]| == 1;
    assert Conclude(s, 1, 1, 0).tasks.Keys == {1};
  }

  lemma GivesOne(s: Sched, r: Request, m: nat, work: map<nat, nat>, queue: seq<Request>, range: Interval)
    requires Busy(s, r, work, queue, map[]) && work.Keys <= {m}
    ensures Busy(Give(s, m, 1, r.data, range), r, map[m := 1], queue, map[m := range])
  {
    var t := Give(s, m, 1, r.data, range);
    assert t.tasks.Keys == {1} && t.work == map[m := 1];
    assert |map[m := range]| == 1;
  }

  /** The next chunk is handed out. */
  lemma NextChunk(u: Sched, r: Request, l: nat)
    requires Large(r) && r.lower <= l && r.upper - l >= CHUNK && Busy(u, r, map[3 := 1], [r.(lower := l)], map[])
    ensures Busy(Assign(u, 3), r, map[3 := 1], [r.(lower := l + CHUNK)], map[3 := Interval(l, l + CHUNK)])
  {
    var queue := [r.(lower := l + CHUNK)];
    AssignLarge(u, 3, r.(lower := l));
    assert Busy(u.(queue := queue), r, map[3 := 1], queue, map[]);
    GivesOne(u.(queue := queue), r, 3, map[3 := 1], queue, Interval(l, l + CHUNK));
  }

  lemma ClimbSched(s: Sched, r: Request, l: nat)
    requires Large(r) && r.lower <= l && r.upper - (l + CHUNK) >= CHUNK
    requires Busy(s, r, map[3 := 1], [r.(lower := l + CHUNK)], map[3 := Interval(l, l + CHUNK)])
    ensures Busy(OnResult(s, 3, 1, 0), r, map[3 := 1], [r.(lower := l + CHUNK + CHUNK)],
                 map[3 := Interval(l + CHUNK, l + CHUNK + CHUNK)])
  {
    var next := l + CHUNK;
    var u := Release(s, 1, 3);
    ReleaseOne(s, r, 3, [r.(lower := next)], Interval(l, next));
    NextChunk(u, r, next);
    GoesOn(Assign(u, 3), r, 3, [r.(lower := next + CHUNK)], Interval(next, next + CHUNK));
  }

  lemma StepUp(w: World, r: Request, l: nat)
    requires Climbing(w, r, l) && r.upper - (l + CHUNK) >= CHUNK
    ensures Enabled(w, Result(3, 1, 0)) && Climbing(Next(w, Result(3, 1, 0)), r, l + CHUNK)
  {
    var t := Next(w, Result(3, 1, 0));
    ClimbSched(w.s, r, l);
    MorePieces(w, 3, Interval(l, l + CHUNK), r.lower);
    assert Answers(w.s, t.s, 3) == {};
    assert t.part == Given(w, 3);
  }

  /** The miner climbs until less than a chunk remains after the one it works on. */
  lemma {:induction false} Climb(r: Request, l: nat, run: seq<World>, events: seq<Event>)
    returns (top: nat, longer: seq<World>, more: seq<Event>)
    requires IsRun(run, events) && Climbing(run[|events|], r, l)
    ensures IsRun(longer, more) && Climbing(longer[|more|], r, top) && r.upper - (top + CHUNK) < CHUNK
    decreases r.upper - l
  {
    if r.upper - (l + CHUNK) < CHUNK {
      top, longer, more := l, run, events;
    } else {
      var w := run[|events|];
      StepUp(w, r, l);
      Extends(run, events, Result(3, 1, 0));
      top, longer, more := Climb(r, l + CHUNK, run + [Next(w, Result(3, 1, 0))], events + [Result(3, 1, 0)]);
    }
  }

  // ----- miner 3 is lost with a whole chunk, and miner 4 takes over -----

  const SMALL := Request(2, "x", 0, 0)

  /** What is left of the request at the top, the chunk itself, and its last nonce. */
  function Rest(r: Request, l: nat): Request { r.(lower := l + CHUNK) }

  function Lost(r: Request, l: nat): Request { r.(lower := l, upper := l + CHUNK) }

  function Nonce(r: Request, l: nat): Request { r.(lower := l + CHUNK, upper := l + CHUNK) }

  ghost predicate AtTop(r: Request, l: nat) {
    Large(r) && r.lower <= l && l + CHUNK <= r.upper < l + CHUNK + CHUNK
  }

  ghost predicate Known(w: World, r: Request) {
    w.asked == map[1 := r, 2 := SMALL] && w.seen <= {1, 2, 3, 4} && 1 !in w.gone
  }

  lemma LosesMiner(w: World, r: Request, l: nat) returns (w1: World, w2: World)
    requires Climbing(w, r, l) && AtTop(r, l)
    ensures Enabled(w, Ask(2, "x", 0, 0)) && w1 == Next(w, Ask(2, "x", 0, 0))
    ensures Enabled(w1, Fail(3)) && w2 == Next(w1, Fail(3))
    ensures Busy(w2.s, r, map[], [Lost(r, l), Rest(r, l), SMALL], map[])
    ensures Known(w2, r) && 4 !in w2.seen && Came(w2, r.lower, l)
  {
    w1 := Next(w, Ask(2, "x", 0, 0));
    var queue := [Rest(r, l), SMALL];
    assert w1.s.queue == queue;
    assert Busy(w1.s, r, map[3 := 1], queue, map[3 := Interval(l, l + CHUNK)]);
    assert !Waits(queue, 3);
    w2 := Next(w1, Fail(3));
    ReleaseOne(w1.s, r, 3, queue, Interval(l, l + CHUNK));
    assert map[3 := 1] - {3} == map[];
    assert [Lost(r, l)] + queue == [Lost(r, l), Rest(r, l), SMALL];
    assert w2.s == Replace(w1.s, 3);
  }

  /** The lost chunk is handed on, and its last nonce waits again. */
  lemma HandsOn(s: Sched, r: Request, l: nat)
    requires AtTop(r, l) && Busy(s, r, map[], [Lost(r, l), Rest(r, l), SMALL], map[])
    ensures Busy(OnJoin(s, 4), r, map[4 := 1], [Rest(r, l), SMALL, Nonce(r, l)], map[4 := Interval(l, l + CHUNK)])
  {
    var queue := [Rest(r, l), SMALL, Nonce(r, l)];
    NoWrap(l, l + CHUNK);
    assert s.queue[1..] + [Nonce(r, l)] == queue;
    GivesOne(s.(queue := queue), r, 4, map[], queue, Interval(l, l + CHUNK));
    assert OnJoin(s, 4) == Give(s.(queue := queue), 4, 1, r.data, Interval(l, l + CHUNK));
  }

  lemma TakesRest(s: Sched, r: Request, l: nat)
    requires AtTop(r, l)
    requires Busy(s, r, map[4 := 1], [Rest(r, l), SMALL, Nonce(r, l)], map[4 := Interval(l, l + CHUNK)])
    ensures Busy(OnResult(s, 4, 1, 0), r, map[4 := 1], [SMALL, Nonce(r, l)], map[4 := Interval(l + CHUNK, r.upper)])
  {
    var queue := [SMALL, Nonce(r, l)];
    var u := Release(s, 1, 4);
    ReleaseOne(s, r, 4, [Rest(r, l), SMALL, Nonce(r, l)], Interval(l, l + CHUNK));
    NoWrap(l + CHUNK, r.upper);
    assert u.queue[1..] == queue;
    GivesOne(u.(queue := queue), r, 4, map[4 := 1], queue, Interval(l + CHUNK, r.upper));
    assert Assign(u, 4) == Give(u.(queue := queue), 4, 1, r.data, Interval(l + CHUNK, r.upper));
    GoesOn(Assign(u, 4), r, 4, queue, Interval(l + CHUNK, r.upper));
  }

  /** Client 2 heads the queue, so client 1 is answered. */
  lemma AnswersFirst(s: Sched, r: Request, l: nat)
    requires AtTop(r, l) && Busy(s, r, map[4 := 1], [SMALL, Nonce(r, l)], map[4 := Interval(l + CHUNK, r.upper)])
    ensures var t := OnResult(s, 4, 1, 0);
            && t.free == [] && t.work == map[4 := 2] && t.queue == [Nonce(r, l)]
            && t.tasks == map[2 := Task("x", 1, map[4 := Interval(0, 0)], 0, 0)]
  {
    var u := Release(s, 1, 4);
    ReleaseOne(s, r, 4, [SMALL, Nonce(r, l)], Interval(l + CHUNK, r.upper));
    assert u.queue[1..] == [Nonce(r, l)];
    var v := Assign(u, 4);
    assert v.tasks.Keys == {1, 2} && v.tasks[1] == u.tasks[1] && v.tasks[1].minerNum == 0;
    assert v.tasks - {1} == map[2 := Task("x", 1, map[4 := Interval(0, 0)], 0, 0)];
  }

  lemma AnswersOther(s: Sched, r: Request, l: nat)
    requires AtTop(r, l) && s.free == [] && s.work == map[4 := 2] && s.queue == [Nonce(r, l)]
    requires s.tasks == map[2 := Task("x", 1, map[4 := Interval(0, 0)], 0, 0)]
    ensures var t := OnResult(s, 4, 1, 0);
            Busy(t, r, map[4 := 1], [], map[4 := Interval(l + CHUNK, l + CHUNK)])
  {
    var u, range := Release(s, 2, 4), Interval(l + CHUNK, l + CHUNK);
    assert u.tasks == map[2 := Task("x", 0, map[], 0, 0)];
    NoWrap(l + CHUNK, l + CHUNK);
    assert u.queue[1..] == [];
    var v := Assign(u, 4);
    assert v == Give(u.(queue := []), 4, 1, r.data, range);
    assert v.tasks[1] == Task(r.data, 1, map[4 := range], 0, 0);
    assert (v.tasks - {2}).Keys == {1};
    assert |map[4 := range]| == 1;
  }

  lemma AnswersAgain(s: Sched, r: Request, range: Interval)
    requires Busy(s, r, map[4 := 1], [], map[4 := range])
    ensures 1 !in OnResult(s, 4, 1, 0).tasks
  {
    ReleaseOne(s, r, 4, [], range);
  }

  // ----- put together -----

  const REPORT := Result(4, 1, 0)

  lemma TakesOver(w: World, r: Request, l: nat) returns (t: World)
    requires AtTop(r, l) && Known(w, r) && 4 !in w.seen && Came(w, r.lower, l)
    requires Busy(w.s, r, map[], [Lost(r, l), Rest(r, l), SMALL], map[])
    ensures Enabled(w, Join(4)) && t == Next(w, Join(4)) && Known(t, r) && Came(t, r.lower, l)
    ensures Busy(t.s, r, map[4 := 1], [Rest(r, l), SMALL, Nonce(r, l)], map[4 := Interval(l, l + CHUNK)])
  {
    t := Next(w, Join(4));
    HandsOn(w.s, r, l);
  }

  /** The first three of the last seven events. */
  lemma Recovers(run: seq<World>, events: seq<Event>, r: Request, l: nat) returns (longer: seq<World>, more: seq<Event>)
    requires IsRun(run, events) && Climbing(run[|events|], r, l) && AtTop(r, l)
    ensures IsRun(longer, more) && Known(longer[|more|], r) && Came(longer[|more|], r.lower, l)
    ensures Busy(longer[|more|].s, r, map[4 := 1], [Rest(r, l), SMALL, Nonce(r, l)], map[4 := Interval(l, l + CHUNK)])
  {
    var w1, w2 := LosesMiner(run[|events|], r, l);
    var w3 := TakesOver(w2, r, l);
    var ask := Ask(2, "x", 0, 0);
    Extends(run, events, ask);
    Extends(run + [w1], events + [ask], Fail(3));
    Extends(run + [w1] + [w2], events + [ask] + [Fail(3)], Join(4));
    longer, more := run + [w1] + [w2] + [w3], events + [ask] + [Fail(3)] + [Join(4)];
  }

  /** Miner 4 reports the chunk and gets the rest. */
  lemma Reports(w: World, r: Request, l: nat) returns (t: World)
    requires AtTop(r, l) && Known(w, r) && Came(w, r.lower, l)
    requires Busy(w.s, r, map[4 := 1], [Rest(r, l), SMALL, Nonce(r, l)], map[4 := Interval(l, l + CHUNK)])
    ensures Enabled(w, REPORT) && t == Next(w, REPORT)
    ensures Known(t, r) && Came(t, r.lower, l + CHUNK + 1)
    ensures Busy(t.s, r, map[4 := 1], [SMALL, Nonce(r, l)], map[4 := Interval(l + CHUNK, r.upper)])
  {
    t := Next(w, REPORT);
    TakesRest(w.s, r, l);
    MorePieces(w, 4, Interval(l, l + CHUNK), r.lower);
    assert Answers(w.s, t.s, 4) == {};
    assert t.part == Given(w, 4);
  }

  /** The next report completes the request, and client 1 is sent its result. */
  lemma Completes(w: World, r: Request, l: nat) returns (t: World)
    requires AtTop(r, l) && Known(w, r) && Came(w, r.lower, l + CHUNK + 1)
    requires Busy(w.s, r, map[4 := 1], [SMALL, Nonce(r, l)], map[4 := Interval(l + CHUNK, r.upper)])
    ensures Enabled(w, REPORT) && t == Next(w, REPORT) && 1 in Answers(w.s, t.s, 4) && Complete(w, 4, 1)
    ensures Known(t, r) && t.s.free == [] && t.s.work == map[4 := 2] && t.s.queue == [Nonce(r, l)]
    ensures t.s.tasks == map[2 := Task("x", 1, map[4 := Interval(0, 0)], 0, 0)]
  {
    t := Next(w, REPORT);
    AnswersFirst(w.s, r, l);
    MorePieces(w, 4, Interval(l + CHUNK, r.upper), r.lower);
  }

  lemma LargeRepeats(r: Request) returns (run: seq<World>, events: seq<Event>, i: nat, j: nat)
    requires Large(r)
    ensures Repeats(run, events, i, j, 1) && run[i].asked[1] == r
  {
    run, events := Start(r);
    var l: nat;
    l, run, events := Climb(r, r.lower, run, events);
    run, events := Recovers(run, events, r, l);
    var w4 := run[|events|];
    var w5 := Reports(w4, r, l);
    var w6 := Completes(w5, r, l);
    AnswersOther(w6.s, r, l);
    var w7 := Next(w6, REPORT);
    AnswersAgain(w7.s, r, Interval(l + CHUNK, l + CHUNK));
    i, j := |events| + 1, |events| + 3;
    run, events := FourReports(run, events, w5, w6, w7);
  }

  lemma FourReports(run: seq<World>, events: seq<Event>, w5: World, w6: World, w7: World)
    returns (longer: seq<World>, more: seq<Event>)
    requires IsRun(run, events) && Enabled(run[|events|], REPORT) && w5 == Next(run[|events|], REPORT)
    requires Enabled(w5, REPORT) && w6 == Next(w5, REPORT) && Enabled(w6, REPORT) && w7 == Next(w6, REPORT)
    requires Enabled(w7, REPORT)
    ensures IsRun(longer, more) && |more| == |events| + 4
    ensures var k := |events|;
            && longer[k + 1] == w5 && longer[k + 2] == w6 && longer[k + 3] == w7 && longer[k + 4] == Next(w7, REPORT)
            && more[k + 1] == REPORT && more[k + 3] == REPORT
  {
    Extends(run, events, REPORT);
    Extends(run + [w5], events + [REPORT], REPORT);
    Extends(run + [w5] + [w6], events + [REPORT] + [REPORT], REPORT);
    Extends(run + [w5] + [w6] + [w7], events + [REPORT] + [REPORT] + [REPORT], REPORT);
    longer := run + [w5] + [w6] + [w7] + [Next(w7, REPORT)];
    more := events + [REPORT] + [REPORT] + [REPORT] + [REPORT];
  }

  /**
   Which requests can get a complete result and then another one: exactly those of more than 10000 nonces.
   Smaller ones never get a second result.
   */
  lemma RepeatsIff(lower: nat, upper: nat, data: string)
    requires lower <= upper && upper + CHUNK < WORD
    ensures (exists run: seq<World>, events: seq<Event>, i: nat, j: nat, c: nat ::
               Repeats(run, events, i, j, c) && run[i].asked[c] == Request(c, data, lower, upper)) <==>
            upper - lower >= CHUNK
  {
    if upper - lower >= CHUNK {
      var run, events, i, j := LargeRepeats(Request(1, data, lower, upper));
      assert Repeats(run, events, i, j, 1) && run[i].asked[1] == Request(1, data, lower, upper);
    } else {
      forall run: seq<World>, events: seq<Event>, i: nat, j: nat, c: nat
        | Repeats(run, events, i, j, c) && run[i].asked[c] == Request(c, data, lower, upper)
        ensures false
      {
        SmallOnlyOnce(run, events, i, j, c);
      }
    }
  }
}
