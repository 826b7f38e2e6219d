/**
 Conservation of work: for every connected client, the ranges that are finished, assigned and queued
 always make up exactly the nonces it asked for.
 */
module SchedulerWork {
  import opened Mining
  import opened Scheduler
  import opened SchedulerHeld
  import opened SchedulerRun
  import opened SchedulerTally

  // ----- everything belongs to a request -----

  predicate Inside(asked: map<nat, Request>, client: nat, data: string, range: Interval) {
    && client in asked && data == asked[client].data
    && asked[client].lower <= range.lower <= range.upper <= asked[client].upper
  }

  ghost predicate Fits(s: Sched, asked: map<nat, Request>) {
    && (forall c :: c in asked ==> Sound(asked[c]) && asked[c].client == c)
    && (forall r :: r in s.queue ==> Inside(asked, r.client, r.data, Interval(r.lower, r.upper)))
    && (forall c :: c in s.tasks ==> c in asked && s.tasks[c].data == asked[c].data)
    && (forall c, m :: c in s.tasks && m in s.tasks[c].info ==> Inside(asked, c, s.tasks[c].data, s.tasks[c].info[m]))
    && (forall m :: m in s.work ==> s.work[m] in asked)
  }

  lemma FitsGive(s: Sched, asked: map<nat, Request>, m: nat, client: nat, data: string, range: Interval)
    requires Fits(s, asked) && Inside(asked, client, data, range)
    ensures Fits(Give(s, m, client, data, range), asked)
  {
    var t := Give(s, m, client, data, range);
    forall c, x | c in t.tasks && x in t.tasks[c].info ensures Inside(asked, c, t.tasks[c].data, t.tasks[c].info[x]) {
      if !(c == client && x == m) {
        assert c in s.tasks && x in s.tasks[c].info;
      }
    }
  }

  lemma FitsAssign(s: Sched, asked: map<nat, Request>, m: nat)
    requires Fits(s, asked) && s.queue != []
    ensures Fits(Assign(s, m), asked) && Sound(s.queue[0])
  {
    var r := s.queue[0];
    assert Inside(asked, r.client, r.data, Interval(r.lower, r.upper));
    assert Sound(asked[r.client]);
    NoWrap(r.lower, r.upper);
    if Size(r.lower, r.upper) <= CHUNK {
      FitsGive(s.(queue := s.queue[1..]), asked, m, r.client, r.data, Interval(r.lower, r.upper));
    } else {
      var cut := Plus(r.lower, CHUNK);
      FitsGive(s.(queue := s.queue[1..] + [r.(lower := cut)]), asked, m, r.client, r.data, Interval(r.lower, cut));
    }
  }

  lemma FitsRelease(s: Sched, asked: map<nat, Request>, client: nat, m: nat)
    requires Fits(s, asked)
    ensures Fits(Release(s, client, m), asked)
  {
    var t := Release(s, client, m);
    forall c, x | c in t.tasks && x in t.tasks[c].info ensures Inside(asked, c, t.tasks[c].data, t.tasks[c].info[x]) {
      assert c in s.tasks && x in s.tasks[c].info;
    }
  }

  lemma FitsResult(s: Sched, asked: map<nat, Request>, m: nat, hash: nat, nonce: nat)
    requires Fits(s, asked)
    ensures Fits(OnResult(s, m, hash, nonce), asked)
  {
    var client := ClientOf(s, m);
    var r := Release(s, client, m);
    FitsRelease(s, asked, client, m);
    if r.queue != [] {
      FitsAssign(r, asked, m);
    }
    assert Fits(Reuse(r, m), asked);
    if client in s.tasks {
      FitsConclude(Reuse(r, m), asked, client, hash, nonce);
    }
  }

  lemma FitsConclude(s: Sched, asked: map<nat, Request>, client: nat, hash: nat, nonce: nat)
    requires Fits(s, asked) && client in s.tasks
    ensures Fits(Conclude(s, client, hash, nonce), asked)
  {
    var t := Conclude(s, client, hash, nonce);
    forall c, x | c in t.tasks && x in t.tasks[c].info ensures Inside(asked, c, t.tasks[c].data, t.tasks[c].info[x]) {
      assert c in s.tasks && x in s.tasks[c].info;
    }
  }

  lemma {:induction false} FitsSpread(s: Sched, asked: map<nat, Request>, client: nat, data: string, lower: nat, upper: nat)
    requires Fits(s, asked) && Inside(asked, client, data, Interval(lower, upper))
    ensures Fits(Spread(s, client, data, lower, upper), asked)
    decreases |s.free|
  {
    assert Sound(asked[client]);
    NoWrap(lower, upper);
    if s.free != [] && lower < upper {
      var end := ChunkEnd(lower, upper);
      FitsGive(s.(free := s.free[1..]), asked, s.free[0], client, data, Interval(lower, end));
      FitsSpread(Give(s.(free := s.free[1..]), s.free[0], client, data, Interval(lower, end)),
                 asked, client, data, end, upper);
    }
  }

  lemma FitsAsk(s: Sched, asked: map<nat, Request>, id: nat, data: string, lower: nat, upper: nat)
    requires Fits(s, asked) && id !in asked && lower <= upper && upper + CHUNK < WORD
    ensures Fits(OnRequest(s, id, data, lower, upper), asked[id := Request(id, data, lower, upper)])
  {
    var more := asked[id := Request(id, data, lower, upper)];
    assert Fits(s, more);
    assert Inside(more, id, data, Interval(lower, upper));
    if s.free != [] && Size(lower, upper) <= CHUNK {
      FitsGive(s.(free := s.free[1..]), more, s.free[0], id, data, Interval(lower, upper));
      assert id !in s.tasks;
    } else if s.free != [] {
      FitsSpread(s, more, id, data, lower, upper);
    }
  }

  lemma FitsReplace(s: Sched, asked: map<nat, Request>, id: nat)
    requires Fits(s, asked) && id in s.work && s.work[id] in s.tasks && id in s.tasks[s.work[id]].info
    ensures Fits(Replace(s, id), asked)
  {
    var client := s.work[id];
    var task := s.tasks[client];
    var t := Release(s, client, id).(work := s.work - {id});
    FitsRelease(s, asked, client, id);
    assert Inside(asked, client, task.data, task.info[id]);
    if t.free != [] {
      FitsGive(t.(free := t.free[1..]), asked, t.free[0], client, task.data, task.info[id]);
    }
  }

  lemma {:induction false} StillQueued(queue: seq<Request>, id: nat, r: Request)
    requires r in WithoutFirst(queue, id)
    ensures r in queue
  {
    if queue[0].client != id && r != queue[0] {
      StillQueued(queue[1..], id, r);
    }
  }

  lemma FitsFail(s: Sched, asked: map<nat, Request>, id: nat)
    requires Fits(s, asked) && CanReplace(s, id)
    ensures Fits(OnError(s, id), asked)
  {
    if id in s.tasks || Waits(s.queue, id) {
      forall r | r in WithoutFirst(s.queue, id) ensures Inside(asked, r.client, r.data, Interval(r.lower, r.upper)) {
        StillQueued(s.queue, id, r);
      }
    } else if id !in s.free && id in s.work {
      FitsReplace(s, asked, id);
    }
  }

  // ----- nothing is lost -----

  ghost predicate Done(done: set<Piece>, client: nat, n: nat) {
    exists p :: p in done && p.client == client && Within(p.range, n)
  }

  ghost predicate Covered(w: World, client: nat)
    requires client in w.asked
  {
    forall n :: Asks(w.asked[client], client, n) <==> Done(w.done, client, n) || Held(w.s, client, n)
  }

  ghost predicate Inv(w: World) {
    && Crew(w.s.free, w.s.work.Keys, w.miners) && NoIdling(w.s)
    && Fits(w.s, w.asked) && Tally(w.s, Live(w))
    && w.asked.Keys <= w.seen && w.miners <= w.seen && w.gone <= w.seen && w.asked.Keys !! w.miners
    && (forall p :: p in w.done ==> p.client in w.asked)
    && (forall c :: c in Live(w) ==> Covered(w, c))
  }

  /** The range of a lost miner is found if its client's task lists the miner; a connected client's does. */
  lemma CrashesIff(w: World, id: nat)
    requires Inv(w)
    ensures CanReplace(w.s, id) <==> (id in w.s.work ==> Lists(w.s, w.s.work[id], id))
    ensures id in w.s.work && w.s.work[id] in Live(w) ==> CanReplace(w.s, id)
  {
    if id in w.s.work {
      assert id in w.miners && id !in w.s.tasks && id !in w.s.free;
      assert !Waits(w.s.queue, id);
      assert WorksFor(w.s, id, w.s.work[id]);
    }
  }

  lemma FreeAreNew(w: World, client: nat)
    requires Inv(w) && (client in Live(w) || client !in w.s.tasks)
    ensures AllNew(w.s, client)
  {
    forall m | m in w.s.free ensures NewTo(w.s, client, m) {
      assert !WorksFor(w.s, m, client);
      assert client in Live(w) ==> !Lists(w.s, client, m);
    }
  }

  /** The head of the queue is new to a miner that works for nobody. */
  lemma NextIsNew(s: Sched, live: set<nat>, asked: map<nat, Request>, m: nat, c: nat, n: nat)
    requires TallyBut(s, live, m) && Fits(s, asked) && s.queue != [] && c in live
    ensures Held(Assign(s, m), c, n) <==> Held(s, c, n)
  {
    FitsAssign(s, asked, m);
    var r := s.queue[0];
    if r.client in live {
      assert !Lists(s, r.client, m);
      AssignHeld(s, m, c, n);
    } else {
      OthersAssign(s, m, c, n);
    }
  }

  /** Work for another client, even a departed one, leaves this client's alone. */
  lemma OthersAssign(s: Sched, m: nat, c: nat, n: nat)
    requires s.queue != [] && s.queue[0].client != c
    ensures Held(Assign(s, m), c, n) <==> Held(s, c, n)
  {
    var r := s.queue[0];
    QueuedHead(s.queue, c, n);
    var rest := r.(lower := Plus(r.lower, CHUNK));
    QueuedAppend(s.queue[1..], [rest], c, n);
    QueuedOne(rest, c, n);
    assert Assigned(Assign(s, m), c, n) <==> Assigned(s, c, n);
  }

  lemma JoinCovered(w: World, id: nat, c: nat)
    requires Inv(w) && Enabled(w, Join(id)) && c in Live(w)
    ensures Covered(Next(w, Join(id)), c)
  {
    var t := Next(w, Join(id));
    forall n: nat ensures Held(t.s, c, n) <==> Held(w.s, c, n) {
      if w.s.queue != [] {
        assert id !in w.s.work;
        TallyNew(w.s, Live(w), id);
        NextIsNew(w.s, Live(w), w.asked, id, c, n);
      } else {
        assert Assigned(t.s, c, n) <==> Assigned(w.s, c, n);
      }
    }
    assert Covered(w, c);
  }

  lemma AskCovered(w: World, e: Event, c: nat)
    requires Inv(w) && e.Ask? && Enabled(w, e) && c in Live(Next(w, e))
    ensures Covered(Next(w, e), c)
  {
    var t := Next(w, e);
    assert e.id !in w.asked && e.id !in w.s.tasks;
    FreeAreNew(w, e.id);
    forall n: nat ensures Held(t.s, c, n) <==> Held(w.s, c, n) || (c == e.id && e.lower <= n <= e.upper) {
      RequestHeld(w.s, e.id, e.data, e.lower, e.upper, c, n);
    }
    if c == e.id {
      assert forall n :: !Done(w.done, c, n) && !Held(w.s, c, n);
    } else {
      assert Covered(w, c);
    }
  }

  /** A result moves one range of one client from assigned to finished. */
  lemma ResultHeld(w: World, e: Event, c: nat, n: nat)
    requires Inv(w) && e.Result? && Enabled(w, e) && c in Live(w)
    ensures Held(w.s, c, n) <==> Held(Next(w, e).s, c, n) || Done(Finished(w.s, e.id), c, n)
  {
    var s, m := w.s, e.id;
    var client := s.work[m];
    var r := Release(s, client, m);
    var u := Reuse(r, m);
    TallyRelease(s, Live(w), m);
    FitsRelease(s, w.asked, client, m);
    ResultTally(s, Live(w), m, e.hash, e.nonce);
    if r.queue != [] {
      NextIsNew(r, Live(w), w.asked, m, c, n);
    } else {
      assert Assigned(u, c, n) <==> Assigned(r, c, n);
    }
    assert Held(u, c, n) <==> Held(r, c, n);
    if client in s.tasks {
      assert c == client ==> Counted(u, client);
      ConcludeHeld(u, client, e.hash, e.nonce, c, n);
    }
    ReleasedPiece(w, m, c, n);
  }

  lemma ReleasedPiece(w: World, m: nat, c: nat, n: nat)
    requires Inv(w) && m in w.s.work && c in Live(w)
    ensures Held(w.s, c, n) <==> Held(Release(w.s, w.s.work[m], m), c, n) || Done(Finished(w.s, m), c, n)
  {
    var s, client := w.s, w.s.work[m];
    if client in s.tasks && m in s.tasks[client].info {
      ReleaseAssigned(s, client, m, c, n);
      var p := Piece(client, s.tasks[client].info[m]);
      assert Finished(s, m) == {p};
      assert Done({p}, c, n) <==> c == client && Within(p.range, n);
    } else {
      assert c != client by {
        assert WorksFor(s, m, client) && !Lists(s, client, m);
      }
      assert Assigned(Release(s, client, m), c, n) <==> Assigned(s, c, n);
    }
  }

  lemma ResultCovered(w: World, e: Event, c: nat)
    requires Inv(w) && e.Result? && Enabled(w, e) && c in Live(w)
    ensures Covered(Next(w, e), c)
  {
    var t := Next(w, e);
    forall n: nat
      ensures Done(t.done, c, n) || Held(t.s, c, n) <==> Done(w.done, c, n) || Held(w.s, c, n)
    {
      ResultHeld(w, e, c, n);
      DoneUnion(w.done, Finished(w.s, e.id), c, n);
    }
    assert Covered(w, c);
  }

  lemma DoneUnion(a: set<Piece>, b: set<Piece>, c: nat, n: nat)
    ensures Done(a + b, c, n) <==> Done(a, c, n) || Done(b, c, n)
  {
    assert forall p :: p in a + b <==> p in a || p in b;
  }

  /** Handing on the range of another client, even a departed one, leaves this client's alone. */
  lemma OthersReplace(s: Sched, id: nat, c: nat, n: nat)
    requires id in s.work && s.work[id] in s.tasks && id in s.tasks[s.work[id]].info && s.work[id] != c
    ensures Held(Replace(s, id), c, n) <==> Held(s, c, n)
  {
    var task := s.tasks[s.work[id]];
    var r := Request(s.work[id], task.data, task.info[id].lower, task.info[id].upper);
    QueuedAppend([r], s.queue, c, n);
    QueuedOne(r, c, n);
    assert Assigned(Replace(s, id), c, n) <==> Assigned(s, c, n);
  }

  lemma FailCovered(w: World, id: nat, c: nat)
    requires Inv(w) && Enabled(w, Fail(id)) && c in Live(w) - {id}
    ensures Covered(Next(w, Fail(id)), c)
  {
    var s, t := w.s, Next(w, Fail(id));
    forall n: nat ensures Held(t.s, c, n) <==> Held(s, c, n) {
      if id in s.tasks || Waits(s.queue, id) {
        QueuedWithout(s.queue, id, c, n);
        assert Assigned(t.s, c, n) <==> Assigned(s, c, n);
      } else if id in s.free {
        assert Assigned(t.s, c, n) <==> Assigned(s, c, n);
      } else if id in s.work && s.work[id] == c {
        FreeAreNew(w, c);
        assert s.free != [] ==> s.free[0] in s.free;
        ReplaceHeld(s, id, c, n);
      } else if id in s.work {
        OthersReplace(s, id, c, n);
      }
    }
    assert Covered(w, c);
  }

  // ----- every event keeps it -----

  lemma JoinKeeps(w: World, id: nat)
    requires Inv(w) && Enabled(w, Join(id))
    ensures Inv(Next(w, Join(id)))
  {
    var t := Next(w, Join(id));
    JoinCrew(w.s, id, w.miners);
    assert id !in w.s.work;
    JoinTally(w.s, Live(w), id);
    if w.s.queue != [] {
      FitsAssign(w.s, w.asked, id);
    }
    assert Live(t) == Live(w);
    forall c | c in Live(t) ensures Covered(t, c) {
      JoinCovered(w, id, c);
    }
  }

  lemma AskKeeps(w: World, e: Event)
    requires Inv(w) && e.Ask? && Enabled(w, e)
    ensures Inv(Next(w, e))
  {
    var t := Next(w, e);
    AskCrew(w.s, e.id, e.data, e.lower, e.upper, w.miners);
    FitsAsk(w.s, w.asked, e.id, e.data, e.lower, e.upper);
    AskTally(w.s, Live(w), e.id, e.data, e.lower, e.upper, w.miners);
    assert Live(t) == Live(w) + {e.id};
    forall c | c in Live(t) ensures Covered(t, c) {
      AskCovered(w, e, c);
    }
  }

  lemma ResultKeeps(w: World, e: Event)
    requires Inv(w) && e.Result? && Enabled(w, e)
    ensures Inv(Next(w, e))
  {
    var t := Next(w, e);
    ResultCrew(w.s, e.id, e.hash, e.nonce, w.miners);
    ResultTally(w.s, Live(w), e.id, e.hash, e.nonce);
    FitsResult(w.s, w.asked, e.id, e.hash, e.nonce);
    forall c | c in Live(t) ensures Covered(t, c) {
      ResultCovered(w, e, c);
    }
  }

  lemma FailKeeps(w: World, id: nat)
    requires Inv(w) && Enabled(w, Fail(id))
    ensures Inv(Next(w, Fail(id)))
  {
    var t := Next(w, Fail(id));
    if id in w.miners {
      assert id !in w.s.tasks && !Waits(w.s.queue, id);
    }
    FailCrew(w.s, id, w.miners);
    FailTally(w.s, Live(w), id, w.miners);
    FitsFail(w.s, w.asked, id);
    assert Live(t) == Live(w) - {id};
    forall c | c in Live(t) ensures Covered(t, c) {
      FailCovered(w, id, c);
    }
  }

  // ----- runs -----

  const IDLE := World(Sched([], map[], map[], [], []), {}, {}, map[], {}, {}, {}, {})

  /** Event `i` leads from state `i` to the next one. */
  ghost predicate EventAt(run: seq<World>, events: seq<Event>, i: nat) {
    && i < |events| && i + 1 < |run|
    && Enabled(run[i], events[i]) && run[i + 1] == Next(run[i], events[i])
  }

  ghost predicate IsRun(run: seq<World>, events: seq<Event>) {
    && |run| == |events| + 1 && run[0] == IDLE
    && (forall i: nat :: i < |events| ==> EventAt(run, events, i))
  }

  lemma InvStep(w: World, e: Event)
    requires Inv(w) && Enabled(w, e)
    ensures Inv(Next(w, e))
  {
    match e
    case Join(id) => JoinKeeps(w, id);
    case Ask(_, _, _, _) => AskKeeps(w, e);
    case Result(_, _, _) => ResultKeeps(w, e);
    case Fail(id) => FailKeeps(w, id);
  }

  lemma {:induction false} InvAlong(run: seq<World>, events: seq<Event>, i: nat)
    requires i < |run| && Inv(run[0]) && forall k: nat :: k < i ==> EventAt(run, events, k)
    ensures Inv(run[i])
  {
    if i > 0 {
      var k := i - 1;
      InvAlong(run, events, k);
      assert EventAt(run, events, k);
      InvStep(run[k], events[k]);
    }
  }

  lemma SchedulerInvariant(run: seq<World>, events: seq<Event>, i: nat)
    requires IsRun(run, events) && i < |run|
    ensures Inv(run[i])
  {
    InvAlong(run, events, i);
  }

  /** For a connected client, finished, assigned and queued ranges are together exactly what it asked for. */
  lemma Conservation(run: seq<World>, events: seq<Event>, i: nat, client: nat, n: nat)
    requires IsRun(run, events) && i < |run| && client in Live(run[i])
    ensures run[i].asked[client].lower <= n <= run[i].asked[client].upper <==>
            Done(run[i].done, client, n) || Assigned(run[i].s, client, n) || Queued(run[i].s.queue, client, n)
  {
    SchedulerInvariant(run, events, i);
    assert Covered(run[i], client);
    assert Asks(run[i].asked[client], client, n) <==>
           run[i].asked[client].lower <= n <= run[i].asked[client].upper;
  }

  /**
   Every joined miner that has not failed is in exactly one place, miners do not wait while requests do,
   and the count of a connected client's task is the number of miners that work for it.
   */
  lemma NeverIdles(run: seq<World>, events: seq<Event>, i: nat, m: nat, client: nat)
    requires IsRun(run, events) && i < |run|
    ensures m in run[i].miners <==> m in run[i].s.free || m in run[i].s.work
    ensures !(m in run[i].s.free && m in run[i].s.work)
    ensures forall j, k :: 0 <= j < k < |run[i].s.free| ==> run[i].s.free[j] != run[i].s.free[k]
    ensures run[i].s.free == [] || run[i].s.queue == []
    ensures client in Live(run[i]) && client in run[i].s.tasks ==>
            && run[i].s.tasks[client].minerNum == |run[i].s.tasks[client].info|
            && (m in run[i].s.tasks[client].info <==> m in run[i].s.work && run[i].s.work[m] == client)
  {
    SchedulerInvariant(run, events, i);
    assert client in Live(run[i]) ==> Counted(run[i].s, client);
    assert client in Live(run[i]) ==> (WorksFor(run[i].s, m, client) <==> Lists(run[i].s, client, m));
  }

  /**
   Exactly when losing a connection crashes the server: when it is a miner whose client's task no longer
   lists it. That is never so while the client is connected.
   */
  lemma Crashes(run: seq<World>, events: seq<Event>, i: nat, id: nat)
    requires IsRun(run, events) && i < |run|
    ensures var s := run[i].s;
            && (!CanReplace(s, id) <==> id in s.work && !(s.work[id] in s.tasks && id in s.tasks[s.work[id]].info))
            && (id in s.work && s.work[id] in Live(run[i]) ==> CanReplace(s, id))
  {
    SchedulerInvariant(run, events, i);
    CrashesIff(run[i], id);
  }

  /** It does happen: the client leaves, and then the miner that still works for it is lost. */
  lemma DepartedClient() returns (run: seq<World>, events: seq<Event>)
    ensures IsRun(run, events) && |events| == 3
    ensures 1 !in run[3].gone && !CanReplace(run[3].s, 1)
  {
    events := [Ask(2, "m", 0, 5), Join(1), Fail(2)];
    var w1 := Next(IDLE, events[0]);
    assert w1.s == Sched([], map[], map[], [Request(2, "m", 0, 5)], []);
    var w2 := Next(w1, events[1]);
    assert w2.s.queue == [] && w2.s.work == map[1 := 2] && 2 in w2.s.tasks;
    var w3 := Next(w2, events[2]);
    assert w3.s.tasks == map[] by {
      assert w2.s.tasks.Keys == {2};
    }
    run := [IDLE, w1, w2, w3];
    assert EventAt(run, events, 0) && EventAt(run, events, 1) && EventAt(run, events, 2);
  }
}
