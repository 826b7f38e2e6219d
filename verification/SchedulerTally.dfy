/**
 For clients that are still connected, the task lists exactly the miners that work for them, and its
 count is their number.
 */
module SchedulerTally {
  import opened Scheduler
  import opened SchedulerRun

  predicate WorksFor(s: Sched, m: nat, client: nat) {
    m in s.work && s.work[m] == client
  }

  predicate Lists(s: Sched, client: nat, m: nat) {
    client in s.tasks && m in s.tasks[client].info
  }

  predicate Counted(s: Sched, client: nat) {
    client in s.tasks ==> s.tasks[client].minerNum == |s.tasks[client].info|
  }

  ghost predicate Tally(s: Sched, live: set<nat>) {
    && (forall c, m :: c in live ==> (WorksFor(s, m, c) <==> Lists(s, c, m)))
    && (forall c :: c in live ==> Counted(s, c))
  }

  /** The same, but for a miner that is between two assignments. */
  ghost predicate TallyBut(s: Sched, live: set<nat>, idle: nat) {
    && (forall c, m :: c in live && m != idle ==> (WorksFor(s, m, c) <==> Lists(s, c, m)))
    && (forall c :: c in live ==> Counted(s, c) && !Lists(s, c, idle))
  }

  lemma TallyGive(s: Sched, live: set<nat>, m: nat, client: nat, data: string, range: Interval)
    requires TallyBut(s, live, m)
    ensures Tally(Give(s, m, client, data, range), live)
  {
    var t := Give(s, m, client, data, range);
    forall c, x | c in live ensures WorksFor(t, x, c) <==> Lists(t, c, x) {
      if x != m {
        assert Lists(t, c, x) <==> Lists(s, c, x);
      }
    }
    if client in live && client in s.tasks {
      assert !Lists(s, client, m);
      assert |s.tasks[client].info[m := range]| == |s.tasks[client].info| + 1;
    }
  }

  lemma TallyDrop(s: Sched, live: set<nat>, m: nat)
    requires TallyBut(s, live, m)
    ensures Tally(s.(work := s.work - {m}), live)
  {
    var t := s.(work := s.work - {m});
    forall c, x | c in live ensures WorksFor(t, x, c) <==> Lists(t, c, x) {
      assert Lists(t, c, x) <==> Lists(s, c, x);
      assert x != m ==> (WorksFor(t, x, c) <==> WorksFor(s, x, c));
    }
  }

  lemma TallyNew(s: Sched, live: set<nat>, m: nat)
    requires Tally(s, live) && m !in s.work
    ensures TallyBut(s, live, m)
  {
    forall c | c in live ensures !Lists(s, c, m) {
      assert !WorksFor(s, m, c);
    }
  }

  lemma TallyRelease(s: Sched, live: set<nat>, m: nat)
    requires Tally(s, live) && m in s.work
    ensures TallyBut(Release(s, s.work[m], m), live, m)
  {
    var client := s.work[m];
    var t := Release(s, client, m);
    forall c, x | c in live && x != m ensures WorksFor(t, x, c) <==> Lists(t, c, x) {
      assert Lists(t, c, x) <==> Lists(s, c, x);
      assert WorksFor(t, x, c) <==> WorksFor(s, x, c);
    }
    forall c | c in live ensures Counted(t, c) && !Lists(t, c, m) {
      assert WorksFor(s, m, c) <==> Lists(s, c, m);
      if c == client {
        assert |s.tasks[c].info - {m}| == |s.tasks[c].info| - 1 by {
          assert s.tasks[c].info.Keys == (s.tasks[c].info - {m}).Keys + {m};
        }
      }
    }
  }

  lemma TallyConclude(s: Sched, live: set<nat>, client: nat, hash: nat, nonce: nat)
    requires Tally(s, live) && client in s.tasks
    ensures Tally(Conclude(s, client, hash, nonce), live)
  {
    var t := Conclude(s, client, hash, nonce);
    forall c, x | c in live ensures WorksFor(t, x, c) <==> Lists(t, c, x) {
      if c == client && s.tasks[c].minerNum == 0 {
        assert Counted(s, c);
        assert s.tasks[c].info == map[];
        assert !Lists(s, c, x);
      } else {
        assert Lists(t, c, x) <==> Lists(s, c, x);
      }
      assert WorksFor(t, x, c) <==> WorksFor(s, x, c);
    }
    forall c | c in live ensures Counted(t, c) {
      assert Counted(s, c);
    }
  }

  lemma TallyQueue(s: Sched, live: set<nat>, m: nat, queue: seq<Request>)
    requires TallyBut(s, live, m)
    ensures TallyBut(s.(queue := queue), live, m)
  {
    var t := s.(queue := queue);
    assert forall c, x :: WorksFor(t, x, c) <==> WorksFor(s, x, c);
    assert forall c, x :: Lists(t, c, x) <==> Lists(s, c, x);
  }

  lemma TallyAssign(s: Sched, live: set<nat>, m: nat)
    requires TallyBut(s, live, m) && s.queue != []
    ensures Tally(Assign(s, m), live)
  {
    var r := s.queue[0];
    if Size(r.lower, r.upper) <= CHUNK {
      TallyQueue(s, live, m, s.queue[1..]);
      TallyGive(s.(queue := s.queue[1..]), live, m, r.client, r.data, Interval(r.lower, r.upper));
    } else {
      var cut := Plus(r.lower, CHUNK);
      var queue := s.queue[1..] + [r.(lower := cut)];
      TallyQueue(s, live, m, queue);
      TallyGive(s.(queue := queue), live, m, r.client, r.data, Interval(r.lower, cut));
    }
  }

  lemma TallySame(s: Sched, t: Sched, live: set<nat>)
    requires Tally(s, live) && t.work == s.work && t.tasks == s.tasks
    ensures Tally(t, live)
  {
    assert forall c, x :: WorksFor(t, x, c) <==> WorksFor(s, x, c);
    assert forall c, x :: Lists(t, c, x) <==> Lists(s, c, x);
    assert forall c :: Counted(t, c) <==> Counted(s, c);
  }

  lemma TallyReuse(s: Sched, live: set<nat>, m: nat)
    requires TallyBut(s, live, m)
    ensures Tally(Reuse(s, m), live)
  {
    if s.queue == [] {
      TallyDrop(s, live, m);
      TallySame(s.(work := s.work - {m}), Reuse(s, m), live);
    } else {
      TallyAssign(s, live, m);
    }
  }

  // ----- the events -----

  lemma JoinTally(s: Sched, live: set<nat>, m: nat)
    requires Tally(s, live) && m !in s.work
    ensures Tally(OnJoin(s, m), live)
  {
    if s.queue == [] {
      TallySame(s, OnJoin(s, m), live);
    } else {
      TallyNew(s, live, m);
      TallyAssign(s, live, m);
    }
  }

  lemma ResultTally(s: Sched, live: set<nat>, m: nat, hash: nat, nonce: nat)
    requires Tally(s, live) && m in s.work
    ensures Tally(Reuse(Release(s, s.work[m], m), m), live)
    ensures Tally(OnResult(s, m, hash, nonce), live)
  {
    var t := Reuse(Release(s, s.work[m], m), m);
    TallyRelease(s, live, m);
    TallyReuse(Release(s, s.work[m], m), live, m);
    if s.work[m] in s.tasks {
      TallyConclude(t, live, s.work[m], hash, nonce);
    }
  }

  lemma HireTally(s: Sched, live: set<nat>, client: nat, data: string, range: Interval)
    requires Tally(s, live) && s.free != [] && s.free[0] !in s.work
    ensures Tally(Give(s.(free := s.free[1..]), s.free[0], client, data, range), live)
  {
    TallySame(s, s.(free := s.free[1..]), live);
    TallyNew(s.(free := s.free[1..]), live, s.free[0]);
    TallyGive(s.(free := s.free[1..]), live, s.free[0], client, data, range);
  }

  lemma {:induction false} SpreadTally(
    s: Sched, live: set<nat>, client: nat, data: string, lower: nat, upper: nat, miners: set<nat>)
    requires Tally(s, live) && Crew(s.free, s.work.Keys, miners)
    ensures Tally(Spread(s, client, data, lower, upper), live)
    decreases |s.free|
  {
    if s.free != [] && lower < upper {
      var end := ChunkEnd(lower, upper);
      var t := Give(s.(free := s.free[1..]), s.free[0], client, data, Interval(lower, end));
      HireTally(s, live, client, data, Interval(lower, end));
      HireFirst(s.free, s.work.Keys, miners);
      assert t.work.Keys == s.work.Keys + {s.free[0]};
      SpreadTally(t, live, client, data, end, upper, miners);
    } else if s.free == [] && lower < upper {
      TallySame(s, Spread(s, client, data, lower, upper), live);
    }
  }

  lemma NewClient(s: Sched, live: set<nat>, id: nat)
    requires Tally(s, live) && id !in s.tasks && (forall m :: m in s.work ==> s.work[m] != id)
    ensures Tally(s, live + {id})
  {
  }

  lemma AskTally(s: Sched, live: set<nat>, id: nat, data: string, lower: nat, upper: nat, miners: set<nat>)
    requires Tally(s, live) && Crew(s.free, s.work.Keys, miners)
    requires id !in s.tasks && (forall m :: m in s.work ==> s.work[m] != id)
    ensures Tally(OnRequest(s, id, data, lower, upper), live + {id})
  {
    var t := OnRequest(s, id, data, lower, upper);
    NewClient(s, live, id);
    if s.free == [] {
      TallySame(s, t, live + {id});
    } else if Size(lower, upper) <= CHUNK {
      HireTally(s, live + {id}, id, data, Interval(lower, upper));
      assert t == Give(s.(free := s.free[1..]), s.free[0], id, data, Interval(lower, upper));
    } else {
      SpreadTally(s, live + {id}, id, data, lower, upper, miners);
    }
  }

  lemma FewerClients(s: Sched, live: set<nat>, id: nat)
    requires Tally(s, live)
    ensures Tally(s, live - {id})
  {
  }

  lemma ClientGone(s: Sched, live: set<nat>, id: nat, queue: seq<Request>)
    requires Tally(s, live)
    ensures Tally(s.(queue := queue, tasks := s.tasks - {id}), live - {id})
  {
    var t := s.(queue := queue, tasks := s.tasks - {id});
    forall c, x | c in live - {id} ensures WorksFor(t, x, c) <==> Lists(t, c, x) {
      assert Lists(t, c, x) <==> Lists(s, c, x);
      assert WorksFor(t, x, c) <==> WorksFor(s, x, c);
    }
    forall c | c in live - {id} ensures Counted(t, c) {
      assert Counted(s, c);
    }
  }

  lemma ReplaceTally(s: Sched, live: set<nat>, id: nat)
    requires Tally(s, live) && id in s.work && s.work[id] in s.tasks && id in s.tasks[s.work[id]].info
    requires s.free != [] ==> s.free[0] !in s.work
    ensures Tally(Replace(s, id), live)
  {
    var client := s.work[id];
    var t := Release(s, client, id).(work := s.work - {id});
    TallyRelease(s, live, id);
    TallyDrop(Release(s, client, id), live, id);
    if t.free != [] {
      HireTally(t, live, client, s.tasks[client].data, s.tasks[client].info[id]);
    } else {
      TallySame(t, Replace(s, id), live);
    }
  }

  lemma FailTally(s: Sched, live: set<nat>, id: nat, miners: set<nat>)
    requires Tally(s, live) && Crew(s.free, s.work.Keys, miners) && CanReplace(s, id)
    ensures Tally(OnError(s, id), live - {id})
  {
    if id in s.tasks || Waits(s.queue, id) {
      ClientGone(s, live, id, WithoutFirst(s.queue, id));
    } else if id in s.free {
      TallySame(s, OnError(s, id), live);
      FewerClients(OnError(s, id), live, id);
    } else if id in s.work {
      ReplaceTally(s, live, id);
      FewerClients(OnError(s, id), live, id);
    } else {
      FewerClients(s, live, id);
    }
  }
}
