/**
 What miners are told: the last order sent to a working miner is for the data of its client and for exactly the
 range that the client's task lists for it.
 */
module SchedulerTold {
  import opened Scheduler
  import opened SchedulerRun
  import opened SchedulerTally
  import opened SchedulerWork

  datatype Order = Nothing | Order(data: string, range: Interval)

  /** The last order among `sent` that went to miner `m`. */
  function LastOrder(sent: seq<Message>, m: nat): Order {
    if sent == [] then Nothing
    else
      var last := sent[|sent| - 1];
      if last.Work? && last.miner == m then Order(last.data, last.range) else LastOrder(sent[..|sent| - 1], m)
  }

  lemma OneMoreMessage(sent: seq<Message>, msg: Message, m: nat)
    ensures LastOrder(sent + [msg], m) ==
            if msg.Work? && msg.miner == m then Order(msg.data, msg.range) else LastOrder(sent, m)
  {
    assert (sent + [msg])[..|sent|] == sent;
  }

  /** For every client with a task: whoever is listed was last told the range listed. */
  ghost predicate Told(s: Sched) {
    forall c, m :: Lists(s, c, m) && WorksFor(s, m, c) ==> ToldAs(s, c, m)
  }

  ghost predicate ToldAs(s: Sched, c: nat, m: nat)
    requires Lists(s, c, m)
  {
    LastOrder(s.sent, m) == Order(s.tasks[c].data, s.tasks[c].info[m])
  }

  /** Nobody but `idle` is told anything new, and who is listed elsewhere was listed before. */
  lemma ToldGive(s: Sched, m: nat, client: nat, data: string, range: Interval)
    requires Told(s) && (client in s.tasks ==> s.tasks[client].data == data)
    ensures Told(Give(s, m, client, data, range))
  {
    var t := Give(s, m, client, data, range);
    forall c, x | Lists(t, c, x) && WorksFor(t, x, c) ensures ToldAs(t, c, x) {
      OneMoreMessage(s.sent, Work(m, data, range), x);
      if x != m {
        assert Lists(s, c, x) && WorksFor(s, x, c);
      }
    }
  }

  lemma ToldSame(s: Sched, t: Sched)
    requires Told(s) && t.sent == s.sent
    requires forall c, m :: Lists(t, c, m) && WorksFor(t, m, c) ==>
      && Lists(s, c, m) && WorksFor(s, m, c)
      && t.tasks[c].data == s.tasks[c].data && t.tasks[c].info[m] == s.tasks[c].info[m]
    ensures Told(t)
  {
    forall c, m | Lists(t, c, m) && WorksFor(t, m, c) ensures ToldAs(t, c, m) {
      assert ToldAs(s, c, m);
    }
  }

  lemma ToldAssign(s: Sched, asked: map<nat, Request>, m: nat)
    requires Told(s) && Fits(s, asked) && s.queue != []
    ensures Told(Assign(s, m))
  {
    var r := s.queue[0];
    assert r in s.queue && Inside(asked, r.client, r.data, Interval(r.lower, r.upper));
    if Size(r.lower, r.upper) <= CHUNK {
      ToldSame(s, s.(queue := s.queue[1..]));
      ToldGive(s.(queue := s.queue[1..]), m, r.client, r.data, Interval(r.lower, r.upper));
    } else {
      var cut := Plus(r.lower, CHUNK);
      var u := s.(queue := s.queue[1..] + [r.(lower := cut)]);
      ToldSame(s, u);
      ToldGive(u, m, r.client, r.data, Interval(r.lower, cut));
    }
  }

  lemma ToldRelease(s: Sched, client: nat, m: nat)
    requires Told(s)
    ensures Told(Release(s, client, m))
  {
    ToldSame(s, Release(s, client, m));
  }

  lemma ToldConclude(s: Sched, client: nat, hash: nat, nonce: nat)
    requires Told(s) && client in s.tasks
    ensures Told(Conclude(s, client, hash, nonce))
  {
    var t := Conclude(s, client, hash, nonce);
    forall c, m | Lists(t, c, m) && WorksFor(t, m, c) ensures ToldAs(t, c, m) {
      assert Lists(s, c, m) && WorksFor(s, m, c) && ToldAs(s, c, m);
      if t.sent != s.sent {
        OneMoreMessage(s.sent, t.sent[|s.sent|], m);
      }
    }
  }

  lemma ToldReuse(s: Sched, asked: map<nat, Request>, m: nat)
    requires Told(s) && Fits(s, asked)
    ensures Told(Reuse(s, m))
  {
    if s.queue == [] {
      ToldSame(s, Reuse(s, m));
    } else {
      ToldAssign(s, asked, m);
    }
  }

  lemma ToldResult(s: Sched, asked: map<nat, Request>, m: nat, hash: nat, nonce: nat)
    requires Told(s) && Fits(s, asked)
    ensures Told(OnResult(s, m, hash, nonce))
  {
    var client := ClientOf(s, m);
    ToldRelease(s, client, m);
    FitsRelease(s, asked, client, m);
    ToldReuse(Release(s, client, m), asked, m);
    if client in s.tasks {
      ToldConclude(Reuse(Release(s, client, m), m), client, hash, nonce);
    }
  }

  lemma {:induction false} ToldSpread(s: Sched, client: nat, data: string, lower: nat, upper: nat)
    requires Told(s) && (client in s.tasks ==> s.tasks[client].data == data)
    ensures Told(Spread(s, client, data, lower, upper))
    decreases |s.free|
  {
    if s.free != [] && lower < upper {
      var end := ChunkEnd(lower, upper);
      ToldSame(s, s.(free := s.free[1..]));
      ToldGive(s.(free := s.free[1..]), s.free[0], client, data, Interval(lower, end));
      ToldSpread(Give(s.(free := s.free[1..]), s.free[0], client, data, Interval(lower, end)), client, data, end, upper);
    } else {
      ToldSame(s, Spread(s, client, data, lower, upper));
    }
  }

  lemma ToldAsk(s: Sched, client: nat, data: string, lower: nat, upper: nat)
    requires Told(s) && client !in s.tasks
    ensures Told(OnRequest(s, client, data, lower, upper))
  {
    var t := OnRequest(s, client, data, lower, upper);
    if s.free == [] {
      ToldSame(s, t);
    } else if Size(lower, upper) <= CHUNK {
      ToldSame(s, s.(free := s.free[1..]));
      ToldGive(s.(free := s.free[1..]), s.free[0], client, data, Interval(lower, upper));
      assert t == Give(s.(free := s.free[1..]), s.free[0], client, data, Interval(lower, upper));
    } else {
      ToldSpread(s, client, data, lower, upper);
    }
  }

  lemma ToldReplace(s: Sched, id: nat)
    requires Told(s) && id in s.work && s.work[id] in s.tasks && id in s.tasks[s.work[id]].info
    ensures Told(Replace(s, id))
  {
    var client := s.work[id];
    var task := s.tasks[client];
    var t := Release(s, client, id).(work := s.work - {id});
    ToldSame(s, t);
    if t.free != [] {
      ToldSame(t, t.(free := t.free[1..]));
      ToldGive(t.(free := t.free[1..]), t.free[0], client, task.data, task.info[id]);
    } else {
      ToldSame(t, Replace(s, id));
    }
  }

  lemma ToldFail(s: Sched, id: nat)
    requires Told(s) && CanReplace(s, id)
    ensures Told(OnError(s, id))
  {
    if !(id in s.tasks || Waits(s.queue, id)) && id !in s.free && id in s.work {
      ToldReplace(s, id);
    } else {
      ToldSame(s, OnError(s, id));
    }
  }

  lemma ToldStep(w: World, e: Event)
    requires Inv(w) && Enabled(w, e) && Told(w.s)
    ensures Told(Next(w, e).s)
  {
    match e
    case Join(id) =>
      if w.s.queue == [] {
        ToldSame(w.s, OnJoin(w.s, id));
      } else {
        ToldAssign(w.s, w.asked, id);
      }
    case Ask(id, data, lower, upper) =>
      assert id !in w.s.tasks;
      ToldAsk(w.s, id, data, lower, upper);
    case Result(id, hash, nonce) => ToldResult(w.s, w.asked, id, hash, nonce);
    case Fail(id) => ToldFail(w.s, id);
  }

  lemma {:induction false} ToldInvariant(run: seq<World>, events: seq<Event>, i: nat)
    requires IsRun(run, events) && i < |run|
    ensures Told(run[i].s)
  {
    if i > 0 {
      var k := i - 1;
      ToldInvariant(run, events, k);
      SchedulerInvariant(run, events, k);
      assert EventAt(run, events, k);
      ToldStep(run[k], events[k]);
    }
  }

  /**
   In every state of every run, a miner that works for a connected client was last told the client's data and
   exactly the range that the client's task lists for it, which lies within what the client asked for.
   */
  lemma RightOrders(run: seq<World>, events: seq<Event>, i: nat, m: nat)
    requires IsRun(run, events) && i < |run| && m in run[i].s.work && run[i].s.work[m] in Live(run[i])
    ensures var w, c := run[i], run[i].s.work[m];
            && c in w.s.tasks && m in w.s.tasks[c].info
            && LastOrder(w.s.sent, m) == Order(w.asked[c].data, w.s.tasks[c].info[m])
            && w.asked[c].lower <= w.s.tasks[c].info[m].lower <= w.s.tasks[c].info[m].upper <= w.asked[c].upper
  {
    var w, c := run[i], run[i].s.work[m];
    SchedulerInvariant(run, events, i);
    ToldInvariant(run, events, i);
    assert WorksFor(w.s, m, c) && Lists(w.s, c, m) && ToldAs(w.s, c, m);
    assert Inside(w.asked, c, w.s.tasks[c].data, w.s.tasks[c].info[m]);
  }
}
