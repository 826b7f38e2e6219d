/**
 Where the nonces of a client are: with a miner or in the queue. Every operation of the scheduler moves
 them without losing any, although chunks share their end points.
 */
module SchedulerHeld {
  import opened Mining
  import opened Scheduler

  predicate Within(range: Interval, n: nat) {
    range.lower <= n <= range.upper
  }

  ghost predicate Assigned(s: Sched, client: nat, n: nat) {
    client in s.tasks && Among(s.tasks[client].info, n)
  }

  predicate Asks(r: Request, client: nat, n: nat) {
    r.client == client && r.lower <= n <= r.upper
  }

  ghost predicate Queued(queue: seq<Request>, client: nat, n: nat) {
    exists r :: r in queue && Asks(r, client, n)
  }

  ghost predicate Held(s: Sched, client: nat, n: nat) {
    Assigned(s, client, n) || Queued(s.queue, client, n)
  }

  /** Far enough from 2^64 that no sum wraps around. */
  predicate Sound(r: Request) {
    r.lower <= r.upper && r.upper + CHUNK < WORD
  }

  predicate NewTo(s: Sched, client: nat, miner: nat) {
    client in s.tasks ==> miner !in s.tasks[client].info
  }

  // ----- the queue -----

  lemma QueuedAppend(queue: seq<Request>, more: seq<Request>, client: nat, n: nat)
    ensures Queued(queue + more, client, n) <==> Queued(queue, client, n) || Queued(more, client, n)
  {
    assert forall r :: r in queue + more <==> r in queue || r in more;
  }

  lemma QueuedOne(r: Request, client: nat, n: nat)
    ensures Queued([r], client, n) <==> Asks(r, client, n)
  {
    assert r in [r];
  }

  lemma QueuedHead(queue: seq<Request>, client: nat, n: nat)
    requires queue != []
    ensures Queued(queue, client, n) <==> Asks(queue[0], client, n) || Queued(queue[1..], client, n)
  {
    assert queue == [queue[0]] + queue[1..];
    QueuedAppend([queue[0]], queue[1..], client, n);
    QueuedOne(queue[0], client, n);
  }

  lemma {:induction false} QueuedWithout(queue: seq<Request>, id: nat, client: nat, n: nat)
    requires client != id
    ensures Queued(WithoutFirst(queue, id), client, n) <==> Queued(queue, client, n)
  {
    if queue != [] {
      QueuedHead(queue, client, n);
      if queue[0].client != id {
        var rest := WithoutFirst(queue[1..], id);
        QueuedWithout(queue[1..], id, client, n);
        QueuedAppend([queue[0]], rest, client, n);
        QueuedOne(queue[0], client, n);
      }
    }
  }

  // ----- tasks -----

  ghost predicate Among(info: map<nat, Interval>, n: nat) {
    exists m :: m in info && Within(info[m], n)
  }

  lemma AmongMore(info: map<nat, Interval>, miner: nat, range: Interval, n: nat)
    requires miner !in info
    ensures Among(info[miner := range], n) <==> Among(info, n) || Within(range, n)
  {
    var more := info[miner := range];
    assert miner in more && more[miner] == range;
    if Among(info, n) {
      var m :| m in info && Within(info[m], n);
      assert m in more && more[m] == info[m];
    }
  }

  lemma AmongLess(info: map<nat, Interval>, miner: nat, n: nat)
    requires miner in info
    ensures Among(info, n) <==> Among(info - {miner}, n) || Within(info[miner], n)
  {
    if Among(info, n) && !Within(info[miner], n) {
      var m :| m in info && Within(info[m], n);
      assert m in info - {miner};
    }
    if Among(info - {miner}, n) {
      var m :| m in info - {miner} && Within((info - {miner})[m], n);
      assert m in info && Within(info[m], n);
    }
  }

  lemma GiveAssigned(s: Sched, miner: nat, client: nat, data: string, range: Interval, c: nat, n: nat)
    requires NewTo(s, client, miner)
    ensures Assigned(Give(s, miner, client, data, range), c, n) <==>
            Assigned(s, c, n) || (c == client && Within(range, n))
  {
    AmongMore(if client in s.tasks then s.tasks[client].info else map[], miner, range, n);
  }

  lemma ReleaseAssigned(s: Sched, client: nat, miner: nat, c: nat, n: nat)
    requires client in s.tasks && miner in s.tasks[client].info
    ensures Assigned(s, c, n) <==>
            Assigned(Release(s, client, miner), c, n) || (c == client && Within(s.tasks[client].info[miner], n))
  {
    AmongLess(s.tasks[client].info, miner, n);
  }

  // ----- handing out work -----

  lemma NoWrap(lower: nat, upper: nat)
    requires lower <= upper && upper + CHUNK < WORD
    ensures Size(lower, upper) == upper - lower + 1 && Plus(lower, CHUNK) == lower + CHUNK
  {
  }

  lemma AssignHeld(s: Sched, miner: nat, c: nat, n: nat)
    requires s.queue != [] && Sound(s.queue[0]) && NewTo(s, s.queue[0].client, miner)
    ensures Held(Assign(s, miner), c, n) <==> Held(s, c, n)
  {
    var r := s.queue[0];
    NoWrap(r.lower, r.upper);
    QueuedHead(s.queue, c, n);
    if Size(r.lower, r.upper) <= CHUNK {
      GiveAssigned(s.(queue := s.queue[1..]), miner, r.client, r.data, Interval(r.lower, r.upper), c, n);
    } else {
      var cut := Plus(r.lower, CHUNK);
      var rest := r.(lower := cut);
      QueuedAppend(s.queue[1..], [rest], c, n);
      QueuedOne(rest, c, n);
      GiveAssigned(s.(queue := s.queue[1..] + [rest]), miner, r.client, r.data, Interval(r.lower, cut), c, n);
    }
  }

  /** The free miners have nothing to do with this client's task. */
  ghost predicate AllNew(s: Sched, client: nat) {
    && (forall i, j :: 0 <= i < j < |s.free| ==> s.free[i] != s.free[j])
    && (forall m :: m in s.free ==> NewTo(s, client, m))
  }

  lemma AllNewStep(s: Sched, client: nat, data: string, range: Interval)
    requires s.free != [] && AllNew(s, client)
    ensures AllNew(Give(s.(free := s.free[1..]), s.free[0], client, data, range), client)
  {
    var t := Give(s.(free := s.free[1..]), s.free[0], client, data, range);
    forall m | m in t.free ensures NewTo(t, client, m) {
      var i :| 0 <= i < |t.free| && t.free[i] == m;
      assert s.free[i + 1] == m && s.free[0] != m;
      assert NewTo(s, client, m);
    }
  }

  lemma {:induction false} SpreadHeld(s: Sched, client: nat, data: string, lower: nat, upper: nat, c: nat, n: nat)
    requires lower <= upper && upper + CHUNK < WORD && AllNew(s, client)
    ensures Held(Spread(s, client, data, lower, upper), c, n) <==>
            Held(s, c, n) || (c == client && lower < upper && lower <= n <= upper)
    decreases |s.free|
  {
    NoWrap(lower, upper);
    if s.free != [] && lower < upper {
      var end := ChunkEnd(lower, upper);
      var range := Interval(lower, end);
      var t := Give(s.(free := s.free[1..]), s.free[0], client, data, range);
      assert NewTo(s, client, s.free[0]);
      GiveAssigned(s.(free := s.free[1..]), s.free[0], client, data, range, c, n);
      AllNewStep(s, client, data, range);
      SpreadHeld(t, client, data, end, upper, c, n);
    } else if s.free == [] && lower < upper {
      var r := Request(client, data, lower, upper);
      QueuedAppend(s.queue, [r], c, n);
      QueuedOne(r, c, n);
    }
  }

  lemma RequestHeld(s: Sched, client: nat, data: string, lower: nat, upper: nat, c: nat, n: nat)
    requires lower <= upper && upper + CHUNK < WORD && AllNew(s, client) && client !in s.tasks
    ensures Held(OnRequest(s, client, data, lower, upper), c, n) <==>
            Held(s, c, n) || (c == client && lower <= n <= upper)
  {
    NoWrap(lower, upper);
    if s.free == [] {
      var r := Request(client, data, lower, upper);
      QueuedAppend(s.queue, [r], c, n);
      QueuedOne(r, c, n);
    } else if Size(lower, upper) <= CHUNK {
      GiveAssigned(s.(free := s.free[1..]), s.free[0], client, data, Interval(lower, upper), c, n);
      assert Held(OnRequest(s, client, data, lower, upper), c, n) <==>
             Held(Give(s.(free := s.free[1..]), s.free[0], client, data, Interval(lower, upper)), c, n);
    } else {
      SpreadHeld(s, client, data, lower, upper, c, n);
    }
  }

  // ----- results and failures -----

  /** A task is dropped only when nobody works on it any more. */
  lemma ConcludeHeld(s: Sched, client: nat, hash: nat, nonce: nat, c: nat, n: nat)
    requires client in s.tasks && (c == client ==> s.tasks[client].minerNum == |s.tasks[client].info|)
    ensures Held(Conclude(s, client, hash, nonce), c, n) <==> Held(s, c, n)
  {
    var t := Conclude(s, client, hash, nonce);
    if c == client && s.tasks[client].minerNum == 0 {
      assert s.tasks[client].info == map[];
      assert !Assigned(s, c, n);
    } else {
      assert c in t.tasks <==> c in s.tasks;
      assert c in t.tasks ==> t.tasks[c].info == s.tasks[c].info;
    }
  }

  lemma ReplaceHeld(s: Sched, id: nat, c: nat, n: nat)
    requires id in s.work && s.work[id] in s.tasks && id in s.tasks[s.work[id]].info
    requires s.free != [] ==> NewTo(s, s.work[id], s.free[0])
    ensures Held(Replace(s, id), c, n) <==> Held(s, c, n)
  {
    var client := s.work[id];
    var task := s.tasks[client];
    var range := task.info[id];
    var t := Release(s, client, id).(work := s.work - {id});
    ReleaseAssigned(s, client, id, c, n);
    assert Assigned(t, c, n) <==> Assigned(Release(s, client, id), c, n);
    if t.free != [] {
      GiveAssigned(t.(free := t.free[1..]), t.free[0], client, task.data, range, c, n);
    } else {
      var r := Request(client, task.data, range.lower, range.upper);
      QueuedAppend([r], t.queue, c, n);
      QueuedOne(r, c, n);
    }
  }
}
