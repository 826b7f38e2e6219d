/**
 Second results. A client whose remainder waits behind another client's request is sent a result, and later
 another one that forgets the first. This module says when that can happen.
 */
module SchedulerAgain {
  import opened Scheduler
  import opened SchedulerHeld
  import opened SchedulerRun
  import opened SchedulerTally
  import opened SchedulerWork
  import opened SchedulerAnswer

  // ----- how many ranges a client has in the queue and with miners -----

  function Waiting(queue: seq<Request>, c: nat): nat {
    if queue == [] then 0 else (if queue[0].client == c then 1 else 0) + Waiting(queue[1..], c)
  }

  function Places(s: Sched, c: nat): nat {
    Waiting(s.queue, c) + if c in s.tasks then |s.tasks[c].info| else 0
  }

  lemma {:induction false} WaitingAppend(a: seq<Request>, b: seq<Request>, c: nat)
    ensures Waiting(a + b, c) == Waiting(a, c) + Waiting(b, c)
  {
    if a == [] {
      assert a + b == b;
    } else {
      assert (a + b)[1..] == a[1..] + b;
      WaitingAppend(a[1..], b, c);
    }
  }

  lemma WaitingOne(r: Request, c: nat)
    ensures Waiting([r], c) == if r.client == c then 1 else 0
  {
    assert [r][1..] == [];
  }

  lemma {:induction false} WaitingIff(queue: seq<Request>, c: nat)
    ensures Waits(queue, c) <==> Waiting(queue, c) > 0
  {
    if queue != [] {
      WaitingIff(queue[1..], c);
      assert forall i :: 0 <= i < |queue[1..]| ==> queue[1..][i] == queue[i + 1];
      if Waits(queue, c) && queue[0].client != c {
        var i :| 0 <= i < |queue| && queue[i].client == c;
        assert queue[1..][i - 1].client == c;
      }
      if Waits(queue[1..], c) {
        var i :| 0 <= i < |queue[1..]| && queue[1..][i].client == c;
        assert queue[i + 1].client == c;
      }
    }
  }

  lemma {:induction false} WaitingWithout(queue: seq<Request>, id: nat, c: nat)
    requires c != id
    ensures Waiting(WithoutFirst(queue, id), c) == Waiting(queue, c)
  {
    if queue != [] && queue[0].client != id {
      var rest := WithoutFirst(queue[1..], id);
      WaitingWithout(queue[1..], id, c);
      WaitingAppend([queue[0]], rest, c);
      WaitingOne(queue[0], c);
    }
  }

  // ----- what the operations do to that number -----

  lemma GivePlaces(s: Sched, m: nat, client: nat, data: string, range: Interval, c: nat)
    requires NewTo(s, client, m)
    ensures Places(Give(s, m, client, data, range), c) == Places(s, c) + if c == client then 1 else 0
  {
    if c == client && client in s.tasks {
      assert |s.tasks[c].info[m := range]| == |s.tasks[c].info| + 1;
    }
  }

  lemma ReleasePlaces(s: Sched, client: nat, m: nat, c: nat)
    requires client in s.tasks && m in s.tasks[client].info
    ensures Places(s, c) == Places(Release(s, client, m), c) + if c == client then 1 else 0
  {
    var info := s.tasks[client].info;
    assert info.Keys == (info - {m}).Keys + {m};
  }

  /** A request that is not split, or another client's, leaves the number as it is. */
  lemma AssignPlaces(s: Sched, m: nat, c: nat)
    requires s.queue != [] && Sound(s.queue[0])
    requires s.queue[0].client == c ==> NewTo(s, c, m) && s.queue[0].upper - s.queue[0].lower < CHUNK
    ensures Places(Assign(s, m), c) == Places(s, c)
  {
    var r := s.queue[0];
    NoWrap(r.lower, r.upper);
    if r.client == c {
      GivePlaces(s.(queue := s.queue[1..]), m, c, r.data, Interval(r.lower, r.upper), c);
    } else {
      var rest := r.(lower := Plus(r.lower, CHUNK));
      WaitingAppend(s.queue[1..], [rest], c);
      WaitingOne(rest, c);
    }
  }

  lemma {:induction false} SpreadPlaces(s: Sched, client: nat, data: string, lower: nat, upper: nat, c: nat)
    requires c != client
    ensures Places(Spread(s, client, data, lower, upper), c) == Places(s, c)
    decreases |s.free|
  {
    if s.free != [] && lower < upper {
      var end := ChunkEnd(lower, upper);
      SpreadPlaces(Give(s.(free := s.free[1..]), s.free[0], client, data, Interval(lower, end)), client, data, end, upper, c);
    } else if s.free == [] && lower < upper {
      WaitingAppend(s.queue, [Request(client, data, lower, upper)], c);
      WaitingOne(Request(client, data, lower, upper), c);
    }
  }

  lemma ReplacePlaces(s: Sched, id: nat, c: nat)
    requires id in s.work && s.work[id] in s.tasks && id in s.tasks[s.work[id]].info
    requires s.work[id] == c && s.free != [] ==> NewTo(s, c, s.free[0])
    ensures Places(Replace(s, id), c) == Places(s, c)
  {
    var client := s.work[id];
    var task := s.tasks[client];
    var range := task.info[id];
    var t := Release(s, client, id).(work := s.work - {id});
    ReleasePlaces(s, client, id, c);
    if t.free != [] {
      if client == c {
        GivePlaces(t.(free := t.free[1..]), t.free[0], client, task.data, range, c);
      }
    } else {
      var r := Request(client, task.data, range.lower, range.upper);
      WaitingAppend([r], t.queue, c);
      WaitingOne(r, c);
    }
  }

  // ----- a request that is never split is in one place at most -----

  ghost predicate Unsplit(w: World, c: nat) {
    c in Live(w) && w.asked[c].upper - w.asked[c].lower < CHUNK ==> Places(w.s, c) <= 1
  }

  ghost predicate IsSmall(w: World, c: nat) {
    c in w.asked && w.asked[c].upper - w.asked[c].lower < CHUNK
  }

  lemma NextPlaces(s: Sched, live: set<nat>, asked: map<nat, Request>, m: nat, c: nat)
    requires TallyBut(s, live, m) && Fits(s, asked) && s.queue != [] && c in live && c in asked
    requires asked[c].upper - asked[c].lower < CHUNK
    ensures Places(Assign(s, m), c) == Places(s, c)
  {
    FitsAssign(s, asked, m);
    var r := s.queue[0];
    assert r in s.queue && Inside(asked, r.client, r.data, Interval(r.lower, r.upper));
    assert !Lists(s, c, m);
    AssignPlaces(s, m, c);
  }

  lemma JoinPlaces(w: World, id: nat, c: nat)
    requires Inv(w) && Enabled(w, Join(id)) && c in Live(w) && IsSmall(w, c)
    ensures Places(Next(w, Join(id)).s, c) == Places(w.s, c)
  {
    if w.s.queue != [] {
      assert id !in w.s.work;
      TallyNew(w.s, Live(w), id);
      NextPlaces(w.s, Live(w), w.asked, id, c);
    }
  }

  lemma AskPlaces(w: World, e: Event, c: nat)
    requires Inv(w) && e.Ask? && Enabled(w, e) && c in Live(Next(w, e)) && IsSmall(Next(w, e), c)
    ensures Places(Next(w, e).s, c) == if c == e.id then 1 else Places(w.s, c)
  {
    var s, r := w.s, Request(e.id, e.data, e.lower, e.upper);
    assert e.id !in w.asked && e.id !in s.tasks;
    NoWrap(e.lower, e.upper);
    WaitingAppend(s.queue, [r], c);
    WaitingOne(r, c);
    if c == e.id {
      assert forall x :: x in s.queue ==> x.client in w.asked;
      assert !Waits(s.queue, c);
      WaitingIff(s.queue, c);
    } else {
      SpreadPlaces(s, e.id, e.data, e.lower, e.upper, c);
    }
  }

  lemma ConcludePlaces(s: Sched, client: nat, hash: nat, nonce: nat, c: nat)
    requires client in s.tasks && (c == client ==> s.tasks[client].minerNum == |s.tasks[client].info|)
    ensures Places(Conclude(s, client, hash, nonce), c) == Places(s, c)
  {
  }

  lemma ResultPlaces(w: World, e: Event, c: nat)
    requires Inv(w) && e.Result? && Enabled(w, e) && c in Live(w) && IsSmall(w, c)
    ensures Places(w.s, c) == Places(Next(w, e).s, c) + if w.s.work[e.id] == c then 1 else 0
  {
    var s, m := w.s, e.id;
    var client := s.work[m];
    var r := Release(s, client, m);
    var u := Reuse(r, m);
    TallyRelease(s, Live(w), m);
    FitsRelease(s, w.asked, client, m);
    ResultTally(s, Live(w), m, e.hash, e.nonce);
    if client == c {
      assert WorksFor(s, m, c) && Lists(s, c, m);
      ReleasePlaces(s, client, m, c);
    }
    assert Places(s, c) == Places(r, c) + if client == c then 1 else 0;
    if r.queue != [] {
      NextPlaces(r, Live(w), w.asked, m, c);
    }
    assert Places(u, c) == Places(r, c);
    if client in s.tasks {
      assert c == client ==> Counted(u, client);
      ConcludePlaces(u, client, e.hash, e.nonce, c);
    }
  }

  lemma FailPlaces(w: World, id: nat, c: nat)
    requires Inv(w) && Enabled(w, Fail(id)) && c in Live(w) - {id}
    ensures Places(Next(w, Fail(id)).s, c) == Places(w.s, c)
  {
    var s := w.s;
    if id in s.tasks || Waits(s.queue, id) {
      WaitingWithout(s.queue, id, c);
    } else if id !in s.free && id in s.work {
      FreeAreNew(w, c);
      assert s.free != [] ==> s.free[0] in s.free;
      ReplacePlaces(s, id, c);
    }
  }

  lemma UnsplitStep(w: World, e: Event, c: nat)
    requires Inv(w) && Enabled(w, e) && Unsplit(w, c)
    ensures Unsplit(Next(w, e), c)
  {
    var t := Next(w, e);
    if c in Live(t) && IsSmall(t, c) {
      match e
      case Join(id) => JoinPlaces(w, id, c);
      case Ask(_, _, _, _) => AskPlaces(w, e, c);
      case Result(_, _, _) => ResultPlaces(w, e, c);
      case Fail(id) => FailPlaces(w, id, c);
    }
  }

  lemma {:induction false} UnsplitInvariant(run: seq<World>, events: seq<Event>, i: nat, c: nat)
    requires IsRun(run, events) && i < |run|
    ensures Unsplit(run[i], c)
  {
    if i > 0 {
      var k := i - 1;
      UnsplitInvariant(run, events, k, c);
      StepOf(run, events, k);
      UnsplitStep(run[k], events[k], c);
    }
  }

  // ----- after a result with nothing waiting there is no other -----

  ghost predicate NothingLeft(s: Sched, c: nat) {
    c !in s.tasks && !Waits(s.queue, c)
  }

  lemma AssignOthers(s: Sched, m: nat, c: nat)
    requires s.queue != [] && NothingLeft(s, c)
    ensures NothingLeft(Assign(s, m), c)
  {
    var r := s.queue[0];
    assert r.client != c;
    WaitingIff(s.queue, c);
    WaitingIff(Assign(s, m).queue, c);
    var rest := r.(lower := Plus(r.lower, CHUNK));
    WaitingAppend(s.queue[1..], [rest], c);
    WaitingOne(rest, c);
  }

  lemma {:induction false} SpreadOthers(s: Sched, client: nat, data: string, lower: nat, upper: nat, c: nat)
    requires c != client && NothingLeft(s, c)
    ensures NothingLeft(Spread(s, client, data, lower, upper), c)
    decreases |s.free|
  {
    if s.free != [] && lower < upper {
      var end := ChunkEnd(lower, upper);
      SpreadOthers(Give(s.(free := s.free[1..]), s.free[0], client, data, Interval(lower, end)), client, data, end, upper, c);
    }
  }

  lemma ResultOthers(w: World, e: Event, c: nat)
    requires Inv(w) && e.Result? && Enabled(w, e) && c in Live(w) && NothingLeft(w.s, c)
    ensures NothingLeft(Next(w, e).s, c)
  {
    var client := w.s.work[e.id];
    assert client != c by {
      assert WorksFor(w.s, e.id, client) && !Lists(w.s, c, e.id);
    }
    var r := Release(w.s, client, e.id);
    if r.queue != [] {
      AssignOthers(r, e.id, c);
    }
    assert NothingLeft(Reuse(r, e.id), c);
  }

  lemma FailOthers(w: World, id: nat, c: nat)
    requires Inv(w) && Enabled(w, Fail(id)) && c in Live(w) - {id} && NothingLeft(w.s, c)
    ensures NothingLeft(Next(w, Fail(id)).s, c)
  {
    var s, t := w.s, Next(w, Fail(id)).s;
    FailPlaces(w, id, c);
    WaitingIff(s.queue, c);
    WaitingIff(t.queue, c);
    if id in s.work {
      assert s.work[id] in s.tasks || id in s.tasks || Waits(s.queue, id) || id in s.free;
    }
  }

  lemma NothingLeftStep(w: World, e: Event, c: nat)
    requires Inv(w) && Enabled(w, e) && c in Live(w) && c in Live(Next(w, e)) && NothingLeft(w.s, c)
    ensures NothingLeft(Next(w, e).s, c)
  {
    match e
    case Join(id) =>
      if w.s.queue != [] {
        AssignOthers(w.s, id, c);
      }
    case Ask(id, data, lower, upper) => SpreadOthers(w.s, id, data, lower, upper, c);
    case Result(_, _, _) => ResultOthers(w, e, c);
    case Fail(id) => FailOthers(w, id, c);
  }

  /** Who is connected at the end was connected ever since it asked. */
  lemma {:induction false} LiveBefore(run: seq<World>, events: seq<Event>, i: nat, j: nat, c: nat)
    requires IsRun(run, events) && i <= j < |run| && c in run[i].asked && c in Live(run[j])
    ensures c in Live(run[i])
    decreases j
  {
    if i < j {
      var k := j - 1;
      StepOf(run, events, k);
      AskedOnce(run, events, i, k, c);
      LiveBefore(run, events, i, k, c);
    }
  }

  lemma {:induction false} AskedOnce(run: seq<World>, events: seq<Event>, i: nat, j: nat, c: nat)
    requires IsRun(run, events) && i <= j < |run| && c in run[i].asked
    ensures c in run[j].asked && run[j].asked[c] == run[i].asked[c]
    decreases j
  {
    if i < j {
      var k := j - 1;
      AskedOnce(run, events, i, k, c);
      StepOf(run, events, k);
      AskedStays(run[k], events[k], c);
    }
  }

  lemma {:induction false} NothingLeftStays(run: seq<World>, events: seq<Event>, i: nat, j: nat, c: nat)
    requires IsRun(run, events) && i <= j < |run| && c in run[i].asked && c in Live(run[j]) && NothingLeft(run[i].s, c)
    ensures NothingLeft(run[j].s, c)
    decreases j
  {
    if i < j {
      var k := j - 1;
      AskedOnce(run, events, i, k, c);
      LiveBefore(run, events, k, j, c);
      NothingLeftStays(run, events, i, k, c);
      StepOf(run, events, k);
      NothingLeftStep(run[k], events[k], c);
    }
  }

  lemma AnsweredAsked(run: seq<World>, events: seq<Event>, i: nat, c: nat)
    requires IsRun(run, events) && i < |events| && AnswersClient(run, events, i, c)
    ensures c in run[i].asked && c in run[i + 1].asked && c in run[i].s.tasks && WorksFor(run[i].s, events[i].id, c)
  {
    StepOf(run, events, i);
    AskedStays(run[i], events[i], c);
  }

  /** A second result is sent only if something of the client's request waited when the first one went out. */
  lemma SecondNeedsWaiting(run: seq<World>, events: seq<Event>, i: nat, j: nat, c: nat)
    requires IsRun(run, events) && i < j < |events| && c in Live(run[j])
    requires AnswersClient(run, events, i, c) && AnswersClient(run, events, j, c)
    ensures Waits(run[i].s.queue, c)
  {
    AnsweredAsked(run, events, i, c);
    AnsweredAsked(run, events, j, c);
    if !Waits(run[i].s.queue, c) {
      StepOf(run, events, i);
      NothingAfter(run[i], events[i], c);
      NothingLeftStays(run, events, i + 1, j, c);
      assert false;
    }
  }

  lemma NothingAfter(w: World, e: Event, c: nat)
    requires Inv(w) && e.Result? && Enabled(w, e) && !Waits(w.s.queue, c) && c in Answers(w.s, Next(w, e).s, e.id)
    ensures NothingLeft(Next(w, e).s, c)
  {
    var r := Release(w.s, w.s.work[e.id], e.id);
    WaitingIff(w.s.queue, c);
    WaitingIff(Next(w, e).s.queue, c);
    if r.queue != [] {
      var h := r.queue[0];
      assert h.client != c;
      WaitingAppend(r.queue[1..], [h.(lower := Plus(h.lower, CHUNK))], c);
      WaitingOne(h.(lower := Plus(h.lower, CHUNK)), c);
    }
  }

  /** A request of at most 10000 nonces gets one result. */
  lemma SmallOnlyOnce(run: seq<World>, events: seq<Event>, i: nat, j: nat, c: nat)
    requires IsRun(run, events) && i < j < |events| && c in Live(run[j])
    requires AnswersClient(run, events, i, c) && c in run[i].asked && IsSmall(run[i], c)
    ensures !AnswersClient(run, events, j, c)
  {
    if AnswersClient(run, events, j, c) {
      SecondNeedsWaiting(run, events, i, j, c);
      LiveBefore(run, events, i, j, c);
      UnsplitInvariant(run, events, i, c);
      AnsweredAsked(run, events, i, c);
      StepOf(run, events, i);
      assert Lists(run[i].s, c, events[i].id);
      WaitingIff(run[i].s.queue, c);
      InfoNotEmpty(run[i].s.tasks[c].info, events[i].id);
    }
  }

  lemma InfoNotEmpty(info: map<nat, Interval>, m: nat)
    requires m in info
    ensures |info| >= 1
  {
    assert m in info.Keys;
  }
}
