/**
 What goes wrong with two clients: a result that is sent too early, and one that forgets an earlier one.
 */
module SchedulerTwoClients {
  import opened Scheduler
  import opened SchedulerHeld
  import opened SchedulerRun
  import opened SchedulerWork
  import opened SchedulerAnswer

  /** Nonce 15000 is the best one. */
  function Dip(data: string, n: nat): nat {
    if n == 15000 then 1 else 2
  }

  const THIRD := Request(3, "m", 0, 20000)
  const SECOND := Request(2, "m", 0, 20000)
  const FIRST_CHUNK := Interval(0, 10000)

  function Shared(i: nat): Sched {
    match i
    case 0 => IDLE.s
    case 1 => Sched([], map[], map[], [THIRD], [])
    case 2 => Sched([], map[], map[], [THIRD, SECOND], [])
    case 3 => Sched([], map[1 := 3], map[3 := Task("m", 1, map[1 := FIRST_CHUNK], 0, 0)],
                    [SECOND, THIRD.(lower := 10000)], [Work(1, "m", FIRST_CHUNK)])
    case _ => Early(2, 0)
  }

  /** Client 3 has been sent `hash` and `nonce`, and the miner works for client 2. */
  function Early(hash: nat, nonce: nat): Sched {
    Sched([], map[1 := 2], map[2 := Task("m", 1, map[1 := FIRST_CHUNK], 0, 0)],
          [THIRD.(lower := 10000), SECOND.(lower := 10000)],
          [Work(1, "m", FIRST_CHUNK), Work(1, "m", FIRST_CHUNK), Answer(3, hash, nonce)])
  }

  lemma BothWait()
    ensures OnRequest(Shared(0), 3, "m", 0, 20000) == Shared(1) && OnRequest(Shared(1), 2, "m", 0, 20000) == Shared(2)
  {
  }

  lemma FirstChunk()
    ensures OnJoin(Shared(2), 1) == Shared(3)
  {
    assert [THIRD, SECOND][1..] + [THIRD.(lower := 10000)] == [SECOND, THIRD.(lower := 10000)];
  }

  lemma TooEarly(hash: nat, nonce: nat)
    ensures OnResult(Shared(3), 1, hash, nonce) == Early(hash, nonce)
  {
    var s := Shared(3);
    var r := Release(s, 3, 1);
    assert r.tasks == map[3 := Task("m", 0, map[], 0, 0)];
    var u := Reuse(r, 1);
    assert u.tasks[3] == Task("m", 0, map[], 0, 0) && u.work == map[1 := 2];
    assert u.tasks - {3} == map[2 := Task("m", 1, map[1 := FIRST_CHUNK], 0, 0)];
    assert u.queue == Early(hash, nonce).queue;
  }

  const BOTH: map<nat, Request> := map[3 := THIRD, 2 := SECOND]

  function SharedWorld(i: nat): World {
    match i
    case 0 => IDLE
    case 1 => World(Shared(1), {3}, {}, map[3 := THIRD], {}, {}, {}, {})
    case 2 => World(Shared(2), {3, 2}, {}, BOTH, {}, {}, {}, {})
    case 3 => World(Shared(3), {3, 2, 1}, {1}, BOTH, {}, {}, {}, {})
    case _ => World(Shared(4), {3, 2, 1}, {1}, BOTH, {Piece(3, FIRST_CHUNK)}, {}, {3}, {})
  }

  function SharedEvent(i: nat): Event {
    match i
    case 0 => Ask(3, "m", 0, 20000)
    case 1 => Ask(2, "m", 0, 20000)
    case 2 => Join(1)
    case _ => Result(1, 2, 0)
  }

  lemma SharedStep(i: nat)
    requires i < 4
    ensures Enabled(SharedWorld(i), SharedEvent(i)) && Next(SharedWorld(i), SharedEvent(i)) == SharedWorld(i + 1)
  {
    BothWait();
    FirstChunk();
    TooEarly(2, 0);
  }

  lemma SharedHonest(i: nat)
    requires i < 4
    ensures Honest(SharedWorld(i), SharedEvent(i), Dip)
  {
  }

  /**
   With a second client this fails: the task of client 3 has no miner for a moment while its remainder
   waits behind the other client's request, and the answer for its first chunk goes out as its result.
   */
  lemma PrematureAnswer() returns (run: seq<World>, events: seq<Event>)
    ensures IsRun(run, events) && |events| == 4 && AllHonest(run, events, Dip)
    ensures 3 in Live(run[3]) && NoZeroHash(run[3].asked[3], Dip) && AnswersClient(run, events, 3, 3)
    ensures run[3].asked[3] == THIRD && 15000 <= THIRD.upper && Answer(3, 2, 0) in run[4].s.sent && Dip("m", 15000) < 2
  {
    run, events := seq(5, i requires 0 <= i < 5 => SharedWorld(i)), seq(4, i requires 0 <= i < 4 => SharedEvent(i));
    forall i: nat | i < 4 ensures EventAt(run, events, i) && HonestAt(run, events, Dip, i) {
      SharedStep(i);
      SharedHonest(i);
    }
    assert run[3] == SharedWorld(3) && run[4] == SharedWorld(4) && events[3] == SharedEvent(3);
  }

  // ----- a second result that forgets the first -----

  /** Nonce 5 is the best one. */
  function Peak(data: string, n: nat): nat {
    if n == 5 then 1 else 2
  }

  const LAST_CHUNK := Interval(10000, 20000)

  /** The miner works on the rest of client 3's request, in a task that starts from nothing. */
  function Again(): Sched {
    Sched([], map[1 := 3], map[3 := Task("m", 1, map[1 := LAST_CHUNK], 0, 0)],
          [SECOND.(lower := 10000), THIRD.(lower := 20000)],
          Early(1, 5).sent + [Work(1, "m", LAST_CHUNK), Answer(2, 1, 5)])
  }

  function Forgetful(): Sched {
    Sched([], map[1 := 2], map[2 := Task("m", 1, map[1 := LAST_CHUNK], 0, 0)],
          [THIRD.(lower := 20000), SECOND.(lower := 20000)],
          Again().sent + [Work(1, "m", LAST_CHUNK), Answer(3, 2, 10000)])
  }

  lemma StartsAgain()
    ensures OnResult(Early(1, 5), 1, 1, 5) == Again()
  {
    var r := Release(Early(1, 5), 2, 1);
    assert r.tasks == map[2 := Task("m", 0, map[], 0, 0)];
    var u := Reuse(r, 1);
    assert u.tasks[2] == Task("m", 0, map[], 0, 0) && u.work == map[1 := 3];
    assert u.tasks - {2} == map[3 := Task("m", 1, map[1 := LAST_CHUNK], 0, 0)];
    assert u.queue == Again().queue;
    assert u.sent + [Answer(2, 1, 5)] == Again().sent;
  }

  lemma Forgets()
    ensures OnResult(Again(), 1, 2, 10000) == Forgetful()
  {
    var r := Release(Again(), 3, 1);
    assert r.tasks == map[3 := Task("m", 0, map[], 0, 0)];
    var u := Reuse(r, 1);
    assert u.tasks[3] == Task("m", 0, map[], 0, 0) && u.work == map[1 := 2];
    assert u.tasks - {3} == map[2 := Task("m", 1, map[1 := LAST_CHUNK], 0, 0)];
    assert u.queue == Forgetful().queue;
    assert u.sent + [Answer(3, 2, 10000)] == Forgetful().sent;
  }

  function LaterWorld(i: nat): World {
    match i
    case 0 => SharedWorld(0)
    case 1 => SharedWorld(1)
    case 2 => SharedWorld(2)
    case 3 => SharedWorld(3)
    case 4 => World(Early(1, 5), {3, 2, 1}, {1}, BOTH, {Piece(3, FIRST_CHUNK)}, {}, {3}, {})
    case 5 => World(Again(), {3, 2, 1}, {1}, BOTH, {Piece(3, FIRST_CHUNK), Piece(2, FIRST_CHUNK)}, {}, {3, 2}, {})
    case _ => World(Forgetful(), {3, 2, 1}, {1}, BOTH,
                    {Piece(3, FIRST_CHUNK), Piece(2, FIRST_CHUNK), Piece(3, LAST_CHUNK)}, {}, {3, 2}, {})
  }

  function LaterEvent(i: nat): Event {
    match i
    case 3 => Result(1, 1, 5)
    case 4 => Result(1, 1, 5)
    case 5 => Result(1, 2, 10000)
    case _ => SharedEvent(i)
  }

  lemma FirstResult()
    ensures Enabled(LaterWorld(3), LaterEvent(3)) && Next(LaterWorld(3), LaterEvent(3)) == LaterWorld(4)
  {
    TooEarly(1, 5);
  }

  lemma OtherResult()
    ensures Enabled(LaterWorld(4), LaterEvent(4)) && Next(LaterWorld(4), LaterEvent(4)) == LaterWorld(5)
  {
    StartsAgain();
  }

  lemma SecondResult()
    ensures Enabled(LaterWorld(5), LaterEvent(5)) && Next(LaterWorld(5), LaterEvent(5)) == LaterWorld(6)
  {
    Forgets();
  }

  lemma LaterStep(i: nat)
    requires i < 6
    ensures Enabled(LaterWorld(i), LaterEvent(i)) && Next(LaterWorld(i), LaterEvent(i)) == LaterWorld(i + 1)
  {
    if i < 3 {
      SharedStep(i);
    } else {
      match i
      case 3 => FirstResult();
      case 4 => OtherResult();
      case _ => SecondResult();
    }
  }

  lemma LaterHonest(i: nat)
    requires i < 6
    ensures Honest(LaterWorld(i), LaterEvent(i), Peak)
  {
  }

  /**
   When client 3 is sent its second result, everything it asked for has come in, and yet the result is worse
   than the first one: it is about the second chunk only.
   */
  lemma SecondForgetsFirst() returns (run: seq<World>, events: seq<Event>)
    ensures IsRun(run, events) && |events| == 6 && AllHonest(run, events, Peak)
    ensures 3 in Live(run[5]) && AnswersClient(run, events, 3, 3) && AnswersClient(run, events, 5, 3)
    ensures forall n :: Asks(run[5].asked[3], 3, n) ==> Done(run[6].done, 3, n)
    ensures Answer(3, 1, 5) in run[4].s.sent
    ensures run[6].s.sent != [] && run[6].s.sent[|run[6].s.sent| - 1] == Answer(3, 2, 10000)
  {
    run, events := seq(7, i requires 0 <= i < 7 => LaterWorld(i)), seq(6, i requires 0 <= i < 6 => LaterEvent(i));
    forall i: nat | i < 6 ensures EventAt(run, events, i) && HonestAt(run, events, Peak, i) {
      LaterStep(i);
      LaterHonest(i);
    }
    assert run[3] == LaterWorld(3) && run[4] == LaterWorld(4) && run[5] == LaterWorld(5) && run[6] == LaterWorld(6);
    assert events[3] == LaterEvent(3) && events[5] == LaterEvent(5);
    LaterDone();
  }

  lemma LaterDone()
    ensures forall n :: Asks(THIRD, 3, n) ==> Done(LaterWorld(6).done, 3, n)
  {
    var done := LaterWorld(6).done;
    assert Piece(3, FIRST_CHUNK) in done && Piece(3, LAST_CHUNK) in done;
    forall n: nat | Asks(THIRD, 3, n) ensures Done(done, 3, n) {
      assert Within(FIRST_CHUNK, n) || Within(LAST_CHUNK, n);
    }
  }
}
