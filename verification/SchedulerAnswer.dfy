/**
 What clients are told: the least hash over what came in since their last result, and for a lone client over
 everything it asked for.
 */
module SchedulerAnswer {
  import opened Mining
  import opened Scheduler
  import opened SchedulerHeld
  import opened SchedulerRun
  import opened SchedulerTally
  import opened SchedulerWork
  import opened SchedulerTold

  type HashFunction = (string, nat) -> nat

  /** The result is what the miner computes for the last order it was sent. */
  ghost predicate Honest(w: World, e: Event, hash: HashFunction) {
    e.Result? ==>
      var order := LastOrder(w.s.sent, e.id);
      order.Order? ==> Least(hash, order.data, order.range.lower, order.range.upper, e.hash, e.nonce)
  }

  ghost predicate HonestAt(run: seq<World>, events: seq<Event>, hash: HashFunction, i: nat) {
    i < |events| && i < |run| && Honest(run[i], events[i], hash)
  }

  ghost predicate AllHonest(run: seq<World>, events: seq<Event>, hash: HashFunction) {
    forall i: nat :: i < |events| ==> HonestAt(run, events, hash, i)
  }

  /** 0 marks a task without a result, so no nonce of the range may hash to it. */
  ghost predicate NoZeroHash(r: Request, hash: HashFunction) {
    forall n :: r.lower <= n <= r.upper ==> hash(r.data, n) != 0
  }

  // ----- the score of a client: its best hash so far -----

  datatype Score = Score(value: nat, nonce: nat)

  function ScoreOf(s: Sched, c: nat): Score {
    if c in s.tasks then Score(s.tasks[c].value, s.tasks[c].nonce) else Score(0, 0)
  }

  lemma ReuseScore(s: Sched, m: nat, c: nat)
    ensures ScoreOf(Reuse(s, m), c) == ScoreOf(s, c)
  {
  }

  lemma {:induction false} SpreadScore(s: Sched, client: nat, data: string, lower: nat, upper: nat, c: nat)
    ensures ScoreOf(Spread(s, client, data, lower, upper), c) == ScoreOf(s, c)
    decreases |s.free|
  {
    if s.free != [] && lower < upper {
      var end := ChunkEnd(lower, upper);
      SpreadScore(Give(s.(free := s.free[1..]), s.free[0], client, data, Interval(lower, end)), client, data, end, upper, c);
    }
  }

  /** Only a result for this client changes its score. */
  lemma SameScore(w: World, e: Event, c: nat)
    requires Inv(w) && Enabled(w, e) && !e.Result? && c in Live(Next(w, e))
    ensures ScoreOf(Next(w, e).s, c) == ScoreOf(w.s, c)
  {
    match e
    case Ask(id, data, lower, upper) =>
      SpreadScore(w.s, id, data, lower, upper, c);
      assert id !in w.s.tasks;
    case _ =>
  }

  /** The score is the least hash over what is done for the client, and is attained there. */
  ghost predicate Best(done: set<Piece>, c: nat, score: Score, data: string, hash: HashFunction) {
    if score.value == 0 then forall n :: !Done(done, c, n)
    else
      && Done(done, c, score.nonce) && score.value == hash(data, score.nonce)
      && (forall n :: Done(done, c, n) ==> score.value <= hash(data, n))
  }

  ghost predicate Scored(w: World, c: nat, hash: HashFunction) {
    c in Live(w) ==> Best(w.part, c, ScoreOf(w.s, c), w.asked[c].data, hash)
  }

  function Improve(score: Score, h: nat, n: nat): Score {
    if score.value == 0 || h < score.value then Score(h, n) else score
  }

  lemma BestImproves(done: set<Piece>, p: Piece, score: Score, data: string, hash: HashFunction, h: nat, n: nat)
    requires Best(done, p.client, score, data, hash) && h != 0
    requires Least(hash, data, p.range.lower, p.range.upper, h, n)
    ensures Best(done + {p}, p.client, Improve(score, h, n), data, hash) && Improve(score, h, n).value != 0
  {
    var more := done + {p};
    assert p in more && Within(p.range, n);
    forall x: nat ensures Done(more, p.client, x) <==> Done(done, p.client, x) || Within(p.range, x) {
      DoneUnion(done, {p}, p.client, x);
      assert Done({p}, p.client, x) <==> Within(p.range, x);
    }
  }

  /** What a result does to the score of its client, whether or not an answer goes out. */
  lemma ResultScore(w: World, e: Event, c: nat)
    requires Inv(w) && e.Result? && Enabled(w, e) && c in Live(w) && w.s.work[e.id] == c
    ensures var t := Next(w, e).s;
            var score := Improve(ScoreOf(w.s, c), e.hash, e.nonce);
            && c in w.s.tasks && e.id in w.s.tasks[c].info
            && (c in t.tasks ==> ScoreOf(t, c) == score)
            && (c !in t.tasks ==> t.sent != [] && t.sent[|t.sent| - 1] == Answer(c, score.value, score.nonce))
  {
    assert WorksFor(w.s, e.id, c) && Lists(w.s, c, e.id);
    var r := Release(w.s, c, e.id);
    assert ScoreOf(r, c) == ScoreOf(w.s, c);
    ReuseScore(r, e.id, c);
  }

  lemma OtherScore(w: World, e: Event, c: nat)
    requires Inv(w) && e.Result? && Enabled(w, e) && w.s.work[e.id] != c
    ensures ScoreOf(Next(w, e).s, c) == ScoreOf(w.s, c)
    ensures forall n :: Done(Next(w, e).part, c, n) <==> Done(w.part, c, n)
  {
    var r := Release(w.s, w.s.work[e.id], e.id);
    assert ScoreOf(r, c) == ScoreOf(w.s, c);
    ReuseScore(r, e.id, c);
    forall n: nat ensures Done(Next(w, e).part, c, n) <==> Done(w.part, c, n) {
      SamePieces(w.part, Next(w, e).part, c, n);
    }
  }

  lemma SamePieces(a: set<Piece>, b: set<Piece>, c: nat, n: nat)
    requires forall p: Piece :: p.client == c ==> (p in a <==> p in b)
    ensures Done(a, c, n) <==> Done(b, c, n)
  {
  }

  lemma ResultBest(w: World, e: Event, c: nat, hash: HashFunction)
    requires Inv(w) && e.Result? && Enabled(w, e) && c in Live(w) && w.s.work[e.id] == c
    requires Told(w.s) && Scored(w, c, hash) && Honest(w, e, hash) && NoZeroHash(w.asked[c], hash)
    ensures var score := Improve(ScoreOf(w.s, c), e.hash, e.nonce);
            score.value != 0 && Best(Given(w, e.id), c, score, w.asked[c].data, hash)
  {
    ResultScore(w, e, c);
    var p := Piece(c, w.s.tasks[c].info[e.id]);
    assert Finished(w.s, e.id) == {p};
    assert WorksFor(w.s, e.id, c) && ToldAs(w.s, c, e.id);
    assert Inside(w.asked, c, w.s.tasks[c].data, p.range);
    BestImproves(w.part, p, ScoreOf(w.s, c), w.asked[c].data, hash, e.hash, e.nonce);
  }

  /** After a result for the client, the next one starts from nothing; otherwise the score goes on. */
  lemma OwnResult(w: World, e: Event, c: nat, hash: HashFunction)
    requires Inv(w) && e.Result? && Enabled(w, e) && c in Live(w) && w.s.work[e.id] == c
    requires Told(w.s) && Scored(w, c, hash) && Honest(w, e, hash) && NoZeroHash(w.asked[c], hash)
    ensures Scored(Next(w, e), c, hash)
  {
    var t := Next(w, e);
    ResultScore(w, e, c);
    if c in t.s.tasks {
      ResultBest(w, e, c, hash);
      assert t.part == Given(w, e.id);
    } else {
      assert forall n :: !Done(t.part, c, n);
    }
  }

  lemma ScoredStep(w: World, e: Event, c: nat, hash: HashFunction)
    requires Inv(w) && Told(w.s) && Recent(w) && Enabled(w, e) && Scored(w, c, hash) && Honest(w, e, hash)
    requires c in Next(w, e).asked ==> NoZeroHash(Next(w, e).asked[c], hash)
    ensures Scored(Next(w, e), c, hash)
  {
    if c in Live(Next(w, e)) {
      if e.Result? && w.s.work[e.id] == c {
        OwnResult(w, e, c, hash);
      } else if e.Result? {
        OtherScore(w, e, c);
      } else {
        SameScore(w, e, c);
        if e.Ask? && e.id == c {
          assert c !in w.s.tasks;
          assert forall n :: !Done(w.part, c, n);
        }
      }
    }
  }

  /** What came in since the last result; before the first, that is everything. */
  ghost predicate Recent(w: World) {
    && w.part <= w.done
    && (forall p :: p in w.done && p.client !in w.answered ==> p in w.part)
  }

  lemma RecentStep(w: World, e: Event)
    requires Recent(w) && Enabled(w, e)
    ensures Recent(Next(w, e))
  {
  }

  lemma {:induction false} RecentInvariant(run: seq<World>, events: seq<Event>, i: nat)
    requires IsRun(run, events) && i < |run|
    ensures Recent(run[i])
  {
    if i > 0 {
      var k := i - 1;
      RecentInvariant(run, events, k);
      assert EventAt(run, events, k);
      RecentStep(run[k], events[k]);
    }
  }

  lemma AskedStays(w: World, e: Event, c: nat)
    requires Inv(w) && Enabled(w, e) && c in w.asked
    ensures c in Next(w, e).asked && Next(w, e).asked[c] == w.asked[c]
  {
  }

  lemma StepOf(run: seq<World>, events: seq<Event>, i: nat)
    requires IsRun(run, events) && i < |events|
    ensures Inv(run[i]) && Enabled(run[i], events[i])
    ensures run[i + 1] == Next(run[i], events[i])
  {
    SchedulerInvariant(run, events, i);
    assert EventAt(run, events, i);
  }

  lemma {:induction false} ScoredInvariant(run: seq<World>, events: seq<Event>, i: nat, c: nat, hash: HashFunction)
    requires IsRun(run, events) && AllHonest(run, events, hash) && i < |run|
    requires c in run[i].asked ==> NoZeroHash(run[i].asked[c], hash)
    ensures Scored(run[i], c, hash)
  {
    if i > 0 {
      var k := i - 1;
      StepOf(run, events, k);
      if c in run[k].asked {
        AskedStays(run[k], events[k], c);
      }
      ScoredInvariant(run, events, k, c, hash);
      RecentInvariant(run, events, k);
      ToldInvariant(run, events, k);
      assert HonestAt(run, events, hash, k);
      ScoredStep(run[k], events[k], c, hash);
    }
  }

  // ----- answers -----

  /** Event `i` sends an answer to client `c`. */
  ghost predicate AnswersClient(run: seq<World>, events: seq<Event>, i: nat, c: nat)
    requires |run| == |events| + 1 && i < |events|
  {
    events[i].Result? && c in Answers(run[i].s, run[i + 1].s, events[i].id)
  }

  /** Every result sent to a connected client is the least hash over what came in since its last one. */
  lemma EveryAnswer(run: seq<World>, events: seq<Event>, i: nat, c: nat, hash: HashFunction)
    requires IsRun(run, events) && AllHonest(run, events, hash) && i < |events|
    requires c in Live(run[i]) && NoZeroHash(run[i].asked[c], hash) && AnswersClient(run, events, i, c)
    ensures var sent := run[i + 1].s.sent;
            && sent != [] && sent[|sent| - 1].Answer? && sent[|sent| - 1].client == c
            && var a := sent[|sent| - 1];
               a.hash != 0 && Best(Given(run[i], events[i].id), c, Score(a.hash, a.nonce), run[i].asked[c].data, hash)
  {
    StepOf(run, events, i);
    ScoredInvariant(run, events, i, c, hash);
    ResultScore(run[i], events[i], c);
    ToldInvariant(run, events, i);
    assert HonestAt(run, events, hash, i);
    ResultBest(run[i], events[i], c, hash);
  }

  lemma SameBest(a: set<Piece>, b: set<Piece>, c: nat, score: Score, data: string, hash: HashFunction)
    requires Best(a, c, score, data, hash) && forall p: Piece :: p.client == c ==> (p in a <==> p in b)
    ensures Best(b, c, score, data, hash)
  {
    forall n: nat ensures Done(a, c, n) <==> Done(b, c, n) {
      SamePieces(a, b, c, n);
    }
  }

  /**
   The first result is about everything finished so far, and that is everything the client asked for but what
   still waits in the queue.
   */
  lemma FirstAnswer(run: seq<World>, events: seq<Event>, i: nat, c: nat, hash: HashFunction)
    requires IsRun(run, events) && AllHonest(run, events, hash) && i < |events|
    requires c in Live(run[i]) && c !in run[i].answered && NoZeroHash(run[i].asked[c], hash)
    requires AnswersClient(run, events, i, c)
    ensures var t := run[i + 1];
            && t.s.sent != [] && t.s.sent[|t.s.sent| - 1].Answer? && t.s.sent[|t.s.sent| - 1].client == c
            && c in t.asked && t.asked[c] == run[i].asked[c]
            && var a := t.s.sent[|t.s.sent| - 1];
               Best(t.done, c, Score(a.hash, a.nonce), t.asked[c].data, hash) && a.hash != 0
    ensures forall n :: Asks(run[i].asked[c], c, n) <==>
              Done(run[i + 1].done, c, n) || Queued(run[i + 1].s.queue, c, n)
  {
    var w, e, t := run[i], events[i], run[i + 1];
    StepOf(run, events, i);
    RecentInvariant(run, events, i);
    EveryAnswer(run, events, i, c, hash);
    FirstPieces(w, e, c);
    var a := t.s.sent[|t.s.sent| - 1];
    SameBest(Given(w, e.id), t.done, c, Score(a.hash, a.nonce), w.asked[c].data, hash);
    SchedulerInvariant(run, events, i + 1);
    NobodyAssigned(t, c);
  }

  lemma FirstPieces(w: World, e: Event, c: nat)
    requires Recent(w) && e.Result? && Enabled(w, e) && c !in w.answered
    ensures forall p: Piece :: p.client == c ==> (p in Given(w, e.id) <==> p in Next(w, e).done)
  {
  }

  lemma NobodyAssigned(w: World, c: nat)
    requires Inv(w) && c in Live(w) && c !in w.s.tasks
    ensures forall n :: Asks(w.asked[c], c, n) <==> Done(w.done, c, n) || Queued(w.s.queue, c, n)
  {
    assert Covered(w, c);
    forall n: nat ensures Held(w.s, c, n) <==> Queued(w.s.queue, c, n) {}
  }

  /** A client is answered exactly when its last working miner reports and the next work is not its own. */
  ghost predicate AnswerDue(s: Sched, c: nat, m: nat) {
    && c in s.tasks && s.tasks[c].info.Keys == {m}
    && (s.queue == [] || s.queue[0].client != c)
  }

  lemma OneLeft(info: map<nat, Interval>, m: nat)
    requires m in info
    ensures |info - {m}| == 0 <==> info.Keys == {m}
  {
    assert info.Keys == (info - {m}).Keys + {m};
    if |info - {m}| == 0 {
      assert (info - {m}).Keys == {};
    }
  }

  lemma AnswerDueIff(w: World, e: Event, c: nat)
    requires Inv(w) && e.Result? && Enabled(w, e) && c in Live(w) && w.s.work[e.id] == c
    ensures c in Answers(w.s, Next(w, e).s, e.id) <==> AnswerDue(w.s, c, e.id)
  {
    var s := w.s;
    assert WorksFor(s, e.id, c) && Lists(s, c, e.id) && Counted(s, c);
    var r := Release(s, c, e.id);
    var u := Reuse(r, e.id);
    TallyRelease(s, Live(w), e.id);
    OneLeft(s.tasks[c].info, e.id);
    assert Counted(r, c) && r.tasks[c].info == s.tasks[c].info - {e.id};
    assert c in Next(w, e).s.tasks <==> u.tasks[c].minerNum != 0;
    if s.queue != [] && s.queue[0].client == c {
      assert u.tasks[c].minerNum == r.tasks[c].minerNum + 1;
    } else {
      assert u.tasks[c] == r.tasks[c];
    }
  }

  /** What a report adds to the ranges of the result. */
  lemma GivenAt(w: World, m: nat, c: nat, n: nat)
    requires Inv(w) && c in Live(w) && WorksFor(w.s, m, c)
    ensures Lists(w.s, c, m)
    ensures Done(Given(w, m), c, n) <==> Done(w.part, c, n) || Within(w.s.tasks[c].info[m], n)
  {
    assert Lists(w.s, c, m);
    DoneUnion(w.part, Finished(w.s, m), c, n);
    assert Piece(c, w.s.tasks[c].info[m]) in Finished(w.s, m);
  }

  /**
   Exactly when a connected client is sent a result that leaves nonce `n` of its range out: when its last
   working miner reports a range without `n`, the next work is not the client's, and `n`, which has not come in
   since the client's last result, waits in the queue or was in an earlier result only.
   */
  lemma IncompleteIff(run: seq<World>, events: seq<Event>, i: nat, c: nat, n: nat)
    requires IsRun(run, events) && i < |events| && events[i].Result? && c in Live(run[i])
    requires WorksFor(run[i].s, events[i].id, c) && Asks(run[i].asked[c], c, n)
    ensures AnswersClient(run, events, i, c) && !Done(Given(run[i], events[i].id), c, n) <==>
            var w, s, m := run[i], run[i].s, events[i].id;
            && AnswerDue(s, c, m) && !Within(s.tasks[c].info[m], n) && !Done(w.part, c, n)
            && (Queued(s.queue, c, n) || Done(w.done, c, n))
  {
    var w, e := run[i], events[i];
    StepOf(run, events, i);
    AnswerDueIff(w, e, c);
    GivenAt(w, e.id, c, n);
    assert Covered(w, c);
    if AnswerDue(w.s, c, e.id) && !Within(w.s.tasks[c].info[e.id], n) {
      assert !Assigned(w.s, c, n);
    }
  }

  /** Everything the client asked for has come in since its last result. */
  ghost predicate Complete(w: World, m: nat, c: nat) {
    c in w.asked && forall n :: Asks(w.asked[c], c, n) ==> Done(Given(w, m), c, n)
  }

  lemma LeastOverall(pieces: set<Piece>, r: Request, score: Score, hash: HashFunction)
    requires Best(pieces, r.client, score, r.data, hash) && score.value != 0
    requires forall n :: Asks(r, r.client, n) <==> Done(pieces, r.client, n)
    ensures r.lower <= score.nonce <= r.upper && score.value == hash(r.data, score.nonce)
    ensures forall n :: r.lower <= n <= r.upper ==> score.value <= hash(r.data, n)
  {
    forall n: nat | r.lower <= n <= r.upper ensures score.value <= hash(r.data, n) {
      assert Asks(r, r.client, n);
    }
    assert Asks(r, r.client, score.nonce);
  }

  /** Nothing comes in that the client did not ask for. */
  lemma OnlyAsked(run: seq<World>, events: seq<Event>, i: nat, c: nat, n: nat)
    requires IsRun(run, events) && i < |events| && events[i].Result? && c in Live(run[i])
    requires WorksFor(run[i].s, events[i].id, c) && Done(Given(run[i], events[i].id), c, n)
    ensures Asks(run[i].asked[c], c, n)
  {
    var w, m := run[i], events[i].id;
    StepOf(run, events, i);
    RecentInvariant(run, events, i);
    GivenAt(w, m, c, n);
    assert Covered(w, c);
    if Done(w.part, c, n) {
      var p :| p in w.part && p.client == c && Within(p.range, n);
      assert p in w.done;
    }
  }

  /** With any number of clients, a complete result is the least hash over the whole range, attained in it. */
  lemma CompleteAnswer(run: seq<World>, events: seq<Event>, i: nat, c: nat, hash: HashFunction)
    requires IsRun(run, events) && AllHonest(run, events, hash) && i < |events|
    requires c in Live(run[i]) && NoZeroHash(run[i].asked[c], hash) && AnswersClient(run, events, i, c)
    requires Complete(run[i], events[i].id, c)
    ensures var sent, r := run[i + 1].s.sent, run[i].asked[c];
            && sent != [] && sent[|sent| - 1].Answer? && sent[|sent| - 1].client == c
            && var a := sent[|sent| - 1];
               && r.lower <= a.nonce <= r.upper && a.hash == hash(r.data, a.nonce)
               && forall n :: r.lower <= n <= r.upper ==> a.hash <= hash(r.data, n)
  {
    EveryAnswer(run, events, i, c, hash);
    StepOf(run, events, i);
    var a, pieces := run[i + 1].s.sent[|run[i + 1].s.sent| - 1], Given(run[i], events[i].id);
    forall n: nat | Done(pieces, c, n) ensures Asks(run[i].asked[c], c, n) {
      OnlyAsked(run, events, i, c, n);
    }
    LeastOverall(pieces, run[i].asked[c], Score(a.hash, a.nonce), hash);
  }

  // ----- a lone client -----

  ghost predicate Lone(events: seq<Event>, c: nat) {
    forall i :: 0 <= i < |events| ==> (events[i].Ask? ==> events[i].id == c)
  }

  lemma {:induction false} LoneAsks(run: seq<World>, events: seq<Event>, i: nat, c: nat)
    requires IsRun(run, events) && Lone(events, c) && i < |run|
    ensures run[i].asked.Keys <= {c}
  {
    if i > 0 {
      var k := i - 1;
      LoneAsks(run, events, k, c);
      StepOf(run, events, k);
    }
  }

  /** A lone client is answered only when nothing of its request waits any more. */
  lemma LoneQueue(w: World, e: Event, c: nat)
    requires Inv(w) && e.Result? && Enabled(w, e) && c in Live(w) && w.asked.Keys <= {c}
    requires c in Answers(w.s, Next(w, e).s, e.id)
    ensures w.s.queue == [] && Next(w, e).s.queue == []
  {
    assert forall r :: r in w.s.queue ==> r.client in w.asked;
    assert w.s.queue != [] ==> w.s.queue[0] in w.s.queue;
    AnswerDueIff(w, e, c);
  }

  ghost predicate Settled(w: World, c: nat) {
    c in Live(w) && c in w.answered ==> c !in w.s.tasks && w.s.queue == []
  }

  lemma SettledStep(w: World, e: Event, c: nat)
    requires Inv(w) && Enabled(w, e) && Settled(w, c)
    requires w.asked.Keys <= {c} && (e.Ask? ==> e.id == c) && w.answered <= w.asked.Keys
    ensures Settled(Next(w, e), c) && Next(w, e).answered <= Next(w, e).asked.Keys
  {
    var t := Next(w, e);
    if c in Live(t) && c in t.answered {
      if c !in w.answered {
        LoneQueue(w, e, c);
      } else {
        NobodyWorks(w, c);
      }
    }
  }

  /** Nobody works for a lone client that has been answered. */
  lemma NobodyWorks(w: World, c: nat)
    requires Inv(w) && c in Live(w) && c !in w.s.tasks && w.asked.Keys <= {c}
    ensures w.s.work == map[]
  {
    forall m | m in w.s.work ensures false {
      assert WorksFor(w.s, m, c) && !Lists(w.s, c, m);
    }
  }

  lemma {:induction false} SettledInvariant(run: seq<World>, events: seq<Event>, i: nat, c: nat)
    requires IsRun(run, events) && Lone(events, c) && i < |run|
    ensures Settled(run[i], c) && run[i].answered <= run[i].asked.Keys
  {
    if i > 0 {
      var k := i - 1;
      SettledInvariant(run, events, k, c);
      StepOf(run, events, k);
      LoneAsks(run, events, k, c);
      SettledStep(run[k], events[k], c);
    }
  }

  /**
   With one client, every answer sent while it is connected is the least hash over the whole range it
   asked for, with a nonce of that range that attains it, whatever miners join and fail.
   */
  lemma LoneClientAnswer(run: seq<World>, events: seq<Event>, i: nat, c: nat, hash: HashFunction)
    requires IsRun(run, events) && AllHonest(run, events, hash) && Lone(events, c) && i < |events|
    requires c in Live(run[i]) && NoZeroHash(run[i].asked[c], hash) && AnswersClient(run, events, i, c)
    ensures var sent, r := run[i + 1].s.sent, run[i].asked[c];
            && sent != [] && sent[|sent| - 1].Answer? && sent[|sent| - 1].client == c
            && var a := sent[|sent| - 1];
               && r.lower <= a.nonce <= r.upper && a.hash == hash(r.data, a.nonce)
               && forall n :: r.lower <= n <= r.upper ==> a.hash <= hash(r.data, n)
  {
    var w := run[i];
    StepOf(run, events, i);
    SettledInvariant(run, events, i, c);
    RecentInvariant(run, events, i);
    LoneAsks(run, events, i, c);
    LoneComplete(w, events[i], c);
    CompleteAnswer(run, events, i, c, hash);
  }

  lemma LoneComplete(w: World, e: Event, c: nat)
    requires Inv(w) && Recent(w) && Settled(w, c) && e.Result? && Enabled(w, e) && c in Live(w) && w.asked.Keys <= {c}
    requires c in Answers(w.s, Next(w, e).s, e.id)
    ensures Complete(w, e.id, c)
  {
    AnswerDueIff(w, e, c);
    LoneQueue(w, e, c);
    assert c !in w.answered && Covered(w, c);
    forall n: nat | Asks(w.asked[c], c, n) ensures Done(Given(w, e.id), c, n) {
      GivenAt(w, e.id, c, n);
      assert !Queued(w.s.queue, c, n);
      SamePieces(w.part, w.done, c, n);
    }
  }
}
