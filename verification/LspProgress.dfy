/**
 What keeps a connection going: data that arrives is acknowledged, what is outstanding has been sent, and so
 everything written can always still be delivered and acknowledged.
 */
module LspProgress {
  import opened LspEndpoint
  import opened LspWindow
  import opened LspChannel

  function SideOf(s: Net, first: bool): Side {
    if first then s.a else s.b
  }

  // ----- acknowledgements -----

  /** Intact data within the receiver's window is acknowledged, new or not, and taken in; other data is ignored. */
  lemma IntactData(x: Side, y: Side, g: Message)
    requires Both(x, y) && Healthy(x) && g in y.sent && g.Data?
    ensures var z := Apply(x, Receive(g));
            if g.seqNum < x.conn.expected + x.conn.params.window
            then Ack(x.conn.connID, g.seqNum) in z.sent && Got(z.conn, g.seqNum)
            else z.sent == x.sent && z.conn == x.conn.(heardData := true)
  {
    assert Admit(g) == Some(g) && Genuine(g);
    var z := Apply(x, Receive(g));
    if g.seqNum < x.conn.expected + x.conn.params.window {
      assert Ack(x.conn.connID, g.seqNum) in OnDataMsgs(x.conn, g);
      DataArrives(x, y, g);
      NextIds(x.conn, Receive(g));
    }
  }

  /**
   In every run: when a data message that the peer sent arrives intact, its number is acknowledged in the next
   state, also below the next expected number, whenever it is within the receiver's window. It always is when
   the peer's window is no larger. Outside the window, the message is ignored.
   */
  lemma DataAcknowledged(run: seq<Net>, turns: seq<Turn>, i: nat, g: Message)
    requires NetRun(run, turns) && i < |turns| && turns[i].move == Arrive(g, g) && g.Data?
    ensures var x, y, z := SideOf(run[i], turns[i].first), SideOf(run[i], !turns[i].first),
                           SideOf(run[i + 1], turns[i].first);
            && (y.conn.params.window <= x.conn.params.window ==> g.seqNum < x.conn.expected + x.conn.params.window)
            && if g.seqNum < x.conn.expected + x.conn.params.window
               then Ack(x.conn.connID, g.seqNum) in z.sent && Got(z.conn, g.seqNum)
               else z.sent == x.sent && z.Delivered() == x.Delivered()
  {
    RunInv(run, turns, i);
    assert TurnAt(run, turns, i);
    IntactData(SideOf(run[i], turns[i].first), SideOf(run[i], !turns[i].first), g);
  }

  // ----- what is outstanding is on its way -----

  /** Every outstanding message has been sent. */
  ghost predicate OnItsWay(c: Conn, sent: set<Message>) {
    forall k :: k in c.unacked ==> DataMsg(c.connID, k, c.unacked[k]) in sent
  }

  lemma SendNOnItsWay(c: Conn, sent: set<Message>, n: nat)
    requires c.Wf() && n <= |c.queue| && OnItsWay(c, sent)
    ensures OnItsWay(SendN(c, n), sent + Elements(SentMsgs(c, n)))
  {
    var d := SendN(c, n);
    forall k | k in d.unacked ensures DataMsg(d.connID, k, d.unacked[k]) in sent + Elements(SentMsgs(c, n)) {
      ExtendAt(c.unacked, c.Front(), c.queue[..n], k);
      if c.Front() <= k < c.Front() + n {
        assert SentMsgs(c, n)[k - c.Front()] == DataMsg(c.connID, k, c.queue[k - c.Front()]);
      }
    }
  }

  lemma RefillOnItsWay(c: Conn, sent: set<Message>)
    requires c.Wf() && OnItsWay(c, sent)
    ensures OnItsWay(Refill(c), sent + Elements(RefillMsgs(c)))
  {
    SendNOnItsWay(c, sent, Sendable(c, MinPending(c)));
  }

  lemma EventOnItsWay(x: Side, e: Event)
    requires Healthy(x) && Enabled(x.conn, e) && OnItsWay(x.conn, x.sent)
    ensures OnItsWay(Apply(x, e).conn, Apply(x, e).sent)
  {
    match e
    case Write(p) =>
      EnqueueWf(x.conn, p);
      RefillOnItsWay(Enqueue(x.conn, p), x.sent);
    case Receive(m) =>
      if Admit(m).Some? {
        MessageOnItsWay(x, Admit(m).value);
      }
    case _ =>
  }

  lemma MessageOnItsWay(x: Side, m: Message)
    requires Healthy(x) && OnItsWay(x.conn, x.sent)
    ensures OnItsWay(OnMessage(x.conn, m), x.sent + Elements(OnMessageMsgs(x.conn, m)))
  {
    if m.Data? {
      DataIds(x.conn, m);
      DataKeepsId(x.conn, m);
    } else if (m.Ack? || m.CAck?) && Acked(x.conn, m) != {} {
      ForgetWf(x.conn, Acked(x.conn, m));
      RefillOnItsWay(Forget(x.conn, Acked(x.conn, m)), x.sent);
    }
  }

  lemma DataKeepsId(c: Conn, m: Message)
    requires c.Wf() && m.Data?
    ensures OnData(c, m).connID == c.connID
  {
    if Accepts(c, m) && c.expected <= m.seqNum {
      DrainIds(Buffer(c, m));
    }
  }

  lemma MoveOnItsWay(x: Side, y: Side, a: Move, z: Side)
    requires Healthy(x) && OnItsWay(x.conn, x.sent) && Moves(x, y, a, z)
    ensures OnItsWay(z.conn, z.sent)
  {
    match a
    case Local(e) => EventOnItsWay(x, e);
    case Arrive(_, m) => EventOnItsWay(x, Receive(m));
    case _ =>
  }

  /** In every state of every run, whatever a side holds as outstanding has been sent. */
  lemma {:induction false} OutstandingWasSent(run: seq<Net>, turns: seq<Turn>, i: nat)
    requires NetRun(run, turns) && i < |run|
    ensures OnItsWay(run[i].a.conn, run[i].a.sent) && OnItsWay(run[i].b.conn, run[i].b.sent)
  {
    if i > 0 {
      var k := i - 1;
      OutstandingWasSent(run, turns, k);
      RunInv(run, turns, k);
      assert TurnAt(run, turns, k);
      MoveOnItsWay(SideOf(run[k], turns[k].first), SideOf(run[k], !turns[k].first), turns[k].move,
                   SideOf(run[k + 1], turns[k].first));
    }
  }

  // ----- one round: the oldest outstanding message and its acknowledgement -----

  /** Something can be sent, and something can be received. */
  predicate Usable(sender: Params, receiver: Params) {
    sender.window > 0 && sender.maxUnacked > 0 && receiver.window > 0
  }

  function Left(c: Conn): nat {
    |c.unacked| + |c.queue|
  }

  /** If anything is left, something is outstanding, and the oldest such message is within the receiver's window. */
  lemma OldestOutstanding(x: Side, y: Side) returns (k: nat)
    requires Both(x, y) && Sound(x.conn) && !x.conn.AllAcked() && Usable(x.conn.params, y.conn.params)
    ensures k in x.conn.unacked && x.conn.isn < k < y.conn.expected + y.conn.params.window
  {
    EdgeDelivered(x, y);
    var m := MinPending(x.conn);
    if x.conn.unacked == map[] {
      assert false;
    } else {
      var j :| j in x.conn.unacked;
      assert m <= j < x.conn.Front();
    }
    k := m;
  }

  lemma RefillLeft(c: Conn)
    requires c.Wf()
    ensures Left(Refill(c)) == Left(c)
  {
    SendNSize(c, Sendable(c, MinPending(c)));
  }

  lemma ForgetOne(m: map<nat, Payload>, k: nat)
    requires k in m
    ensures |m - {k}| == |m| - 1
  {
    assert (m - {k}).Keys == m.Keys - {k};
  }

  lemma AckLeft(c: Conn, id: int, k: nat)
    requires c.Wf() && c.connID != 0 && k in c.unacked
    ensures Left(OnAck(c, Ack(id, k))) == Left(c) - 1
  {
    assert Acked(c, Ack(id, k)) == {k};
    ForgetOne(c.unacked, k);
    ForgetWf(c, {k});
    RefillLeft(Forget(c, {k}));
  }

  /** The same connection, with the same things written and not closed. */
  predicate SameUse(x: Side, z: Side) {
    z.written == x.written && z.close == x.close && z.conn.params == x.conn.params && z.conn.connID == x.conn.connID
  }

  /** The acknowledgement of an outstanding message arrives: one fewer is left. */
  lemma AckArrivesBack(x: Side, y: Side, k: nat) returns (x': Side)
    requires Healthy(x) && !x.close.Closed? && k in x.conn.unacked && Ack(y.conn.connID, k) in y.sent
    ensures Moves(x, y, Arrive(Ack(y.conn.connID, k), Ack(y.conn.connID, k)), x')
    ensures Left(x'.conn) == Left(x.conn) - 1 && SameUse(x, x')
  {
    var ack := Ack(y.conn.connID, k);
    x' := Apply(x, Receive(ack));
    NextIds(x.conn, Receive(ack));
    AckLeft(x.conn, y.conn.connID, k);
  }

  /** The oldest outstanding message arrives, and is acknowledged. */
  lemma DataArrivesThere(x: Side, y: Side) returns (g: Message, k: nat, y': Side)
    requires Both(x, y) && Healthy(x) && Healthy(y) && OnItsWay(x.conn, x.sent) && !y.close.Closed?
    requires !x.conn.AllAcked() && Usable(x.conn.params, y.conn.params)
    ensures Moves(y, x, Arrive(g, g), y')
    ensures k in x.conn.unacked && Ack(y'.conn.connID, k) in y'.sent && SameUse(y, y')
  {
    k := OldestOutstanding(x, y);
    g := DataMsg(x.conn.connID, k, x.conn.unacked[k]);
    IntactData(y, x, g);
    y' := Apply(y, Receive(g));
    NextIds(y.conn, Receive(g));
  }

  // ----- runs that finish -----

  ghost predicate Done(s: Net, first: bool) {
    SideOf(s, first).conn.AllAcked() && SideOf(s, !first).Delivered() == SideOf(s, first).written
  }

  function Last(run: seq<Net>): Net
    requires run != []
  {
    run[|run| - 1]
  }

  ghost predicate Continues(run: seq<Net>, turns: seq<Turn>, more: seq<Net>, moves: seq<Turn>) {
    run <= more && turns <= moves && NetRun(more, moves)
  }

  /** The run can go on, with nothing more written, until all that a side wrote is delivered and acknowledged. */
  ghost predicate CanFinish(run: seq<Net>, turns: seq<Turn>, first: bool)
    requires run != []
  {
    exists more, moves ::
      && Continues(run, turns, more, moves)
      && SideOf(Last(more), first).written == SideOf(Last(run), first).written
      && Done(Last(more), first)
  }

  lemma OneTurn(run: seq<Net>, turns: seq<Turn>, t: Turn, s: Net)
    requires NetRun(run, turns) && NetStep(Last(run), t, s)
    ensures NetRun(run + [s], turns + [t]) && Last(run + [s]) == s
  {
    forall i: nat | i < |turns + [t]| ensures TurnAt(run + [s], turns + [t], i) {
      if i < |turns| {
        assert TurnAt(run, turns, i);
      }
    }
  }

  function WithSide(s: Net, first: bool, x: Side): Net {
    if first then s.(a := x) else s.(b := x)
  }

  /** Two more turns, after which one fewer message of a side is left. */
  lemma OneRound(run: seq<Net>, turns: seq<Turn>, first: bool) returns (t1: Turn, s1: Net, t2: Turn, s2: Net)
    requires NetRun(run, turns)
    requires var s := Last(run);
             && !s.a.close.Closed? && !s.b.close.Closed? && !SideOf(s, first).conn.AllAcked()
             && Usable(SideOf(s, first).conn.params, SideOf(s, !first).conn.params)
    ensures NetStep(Last(run), t1, s1) && NetStep(s1, t2, s2)
    ensures SameUse(Last(run).a, s2.a) && SameUse(Last(run).b, s2.b)
    ensures Left(SideOf(s2, first).conn) == Left(SideOf(Last(run), first).conn) - 1
  {
    RunInv(run, turns, |run| - 1);
    OutstandingWasSent(run, turns, |run| - 1);
    var s := Last(run);
    var x := SideOf(s, first);
    var g, k, y := DataArrivesThere(x, SideOf(s, !first));
    t1, s1 := Turn(!first, Arrive(g, g)), WithSide(s, !first, y);
    var ack := Ack(y.conn.connID, k);
    var x' := AckArrivesBack(x, y, k);
    t2, s2 := Turn(first, Arrive(ack, ack)), WithSide(s1, first, x');
  }

  lemma {:induction false} Finish(run: seq<Net>, turns: seq<Turn>, first: bool)
      returns (more: seq<Net>, moves: seq<Turn>)
    requires NetRun(run, turns)
    requires var s := Last(run);
             && !s.a.close.Closed? && !s.b.close.Closed?
             && Usable(SideOf(s, first).conn.params, SideOf(s, !first).conn.params)
    ensures Continues(run, turns, more, moves)
    ensures SideOf(Last(more), first).written == SideOf(Last(run), first).written && Done(Last(more), first)
    decreases Left(SideOf(Last(run), first).conn)
  {
    var s := Last(run);
    if SideOf(s, first).conn.AllAcked() {
      more, moves := run, turns;
      RunInv(run, turns, |run| - 1);
      AllAckedDelivered(SideOf(s, first), SideOf(s, !first));
    } else {
      var t1, s1, t2, s2 := OneRound(run, turns, first);
      OneTurn(run, turns, t1, s1);
      OneTurn(run + [s1], turns + [t1], t2, s2);
      more, moves := Finish(run + [s1] + [s2], turns + [t1] + [t2], first);
    }
  }

  // ----- windows of size zero -----

  /** Who may send nothing has sent nothing, and who may receive nothing has received nothing. */
  ghost predicate Limited(c: Conn) {
    && (c.params.window == 0 || c.params.maxUnacked == 0 ==> c.Front() == c.isn + 1)
    && (c.params.window == 0 ==> c.expected == c.isn + 1)
  }

  lemma RefillLimited(c: Conn)
    requires c.Wf() && Limited(c)
    ensures Limited(Refill(c))
  {
    SendNWf(c, Sendable(c, MinPending(c)));
  }

  lemma MessageLimited(c: Conn, m: Message)
    requires c.Wf() && c.connID != 0 && Limited(c)
    ensures Limited(OnMessage(c, m))
  {
    if m.Data? {
      DataIds(c, m);
    } else if (m.Ack? || m.CAck?) && Acked(c, m) != {} {
      ForgetWf(c, Acked(c, m));
      assert Forget(c, Acked(c, m)).Front() == c.Front();
      RefillLimited(Forget(c, Acked(c, m)));
    }
  }

  lemma EventLimited(c: Conn, e: Event)
    requires c.Wf() && c.connID != 0 && Enabled(c, e) && Limited(c)
    ensures Limited(Next(c, e)) && Next(c, e).params == c.params
  {
    NextIds(c, e);
    match e
    case Write(p) =>
      EnqueueWf(c, p);
      assert Enqueue(c, p).Front() == c.Front();
      RefillLimited(Enqueue(c, p));
    case Receive(m) =>
      if Admit(m).Some? {
        MessageLimited(c, Admit(m).value);
      }
    case _ =>
      assert Next(c, e).Front() == c.Front();
  }

  lemma MoveLimited(x: Side, y: Side, a: Move, z: Side)
    requires Healthy(x) && Limited(x.conn) && Moves(x, y, a, z)
    ensures Limited(z.conn) && z.conn.params == x.conn.params
  {
    match a
    case Local(e) => EventLimited(x.conn, e);
    case Arrive(_, m) => EventLimited(x.conn, Receive(m));
    case _ =>
  }

  lemma {:induction false} LimitedAlong(run: seq<Net>, turns: seq<Turn>, i: nat)
    requires NetRun(run, turns) && i < |run|
    ensures Limited(run[i].a.conn) && Limited(run[i].b.conn)
    ensures run[i].a.conn.params == run[0].a.conn.params && run[i].b.conn.params == run[0].b.conn.params
  {
    if i > 0 {
      var k := i - 1;
      LimitedAlong(run, turns, k);
      RunInv(run, turns, k);
      assert TurnAt(run, turns, k);
      MoveLimited(SideOf(run[k], turns[k].first), SideOf(run[k], !turns[k].first), turns[k].move,
                  SideOf(run[k + 1], turns[k].first));
    }
  }

  /** Over an unusable connection nothing is ever delivered. */
  lemma NothingDelivered(run: seq<Net>, turns: seq<Turn>, i: nat, first: bool)
    requires NetRun(run, turns) && i < |run|
    requires !Usable(SideOf(run[i], first).conn.params, SideOf(run[i], !first).conn.params)
    ensures SideOf(run[i], !first).Delivered() == []
  {
    RunInv(run, turns, i);
    LimitedAlong(run, turns, i);
  }

  lemma NothingWritten(x: Side, y: Side)
    requires Channel(x, y) && x.written == []
    ensures x.conn.AllAcked()
  {
    if k: nat :| k in x.conn.unacked {
      assert false;
    }
    assert x.conn.unacked == map[];
  }

  lemma CannotFinish(run: seq<Net>, turns: seq<Turn>, first: bool)
    requires NetRun(run, turns) && SideOf(Last(run), first).written != []
    requires !Usable(SideOf(Last(run), first).conn.params, SideOf(Last(run), !first).conn.params)
    ensures !CanFinish(run, turns, first)
  {
    forall more, moves | Continues(run, turns, more, moves) && Done(Last(more), first)
      ensures SideOf(Last(more), first).written == []
    {
      LimitedAlong(run, turns, |run| - 1);
      LimitedAlong(more, moves, |more| - 1);
      NothingDelivered(more, moves, |more| - 1, first);
    }
  }

  /**
   As long as Close has returned on neither side, a run can go on until everything a side wrote is delivered and
   acknowledged, if and only if nothing was written or all of the sender's window, its limit on outstanding
   messages and the receiver's window are positive.
   */
  lemma CanFinishIff(run: seq<Net>, turns: seq<Turn>, first: bool)
    requires NetRun(run, turns) && !Last(run).a.close.Closed? && !Last(run).b.close.Closed?
    ensures CanFinish(run, turns, first) <==>
            || SideOf(Last(run), first).written == []
            || Usable(SideOf(Last(run), first).conn.params, SideOf(Last(run), !first).conn.params)
  {
    var s := Last(run);
    RunInv(run, turns, |run| - 1);
    if Usable(SideOf(s, first).conn.params, SideOf(s, !first).conn.params) {
      var more, moves := Finish(run, turns, first);
    } else if SideOf(s, first).written == [] {
      NothingWritten(SideOf(s, first), SideOf(s, !first));
      AllAckedDelivered(SideOf(s, first), SideOf(s, !first));
      assert Continues(run, turns, run, turns);
    } else {
      CannotFinish(run, turns, first);
    }
  }
}
