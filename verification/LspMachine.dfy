/**
 The endpoint as an object: fields updated in place by the loops of the implementation,
 each method proved against the functions of `LspEndpoint`.
 */
module LspMachine {
  import opened Checksum
  import opened LspEndpoint

  class Endpoint {
    const params: Params
    const isn: nat
    var connID: int
    var nextSeq: nat
    var queue: seq<Payload>
    var unacked: map<nat, Payload>
    var backoff: map<nat, int>
    var countdown: map<nat, int>
    var expected: nat
    var buffered: map<nat, Payload>
    var inbox: seq<Payload>
    var epoch: int
    var lastHeard: int
    var heardData: bool
    var outbox: seq<Message>

    function State(): Conn
      reads this
    {
      Conn(params, connID, isn, nextSeq, queue, unacked, backoff, countdown,
           expected, buffered, inbox, epoch, lastHeard, heardData)
    }

    /** The client side: the connection request is already in the outbox. */
    constructor Client(isn: nat, params: Params)
      ensures State() == Fresh(params, 0, isn) && State().Wf()
      ensures outbox == [Connect(isn)]
    {
      this.isn, this.params := isn, params;
      connID, nextSeq, expected := 0, isn + 1, isn + 1;
      queue, unacked, backoff, countdown := [], map[], map[], map[];
      buffered, inbox := map[], [];
      epoch, lastHeard, heardData := 0, 0, false;
      outbox := [Connect(isn)];
    }

    /** The server side of an accepted connection: the request's acknowledgement is in the outbox. */
    constructor Accepted(isn: nat, params: Params, connID: int)
      requires 0 < connID
      ensures State() == Fresh(params, connID, isn) && State().Wf()
      ensures outbox == [Ack(connID, isn)]
    {
      this.isn, this.params, this.connID := isn, params, connID;
      nextSeq, expected := isn + 1, isn + 1;
      queue, unacked, backoff, countdown := [], map[], map[], map[];
      buffered, inbox := map[], [];
      epoch, lastHeard, heardData := 0, 0, false;
      outbox := [Ack(connID, isn)];
    }

    /** A packet arrived from the peer, whatever it holds. */
    method Heard()
      modifies this`lastHeard
      ensures State() == old(State()).(lastHeard := epoch)
    {
      lastHeard := epoch;
    }

    method Read() returns (payload: Payload)
      requires connID != 0 && inbox != []
      modifies this`inbox
      ensures old(inbox) == [payload] + inbox
    {
      payload := inbox[0];
      inbox := inbox[1..];
    }

    method Write(payload: Payload)
      requires State().Wf() && connID != 0 && !State().Lost()
      modifies this`queue, this`nextSeq, this`unacked, this`backoff, this`countdown, this`outbox
      ensures State() == LspEndpoint.Refill(Enqueue(old(State()), payload))
      ensures outbox == old(outbox) + RefillMsgs(Enqueue(old(State()), payload))
    {
      EnqueueWf(State(), payload);
      queue := queue + [payload];
      nextSeq := nextSeq + 1;
      assert State() == Enqueue(old(State()), payload);
      Refill();
    }

    /** The window's lower edge, found by a scan of the outstanding numbers in no particular order. */
    method LowerEdge() returns (least: int)
      requires State().Wf()
      ensures least == MinPending(State())
    {
      least := nextSeq - |queue|;
      var todo := unacked.Keys;
      ghost var done: set<nat> := {};
      while todo != {}
        invariant done + todo == unacked.Keys
        invariant IsLeast(least, State().Front(), done)
        invariant 0 < least
        decreases todo
      {
        var seqNum :| seqNum in todo;
        todo, done := todo - {seqNum}, done + {seqNum};
        if seqNum < least || least == 0 {
          least := seqNum;
        }
      }
      LeastUnique(least, State().Front(), unacked.Keys);
    }

    method Transmit(seqNum: nat, payload: Payload)
      modifies this`outbox
      ensures outbox == old(outbox) + [DataMsg(connID, seqNum, payload)]
    {
      var checksum, _ := CalculateChecksum(connID, seqNum, |payload|, payload);
      outbox := outbox + [Data(connID, seqNum, |payload|, checksum, payload)];
    }

    /** Sends the oldest queued payload with a fresh retransmission schedule. */
    method SendFront()
      requires queue != [] && |queue| <= nextSeq
      modifies this`unacked, this`backoff, this`countdown, this`outbox, this`queue
      ensures State() == SendOne(old(State()))
      ensures outbox == old(outbox) + [DataMsg(connID, old(State()).Front(), old(queue)[0])]
    {
      var front, payload := nextSeq - |queue|, queue[0];
      unacked := unacked[front := payload];
      var interval := 1;
      if interval > params.maxBackoff {
        interval := params.maxBackoff;
      }
      backoff := backoff[front := interval];
      countdown := countdown[front := 0];
      Transmit(front, payload);
      queue := queue[1..];
    }

    /** Sends queued payloads while the window above `least` and the cap allow it. */
    method SendAll(ghost c: Conn, least: int)
      requires c == State() && c.Wf()
      modifies this`unacked, this`backoff, this`countdown, this`outbox, this`queue
      ensures State() == SendN(c, Sendable(c, least))
      ensures outbox == old(outbox) + SentMsgs(c, Sendable(c, least))
    {
      ghost var n: nat := 0;
      SendNothing(c);
      SendableGuard(c, least, 0);
      while |queue| > 0 && nextSeq - |queue| < least + params.window && |unacked| < params.maxUnacked
        invariant n <= Sendable(c, least) <= |c.queue| && State() == SendN(c, n)
        invariant MaySend(State(), least) <==> n < Sendable(c, least)
        invariant outbox == old(outbox) + SentMsgs(c, n)
        decreases |queue|
      {
        SendTurn(c, least, n, old(outbox));
        SendFront();
        n := n + 1;
      }
    }

    method Refill()
      requires State().Wf()
      modifies this`unacked, this`backoff, this`countdown, this`outbox, this`queue
      ensures State() == LspEndpoint.Refill(old(State()))
      ensures outbox == old(outbox) + RefillMsgs(old(State()))
    {
      var least := LowerEdge();
      SendAll(State(), least);
    }

    method DeliverNext()
      requires expected in buffered
      modifies this`inbox, this`buffered, this`expected
      ensures State() == DeliverOne(old(State()))
    {
      inbox := inbox + [buffered[expected]];
      buffered := buffered - {expected};
      expected := expected + 1;
    }

    /** The admission checks, the acknowledgement, and the loop that drains the out-of-order buffer. */
    method OnData(m: Message)
      requires State().Wf() && m.Data?
      modifies this
      ensures State() == LspEndpoint.OnData(old(State()), m)
      ensures outbox == old(outbox) + OnDataMsgs(old(State()), m)
    {
      if connID == 0 {
        return;
      }
      if m.seqNum >= expected + params.window {
        return;
      }
      var checksum, _ := CalculateChecksum(m.connID, m.seqNum, m.size, m.payload);
      if checksum != m.checksum {
        return;
      }
      outbox := outbox + [Ack(connID, m.seqNum)];
      if m.seqNum < expected {
        return;
      }
      buffered := buffered[m.seqNum := m.payload];
      while expected in buffered
        invariant Drain(State()) == LspEndpoint.OnData(old(State()), m)
        invariant outbox == old(outbox) + OnDataMsgs(old(State()), m)
        decreases |buffered|
      {
        DeliverNext();
      }
    }

    method OnAck(m: Message)
      requires State().Wf() && (m.Ack? || m.CAck?)
      modifies this
      ensures State() == LspEndpoint.OnAck(old(State()), m)
      ensures outbox == old(outbox) + OnAckMsgs(old(State()), m)
    {
      ghost var c := State();
      if connID == 0 {
        if m.seqNum == isn {
          connID := m.connID;
        }
      } else if m.seqNum != 0 {
        var removed;
        if m.Ack? {
          removed := ForgetOne(m);
        } else {
          removed := ForgetUpTo(m);
        }
        ForgetWf(c, Acked(c, m));
        if removed {
          Refill();
        } else {
          assert State().unacked == c.unacked;
        }
      }
    }

    method ForgetOne(m: Message) returns (removed: bool)
      requires m.Ack? && m.seqNum != 0
      modifies this`unacked
      ensures State() == Forget(old(State()), Acked(old(State()), m))
      ensures removed <==> Acked(old(State()), m) != {}
    {
      ghost var acked := Acked(State(), m);
      removed := m.seqNum in unacked;
      assert acked == if removed then {m.seqNum} else {};
      if removed {
        unacked := unacked - {m.seqNum};
      } else {
        assert unacked - acked == unacked;
      }
    }

    /** The deletion loop of a cumulative acknowledgement. */
    method ForgetUpTo(m: Message) returns (removed: bool)
      requires State().Wf() && m.CAck? && m.seqNum != 0
      modifies this`unacked
      ensures State() == Forget(old(State()), Acked(old(State()), m))
      ensures removed <==> Acked(old(State()), m) != {}
    {
      ghost var c := State();
      removed := false;
      var least := LowerEdgeOfCAck();
      var i := least;
      while i <= m.seqNum
        invariant least <= i
        invariant unacked == c.unacked - Below(c, i)
        invariant removed <==> Below(c, i) != {}
        invariant i > m.seqNum ==> Below(c, i) == Acked(c, m)
        decreases m.seqNum - i
      {
        BelowStep(c, i);
        if i in unacked {
          removed := true;
          unacked := unacked - {i};
        }
        i := i + 1;
      }
    }

    method LowerEdgeOfCAck() returns (least: int)
      requires State().Wf()
      ensures least == MinPending(State())
    {
      least := nextSeq - |queue|;
      var todo := unacked.Keys;
      ghost var done: set<nat> := {};
      while todo != {}
        invariant done + todo == unacked.Keys
        invariant IsLeast(least, State().Front(), done)
        invariant 0 < least
        decreases todo
      {
        var seqNum :| seqNum in todo;
        todo, done := todo - {seqNum}, done + {seqNum};
        if seqNum < least {
          least := seqNum;
        } else if least == 0 {
          least := seqNum;
        }
      }
      LeastUnique(least, State().Front(), unacked.Keys);
    }

    method OnMessage(m: Message)
      requires State().Wf()
      modifies this
      ensures State() == LspEndpoint.OnMessage(old(State()), m)
      ensures outbox == old(outbox) + OnMessageMsgs(old(State()), m)
    {
      match m
      case Connect(_) =>
        heardData := true;
      case Data(_, _, _, _, _) =>
        OnData(m);
        heardData := true;
      case Ack(_, _) =>
        OnAck(m);
      case CAck(_, _) =>
        OnAck(m);
    }

    /** The retransmission schedule of one outstanding message moves on by one epoch. */
    method Age(seqNum: nat)
      requires seqNum in unacked && seqNum in countdown && seqNum in backoff
      modifies this`countdown, this`backoff, this`outbox
      ensures countdown == old(countdown)[seqNum := NextCountdown(old(State()), seqNum)]
      ensures backoff == old(backoff)[seqNum := NextBackoff(old(State()), seqNum)]
      ensures outbox == old(outbox) +
                        if old(countdown)[seqNum] == 0 then [DataMsg(connID, seqNum, unacked[seqNum])] else []
    {
      if countdown[seqNum] == 0 {
        Transmit(seqNum, unacked[seqNum]);
        countdown := countdown[seqNum := backoff[seqNum]];
        var interval := backoff[seqNum] + backoff[seqNum];
        if interval > params.maxBackoff {
          interval := params.maxBackoff;
        }
        backoff := backoff[seqNum := interval];
      } else {
        countdown := countdown[seqNum := countdown[seqNum] - 1];
        assert backoff == backoff[seqNum := backoff[seqNum]];
      }
    }

    /** One turn of the retransmission loop over the state `c`, whose numbers in `done` have had theirs. */
    method AgeNext(seqNum: nat, ghost c: Conn, ghost done: set<nat>, ghost resent: seq<Message>, ghost start: seq<Message>)
      returns (ghost resent': seq<Message>)
      requires c.Scheduled() && done <= c.unacked.Keys && seqNum in c.unacked && seqNum !in done
      requires c.unacked == unacked && c.connID == connID && c.params == params
      requires Aged(c, done, countdown, backoff) && Lists(c, done, resent) && outbox == start + resent
      modifies this`countdown, this`backoff, this`outbox
      ensures Aged(c, done + {seqNum}, countdown, backoff) && Lists(c, done + {seqNum}, resent')
      ensures outbox == start + resent'
    {
      ghost var more := AgeTurn(c, done, countdown, backoff, resent, start, seqNum);
      Age(seqNum);
      resent' := resent + more;
    }

    /** Ages every outstanding message of the state `c`, which is the present one. */
    method AgeAll(ghost c: Conn) returns (ghost resent: seq<Message>)
      requires c == State() && c.Scheduled()
      modifies this`countdown, this`backoff, this`outbox
      ensures outbox == old(outbox) + resent
      ensures Aged(c, c.unacked.Keys, countdown, backoff)
      ensures Lists(c, c.unacked.Keys, resent)
    {
      resent := [];
      var todo := unacked.Keys;
      ghost var done: set<nat> := {};
      while todo != {}
        invariant done == c.unacked.Keys - todo && todo <= c.unacked.Keys
        invariant Aged(c, done, countdown, backoff)
        invariant outbox == old(outbox) + resent
        invariant Lists(c, done, resent)
        decreases todo
      {
        var seqNum :| seqNum in todo;
        resent := AgeNext(seqNum, c, done, resent, old(outbox));
        MoveOne(c.unacked.Keys, todo, seqNum);
        todo, done := todo - {seqNum}, done + {seqNum};
      }
      assert done == c.unacked.Keys;
    }

    /** The retransmission half of an epoch. */
    method Resend(ghost c: Conn) returns (live: bool, ghost resent: seq<Message>)
      requires c == State() && c.Scheduled()
      modifies this`epoch, this`countdown, this`backoff, this`outbox
      ensures live == Resends(c) && State() == LspEndpoint.Tick(c).(heardData := c.heardData)
      ensures outbox == old(outbox) + resent
      ensures Elements(resent) == LspEndpoint.Resent(c) && |resent| == |LspEndpoint.Resent(c)|
    {
      epoch := epoch + 1;
      live := connID > 0 && !(epoch - lastHeard >= params.epochLimit);
      ghost var d := State();
      resent := [];
      if live {
        resent := AgeAll(d);
        AgedAll(c, d, countdown, backoff, resent);
      }
    }

    method Remind(live: bool)
      modifies this`outbox, this`heardData
      ensures !heardData
      ensures outbox == old(outbox) + ReminderMsgs(connID, isn, live, old(heardData))
    {
      if live && !heardData {
        outbox := outbox + [Ack(connID, 0)];
      }
      if connID == 0 {
        outbox := outbox + [Connect(isn)];
      }
      heardData := false;
    }

    /** One epoch: every due message is resent once, in no particular order, before the reminders. */
    method Tick() returns (ghost resent: seq<Message>)
      requires State().Scheduled()
      modifies this`epoch, this`countdown, this`backoff, this`outbox, this`heardData
      ensures State() == LspEndpoint.Tick(old(State()))
      ensures outbox == old(outbox) + resent + Reminders(old(State()))
      ensures Elements(resent) == Resent(old(State())) && |resent| == |Resent(old(State()))|
    {
      var live;
      live, resent := Resend(State());
      Remind(live);
    }
  }
}
