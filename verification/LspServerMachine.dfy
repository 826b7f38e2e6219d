/**
 The server as an object: tables updated in place by the loops of the implementation.
 */
module LspServerMachine {
  import opened LspEndpoint
  import opened LspServer
  import Loop = LspServerRun

  class Server {
    const params: Params
    var nextID: nat
    var conns: map<nat, Peer>
    var ids: map<string, nat>
    var results: seq<Result>
    var closing: bool
    var sawLost: bool
    var reading: bool

    function State(): Serv
      reads this
    {
      Serv(params, nextID, conns, ids, results, closing, sawLost, reading)
    }

    constructor (params: Params)
      ensures this.params == params && Ok(State()) && nextID == 1 && conns == map[] && ids == map[]
      ensures results == [] && !closing && !sawLost && !reading
    {
      this.params := params;
      nextID, conns, ids, results := 1, map[], map[], [];
      closing, sawLost, reading := false, false, false;
    }

    method OnPacket(addr: string, m: Message)
      requires Ok(State())
      modifies this
      ensures State() == LspServer.OnPacket(old(State()), addr, m)
    {
      if addr in ids {
        var id := ids[addr];
        var c := conns[id].conn;
        conns := conns[id := conns[id].(conn := OnMessage(c.(lastHeard := c.epoch), m))];
      } else {
        if closing {
          return;
        }
        if m.Connect? && m.seqNum >= 0 {
          conns := conns[nextID := Peer(Fresh(params, nextID, m.seqNum), addr, false, false)];
          ids := ids[addr := nextID];
          nextID := nextID + 1;
        }
      }
    }

    method Write(id: nat, payload: Payload) returns (ok: bool)
      requires Ok(State())
      modifies this`conns
      ensures State() == OnWrite(old(State()), id, payload)
      ensures ok == Writable(old(State()), id)
    {
      if closing || id !in conns || conns[id].conn.Lost() || conns[id].closing {
        return false;
      }
      var p := conns[id];
      p := p.(conn := Refill(Enqueue(p.conn, payload)));
      conns := conns[id := p];
      ok := true;
    }

    /** The answers sent to the caller: for a lost connection there would be two. */
    method CloseConn(id: nat) returns (answers: seq<bool>)
      modifies this`conns
      ensures State() == OnCloseConn(old(State()), id)
      ensures answers == if id !in old(conns) || old(conns)[id].closing then [false]
                         else if old(conns)[id].conn.Lost() then [false, true] else [true]
    {
      if id !in conns || conns[id].closing {
        return [false];
      }
      answers := if conns[id].conn.Lost() then [false] else [];
      conns := conns[id := conns[id].(closing := true)];
      answers := answers + [true];
    }

    method Close()
      modifies this`closing, this`conns
      ensures closing && conns == EachClosing(old(State()))
    {
      ghost var s := State();
      closing := true;
      var todo := conns.Keys;
      while todo != {}
        invariant closing && todo <= s.conns.Keys && MarkedBut(s, conns, todo)
        decreases todo
      {
        var id :| id in todo;
        MarkTurn(s, conns, todo, id);
        conns := conns[id := conns[id].(closing := true)];
        todo := todo - {id};
      }
      MarkedAll(s, conns);
    }

    method Tick()
      requires AllScheduled(conns)
      modifies this`conns
      ensures conns == EachTicked(old(conns))
    {
      ghost var before := conns;
      var todo := conns.Keys;
      while todo != {}
        invariant todo <= before.Keys && TickedBut(before, conns, todo)
        decreases todo
      {
        var id :| id in todo;
        TickTurn(before, conns, todo, id);
        conns := conns[id := TickPeer(conns[id])];
        todo := todo - {id};
      }
      TickedAll(before, conns);
    }

    /** The inner loop that empties one inbox. */
    method DrainInbox(id: nat)
      requires id in conns
      modifies this`conns, this`results
      ensures State() == DrainOne(old(State()), id)
    {
      ghost var inbox := conns[id].conn.inbox;
      ghost var n := 0;
      while conns[id].conn.inbox != []
        invariant 0 <= n <= |inbox| && id in conns
        invariant conns == old(conns)[id := old(conns)[id].(conn := old(conns)[id].conn.(inbox := inbox[n..]))]
        invariant results == old(results) + Items(id, inbox[..n])
        decreases |inbox| - n
      {
        var p := conns[id];
        results := results + [Item(id, p.conn.inbox[0])];
        conns := conns[id := p.(conn := p.conn.(inbox := p.conn.inbox[1..]))];
        ItemsStep(id, inbox, n);
        n := n + 1;
      }
      assert inbox[..n] == inbox;
    }

    lemma ItemsStep(id: nat, inbox: seq<Payload>, n: nat)
      requires n < |inbox|
      ensures Items(id, inbox[..n + 1]) == Items(id, inbox[..n]) + [Item(id, inbox[n])]
      ensures inbox[n..][1..] == inbox[n + 1..] && inbox[n..][0] == inbox[n]
    {
    }

    method DrainInboxes(ghost s: Serv)
      requires s == State()
      modifies this`conns, this`results
      ensures Drained(s, State())
    {
      var todo := conns.Keys;
      ghost var done: set<nat> := {};
      while todo != {}
        invariant todo <= s.conns.Keys && done == s.conns.Keys - todo
        invariant DrainedSome(s, State(), done)
        decreases todo
      {
        var id :| id in todo;
        DrainTurn(s, State(), done, id);
        DrainInbox(id);
        MoveOne(s.conns.Keys, todo, id);
        todo, done := todo - {id}, done + {id};
      }
    }

    /** One turn of the sweep: report a loss once, remember it for Close, and drop the connection. */
    method SweepConn(id: nat)
      requires id in conns
      modifies this`conns, this`ids, this`results, this`sawLost
      ensures State() == SweepOne(old(State()), id)
    {
      var p := conns[id];
      if !p.reported && p.conn.Lost() {
        p := p.(reported := true);
        results := results + [Failed(id)];
      }
      if p.conn.Lost() && closing {
        sawLost := true;
      }
      if (p.closing && p.conn.AllAcked()) || p.conn.Lost() {
        conns := conns - {id};
        ids := ids - {p.addr};
      }
    }

    method Sweep(ghost s: Serv)
      requires s == State() && TablesMatch(s)
      modifies this`conns, this`ids, this`results, this`sawLost
      ensures Swept(s, State())
    {
      var todo := conns.Keys;
      ghost var done: set<nat> := {};
      while todo != {}
        invariant todo <= s.conns.Keys && done == s.conns.Keys - todo
        invariant SweptSome(s, State(), done)
        decreases todo
      {
        var id :| id in todo;
        SweepTurn(s, State(), done, id);
        SweepConn(id);
        MoveOne(s.conns.Keys, todo, id);
        todo, done := todo - {id}, done + {id};
      }
      assert done == s.conns.Keys;
      SweptAll(s, State());
    }

    /** Answers Close once the last connection is gone: nil unless one was lost meanwhile. */
    method Finish() returns (done: bool, ok: bool)
      modifies this`results
      ensures State() == LspServer.Finish(old(State()))
      ensures done == Finishes(old(State())) && ok == !sawLost
    {
      ok := !sawLost;
      if !closing || conns != map[] {
        return false, ok;
      }
      results := results + [Failed(0)];
      done := true;
    }

    method HandOver() returns (handed: seq<Result>)
      modifies this`results, this`reading
      ensures State() == LspServer.HandOver(old(State())) && handed == Handed(old(State()))
    {
      handed := [];
      if !reading || |results| == 0 {
        return;
      }
      handed := [results[0]];
      results := results[1..];
      reading := false;
    }

    /** Remembers the reader and answers it at once if there is something to read. */
    method Read() returns (handed: seq<Result>)
      modifies this`results, this`reading
      ensures State() == OnRead(old(State()))
      ensures handed == if old(closing) then [] else Handed(old(State()).(reading := true))
    {
      if closing {
        return [];
      }
      reading := true;
      handed := HandOver();
    }

    /** The event of one turn. */
    method Handle(e: Input) returns (handed: seq<Result>)
      requires Ok(State())
      modifies this
      ensures State() == OnEvent(old(State()), e) && handed == Loop.HandedOn(old(State()), e)
    {
      handed := [];
      match e
      case Packet(addr, m) =>
        if Admit(m).Some? {
          OnPacket(addr, Admit(m).value);
        }
      case WriteCall(id, p) => var _ := Write(id, p);
      case ReadCall => handed := Read();
      case CloseConnCall(id) => var _ := CloseConn(id);
      case CloseCall => Close();
      case EpochTick =>
        OkScheduled(State());
        Tick();
    }

    /** One turn of the loop: the event, the draining, the sweep, the answer to Close, and the waiting Read. */
    method Turn(e: Input, ghost h: Loop.Hist)
      returns (handed: seq<Result>, done: bool, ok: bool, ghost t: Loop.Turn, ghost h': Loop.Hist)
      requires Loop.Inv(State(), h) && h.outcome == None && (e.CloseCall? ==> !closing)
      modifies this
      ensures Loop.LoopStep(old(State()), h, t, State(), h') && Loop.Between(State(), h')
      ensures h'.handed == h.handed + handed && h'.outcome == if done then Some(ok) else None
    {
      ghost var s := State();
      var first := Handle(e);
      ghost var s1 := State();
      Loop.EventKeeps(s, h, e);
      DrainInboxes(s1);
      ghost var s2 := State();
      Loop.DrainedOk(s1, s2);
      Sweep(s2);
      ghost var s3 := State();
      done, ok := Finish();
      var second := HandOver();
      handed := first + second;
      t := Loop.Turn(e, s1, s2, s3);
      h' := Loop.AfterAnswers(Loop.AfterSweep(Loop.AfterEvent(s, h, e, s1), s2, s3), s3);
      Loop.TurnKeeps(s, h, t, State(), h');
      AssocSeq(h.handed, first, second);
    }
  }
}
