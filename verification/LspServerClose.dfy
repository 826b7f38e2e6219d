/**
 What the callers of the server may rely on: who is told what, and how soon. Between two turns of the loop no
 Read waits beside a result, no finished connection is left in the table and no finished Close is unanswered;
 a connection takes no writes after CloseConn or Close, and leaves once everything is acknowledged or it is lost.
 */
module LspServerClose {
  import opened LspEndpoint
  import opened LspServer
  import opened LspServerRun

  // ----- which connections have been closed -----

  /** The call closes the connection. */
  predicate Closes(e: Input, id: nat) {
    e == CloseConnCall(id) || e.CloseCall?
  }

  ghost predicate ClosedAt(run: seq<(Serv, Hist)>, turns: seq<Turn>, k: nat, id: nat) {
    k < |turns| && k < |run| && id in run[k].0.conns && Closes(turns[k].e, id)
  }

  /** Before state `i`, somebody called CloseConn for this connection or Close while it was in the table. */
  ghost predicate WasClosed(run: seq<(Serv, Hist)>, turns: seq<Turn>, i: nat, id: nat) {
    exists k: nat :: k < i && ClosedAt(run, turns, k, id)
  }

  ghost predicate ShutDown(turns: seq<Turn>, i: nat) {
    exists k: nat :: k < i && CloseAt(turns, k)
  }

  ghost predicate CloseAt(turns: seq<Turn>, k: nat) {
    k < |turns| && turns[k].e.CloseCall?
  }

  // ----- one turn -----

  /** The flag of connection `id`, which is an old one or the next new one. */
  ghost predicate FlagSet(s: Serv, t: Serv, id: nat, closes: bool) {
    id in t.conns ==>
      && (t.conns[id].closing <==> id in s.conns && (s.conns[id].closing || closes))
      && (id !in s.conns ==> id == s.nextID)
  }

  lemma WithConnFlags(s: Serv, i: nat, c: Conn, id: nat)
    requires i in s.conns
    ensures FlagSet(s, WithConn(s, i, c), id, false)
  {
  }

  lemma AcceptFlags(s: Serv, addr: string, isn: nat, id: nat)
    requires Ok(s)
    ensures FlagSet(s, Accept(s, addr, isn), id, false)
  {
  }

  lemma PacketFlags(s: Serv, addr: string, m: Message, id: nat)
    requires Ok(s)
    ensures FlagSet(s, OnPacket(s, addr, m), id, false)
  {
    if addr in s.ids {
      var c := s.conns[s.ids[addr]].conn;
      WithConnFlags(s, s.ids[addr], OnMessage(c.(lastHeard := c.epoch), m), id);
    } else if m.Connect? && m.seqNum >= 0 {
      AcceptFlags(s, addr, m.seqNum, id);
    }
  }

  lemma TickFlags(s: Serv, id: nat)
    requires AllScheduled(s.conns)
    ensures FlagSet(s, OnTick(s), id, false)
  {
  }

  lemma WriteFlags(s: Serv, i: nat, p: Payload, id: nat)
    requires Ok(s)
    ensures FlagSet(s, OnWrite(s, i, p), id, false)
  {
    if Writable(s, i) {
      assert Live(s.conns[i]);
      WithConnFlags(s, i, Refill(Enqueue(s.conns[i].conn, p)), id);
    }
  }

  lemma CloseFlags(s: Serv, i: nat, id: nat)
    ensures FlagSet(s, OnCloseConn(s, i), id, i == id)
    ensures FlagSet(s, OnClose(s), id, true) && FlagSet(s, OnRead(s), id, false)
  {
  }

  lemma EventFlags(s: Serv, e: Input, id: nat)
    requires Ok(s)
    ensures FlagSet(s, OnEvent(s, e), id, Closes(e, id))
  {
    match e
    case Packet(addr, m) =>
      if Admit(m).Some? {
        PacketFlags(s, addr, Admit(m).value, id);
      }
    case WriteCall(i, p) => WriteFlags(s, i, p, id);
    case CloseConnCall(i) => CloseFlags(s, i, id);
    case EpochTick =>
      OkScheduled(s);
      TickFlags(s, id);
    case _ => CloseFlags(s, 0, id);
  }

  lemma EventShutsDown(s: Serv, e: Input)
    requires Ok(s)
    ensures OnEvent(s, e).closing <==> s.closing || e.CloseCall?
  {
    match e
    case EpochTick => OkScheduled(s);
    case _ =>
  }

  /** What draining, sweeping and answering leave of a connection. */
  lemma RestFlags(s1: Serv, t: Turn, s': Serv, id: nat)
    requires Drained(s1, t.s2) && Swept(t.s2, t.s3) && s' == HandOver(Finish(t.s3)) && id in s'.conns
    ensures id in s1.conns && s'.conns[id].closing == s1.conns[id].closing
    ensures !s'.conns[id].Goes()
  {
    assert s'.conns == t.s3.conns && id in t.s2.conns.Keys;
  }

  lemma TurnFlags(s: Serv, h: Hist, t: Turn, s': Serv, h': Hist, id: nat)
    requires Ok(s) && LoopStep(s, h, t, s', h') && id in s'.conns
    ensures s'.conns[id].closing <==> id in s.conns && (s.conns[id].closing || Closes(t.e, id))
    ensures id !in s.conns ==> id == s.nextID
    ensures !s'.conns[id].conn.Lost() && !(s'.conns[id].closing && s'.conns[id].conn.AllAcked())
  {
    RestFlags(t.s1, t, s', id);
    EventFlags(s, t.e, id);
  }

  lemma TurnServer(s: Serv, h: Hist, t: Turn, s': Serv, h': Hist)
    requires Ok(s) && LoopStep(s, h, t, s', h')
    ensures s'.closing <==> s.closing || t.e.CloseCall?
    ensures !(s'.reading && s'.results != [])
    ensures h'.outcome.Some? <==> s'.closing && s'.conns == map[]
  {
    EventShutsDown(s, t.e);
  }

  /** A connection that goes in this turn is lost, or closed with everything acknowledged. */
  lemma TurnGone(s: Serv, h: Hist, t: Turn, s': Serv, h': Hist, id: nat)
    requires Ok(s) && LoopStep(s, h, t, s', h') && id in h'.gone && id !in h.gone
    ensures id in t.s1.conns && (h'.gone[id].Lost() || (t.s1.conns[id].closing && h'.gone[id].AllAcked()))
    ensures t.s1 == OnEvent(s, t.e)
  {
    assert id in t.s2.conns.Keys;
    assert t.s2.conns[id].Goes();
  }

  // ----- runs -----

  /** The bookkeeping that a turn keeps. */
  ghost predicate Promises(run: seq<(Serv, Hist)>, turns: seq<Turn>, i: nat)
    requires i < |run|
  {
    var s, h := run[i].0, run[i].1;
    && (s.closing <==> ShutDown(turns, i))
    && !(s.reading && s.results != [])
    && (h.outcome.Some? <==> s.closing && s.conns == map[])
    && (forall id :: id in s.conns ==>
          && (s.conns[id].closing <==> WasClosed(run, turns, i, id))
          && !s.conns[id].conn.Lost() && !(s.conns[id].closing && s.conns[id].conn.AllAcked()))
    && (forall id :: id in h.gone ==> h.gone[id].Lost() || (h.gone[id].AllAcked() && WasClosed(run, turns, i, id)))
  }

  lemma WasClosedNext(run: seq<(Serv, Hist)>, turns: seq<Turn>, i: nat, id: nat)
    requires i < |turns| && i < |run|
    ensures WasClosed(run, turns, i + 1, id) <==> WasClosed(run, turns, i, id) || ClosedAt(run, turns, i, id)
  {
    if ClosedAt(run, turns, i, id) {
      assert i < i + 1;
    }
  }

  lemma ShutDownNext(turns: seq<Turn>, i: nat)
    requires i < |turns|
    ensures ShutDown(turns, i + 1) <==> ShutDown(turns, i) || turns[i].e.CloseCall?
  {
    if turns[i].e.CloseCall? {
      assert CloseAt(turns, i);
    }
  }

  lemma LogKeysGrow(s: Serv, h: Hist, t: Turn, s': Serv, h': Hist)
    requires Ok(s) && LoopStep(s, h, t, s', h')
    ensures h.log.Keys <= h'.log.Keys
  {
  }

  /** Every connection that was ever in the table is logged. */
  lemma {:induction false} EverLogged(run: seq<(Serv, Hist)>, turns: seq<Turn>, k: nat, i: nat, id: nat)
    requires LoopRun(run, turns) && k <= i < |run| && id in run[k].0.conns
    ensures id in run[i].1.log
    decreases i
  {
    if k == i {
      LoopInv(run, turns, i);
      assert id in run[i].0.conns.Keys;
    } else {
      var j := i - 1;
      EverLogged(run, turns, k, j, id);
      LoopInv(run, turns, j);
      assert TurnAt(run, turns, j);
      LogKeysGrow(run[j].0, run[j].1, turns[j], run[i].0, run[i].1);
      assert id in run[j].1.log.Keys;
    }
  }

  /** A new connection has not been closed: its id was never in the table. */
  lemma NewNotClosed(run: seq<(Serv, Hist)>, turns: seq<Turn>, i: nat)
    requires LoopRun(run, turns) && i < |run|
    ensures !WasClosed(run, turns, i, run[i].0.nextID) && run[i].0.nextID !in run[i].0.conns
  {
    LoopInv(run, turns, i);
    var id := run[i].0.nextID;
    if WasClosed(run, turns, i, id) {
      var k: nat :| k < i && ClosedAt(run, turns, k, id);
      EverLogged(run, turns, k, i, id);
    }
  }

  lemma ConnPromise(run: seq<(Serv, Hist)>, turns: seq<Turn>, i: nat, id: nat)
    requires LoopRun(run, turns) && i < |turns| && Promises(run, turns, i) && id in run[i + 1].0.conns
    ensures var p := run[i + 1].0.conns[id];
            && (p.closing <==> WasClosed(run, turns, i + 1, id))
            && !p.conn.Lost() && !(p.closing && p.conn.AllAcked())
  {
    LoopInv(run, turns, i);
    assert TurnAt(run, turns, i);
    TurnFlags(run[i].0, run[i].1, turns[i], run[i + 1].0, run[i + 1].1, id);
    WasClosedNext(run, turns, i, id);
    if id !in run[i].0.conns {
      NewNotClosed(run, turns, i);
    }
  }

  lemma GonePromise(run: seq<(Serv, Hist)>, turns: seq<Turn>, i: nat, id: nat)
    requires LoopRun(run, turns) && i < |turns| && Promises(run, turns, i) && id in run[i + 1].1.gone
    ensures run[i + 1].1.gone[id].Lost() || (run[i + 1].1.gone[id].AllAcked() && WasClosed(run, turns, i + 1, id))
  {
    LoopInv(run, turns, i);
    assert TurnAt(run, turns, i);
    WasClosedNext(run, turns, i, id);
    if id in run[i].1.gone {
      GoneStays(run[i].0, run[i].1, turns[i], run[i + 1].0, run[i + 1].1, id);
    } else {
      TurnGone(run[i].0, run[i].1, turns[i], run[i + 1].0, run[i + 1].1, id);
      EventFlags(run[i].0, turns[i].e, id);
    }
  }

  lemma SweepKeeps(h: Hist, s2: Serv, s3: Serv, id: nat)
    requires id in h.gone && id !in s2.conns
    ensures id in AfterSweep(h, s2, s3).gone && AfterSweep(h, s2, s3).gone[id] == h.gone[id]
  {
  }

  lemma NotInTable(s: Serv, h: Hist, e: Input, s2: Serv, id: nat)
    requires Inv(s, h) && Drained(OnEvent(s, e), s2) && id in h.gone
    ensures id !in s2.conns
  {
    EventFlags(s, e, id);
    assert id in h.gone.Keys && id !in s.conns.Keys && id in h.log.Keys;
    assert id in s2.conns ==> id in s2.conns.Keys;
  }

  lemma GoneStays(s: Serv, h: Hist, t: Turn, s': Serv, h': Hist, id: nat)
    requires Inv(s, h) && LoopStep(s, h, t, s', h') && id in h.gone
    ensures id in h'.gone && h'.gone[id] == h.gone[id]
  {
    NotInTable(s, h, t.e, t.s2, id);
    SweepKeeps(AfterEvent(s, h, t.e, t.s1), t.s2, t.s3, id);
  }

  lemma {:induction false} PromisesKept(run: seq<(Serv, Hist)>, turns: seq<Turn>, i: nat)
    requires LoopRun(run, turns) && i < |run|
    ensures Promises(run, turns, i)
  {
    if i > 0 {
      var k := i - 1;
      PromisesKept(run, turns, k);
      LoopInv(run, turns, k);
      assert TurnAt(run, turns, k);
      TurnServer(run[k].0, run[k].1, turns[k], run[i].0, run[i].1);
      ShutDownNext(turns, k);
      forall id | id in run[i].0.conns
        ensures && (run[i].0.conns[id].closing <==> WasClosed(run, turns, i, id))
                && !run[i].0.conns[id].conn.Lost()
                && !(run[i].0.conns[id].closing && run[i].0.conns[id].conn.AllAcked())
      {
        ConnPromise(run, turns, k, id);
      }
      forall id | id in run[i].1.gone
        ensures run[i].1.gone[id].Lost() || (run[i].1.gone[id].AllAcked() && WasClosed(run, turns, i, id))
      {
        GonePromise(run, turns, k, id);
      }
    }
  }

  // ----- writing -----

  lemma WriteEffect(s: Serv, id: nat, p: Payload)
    requires Ok(s)
    ensures var t := OnWrite(s, id, p);
            if Writable(s, id)
            then && id in t.conns && t == s.(conns := s.conns[id := t.conns[id]])
                 && t.conns[id].conn.nextSeq == s.conns[id].conn.nextSeq + 1
            else t == s
  {
  }

  /**
   A write to a connection in the table gets through, as the next message, if and only if neither CloseConn for
   it nor Close has been called before. Any other write changes nothing.
   */
  lemma WriteTheorem(run: seq<(Serv, Hist)>, turns: seq<Turn>, i: nat, id: nat, p: Payload)
    requires LoopRun(run, turns) && i < |turns| && turns[i].e == WriteCall(id, p)
    ensures var s, s1 := run[i].0, turns[i].s1;
            if id in s.conns && !WasClosed(run, turns, i, id) && !ShutDown(turns, i)
            then && id in s1.conns && s1 == s.(conns := s.conns[id := s1.conns[id]])
                 && s1.conns[id].conn.nextSeq == s.conns[id].conn.nextSeq + 1
            else s1 == s
  {
    PromisesKept(run, turns, i);
    LoopInv(run, turns, i);
    assert TurnAt(run, turns, i);
    WriteEffect(run[i].0, id, p);
  }

  // ----- the news that the server is closed -----

  lemma NoNewZero(s: Serv, t: Turn)
    requires Ok(s) && t.s1 == OnEvent(s, t.e) && Drained(t.s1, t.s2) && Swept(t.s2, t.s3) && Ok(t.s1)
    ensures For(t.s3.results, 0) == For(t.s1.results, 0)
  {
    assert 0 !in t.s1.conns;
    assert 0 in t.s2.conns ==> 0 in t.s2.conns.Keys;
    assert For(t.s1.results, 0) + [] == For(t.s1.results, 0);
    assert For(t.s2.results, 0) + [] == For(t.s2.results, 0);
  }

  lemma AnswersZero(s: Serv, handed: seq<Result>)
    ensures For((handed + Handed(Finish(s))) + HandOver(Finish(s)).results, 0) ==
            For(handed + s.results, 0) + if Finishes(s) then [Failed(0)] else []
  {
    var f := Finish(s);
    HandOverSplits(f);
    AssocSeq(handed, Handed(f), HandOver(f).results);
    if Finishes(s) {
      assert handed + (s.results + [Failed(0)]) == (handed + s.results) + [Failed(0)];
      ForAppend(handed + s.results, Failed(0), 0);
    } else {
      assert For(handed + s.results, 0) + [] == For(handed + s.results, 0);
    }
  }

  lemma TurnZero(s: Serv, h: Hist, t: Turn, s': Serv, h': Hist)
    requires Inv(s, h) && LoopStep(s, h, t, s', h')
    ensures For(h'.handed + s'.results, 0) ==
            For(h.handed + s.results, 0) + if h'.outcome.Some? then [Failed(0)] else []
  {
    EventResults(s, t.e);
    OnEventOk(s, t.e);
    NoNewZero(s, t);
    var handed := h.handed + HandedOn(s, t.e);
    AssocSeq(h.handed, HandedOn(s, t.e), t.s1.results);
    ForConcat(handed, t.s1.results, 0);
    ForConcat(handed, t.s3.results, 0);
    AnswersZero(t.s3, handed);
  }

  /** Reads are told that the server is closed exactly once, and not before Close is answered. */
  lemma {:induction false} ClosedNews(run: seq<(Serv, Hist)>, turns: seq<Turn>, i: nat)
    requires LoopRun(run, turns) && i < |run|
    ensures For(run[i].1.handed + run[i].0.results, 0) == if run[i].1.outcome.Some? then [Failed(0)] else []
  {
    if i > 0 {
      var k := i - 1;
      ClosedNews(run, turns, k);
      LoopInv(run, turns, k);
      assert TurnAt(run, turns, k);
      TurnZero(run[k].0, run[k].1, turns[k], run[i].0, run[i].1);
    }
  }
}
