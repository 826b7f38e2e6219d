/**
 The server's event loop over many connections. After every event it moves delivered payloads to the
 read queue, sweeps out finished and lost connections, and answers a pending Read or Close.
 Loops over the connection table visit it in no particular order, so their effect is a relation.
 */
module LspServer {
  import opened LspEndpoint
  import opened LspWindow

  datatype Peer = Peer(conn: Conn, addr: string, reported: bool, closing: bool)
  {
    /** Swept out: lost, or closed with everything acknowledged. */
    predicate Goes() {
      (closing && conn.AllAcked()) || conn.Lost()
    }
  }

  /** What Read returns: a payload, or the news that a connection (0: the server) is gone. */
  datatype Result = Item(id: nat, payload: Payload) | Failed(id: nat)

  datatype Serv = Serv(
    params: Params,
    nextID: nat,
    conns: map<nat, Peer>,
    ids: map<string, nat>,
    results: seq<Result>,  // waiting for Read
    closing: bool,         // Close has been called
    sawLost: bool,         // a connection was lost after that
    reading: bool)         // a Read is waiting

  // ----- the results of one connection -----

  function For(rs: seq<Result>, id: nat): seq<Result> {
    if rs == [] then []
    else
      var n := |rs| - 1;
      For(rs[..n], id) + if rs[n].id == id then [rs[n]] else []
  }

  function Items(id: nat, payloads: seq<Payload>): (r: seq<Result>)
    ensures |r| == |payloads|
  {
    seq(|payloads|, i requires 0 <= i < |payloads| => Item(id, payloads[i]))
  }

  lemma {:induction false} ForConcat(a: seq<Result>, b: seq<Result>, id: nat)
    ensures For(a + b, id) == For(a, id) + For(b, id)
  {
    if b == [] {
      assert a + b == a;
    } else {
      var n := |b| - 1;
      assert (a + b)[..|a| + n] == a + b[..n];
      ForConcat(a, b[..n], id);
    }
  }

  lemma {:induction false} ForItems(id: nat, payloads: seq<Payload>, other: nat)
    ensures For(Items(id, payloads), other) == if id == other then Items(id, payloads) else []
  {
    if payloads != [] {
      var n := |payloads| - 1;
      assert Items(id, payloads)[..n] == Items(id, payloads[..n]);
      ForItems(id, payloads[..n], other);
    }
  }

  // ----- one event -----

  datatype Input =
    | Packet(addr: string, m: Message)
    | WriteCall(id: nat, payload: Payload)
    | ReadCall
    | CloseConnCall(id: nat)
    | CloseCall
    | EpochTick

  predicate Writable(s: Serv, id: nat) {
    !s.closing && id in s.conns && !s.conns[id].conn.Lost() && !s.conns[id].closing
  }

  function Accept(s: Serv, addr: string, isn: nat): Serv {
    s.(conns := s.conns[s.nextID := Peer(Fresh(s.params, s.nextID, isn), addr, false, false)],
       ids := s.ids[addr := s.nextID],
       nextID := s.nextID + 1)
  }

  function WithConn(s: Serv, id: nat, c: Conn): Serv
    requires id in s.conns
  {
    s.(conns := s.conns[id := s.conns[id].(conn := c)])
  }

  ghost predicate TablesMatch(s: Serv) {
    && (forall addr :: addr in s.ids ==> s.ids[addr] in s.conns && s.conns[s.ids[addr]].addr == addr)
    && (forall id :: id in s.conns ==> s.conns[id].addr in s.ids && s.ids[s.conns[id].addr] == id)
  }

  ghost predicate Live(p: Peer) {
    Sound(p.conn) && p.conn.connID != 0
  }

  ghost predicate Ok(s: Serv) {
    && TablesMatch(s)
    && 1 <= s.nextID
    && (forall id :: id in s.conns ==> 1 <= id < s.nextID)
    && (forall id :: id in s.conns ==> Live(s.conns[id]))
  }

  function OnPacket(s: Serv, addr: string, m: Message): Serv
    requires Ok(s)
  {
    if addr in s.ids then
      var c := s.conns[s.ids[addr]].conn;
      WithConn(s, s.ids[addr], OnMessage(c.(lastHeard := c.epoch), m))
    else if !s.closing && m.Connect? && m.seqNum >= 0 then Accept(s, addr, m.seqNum)
    else s
  }

  function HandOver(s: Serv): Serv {
    if s.reading && s.results != [] then s.(results := s.results[1..], reading := false) else s
  }

  function Handed(s: Serv): seq<Result> {
    if s.reading && s.results != [] then [s.results[0]] else []
  }

  ghost predicate AllScheduled(conns: map<nat, Peer>) {
    forall id :: id in conns ==> conns[id].conn.Scheduled()
  }

  function TickPeer(p: Peer): Peer
    requires p.conn.Scheduled()
  {
    p.(conn := Tick(p.conn))
  }

  /** The table after an epoch, or after Close marked every connection. */
  function EachTicked(conns: map<nat, Peer>): map<nat, Peer>
    requires AllScheduled(conns)
  {
    map id | id in conns :: TickPeer(conns[id])
  }

  function EachClosing(s: Serv): map<nat, Peer> {
    map id | id in s.conns :: s.conns[id].(closing := true)
  }

  lemma OkScheduled(s: Serv)
    requires Ok(s)
    ensures AllScheduled(s.conns)
  {
    forall id | id in s.conns ensures s.conns[id].conn.Scheduled() {
      assert Live(s.conns[id]);
    }
  }

  function OnWrite(s: Serv, id: nat, p: Payload): Serv
    requires Ok(s)
  {
    if Writable(s, id) then WithConn(s, id, Refill(Enqueue(s.conns[id].conn, p))) else s
  }

  function OnRead(s: Serv): Serv {
    if s.closing then s else HandOver(s.(reading := true))
  }

  function OnCloseConn(s: Serv, id: nat): Serv {
    if id in s.conns && !s.conns[id].closing then s.(conns := s.conns[id := s.conns[id].(closing := true)]) else s
  }

  function OnClose(s: Serv): Serv {
    s.(closing := true, conns := EachClosing(s))
  }

  function OnTick(s: Serv): Serv
    requires AllScheduled(s.conns)
  {
    s.(conns := EachTicked(s.conns))
  }

  function OnEvent(s: Serv, e: Input): Serv
    requires Ok(s)
  {
    match e
    case Packet(addr, m) => if Admit(m).Some? then OnPacket(s, addr, Admit(m).value) else s
    case WriteCall(id, p) => OnWrite(s, id, p)
    case ReadCall => OnRead(s)
    case CloseConnCall(id) => OnCloseConn(s, id)
    case CloseCall => OnClose(s)
    case EpochTick => OkScheduled(s); OnTick(s)
  }

  // ----- what follows every event -----

  /** Every inbox has been emptied into the read queue; per connection the order is kept. */
  ghost predicate Drained(s: Serv, t: Serv) {
    && t == s.(conns := t.conns, results := t.results)
    && t.conns.Keys == s.conns.Keys
    && (forall id :: id in s.conns ==> t.conns[id] == s.conns[id].(conn := s.conns[id].conn.(inbox := [])))
    && (forall id: nat :: For(t.results, id) ==
          For(s.results, id) + if id in s.conns then Items(id, s.conns[id].conn.inbox) else [])
  }

  /** Finished and lost connections are gone from both tables; each unreported loss is reported once. */
  ghost predicate Swept(s: Serv, t: Serv) {
    && t == s.(conns := t.conns, ids := t.ids, results := t.results, sawLost := t.sawLost)
    && (forall id :: id in t.conns <==> id in s.conns && !s.conns[id].Goes())
    && (forall id :: id in t.conns ==> t.conns[id] == s.conns[id])
    && (forall addr :: addr in t.ids <==> addr in s.ids && s.ids[addr] in t.conns)
    && (forall addr :: addr in t.ids ==> t.ids[addr] == s.ids[addr])
    && (forall id: nat :: For(t.results, id) ==
          For(s.results, id) + if id in s.conns && s.conns[id].conn.Lost() && !s.conns[id].reported then [Failed(id)] else [])
    && (t.sawLost <==> s.sawLost || (s.closing && exists id :: id in s.conns && s.conns[id].conn.Lost()))
  }

  /** Close is answered when the last connection is gone. */
  predicate Finishes(s: Serv) {
    s.closing && s.conns == map[]
  }

  function Finish(s: Serv): Serv {
    if Finishes(s) then s.(results := s.results + [Failed(0)]) else s
  }

  // ----- steps of the loops -----

  function DrainOne(s: Serv, id: nat): Serv
    requires id in s.conns
  {
    var c := s.conns[id].conn;
    WithConn(s, id, c.(inbox := [])).(results := s.results + Items(id, c.inbox))
  }

  ghost predicate DrainedSome(s: Serv, t: Serv, done: set<nat>) {
    && t == s.(conns := t.conns, results := t.results)
    && t.conns.Keys == s.conns.Keys
    && (forall id :: id in s.conns ==>
          t.conns[id] == if id in done then s.conns[id].(conn := s.conns[id].conn.(inbox := [])) else s.conns[id])
    && (forall id: nat :: For(t.results, id) ==
          For(s.results, id) + if id in s.conns && id in done then Items(id, s.conns[id].conn.inbox) else [])
  }

  lemma DrainTurnResults(s: Serv, t: Serv, done: set<nat>, id: nat, i: nat)
    requires DrainedSome(s, t, done) && id in s.conns && id !in done
    ensures For(DrainOne(t, id).results, i) ==
            For(s.results, i) + if i in s.conns && i in done + {id} then Items(i, s.conns[i].conn.inbox) else []
  {
    ForConcat(t.results, Items(id, s.conns[id].conn.inbox), i);
    ForItems(id, s.conns[id].conn.inbox, i);
    assert i in done + {id} <==> i in done || i == id;
    assert For(t.results, i) == For(s.results, i) + if i in s.conns && i in done then Items(i, s.conns[i].conn.inbox) else [];
  }

  lemma DrainTurn(s: Serv, t: Serv, done: set<nat>, id: nat)
    requires DrainedSome(s, t, done) && id in s.conns && id !in done
    ensures DrainedSome(s, DrainOne(t, id), done + {id})
  {
    forall i: nat {
      DrainTurnResults(s, t, done, id, i);
    }
  }

  function SweepOne(s: Serv, id: nat): Serv
    requires id in s.conns
  {
    var p := s.conns[id];
    var lost := p.conn.Lost();
    s.(results := if lost && !p.reported then s.results + [Failed(id)] else s.results,
       sawLost := s.sawLost || (lost && s.closing),
       conns := if p.Goes() then s.conns - {id} else s.conns,
       ids := if p.Goes() then s.ids - {p.addr} else s.ids)
  }

  ghost predicate LostAmong(s: Serv, done: set<nat>) {
    exists id :: id in done && id in s.conns && s.conns[id].conn.Lost()
  }

  ghost predicate SweptSome(s: Serv, t: Serv, done: set<nat>) {
    && t == s.(conns := t.conns, ids := t.ids, results := t.results, sawLost := t.sawLost)
    && (forall id :: id in t.conns <==> id in s.conns && !(id in done && s.conns[id].Goes()))
    && (forall id :: id in t.conns ==> t.conns[id] == s.conns[id])
    && (forall addr :: addr in t.ids <==> addr in s.ids && s.ids[addr] in t.conns)
    && (forall addr :: addr in t.ids ==> t.ids[addr] == s.ids[addr])
    && (forall id: nat :: For(t.results, id) ==
          For(s.results, id) +
          if id in s.conns && id in done && s.conns[id].conn.Lost() && !s.conns[id].reported then [Failed(id)] else [])
    && (t.sawLost <==> s.sawLost || (s.closing && LostAmong(s, done)))
  }

  lemma ForAppend(rs: seq<Result>, r: Result, id: nat)
    ensures For(rs + [r], id) == For(rs, id) + if r.id == id then [r] else []
  {
    assert (rs + [r])[..|rs|] == rs;
  }

  lemma SweepTurnTables(s: Serv, t: Serv, done: set<nat>, id: nat)
    requires TablesMatch(s) && SweptSome(s, t, done) && id in t.conns && id !in done
    ensures var u := SweepOne(t, id);
            && (forall i :: i in u.conns <==> i in s.conns && !(i in done + {id} && s.conns[i].Goes()))
            && (forall i :: i in u.conns ==> u.conns[i] == s.conns[i])
            && (forall addr :: addr in u.ids <==> addr in s.ids && s.ids[addr] in u.conns)
            && (forall addr :: addr in u.ids ==> u.ids[addr] == s.ids[addr])
  {
    var u := SweepOne(t, id);
    forall addr ensures addr in u.ids <==> addr in s.ids && s.ids[addr] in u.conns {
      assert addr in t.ids <==> addr in s.ids && s.ids[addr] in t.conns;
    }
  }

  /** What the sweep of connection `id` adds to the results of connection `i`. */
  lemma SweepOneResults(t: Serv, id: nat, i: nat)
    requires id in t.conns
    ensures For(SweepOne(t, id).results, i) ==
            For(t.results, i) + if i == id && t.conns[id].conn.Lost() && !t.conns[id].reported then [Failed(i)] else []
  {
    ForAppend(t.results, Failed(id), i);
    assert For(t.results, i) + [] == For(t.results, i);
  }

  lemma SweepTurnResults(s: Serv, t: Serv, done: set<nat>, id: nat, i: nat)
    requires SweptSome(s, t, done) && id in t.conns && id !in done
    ensures For(SweepOne(t, id).results, i) ==
            For(s.results, i) +
            if i in s.conns && i in done + {id} && s.conns[i].conn.Lost() && !s.conns[i].reported then [Failed(i)] else []
  {
    SweepOneResults(t, id, i);
    assert For(t.results, i) == For(s.results, i) +
      if i in s.conns && i in done && s.conns[i].conn.Lost() && !s.conns[i].reported then [Failed(i)] else [];
    if i == id {
      assert For(s.results, i) + [] == For(s.results, i);
    } else {
      assert For(t.results, i) + [] == For(t.results, i);
    }
  }

  lemma SweepTurn(s: Serv, t: Serv, done: set<nat>, id: nat)
    requires TablesMatch(s) && SweptSome(s, t, done) && id in t.conns && id !in done
    ensures SweptSome(s, SweepOne(t, id), done + {id})
  {
    SweepTurnTables(s, t, done, id);
    forall i: nat {
      SweepTurnResults(s, t, done, id, i);
    }
    assert LostAmong(s, done + {id}) <==> LostAmong(s, done) || s.conns[id].conn.Lost();
  }

  lemma SweptAll(s: Serv, t: Serv)
    requires SweptSome(s, t, s.conns.Keys)
    ensures Swept(s, t)
  {
    assert LostAmong(s, s.conns.Keys) <==> exists id :: id in s.conns && s.conns[id].conn.Lost();
  }

  /** An epoch, or the marking by Close, that has reached every connection but those in `todo`. */
  ghost predicate TickedBut(before: map<nat, Peer>, conns: map<nat, Peer>, todo: set<nat>)
    requires AllScheduled(before)
  {
    && conns.Keys == before.Keys
    && (forall id :: id in conns ==> conns[id] == if id in todo then before[id] else TickPeer(before[id]))
  }

  lemma TickTurn(before: map<nat, Peer>, conns: map<nat, Peer>, todo: set<nat>, id: nat)
    requires AllScheduled(before) && TickedBut(before, conns, todo) && id in todo && id in conns
    ensures conns[id] == before[id]
    ensures TickedBut(before, conns[id := TickPeer(before[id])], todo - {id})
  {
  }

  lemma TickedAll(before: map<nat, Peer>, conns: map<nat, Peer>)
    requires AllScheduled(before) && TickedBut(before, conns, {})
    ensures conns == EachTicked(before)
  {
  }

  ghost predicate MarkedBut(s: Serv, conns: map<nat, Peer>, todo: set<nat>) {
    && conns.Keys == s.conns.Keys
    && (forall id :: id in conns ==> conns[id] == if id in todo then s.conns[id] else s.conns[id].(closing := true))
  }

  lemma MarkTurn(s: Serv, conns: map<nat, Peer>, todo: set<nat>, id: nat)
    requires MarkedBut(s, conns, todo) && id in todo && id in conns
    ensures conns[id] == s.conns[id]
    ensures MarkedBut(s, conns[id := s.conns[id].(closing := true)], todo - {id})
  {
  }

  lemma MarkedAll(s: Serv, conns: map<nat, Peer>)
    requires MarkedBut(s, conns, {})
    ensures conns == EachClosing(s)
  {
  }
}
