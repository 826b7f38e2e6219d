/**
 Every run of the server loop, with the history of what was delivered, handed to Read, and removed.
 */
module LspServerRun {
  import opened LspEndpoint
  import opened LspWindow
  import opened LspServer

  datatype Hist = Hist(
    handed: seq<Result>,          // returned by Read, oldest first
    log: map<nat, seq<Payload>>,  // per connection ever accepted: all payloads delivered in order
    gone: map<nat, Conn>,         // connections swept out, as they were at that moment
    openAtClose: set<nat>,        // connections that Close found
    outcome: Option<bool>)        // what Close returned: true for nil

  /** One turn of the loop: the event and the states after the event, the draining and the sweep. */
  datatype Turn = Turn(e: Input, s1: Serv, s2: Serv, s3: Serv)

  function Logged(log: map<nat, seq<Payload>>, id: nat): seq<Payload> {
    if id in log then log[id] else []
  }

  function Inbox(s: Serv, id: nat): seq<Payload> {
    if id in s.conns then s.conns[id].conn.inbox else []
  }

  /** The payloads that an event delivered, added to what each connection had before. */
  function Grown(log: map<nat, seq<Payload>>, s: Serv, s1: Serv): map<nat, seq<Payload>> {
    map id | id in log.Keys + s1.conns.Keys ::
      if id in s1.conns && |Inbox(s, id)| <= |Inbox(s1, id)|
      then Logged(log, id) + Inbox(s1, id)[|Inbox(s, id)|..] else Logged(log, id)
  }

  function HandedOn(s: Serv, e: Input): seq<Result> {
    if e.ReadCall? && !s.closing then Handed(s.(reading := true)) else []
  }

  function AfterEvent(s: Serv, h: Hist, e: Input, s1: Serv): Hist {
    h.(handed := h.handed + HandedOn(s, e),
       log := Grown(h.log, s, s1),
       openAtClose := if e.CloseCall? then s.conns.Keys else h.openAtClose)
  }

  function AfterSweep(h: Hist, s2: Serv, s3: Serv): Hist {
    h.(gone := h.gone + map id | id in s2.conns && id !in s3.conns :: s2.conns[id].conn)
  }

  function AfterAnswers(h: Hist, s3: Serv): Hist {
    h.(outcome := if Finishes(s3) then Some(!s3.sawLost) else h.outcome,
       handed := h.handed + Handed(Finish(s3)))
  }

  ghost predicate LoopStep(s: Serv, h: Hist, t: Turn, s': Serv, h': Hist) {
    && h.outcome == None
    && (t.e.CloseCall? ==> !s.closing)
    && (Ok(s) ==> t.s1 == OnEvent(s, t.e))
    && Drained(t.s1, t.s2)
    && Swept(t.s2, t.s3)
    && s' == HandOver(Finish(t.s3))
    && h' == AfterAnswers(AfterSweep(AfterEvent(s, h, t.e, t.s1), t.s2, t.s3), t.s3)
  }

  // ----- what every turn keeps -----

  ghost predicate Failure(h: Hist, id: nat) {
    id in h.gone && h.gone[id].Lost()
  }

  /** What Read got or will get for `id`: its delivered payloads in order, then one error if it was lost. */
  ghost predicate ReadsInOrder(s: Serv, h: Hist, id: nat) {
    For(h.handed + s.results, id) + Items(id, Inbox(s, id)) ==
    Items(id, Logged(h.log, id)) + if Failure(h, id) then [Failed(id)] else []
  }

  /** Every id ever given out is live or gone, and none is given out twice. */
  ghost predicate Accounts(s: Serv, h: Hist) {
    && h.log.Keys == s.conns.Keys + h.gone.Keys
    && s.conns.Keys !! h.gone.Keys
    && (forall id :: id in h.log ==> 1 <= id < s.nextID)
  }

  ghost predicate SomeLost(open: set<nat>, gone: map<nat, Conn>) {
    exists id :: id in open && id in gone && gone[id].Lost()
  }

  /** Each of `open` that is gone went with everything acknowledged, or because it was lost. */
  ghost predicate GoneForReason(open: set<nat>, gone: map<nat, Conn>) {
    forall id :: id in open && id in gone ==> gone[id].AllAcked() || gone[id].Lost()
  }

  ghost predicate ClosesRight(s: Serv, h: Hist) {
    && (!s.closing ==> !s.sawLost && h.openAtClose == {})
    && (s.closing ==>
          && s.conns.Keys <= h.openAtClose <= s.conns.Keys + h.gone.Keys
          && (forall id :: id in s.conns ==> s.conns[id].closing))
    && (s.sawLost <==> SomeLost(h.openAtClose, h.gone))
    && GoneForReason(h.openAtClose, h.gone)
  }

  ghost predicate Inv(s: Serv, h: Hist) {
    && Ok(s) && Accounts(s, h) && ClosesRight(s, h)
    && (forall id: nat :: id != 0 ==> ReadsInOrder(s, h, id))
    && (forall id :: id in s.conns ==> !s.conns[id].reported)
  }

  ghost predicate Settled(s: Serv) {
    forall id :: id in s.conns ==> s.conns[id].conn.inbox == [] && !s.conns[id].conn.Lost()
  }

  // ----- the event -----

  lemma {:induction false} DrainExtends(c: Conn)
    ensures c.inbox <= Drain(c).inbox
    decreases |c.buffered|
  {
    if c.expected in c.buffered {
      DrainExtends(DeliverOne(c));
    }
  }

  lemma OnMessageExtends(c: Conn, m: Message)
    requires c.Wf()
    ensures c.inbox <= OnMessage(c, m).inbox
  {
    if m.Data? && Accepts(c, m) && c.expected <= m.seqNum {
      DrainExtends(c.(buffered := c.buffered[m.seqNum := m.payload]));
    }
  }

  lemma OnMessageConnID(c: Conn, m: Message)
    requires c.Wf() && c.connID != 0
    ensures OnMessage(c, m).connID == c.connID
  {
    if m.Data? && Accepts(c, m) && c.expected <= m.seqNum {
      DrainIds(c.(buffered := c.buffered[m.seqNum := m.payload]));
    }
  }

  /** The tables stay matched when every connection keeps its id and address. */
  lemma SameAddresses(s: Serv, t: Serv)
    requires TablesMatch(s) && t.ids == s.ids && t.conns.Keys == s.conns.Keys
    requires forall id :: id in s.conns ==> t.conns[id].addr == s.conns[id].addr
    ensures TablesMatch(t)
  {
    forall addr | addr in t.ids ensures t.ids[addr] in t.conns && t.conns[t.ids[addr]].addr == addr {
      assert t.ids[addr] in s.conns.Keys;
    }
    forall id | id in t.conns ensures t.conns[id].addr in t.ids && t.ids[t.conns[id].addr] == id {
      assert id in s.conns.Keys;
    }
  }

  lemma WithConnTables(s: Serv, id: nat, c: Conn)
    requires TablesMatch(s) && id in s.conns
    ensures TablesMatch(WithConn(s, id, c))
  {
    SameAddresses(s, WithConn(s, id, c));
  }

  lemma WithConnOk(s: Serv, id: nat, c: Conn)
    requires Ok(s) && id in s.conns && Sound(c) && c.connID != 0
    ensures Ok(WithConn(s, id, c))
  {
    WithConnTables(s, id, c);
    var t := WithConn(s, id, c);
    forall i | i in t.conns ensures Live(t.conns[i]) {
      if i == id {
        assert Live(t.conns[i]);
      } else {
        assert t.conns[i] == s.conns[i];
      }
    }
  }

  lemma HeardOk(c: Conn, m: Message)
    requires Sound(c) && c.connID != 0
    ensures var d := OnMessage(c.(lastHeard := c.epoch), m); Sound(d) && d.connID != 0
  {
    var d := c.(lastHeard := c.epoch);
    SameSenderSound(c, d);
    OnMessageSound(d, m);
    OnMessageConnID(d, m);
  }

  lemma AcceptTables(s: Serv, addr: string, isn: nat)
    requires TablesMatch(s) && addr !in s.ids && s.nextID !in s.conns
    ensures TablesMatch(Accept(s, addr, isn))
  {
  }

  lemma AcceptOk(s: Serv, addr: string, isn: nat)
    requires Ok(s) && addr !in s.ids
    ensures Ok(Accept(s, addr, isn))
  {
    AcceptTables(s, addr, isn);
    FreshSound(s.params, s.nextID, isn);
    AcceptLive(s.conns, Accept(s, addr, isn).conns, s.nextID, Peer(Fresh(s.params, s.nextID, isn), addr, false, false));
  }

  lemma AcceptLive(conns: map<nat, Peer>, after: map<nat, Peer>, next: nat, p: Peer)
    requires (forall id :: id in conns ==> Live(conns[id]) && 1 <= id < next) && Live(p) && 1 <= next
    requires after == conns[next := p]
    ensures forall id :: id in after ==> Live(after[id]) && 1 <= id < next + 1
  {
  }

  lemma OnPacketOk(s: Serv, addr: string, m: Message)
    requires Ok(s)
    ensures Ok(OnPacket(s, addr, m))
  {
    if addr in s.ids {
      var id := s.ids[addr];
      var c := s.conns[id].conn;
      assert Live(s.conns[id]);
      HeardOk(c, m);
      WithConnOk(s, id, OnMessage(c.(lastHeard := c.epoch), m));
    } else if !s.closing && m.Connect? && m.seqNum >= 0 {
      AcceptOk(s, addr, m.seqNum);
    }
  }

  lemma WriteOk(s: Serv, id: nat, p: Payload)
    requires Ok(s)
    ensures Ok(OnWrite(s, id, p))
  {
    if Writable(s, id) {
      var c := s.conns[id].conn;
      assert Live(s.conns[id]);
      NextSound(c, Write(p));
      WithConnOk(s, id, Refill(Enqueue(c, p)));
    }
  }

  lemma TickedShape(conns: map<nat, Peer>)
    requires AllScheduled(conns)
    ensures EachTicked(conns).Keys == conns.Keys
    ensures forall id :: id in conns ==> EachTicked(conns)[id] == conns[id].(conn := EachTicked(conns)[id].conn)
    ensures forall id :: id in conns ==> EachTicked(conns)[id].conn.inbox == conns[id].conn.inbox
  {
  }

  lemma TickLive(p: Peer)
    requires Live(p)
    ensures p.conn.Scheduled() && Live(TickPeer(p))
  {
    TickSound(p.conn);
  }

  lemma EpochOk(s: Serv)
    requires Ok(s) && AllScheduled(s.conns)
    ensures Ok(OnTick(s))
  {
    var t := OnTick(s);
    TickedShape(s.conns);
    SameAddresses(s, t);
    forall id | id in t.conns ensures Live(t.conns[id]) {
      TickLive(s.conns[id]);
    }
  }

  /** Marking connections as closing touches neither table nor endpoint. */
  lemma MarkOk(s: Serv, t: Serv)
    requires Ok(s) && t.conns.Keys == s.conns.Keys && t.ids == s.ids && t.nextID == s.nextID
    requires forall id :: id in s.conns ==> t.conns[id] == s.conns[id].(closing := t.conns[id].closing)
    ensures Ok(t)
  {
    SameAddresses(s, t);
    forall id | id in t.conns ensures Live(t.conns[id]) {
      assert id in s.conns.Keys;
      assert Live(s.conns[id]);
    }
    forall id | id in t.conns ensures 1 <= id < t.nextID {
      assert id in s.conns.Keys;
    }
  }

  lemma SameTablesOk(s: Serv, t: Serv)
    requires Ok(s) && t.conns == s.conns && t.ids == s.ids && t.nextID == s.nextID
    ensures Ok(t)
  {
    assert TablesMatch(t);
  }

  lemma MarkOne(conns: map<nat, Peer>, id: nat)
    requires id in conns
    ensures var marked := conns[id := conns[id].(closing := true)];
            && marked.Keys == conns.Keys
            && (forall i :: i in conns ==> marked[i] == conns[i].(closing := marked[i].closing))
  {
  }

  lemma CloseConnOk(s: Serv, id: nat)
    requires Ok(s)
    ensures Ok(OnCloseConn(s, id))
  {
    if id in s.conns && !s.conns[id].closing {
      MarkOne(s.conns, id);
      MarkOk(s, s.(conns := s.conns[id := s.conns[id].(closing := true)]));
    }
  }

  lemma CloseOk(s: Serv)
    requires Ok(s)
    ensures Ok(OnClose(s))
  {
    MarkOk(s, OnClose(s));
  }

  lemma ReadOk(s: Serv)
    requires Ok(s)
    ensures Ok(OnRead(s))
  {
    SameTablesOk(s, OnRead(s));
  }

  lemma OnEventOk(s: Serv, e: Input)
    requires Ok(s)
    ensures Ok(OnEvent(s, e))
  {
    match e
    case Packet(addr, m) =>
      if Admit(m).Some? {
        OnPacketOk(s, addr, Admit(m).value);
      }
    case WriteCall(id, p) => WriteOk(s, id, p);
    case ReadCall => ReadOk(s);
    case CloseConnCall(id) => CloseConnOk(s, id);
    case CloseCall => CloseOk(s);
    case EpochTick =>
      OkScheduled(s);
      EpochOk(s);
  }

  /** What an event may do to one connection. */
  predicate PeerEvolves(p: Peer, q: Peer, close: bool) {
    p.conn.inbox <= q.conn.inbox && q.reported == p.reported && (p.closing || close ==> q.closing)
  }

  /** The table keeps its connections, each evolved. */
  ghost predicate TableEvolves(conns: map<nat, Peer>, after: map<nat, Peer>, close: bool) {
    && after.Keys == conns.Keys
    && (forall id :: id in conns ==> PeerEvolves(conns[id], after[id], close))
  }

  /** What an event may do to the server; `close` says whether it is a call of Close. */
  ghost predicate Evolves(s: Serv, close: bool, t: Serv) {
    && (t.closing <==> s.closing || close) && t.sawLost == s.sawLost
    && (|| (TableEvolves(s.conns, t.conns, close) && t.nextID == s.nextID)
        || (&& !s.closing && !close && s.nextID !in s.conns && t.nextID == s.nextID + 1
            && s.nextID in t.conns && t.conns[s.nextID].conn.inbox == [] && !t.conns[s.nextID].reported
            && TableEvolves(s.conns, t.conns - {s.nextID}, close)))
  }

  lemma OnePeerEvolves(conns: map<nat, Peer>, id: nat, q: Peer)
    requires id in conns && PeerEvolves(conns[id], q, false)
    ensures TableEvolves(conns, conns[id := q], false)
  {
  }

  lemma PacketEvolves(s: Serv, addr: string, m: Message)
    requires Ok(s)
    ensures Evolves(s, false, OnPacket(s, addr, m))
  {
    if addr in s.ids {
      var id := s.ids[addr];
      var c := s.conns[id].conn;
      assert Live(s.conns[id]);
      OnMessageExtends(c.(lastHeard := c.epoch), m);
      OnePeerEvolves(s.conns, id, s.conns[id].(conn := OnMessage(c.(lastHeard := c.epoch), m)));
    } else if !s.closing && m.Connect? && m.seqNum >= 0 {
      AcceptEvolves(s, addr, m.seqNum);
    }
  }

  lemma AcceptEvolves(s: Serv, addr: string, isn: nat)
    requires s.nextID !in s.conns && !s.closing
    ensures Evolves(s, false, Accept(s, addr, isn))
  {
    assert Accept(s, addr, isn).conns - {s.nextID} == s.conns;
  }

  /** Nothing evolves into itself unless Close is called. */
  lemma SameEvolves(s: Serv, t: Serv)
    requires t.conns == s.conns && t.nextID == s.nextID && t.closing == s.closing && t.sawLost == s.sawLost
    ensures Evolves(s, false, t)
  {
    assert TableEvolves(s.conns, t.conns, false);
  }

  lemma WriteEvolves(s: Serv, id: nat, p: Payload)
    requires Ok(s)
    ensures Evolves(s, false, OnWrite(s, id, p))
  {
    if Writable(s, id) {
      assert Live(s.conns[id]);
      OnePeerEvolves(s.conns, id, s.conns[id].(conn := Refill(Enqueue(s.conns[id].conn, p))));
    } else {
      SameEvolves(s, s);
    }
  }

  lemma TickedEvolves(conns: map<nat, Peer>)
    requires AllScheduled(conns)
    ensures TableEvolves(conns, EachTicked(conns), false)
  {
    TickedShape(conns);
  }

  lemma CloseConnEvolves(s: Serv, id: nat)
    ensures Evolves(s, false, OnCloseConn(s, id))
  {
    if id in s.conns && !s.conns[id].closing {
      OnePeerEvolves(s.conns, id, s.conns[id].(closing := true));
    } else {
      SameEvolves(s, s);
    }
  }

  lemma CloseEvolves(s: Serv)
    ensures Evolves(s, true, OnClose(s))
  {
    assert TableEvolves(s.conns, EachClosing(s), true);
  }

  lemma EventEvolves(s: Serv, e: Input)
    requires Ok(s)
    ensures Evolves(s, e.CloseCall?, OnEvent(s, e))
  {
    match e
    case Packet(addr, m) =>
      if Admit(m).Some? {
        PacketEvolves(s, addr, Admit(m).value);
      } else {
        SameEvolves(s, s);
      }
    case WriteCall(id, p) => WriteEvolves(s, id, p);
    case ReadCall => SameEvolves(s, OnRead(s));
    case CloseConnCall(id) => CloseConnEvolves(s, id);
    case CloseCall => CloseEvolves(s);
    case EpochTick =>
      OkScheduled(s);
      TickedEvolves(s.conns);
  }

  /** An event moves results only from the read queue to the reader. */
  lemma EventResults(s: Serv, e: Input)
    requires Ok(s)
    ensures HandedOn(s, e) + OnEvent(s, e).results == s.results
  {
    if e.ReadCall? {
      ReadResults(s);
    } else {
      OtherResults(s, e);
      assert [] + s.results == s.results;
    }
  }

  lemma PacketResults(s: Serv, addr: string, m: Message)
    requires Ok(s)
    ensures OnPacket(s, addr, m).results == s.results
  {
  }

  lemma OtherResults(s: Serv, e: Input)
    requires Ok(s) && !e.ReadCall?
    ensures OnEvent(s, e).results == s.results
  {
    if e.Packet? && Admit(e.m).Some? {
      PacketResults(s, e.addr, Admit(e.m).value);
    } else if e.WriteCall? {
      assert OnWrite(s, e.id, e.payload).results == s.results;
    } else if e.EpochTick? {
      OkScheduled(s);
      assert OnTick(s).results == s.results;
    }
  }

  lemma ReadResults(s: Serv)
    ensures HandedOn(s, ReadCall) + OnRead(s).results == s.results
  {
    if !s.closing && s.results != [] {
      assert [s.results[0]] + s.results[1..] == s.results;
    }
  }

  lemma ItemsConcat(id: nat, a: seq<Payload>, b: seq<Payload>)
    ensures Items(id, a + b) == Items(id, a) + Items(id, b)
  {
  }

  /** At most one connection is new, and it gets the next id. */
  ghost predicate KeysChange(s: Serv, t: Serv) {
    || (t.conns.Keys == s.conns.Keys && t.nextID == s.nextID)
    || (t.conns.Keys == s.conns.Keys + {s.nextID} && t.nextID == s.nextID + 1)
  }

  lemma KeysEvolve(s: Serv, close: bool, t: Serv)
    requires Evolves(s, close, t)
    ensures KeysChange(s, t)
    ensures t.conns.Keys == s.conns.Keys || (!s.closing && !close)
  {
    if s.nextID in t.conns {
      assert t.conns.Keys == (t.conns - {s.nextID}).Keys + {s.nextID};
    }
  }

  lemma InboxEvolves(s: Serv, close: bool, t: Serv, id: nat)
    requires Evolves(s, close, t)
    ensures Inbox(s, id) <= Inbox(t, id)
    ensures id in s.conns ==> id in t.conns && PeerEvolves(s.conns[id], t.conns[id], close)
  {
    if id in s.conns {
      assert id in t.conns.Keys || id in (t.conns - {s.nextID}).Keys;
    }
  }

  lemma GrownAt(log: map<nat, seq<Payload>>, s: Serv, close: bool, t: Serv, id: nat)
    requires Evolves(s, close, t)
    ensures |Inbox(s, id)| <= |Inbox(t, id)|
    ensures Logged(Grown(log, s, t), id) == Logged(log, id) + Inbox(t, id)[|Inbox(s, id)|..]
    ensures Inbox(t, id) == Inbox(s, id) + Inbox(t, id)[|Inbox(s, id)|..]
  {
    InboxEvolves(s, close, t, id);
    if id !in t.conns {
      assert Inbox(t, id)[|Inbox(s, id)|..] == [];
    }
  }

  lemma Regroup(f: seq<Result>, a: seq<Result>, b: seq<Result>, l: seq<Result>, c: seq<Result>)
    requires f + a == l + c && (b == [] || c == [])
    ensures f + (a + b) == (l + b) + c
  {
    if b == [] {
      assert a + b == a && l + b == l;
    } else {
      assert f + (a + b) == (f + a) + b;
    }
  }

  lemma EventReads(s: Serv, h: Hist, e: Input, t: Serv, id: nat)
    requires Evolves(s, e.CloseCall?, t) && HandedOn(s, e) + t.results == s.results && ReadsInOrder(s, h, id)
    requires Failure(h, id) ==> id !in t.conns
    ensures ReadsInOrder(t, AfterEvent(s, h, e, t), id)
  {
    var more := Inbox(t, id)[|Inbox(s, id)|..];
    GrownAt(h.log, s, e.CloseCall?, t, id);
    AssocSeq(h.handed, HandedOn(s, e), t.results);
    ItemsConcat(id, Inbox(s, id), more);
    ItemsConcat(id, Logged(h.log, id), more);
    Regroup(For(h.handed + s.results, id), Items(id, Inbox(s, id)), Items(id, more),
            Items(id, Logged(h.log, id)), if Failure(h, id) then [Failed(id)] else []);
  }

  lemma EventAccounts(s: Serv, h: Hist, e: Input, t: Serv)
    requires KeysChange(s, t) && Accounts(s, h) && 1 <= s.nextID
    ensures Accounts(t, AfterEvent(s, h, e, t))
  {
    GrownKeys(h.log, s, t);
    OneMoreKey(h.log.Keys, s.conns.Keys, t.conns.Keys, h.gone.Keys, s.nextID);
    forall id: nat | id in AfterEvent(s, h, e, t).log ensures 1 <= id < t.nextID {
      assert id in h.log.Keys || id in t.conns.Keys;
    }
  }

  lemma OneMoreKey(log: set<nat>, before: set<nat>, after: set<nat>, gone: set<nat>, next: nat)
    requires log == before + gone && before !! gone && next !in log && (after == before || after == before + {next})
    ensures log + after == after + gone && after !! gone
  {
  }

  /** A connection that is gone does not come back. */
  lemma GoneStaysGone(s: Serv, h: Hist, t: Serv, id: nat)
    requires KeysChange(s, t) && Accounts(s, h) && id in h.gone
    ensures id !in t.conns
  {
    assert id in h.log.Keys && id !in s.conns.Keys;
    assert id !in t.conns.Keys;
  }

  lemma GrownKeys(log: map<nat, seq<Payload>>, s: Serv, t: Serv)
    ensures Grown(log, s, t).Keys == log.Keys + t.conns.Keys
  {
  }

  lemma EventCloses(s: Serv, h: Hist, e: Input, t: Serv)
    requires Evolves(s, e.CloseCall?, t) && Accounts(s, h) && ClosesRight(s, h)
    requires e.CloseCall? ==> !s.closing
    ensures ClosesRight(t, AfterEvent(s, h, e, t))
  {
    KeysEvolve(s, e.CloseCall?, t);
    if s.closing || e.CloseCall? {
      forall id | id in t.conns ensures t.conns[id].closing {
        assert id in s.conns.Keys;
        InboxEvolves(s, e.CloseCall?, t, id);
      }
    }
    if e.CloseCall? {
      assert !SomeLost(s.conns.Keys, h.gone);
    }
  }

  lemma EvolvedReads(s: Serv, h: Hist, e: Input, t: Serv, id: nat)
    requires Accounts(s, h) && ReadsInOrder(s, h, id)
    requires KeysChange(s, t) && Evolves(s, e.CloseCall?, t) && HandedOn(s, e) + t.results == s.results
    ensures ReadsInOrder(t, AfterEvent(s, h, e, t), id)
  {
    if Failure(h, id) {
      GoneStaysGone(s, h, t, id);
    }
    EventReads(s, h, e, t, id);
  }

  lemma EvolvedUnreported(s: Serv, close: bool, t: Serv)
    requires Evolves(s, close, t) && forall id :: id in s.conns ==> !s.conns[id].reported
    ensures forall id :: id in t.conns ==> !t.conns[id].reported
  {
    KeysEvolve(s, close, t);
    forall id | id in t.conns ensures !t.conns[id].reported {
      InboxEvolves(s, close, t, id);
    }
  }

  lemma EvolvedKeeps(s: Serv, h: Hist, e: Input, t: Serv)
    requires Inv(s, h) && (e.CloseCall? ==> !s.closing)
    requires Ok(t) && Evolves(s, e.CloseCall?, t) && HandedOn(s, e) + t.results == s.results
    ensures Inv(t, AfterEvent(s, h, e, t))
  {
    KeysEvolve(s, e.CloseCall?, t);
    EventAccounts(s, h, e, t);
    EventCloses(s, h, e, t);
    EvolvedUnreported(s, e.CloseCall?, t);
    forall id: nat | id != 0 ensures ReadsInOrder(t, AfterEvent(s, h, e, t), id) {
      EvolvedReads(s, h, e, t, id);
    }
  }

  lemma EventKeeps(s: Serv, h: Hist, e: Input)
    requires Inv(s, h) && (e.CloseCall? ==> !s.closing)
    ensures Inv(OnEvent(s, e), AfterEvent(s, h, e, OnEvent(s, e)))
  {
    OnEventOk(s, e);
    EventEvolves(s, e);
    EventResults(s, e);
    EvolvedKeeps(s, h, e, OnEvent(s, e));
  }

  // ----- the draining -----

  lemma EmptyInboxLive(p: Peer)
    requires Live(p)
    ensures Live(p.(conn := p.conn.(inbox := [])))
  {
    SameSenderSound(p.conn, p.conn.(inbox := []));
  }

  lemma DrainedOk(s: Serv, t: Serv)
    requires Ok(s) && Drained(s, t)
    ensures Ok(t)
  {
    SameAddresses(s, t);
    forall id | id in t.conns ensures Live(t.conns[id]) && 1 <= id < t.nextID {
      assert id in s.conns.Keys;
      EmptyInboxLive(s.conns[id]);
    }
  }

  lemma DrainedReads(s: Serv, h: Hist, t: Serv, id: nat)
    requires Drained(s, t) && ReadsInOrder(s, h, id)
    ensures ReadsInOrder(t, h, id)
  {
    ForConcat(h.handed, s.results, id);
    ForConcat(h.handed, t.results, id);
    AssocSeq(For(h.handed, id), For(s.results, id), Items(id, Inbox(s, id)));
    assert Inbox(t, id) == [];
    assert For(h.handed + t.results, id) + [] == For(h.handed + t.results, id);
  }

  lemma DrainedKeeps(s: Serv, h: Hist, t: Serv)
    requires Inv(s, h) && Drained(s, t)
    ensures Inv(t, h)
    ensures forall id :: id in t.conns ==> t.conns[id].conn.inbox == []
  {
    DrainedOk(s, t);
    forall id: nat | id != 0 ensures ReadsInOrder(t, h, id) {
      DrainedReads(s, h, t, id);
    }
    forall id | id in t.conns
      ensures t.conns[id].conn.inbox == [] && !t.conns[id].reported && t.conns[id].closing == s.conns[id].closing
    {
      assert id in s.conns.Keys;
    }
  }

  // ----- the sweep -----

  lemma SweptOk(s: Serv, t: Serv)
    requires Ok(s) && Swept(s, t)
    ensures Ok(t)
  {
    SweptTables(s, t);
    forall id | id in t.conns ensures Live(t.conns[id]) {
      assert t.conns[id] == s.conns[id];
    }
  }

  lemma SweptTables(s: Serv, t: Serv)
    requires TablesMatch(s) && Swept(s, t)
    ensures TablesMatch(t)
  {
    forall id | id in t.conns ensures t.conns[id].addr in t.ids && t.ids[t.conns[id].addr] == id {
      assert s.conns[id].addr in s.ids;
    }
  }

  lemma GoneAt(h: Hist, s: Serv, t: Serv, id: nat)
    requires Swept(s, t) && s.conns.Keys !! h.gone.Keys
    ensures id in AfterSweep(h, s, t).gone <==> id in h.gone || (id in s.conns && s.conns[id].Goes())
    ensures id in s.conns && s.conns[id].Goes() ==> AfterSweep(h, s, t).gone[id] == s.conns[id].conn
    ensures id in h.gone ==> AfterSweep(h, s, t).gone[id] == h.gone[id]
  {
  }

  lemma FailureAfter(s: Serv, h: Hist, t: Serv, id: nat)
    requires Swept(s, t) && s.conns.Keys !! h.gone.Keys
    ensures Failure(AfterSweep(h, s, t), id) <==> Failure(h, id) || (id in s.conns && s.conns[id].conn.Lost())
    ensures !(Failure(h, id) && id in s.conns)
  {
    GoneAt(h, s, t, id);
  }

  lemma SweptResults(s: Serv, t: Serv, handed: seq<Result>, id: nat)
    requires Swept(s, t) && (id in s.conns ==> !s.conns[id].reported)
    ensures For(handed + t.results, id) ==
            For(handed + s.results, id) + if id in s.conns && s.conns[id].conn.Lost() then [Failed(id)] else []
  {
    ForConcat(handed, s.results, id);
    ForConcat(handed, t.results, id);
    assert For(t.results, id) ==
      For(s.results, id) + if id in s.conns && s.conns[id].conn.Lost() && !s.conns[id].reported then [Failed(id)] else [];
  }

  lemma SweptReads(s: Serv, h: Hist, t: Serv, id: nat)
    requires Swept(s, t) && ReadsInOrder(s, h, id) && s.conns.Keys !! h.gone.Keys
    requires Inbox(s, id) == [] && (id in s.conns ==> !s.conns[id].reported)
    ensures ReadsInOrder(t, AfterSweep(h, s, t), id)
  {
    FailureAfter(s, h, t, id);
    SweptResults(s, t, h.handed, id);
    assert Inbox(t, id) == [];
    var f, l := For(h.handed + s.results, id), Items(id, Logged(h.log, id));
    var failed := if Failure(h, id) then [Failed(id)] else [];
    var lost := if id in s.conns && s.conns[id].conn.Lost() then [Failed(id)] else [];
    assert f + Items(id, Inbox(s, id)) == f;
    AssocSeq(l, failed, lost);
    assert failed + lost == if Failure(AfterSweep(h, s, t), id) then [Failed(id)] else [];
  }

  lemma SweptAccounts(s: Serv, h: Hist, t: Serv)
    requires Swept(s, t) && Accounts(s, h)
    ensures Accounts(t, AfterSweep(h, s, t))
  {
    SweptSplit(s.conns, t.conns, h.gone);
  }

  /** The connections that leave the table are the ones that are gone. */
  lemma SweptSplit(before: map<nat, Peer>, after: map<nat, Peer>, gone: map<nat, Conn>)
    requires after.Keys <= before.Keys && before.Keys !! gone.Keys
    ensures var more := gone + map id | id in before && id !in after :: before[id].conn;
            after.Keys + more.Keys == before.Keys + gone.Keys && after.Keys !! more.Keys
  {
    var left := map id | id in before && id !in after :: before[id].conn;
    assert left.Keys == before.Keys - after.Keys;
    assert (gone + left).Keys == gone.Keys + left.Keys;
  }

  lemma SweptReasons(s: Serv, h: Hist, t: Serv)
    requires Swept(s, t) && Accounts(s, h) && GoneForReason(h.openAtClose, h.gone)
    ensures GoneForReason(h.openAtClose, AfterSweep(h, s, t).gone)
  {
    var g := AfterSweep(h, s, t).gone;
    forall id | id in h.openAtClose && id in g ensures g[id].AllAcked() || g[id].Lost() {
      GoneAt(h, s, t, id);
    }
  }

  lemma SweptCloses(s: Serv, h: Hist, t: Serv)
    requires Swept(s, t) && Accounts(s, h) && ClosesRight(s, h)
    ensures ClosesRight(t, AfterSweep(h, s, t))
  {
    var g := AfterSweep(h, s, t);
    if s.closing {
      forall id | id in h.openAtClose ensures id in t.conns || id in g.gone {
        GoneAt(h, s, t, id);
        assert id in s.conns.Keys + h.gone.Keys;
      }
    }
    SweptReasons(s, h, t);
    SweptLosses(s, h, t);
  }

  lemma SweptLosses(s: Serv, h: Hist, t: Serv)
    requires Swept(s, t) && Accounts(s, h) && ClosesRight(s, h)
    ensures t.sawLost <==> SomeLost(h.openAtClose, AfterSweep(h, s, t).gone)
  {
    var g := AfterSweep(h, s, t).gone;
    if SomeLost(h.openAtClose, g) {
      var id :| id in h.openAtClose && id in g && g[id].Lost();
      GoneAt(h, s, t, id);
      if id in h.gone {
        assert SomeLost(h.openAtClose, h.gone);
      }
    }
    if t.sawLost {
      if s.sawLost {
        var id :| id in h.openAtClose && id in h.gone && h.gone[id].Lost();
        GoneAt(h, s, t, id);
      } else {
        var id :| id in s.conns && s.conns[id].conn.Lost();
        GoneAt(h, s, t, id);
        assert id in s.conns.Keys;
      }
    }
  }

  lemma SweptKeeps(s: Serv, h: Hist, t: Serv)
    requires Inv(s, h) && Swept(s, t) && forall id :: id in s.conns ==> s.conns[id].conn.inbox == []
    ensures Inv(t, AfterSweep(h, s, t)) && Settled(t)
  {
    SweptOk(s, t);
    SweptAccounts(s, h, t);
    SweptCloses(s, h, t);
    forall id: nat | id != 0 ensures ReadsInOrder(t, AfterSweep(h, s, t), id) {
      SweptReads(s, h, t, id);
    }
  }

  // ----- the answers -----

  lemma HandOverSplits(s: Serv)
    ensures Handed(s) + HandOver(s).results == s.results
  {
  }

  lemma AnswersRead(s: Serv, h: Hist, id: nat)
    requires ReadsInOrder(s, h, id) && id != 0
    ensures ReadsInOrder(HandOver(Finish(s)), AfterAnswers(h, s), id)
  {
    var f := Finish(s);
    HandOverSplits(f);
    AssocSeq(h.handed, Handed(f), HandOver(f).results);
    FinishReads(s, h.handed, id);
  }

  lemma FinishReads(s: Serv, handed: seq<Result>, id: nat)
    requires id != 0
    ensures For(handed + Finish(s).results, id) == For(handed + s.results, id)
  {
    if Finishes(s) {
      assert handed + (s.results + [Failed(0)]) == (handed + s.results) + [Failed(0)];
      ForAppend(handed + s.results, Failed(0), id);
    }
  }

  /** Answering touches only results, readers and the outcome. */
  ghost predicate OnlyAnswers(s: Serv, h: Hist, t: Serv, g: Hist) {
    && t == s.(results := t.results, reading := t.reading)
    && g == h.(handed := g.handed, outcome := g.outcome)
  }

  lemma AnswersAccount(s: Serv, h: Hist, t: Serv, g: Hist)
    requires OnlyAnswers(s, h, t, g) && Accounts(s, h) && ClosesRight(s, h)
    ensures Accounts(t, g) && ClosesRight(t, g)
  {
  }

  lemma AnsweredKeeps(s: Serv, h: Hist, t: Serv, g: Hist)
    requires Inv(s, h) && Settled(s) && OnlyAnswers(s, h, t, g)
    requires forall id: nat :: id != 0 ==> ReadsInOrder(t, g, id)
    ensures Inv(t, g) && Settled(t)
  {
    SameTablesOk(s, t);
    AnswersAccount(s, h, t, g);
  }

  lemma AnswersKeep(s: Serv, h: Hist)
    requires Inv(s, h) && Settled(s)
    ensures Inv(HandOver(Finish(s)), AfterAnswers(h, s)) && Settled(HandOver(Finish(s)))
  {
    forall id: nat | id != 0 ensures ReadsInOrder(HandOver(Finish(s)), AfterAnswers(h, s), id) {
      AnswersRead(s, h, id);
    }
    AnsweredKeeps(s, h, HandOver(Finish(s)), AfterAnswers(h, s));
  }

  /** Close returned nil exactly when every connection it found left with nothing queued, nothing outstanding, and not lost. */
  ghost predicate OutcomeRight(h: Hist) {
    h.outcome.Some? ==>
      (h.outcome.value <==> forall id :: id in h.openAtClose ==> id in h.gone && h.gone[id].AllAcked() && !h.gone[id].Lost())
  }

  lemma FinishRight(s: Serv, h: Hist)
    requires ClosesRight(s, h) && Finishes(s)
    ensures OutcomeRight(AfterAnswers(h, s))
  {
    forall id | id in h.openAtClose ensures id in h.gone {
      assert id in s.conns.Keys + h.gone.Keys;
    }
    if s.sawLost {
      var id :| id in h.openAtClose && id in h.gone && h.gone[id].Lost();
    }
  }

  lemma TurnKeeps(s: Serv, h: Hist, t: Turn, s': Serv, h': Hist)
    requires Inv(s, h) && LoopStep(s, h, t, s', h')
    ensures Inv(s', h') && Settled(s') && OutcomeRight(h')
  {
    var h1 := AfterEvent(s, h, t.e, t.s1);
    var h3 := AfterSweep(h1, t.s2, t.s3);
    EventKeeps(s, h, t.e);
    DrainedKeeps(t.s1, h1, t.s2);
    SweptKeeps(t.s2, h1, t.s3);
    AnswersKeep(t.s3, h3);
    if Finishes(t.s3) {
      FinishRight(t.s3, h3);
    }
  }

  // ----- runs -----

  ghost predicate Starts(s: Serv, h: Hist) {
    s == Serv(s.params, 1, map[], map[], [], false, false, false) && h == Hist([], map[], map[], {}, None)
  }

  /** Turn `i` leads from state `i` to the next one. */
  ghost predicate TurnAt(run: seq<(Serv, Hist)>, turns: seq<Turn>, i: nat) {
    i < |turns| && i + 1 < |run| && LoopStep(run[i].0, run[i].1, turns[i], run[i + 1].0, run[i + 1].1)
  }

  ghost predicate LoopRun(run: seq<(Serv, Hist)>, turns: seq<Turn>) {
    && |run| == |turns| + 1
    && Starts(run[0].0, run[0].1)
    && (forall i: nat :: i < |turns| ==> TurnAt(run, turns, i))
  }

  ghost predicate Between(s: Serv, h: Hist) {
    Inv(s, h) && Settled(s) && OutcomeRight(h)
  }

  lemma StartsBetween(s: Serv, h: Hist)
    requires Starts(s, h)
    ensures Between(s, h)
  {
  }

  lemma {:induction false} LoopAlong(run: seq<(Serv, Hist)>, turns: seq<Turn>, i: nat)
    requires i < |run| && Between(run[0].0, run[0].1) && forall k: nat :: k < i ==> TurnAt(run, turns, k)
    ensures Between(run[i].0, run[i].1)
  {
    if i > 0 {
      var k := i - 1;
      LoopAlong(run, turns, k);
      assert TurnAt(run, turns, k);
      TurnKeeps(run[k].0, run[k].1, turns[k], run[k + 1].0, run[k + 1].1);
    }
  }

  lemma LoopInv(run: seq<(Serv, Hist)>, turns: seq<Turn>, i: nat)
    requires LoopRun(run, turns) && i < |run|
    ensures Inv(run[i].0, run[i].1) && Settled(run[i].0) && OutcomeRight(run[i].1)
  {
    StartsBetween(run[0].0, run[0].1);
    LoopAlong(run, turns, i);
  }

  /** The address and id tables stay inverse to each other, and a new id is one that was never given out. */
  lemma TablesTheorem(run: seq<(Serv, Hist)>, turns: seq<Turn>, i: nat)
    requires LoopRun(run, turns) && i < |run|
    ensures TablesMatch(run[i].0)
    ensures forall id :: id in run[i].1.log ==> 1 <= id < run[i].0.nextID
    ensures run[i].0.conns.Keys !! run[i].1.gone.Keys
  {
    LoopInv(run, turns, i);
  }

  /** Reads of a connection return its delivered payloads in order, then at most one error, and nothing after it. */
  lemma ReadOrderTheorem(run: seq<(Serv, Hist)>, turns: seq<Turn>, i: nat, id: nat)
    requires LoopRun(run, turns) && i < |run| && id != 0
    ensures For(run[i].1.handed + run[i].0.results, id) ==
            Items(id, Logged(run[i].1.log, id)) + if Failure(run[i].1, id) then [Failed(id)] else []
  {
    LoopInv(run, turns, i);
    assert ReadsInOrder(run[i].0, run[i].1, id);
    assert Inbox(run[i].0, id) == [];
  }

  lemma ServerCloseTheorem(run: seq<(Serv, Hist)>, turns: seq<Turn>, i: nat)
    requires LoopRun(run, turns) && i < |run| && run[i].1.outcome.Some?
    ensures run[i].1.outcome.value <==>
            forall id :: id in run[i].1.openAtClose ==>
              id in run[i].1.gone && run[i].1.gone[id].AllAcked() && !run[i].1.gone[id].Lost()
  {
    LoopInv(run, turns, i);
  }
}
