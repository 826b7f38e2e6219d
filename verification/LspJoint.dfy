/**
 A client and a server with any number of other connections, step by step: each event of the server does to the
 client's connection what an endpoint's own steps do, so the two ends stay a channel.
 */
module LspJoint {
  import opened LspEndpoint
  import opened LspWindow
  import opened LspChannel
  import opened LspServer
  import Loop = LspServerRun

  /** The client, the server's end of its connection with the history of it, and the server. */
  datatype Joint = Joint(a: Side, b: Side, s: Serv, h: Loop.Hist)

  // ----- the server's end of the connection -----

  /** What an event of the server does to the connection `id` of the client at `addr`. */
  ghost function SideAfter(b: Side, s: Serv, id: nat, addr: string, e: Input): Side
    requires Sound(b.conn)
  {
    match e
    case Packet(x, m) =>
      if x == addr && Admit(m).Some? then
        NextSound(b.conn, Heard);
        Apply(Apply(b, Heard), Receive(m))
      else b
    case WriteCall(i, p) => if i == id && Writable(s, id) && Enabled(b.conn, Write(p)) then Apply(b, Write(p)) else b
    case EpochTick => Apply(b, Epoch)
    case _ => b
  }

  /** Everything delivered has been taken out for Read. */
  function Emptied(b: Side): Side {
    b.(read := b.read + b.conn.inbox, conn := b.conn.(inbox := []))
  }

  /** A packet from the client's address is something the client sent, possibly damaged. */
  ghost predicate FromClient(a: Side, addr: string, e: Input) {
    e.Packet? && e.addr == addr ==> exists g :: g in a.sent && MayArriveAs(g, e.m)
  }

  lemma MovesKeep(a: Side, b: Side, move: Move, z: Side)
    requires NetInv(Net(a, b)) && Moves(b, a, move, z)
    ensures NetInv(Net(a, z))
  {
    MoveKeeps(b, a, move, z);
  }

  lemma PacketKeeps(a: Side, b: Side, g: Message, m: Message)
    requires NetInv(Net(a, b)) && b.close.Open? && g in a.sent && MayArriveAs(g, m)
    ensures Sound(Apply(b, Heard).conn) && NetInv(Net(a, Apply(Apply(b, Heard), Receive(m))))
  {
    var heard := Apply(b, Heard);
    MovesKeep(a, b, Local(Heard), heard);
    MovesKeep(a, heard, Arrive(g, m), Apply(heard, Receive(m)));
  }

  lemma OwnStepKeeps(a: Side, b: Side, e: Event)
    requires NetInv(Net(a, b)) && b.close.Open? && !e.Receive? && Enabled(b.conn, e)
    ensures NetInv(Net(a, Apply(b, e))) && Apply(b, e).close.Open?
  {
    MovesKeep(a, b, Local(e), Apply(b, e));
  }

  lemma SideKeeps(a: Side, b: Side, s: Serv, id: nat, addr: string, e: Input)
    requires NetInv(Net(a, b)) && b.close.Open? && FromClient(a, addr, e)
    ensures NetInv(Net(a, SideAfter(b, s, id, addr, e))) && SideAfter(b, s, id, addr, e).close.Open?
  {
    match e
    case Packet(x, m) =>
      if x == addr && Admit(m).Some? {
        var g :| g in a.sent && MayArriveAs(g, m);
        PacketKeeps(a, b, g, m);
      }
    case WriteCall(i, p) =>
      if i == id && Writable(s, id) && Enabled(b.conn, Write(p)) {
        OwnStepKeeps(a, b, Write(p));
      }
    case EpochTick => OwnStepKeeps(a, b, Epoch);
    case _ =>
  }

  lemma EmptiedKeeps(a: Side, b: Side)
    requires NetInv(Net(a, b)) && b.close.Open?
    ensures NetInv(Net(a, Emptied(b)))
  {
    var z := Emptied(b);
    assert z.Delivered() == b.Delivered();
    SameSenderSound(b.conn, z.conn);
    IdleKeeps(b, a, z);
  }

  // ----- the server does just that -----

  /** Connection `id` belongs to the client, and `b` is the server's end of it. */
  ghost predicate Serves(s: Serv, id: nat, addr: string, b: Side) {
    id in s.conns && s.conns[id].addr == addr && s.conns[id].conn == b.conn
  }

  lemma HeardPacket(b: Side, m: Message)
    requires Sound(b.conn) && Admit(m).Some?
    ensures Sound(Apply(b, Heard).conn)
    ensures Apply(Apply(b, Heard), Receive(m)).conn == OnMessage(b.conn.(lastHeard := b.conn.epoch), Admit(m).value)
  {
    NextSound(b.conn, Heard);
  }

  lemma OwnPacket(s: Serv, id: nat, addr: string, b: Side, m: Message)
    requires Ok(s) && Serves(s, id, addr, b) && Sound(b.conn) && Admit(m).Some?
    ensures Serves(OnPacket(s, addr, Admit(m).value), id, addr, SideAfter(b, s, id, addr, Packet(addr, m)))
  {
    assert s.ids[addr] == id;
    HeardPacket(b, m);
  }

  lemma OthersPacket(s: Serv, id: nat, addr: string, b: Side, x: string, m: Message)
    requires Ok(s) && Serves(s, id, addr, b) && x != addr
    ensures Serves(OnPacket(s, x, m), id, addr, b)
  {
    if x in s.ids {
      assert s.conns[s.ids[x]].addr == x;
    }
  }

  lemma WriteSide(s: Serv, id: nat, addr: string, b: Side, i: nat, p: Payload)
    requires Ok(s) && Serves(s, id, addr, b) && Sound(b.conn) && b.conn.connID != 0
    ensures Serves(OnWrite(s, i, p), id, addr, SideAfter(b, s, id, addr, WriteCall(i, p)))
  {
  }

  lemma TickSide(s: Serv, id: nat, addr: string, b: Side)
    requires AllScheduled(s.conns) && Serves(s, id, addr, b) && Sound(b.conn)
    ensures Serves(OnTick(s), id, addr, SideAfter(b, s, id, addr, EpochTick))
  {
  }

  /** Reading, and marking connections as closing, leave the endpoint alone. */
  lemma MarkSide(s: Serv, id: nat, addr: string, b: Side, i: nat)
    requires Serves(s, id, addr, b)
    ensures Serves(OnRead(s), id, addr, b) && Serves(OnCloseConn(s, i), id, addr, b) && Serves(OnClose(s), id, addr, b)
  {
  }

  lemma EventSide(s: Serv, id: nat, addr: string, b: Side, e: Input)
    requires Ok(s) && Serves(s, id, addr, b) && Sound(b.conn) && b.conn.connID != 0
    ensures Serves(OnEvent(s, e), id, addr, SideAfter(b, s, id, addr, e))
  {
    match e
    case Packet(x, m) =>
      if Admit(m).Some? {
        if x == addr {
          OwnPacket(s, id, addr, b, m);
        } else {
          OthersPacket(s, id, addr, b, x, Admit(m).value);
        }
      }
    case WriteCall(i, p) => WriteSide(s, id, addr, b, i, p);
    case EpochTick =>
      OkScheduled(s);
      TickSide(s, id, addr, b);
    case ReadCall => MarkSide(s, id, addr, b, 0);
    case CloseConnCall(i) => MarkSide(s, id, addr, b, i);
    case CloseCall => MarkSide(s, id, addr, b, 0);
  }

  lemma SideReads(b: Side, s: Serv, id: nat, addr: string, e: Input)
    requires Sound(b.conn)
    ensures SideAfter(b, s, id, addr, e).read == b.read
  {
  }

  // ----- joint steps -----

  ghost predicate ClientMoves(j: Joint, move: Move, j': Joint) {
    Moves(j.a, j.b, move, j'.a) && j' == j.(a := j'.a)
  }

  ghost predicate ServerTurns(j: Joint, id: nat, addr: string, t: Loop.Turn, j': Joint) {
    && Loop.LoopStep(j.s, j.h, t, j'.s, j'.h) && FromClient(j.a, addr, t.e)
    && j'.a == j.a
    && (Sound(j.b.conn) ==>
          j'.b == if id in j.s.conns then Emptied(SideAfter(j.b, j.s, id, addr, t.e)) else j.b)
  }

  /**
   While the connection is in the table, `b` is its state, and when it is gone, `b` is how it went; what was taken
   out for Read is its read history.
   */
  ghost predicate Joined(j: Joint, id: nat, addr: string) {
    && Loop.Between(j.s, j.h) && NetInv(Net(j.a, j.b)) && j.b.close.Open? && j.b.conn.inbox == []
    && id in j.h.log && id != 0 && j.b.read == Loop.Logged(j.h.log, id)
    && (id in j.s.conns ==> Serves(j.s, id, addr, j.b))
    && (id in j.h.gone ==> j.h.gone[id] == j.b.conn)
  }

  lemma ClientKeeps(j: Joint, id: nat, addr: string, move: Move, j': Joint)
    requires Joined(j, id, addr) && ClientMoves(j, move, j')
    ensures Joined(j', id, addr)
  {
    MoveKeeps(j.a, j.b, move, j'.a);
  }

  /** What the event delivered goes to the log. */
  lemma LogSide(j: Joint, id: nat, addr: string, e: Input)
    requires Joined(j, id, addr) && id in j.s.conns && Ok(j.s)
    ensures var s1 := OnEvent(j.s, e);
            Loop.Logged(Loop.AfterEvent(j.s, j.h, e, s1).log, id) == Emptied(SideAfter(j.b, j.s, id, addr, e)).read
  {
    EventSide(j.s, id, addr, j.b, e);
    SideReads(j.b, j.s, id, addr, e);
    Loop.EventEvolves(j.s, e);
    Loop.GrownAt(j.h.log, j.s, e.CloseCall?, OnEvent(j.s, e), id);
  }

  /** The log of a connection that is gone does not grow. */
  lemma LogGone(j: Joint, id: nat, e: Input)
    requires Loop.Inv(j.s, j.h) && id in j.h.log && id !in j.s.conns
    ensures id !in OnEvent(j.s, e).conns
    ensures Loop.Logged(Loop.AfterEvent(j.s, j.h, e, OnEvent(j.s, e)).log, id) == Loop.Logged(j.h.log, id)
  {
    var s1 := OnEvent(j.s, e);
    Loop.EventEvolves(j.s, e);
    Loop.KeysEvolve(j.s, e.CloseCall?, s1);
    assert id in j.h.log.Keys && id !in j.s.conns.Keys && id < j.s.nextID;
    assert id !in s1.conns.Keys;
    Loop.GrownAt(j.h.log, j.s, e.CloseCall?, s1, id);
  }

  /** Draining, sweeping and answering leave the connection as it is, emptied, or remove it. */
  lemma RestSide(s1: Serv, t: Loop.Turn, id: nat, addr: string, b: Side)
    requires Drained(s1, t.s2) && Swept(t.s2, t.s3) && Serves(s1, id, addr, b)
    ensures id in HandOver(Finish(t.s3)).conns ==> Serves(HandOver(Finish(t.s3)), id, addr, Emptied(b))
  {
    assert t.s2.conns[id].conn == b.conn.(inbox := []) && t.s2.conns[id].addr == addr;
    assert HandOver(Finish(t.s3)).conns == t.s3.conns;
  }

  lemma RestGone(s1: Serv, t: Loop.Turn, id: nat)
    requires Drained(s1, t.s2) && Swept(t.s2, t.s3) && id !in s1.conns
    ensures id !in HandOver(Finish(t.s3)).conns
  {
    assert id !in t.s2.conns.Keys;
    assert HandOver(Finish(t.s3)).conns == t.s3.conns;
  }

  lemma SameLog(j: Joint, t: Loop.Turn, h': Loop.Hist, id: nat)
    requires h' == Loop.AfterAnswers(Loop.AfterSweep(Loop.AfterEvent(j.s, j.h, t.e, t.s1), t.s2, t.s3), t.s3)
    ensures h'.log == Loop.AfterEvent(j.s, j.h, t.e, t.s1).log && j.h.log.Keys <= h'.log.Keys
  {
  }

  /** How the connection goes, if it does. */
  lemma GoneSide(h: Loop.Hist, t: Loop.Turn, id: nat, b: Side)
    requires id in t.s2.conns && t.s2.conns[id].conn == b.conn && id !in h.gone
    ensures var g := Loop.AfterSweep(h, t.s2, t.s3).gone; id in g ==> g[id] == b.conn
  {
  }

  lemma StaysGone(h: Loop.Hist, t: Loop.Turn, id: nat)
    requires id !in t.s2.conns
    ensures var g := Loop.AfterSweep(h, t.s2, t.s3).gone; (id in g <==> id in h.gone) && (id in g ==> g[id] == h.gone[id])
  {
  }

  lemma DrainedSide(s1: Serv, t: Loop.Turn, id: nat, addr: string, b: Side)
    requires Drained(s1, t.s2) && Serves(s1, id, addr, b)
    ensures id in t.s2.conns && t.s2.conns[id].conn == Emptied(b).conn
  {
    assert id in t.s2.conns.Keys;
  }

  lemma ServerKeeps(j: Joint, id: nat, addr: string, t: Loop.Turn, j': Joint)
    requires Joined(j, id, addr) && ServerTurns(j, id, addr, t, j')
    ensures Joined(j', id, addr)
  {
    Loop.TurnKeeps(j.s, j.h, t, j'.s, j'.h);
    SameLog(j, t, j'.h, id);
    if id in j.s.conns {
      var b1 := SideAfter(j.b, j.s, id, addr, t.e);
      SideKeeps(j.a, j.b, j.s, id, addr, t.e);
      EmptiedKeeps(j.a, b1);
      EventSide(j.s, id, addr, j.b, t.e);
      RestSide(t.s1, t, id, addr, b1);
      LogSide(j, id, addr, t.e);
      DrainedSide(t.s1, t, id, addr, b1);
      assert id in j.s.conns.Keys;
      GoneSide(Loop.AfterEvent(j.s, j.h, t.e, t.s1), t, id, Emptied(b1));
    } else {
      LogGone(j, id, t.e);
      RestGone(t.s1, t, id);
      assert id !in t.s2.conns.Keys;
      StaysGone(Loop.AfterEvent(j.s, j.h, t.e, t.s1), t, id);
    }
  }
}
