/**
 Two connected endpoints over a network that drops, delays, duplicates, reorders and damages messages.
 The network is the set of everything ever sent: any sent message may arrive at any time, any number of
 times, with its payload cut, lengthened or changed in one byte.
 */
module LspChannel {
  import opened Checksum
  import opened LspEndpoint
  import opened LspWindow

  datatype CloseState = Open | Closing | Closed(ok: bool)

  /** One end of the connection, with the history of what its user wrote and read. */
  datatype Side = Side(conn: Conn, written: seq<Payload>, read: seq<Payload>, sent: set<Message>, close: CloseState)
  {
    /** Everything delivered in order so far, read or waiting to be read. */
    function Delivered(): seq<Payload> {
      read + conn.inbox
    }
  }

  // ----- what a damaged message does -----

  /** The payloads differ at most at index `i`. */
  predicate ChangedAt(p: Payload, q: Payload, i: nat) {
    i < |p| == |q| && q == p[i := q[i]]
  }

  /** The damage the network may do to a payload. */
  predicate Damage(p: Payload, q: Payload) {
    || |q| < |p|
    || q[..|p|] == p
    || (exists i: nat :: i < |p| && ChangedAt(p, q[..|p|], i))
  }

  predicate MayArriveAs(g: Message, m: Message) {
    m == g || (g.Data? && m.Data? && m == g.(payload := m.payload) && Damage(g.payload, m.payload))
  }

  predicate Genuine(m: Message)
    requires m.Data?
  {
    m == DataMsg(m.connID, m.seqNum, m.payload)
  }

  /** What was sent is still there, possibly with something behind it. */
  predicate Legible(g: Message, m: Message) {
    m == g || (g.Data? && m.Data? && g.payload <= m.payload)
  }

  /**
   A message with something added has the effect of the message sent; one that was cut or changed has no effect,
   but that it may count as a sign of life.
   */
  lemma DamageHarmless(c: Conn, g: Message, m: Message)
    requires c.Wf() && (g.Data? ==> Genuine(g)) && MayArriveAs(g, m)
    ensures if Legible(g, m)
            then Next(c, Receive(m)) == Next(c, Receive(g)) && Emits(c, Receive(m)) == Emits(c, Receive(g))
            else Next(c, Receive(m)) in {c, c.(heardData := true)} && Emits(c, Receive(m)) == {}
  {
    if m != g && |m.payload| >= g.size {
      var q := m.payload[..g.size];
      if |m.payload| == g.size {
        assert m.payload == q;
      }
      assert Admit(m) == Some(g.(payload := q));
      assert Admit(g) == Some(g);
      if q == g.payload {
        assert g.(payload := q) == g;
      } else {
        var i: nat :| i < |g.payload| && ChangedAt(g.payload, q, i);
        ByteChangeDetected(g.connID, g.seqNum, g.size, g.payload, i, q[i]);
        assert !Accepts(c, g.(payload := q));
      }
    }
  }

  // ----- the invariant of one direction -----

  /** The payload that was written as number `k`. */
  function Nth(c: Conn, written: seq<Payload>, k: int): Payload
    requires c.isn < k <= c.isn + |written|
  {
    written[k - c.isn - 1]
  }

  /** The sender's bookkeeping mirrors what its user wrote. */
  ghost predicate Mirrors(c: Conn, written: seq<Payload>) {
    && c.Wf()
    && c.nextSeq == c.isn + 1 + |written|
    && (forall i :: 0 <= i < |c.queue| ==> c.queue[i] == Nth(c, written, c.Front() + i))
    && (forall k :: k in c.unacked ==> c.unacked[k] == Nth(c, written, k))
  }

  /** Every data message ever sent carries the payload written under its number, below `limit`. */
  ghost predicate Carries(c: Conn, written: seq<Payload>, sent: set<Message>, limit: int) {
    forall m :: m in sent && m.Data? ==>
      && c.isn < m.seqNum <= c.isn + |written|
      && m.seqNum < c.Front()
      && Genuine(m) && m.payload == Nth(c, written, m.seqNum)
      && m.seqNum < limit
  }

  /** The receiver has delivered a prefix of what was written and buffers genuine later payloads. */
  ghost predicate Follows(r: Conn, delivered: seq<Payload>, isn: nat, written: seq<Payload>, front: int) {
    && r.isn == isn
    && r.expected == isn + 1 + |delivered| <= front <= isn + 1 + |written|
    && delivered == written[..|delivered|]
    && (forall k :: k in r.buffered ==> r.expected <= k < front && r.buffered[k] == written[k - isn - 1])
  }

  ghost predicate Got(r: Conn, k: int) {
    r.isn < k && (k < r.expected || (0 <= k && k in r.buffered))
  }

  /** Every acknowledgement ever sent is for something received. */
  ghost predicate Truthful(r: Conn, sent: set<Message>) {
    forall m :: m in sent ==>
      && (m.Ack? && m.seqNum != 0 && m.seqNum != r.isn ==> Got(r, m.seqNum))
      && (m.CAck? ==> m.seqNum < r.expected)
  }

  /** What was sent is outstanding or received. */
  ghost predicate Accounted(c: Conn, r: Conn) {
    forall k :: c.isn < k < c.Front() ==> k in c.unacked || Got(r, k)
  }

  /** One direction of the connection, from `x` to `y`. */
  ghost predicate Channel(x: Side, y: Side) {
    && Mirrors(x.conn, x.written)
    && Carries(x.conn, x.written, x.sent, y.conn.expected + x.conn.params.window)
    && Follows(y.conn, y.Delivered(), x.conn.isn, x.written, x.conn.Front())
    && Truthful(y.conn, y.sent)
    && Accounted(x.conn, y.conn)
    && y.conn.expected !in y.conn.buffered
  }

  // ----- the sender moves -----

  /** Everything below the lower edge of the window has been delivered. */
  lemma EdgeDelivered(x: Side, y: Side)
    requires Channel(x, y)
    ensures MinPending(x.conn) <= y.conn.expected
  {
    assert !Got(y.conn, y.conn.expected);
  }

  lemma EnqueueMirrors(c: Conn, written: seq<Payload>, p: Payload)
    requires Mirrors(c, written)
    ensures Mirrors(Enqueue(c, p), written + [p]) && Enqueue(c, p).Front() == c.Front()
  {
    var d, w := Enqueue(c, p), written + [p];
    EnqueueWf(c, p);
    forall i | 0 <= i < |d.queue| ensures d.queue[i] == Nth(d, w, d.Front() + i) {
      if i < |c.queue| {
        assert c.queue[i] == Nth(c, written, c.Front() + i);
      }
    }
  }

  lemma LongerCarries(c: Conn, d: Conn, written: seq<Payload>, p: Payload, sent: set<Message>, limit: int)
    requires Carries(c, written, sent, limit) && d.isn == c.isn && d.Front() == c.Front()
    ensures Carries(d, written + [p], sent, limit)
  {
  }

  lemma LongerFollows(r: Conn, delivered: seq<Payload>, isn: nat, written: seq<Payload>, p: Payload, front: int)
    requires Follows(r, delivered, isn, written, front)
    ensures Follows(r, delivered, isn, written + [p], front)
  {
    assert delivered == (written + [p])[..|delivered|];
  }

  lemma EnqueueKeeps(x: Side, y: Side, p: Payload)
    requires Channel(x, y)
    ensures Channel(x.(conn := Enqueue(x.conn, p), written := x.written + [p]), y)
  {
    var d := Enqueue(x.conn, p);
    EnqueueMirrors(x.conn, x.written, p);
    LongerCarries(x.conn, d, x.written, p, x.sent, y.conn.expected + x.conn.params.window);
    LongerFollows(y.conn, y.Delivered(), x.conn.isn, x.written, p, x.conn.Front());
  }

  lemma ForgetMirrors(c: Conn, written: seq<Payload>, ks: set<nat>)
    requires Mirrors(c, written)
    ensures Mirrors(Forget(c, ks), written)
  {
    ForgetWf(c, ks);
    assert Forget(c, ks).Front() == c.Front();
  }

  lemma SameCarries(c: Conn, d: Conn, written: seq<Payload>, sent: set<Message>, limit: int)
    requires Carries(c, written, sent, limit) && d.isn == c.isn && d.Front() == c.Front()
    ensures Carries(d, written, sent, limit)
  {
    forall m | m in sent && m.Data? ensures Nth(c, written, m.seqNum) == Nth(d, written, m.seqNum) {}
  }

  lemma ForgetAccounted(c: Conn, r: Conn, ks: set<nat>)
    requires Accounted(c, r) && forall k :: k in ks ==> Got(r, k)
    ensures Accounted(Forget(c, ks), r)
  {
    assert Forget(c, ks).Front() == c.Front();
  }

  lemma ForgetKeeps(x: Side, y: Side, ks: set<nat>)
    requires Channel(x, y) && forall k :: k in ks ==> Got(y.conn, k)
    ensures Channel(x.(conn := Forget(x.conn, ks)), y)
  {
    ForgetMirrors(x.conn, x.written, ks);
    SameCarries(x.conn, Forget(x.conn, ks), x.written, x.sent, y.conn.expected + x.conn.params.window);
    ForgetAccounted(x.conn, y.conn, ks);
  }

  lemma SendNMirrors(c: Conn, written: seq<Payload>, n: nat)
    requires Mirrors(c, written) && n <= |c.queue|
    ensures Mirrors(SendN(c, n), written)
  {
    SendNWf(c, n);
    var d := SendN(c, n);
    forall i | 0 <= i < |d.queue| ensures d.queue[i] == Nth(d, written, d.Front() + i) {
      assert d.queue[i] == c.queue[n + i];
    }
    forall k | k in d.unacked ensures d.unacked[k] == Nth(d, written, k) {
      ExtendAt(c.unacked, c.Front(), c.queue[..n], k);
    }
  }

  lemma SentCarry(c: Conn, written: seq<Payload>, n: nat, m: Message)
    requires Mirrors(c, written) && n <= |c.queue| && m in Elements(SentMsgs(c, n))
    ensures m.Data? && c.Front() <= m.seqNum < c.Front() + n
    ensures m == DataMsg(c.connID, m.seqNum, Nth(c, written, m.seqNum))
  {
    var i :| 0 <= i < n && m == SentMsgs(c, n)[i];
    assert c.queue[i] == Nth(c, written, c.Front() + i);
  }

  lemma SendNAccounted(c: Conn, r: Conn, n: nat)
    requires c.Wf() && n <= |c.queue| && Accounted(c, r)
    ensures Accounted(SendN(c, n), r)
  {
    SendNWf(c, n);
    forall k | c.isn < k < c.Front() + n ensures k in SendN(c, n).unacked || Got(r, k) {
      ExtendAt(c.unacked, c.Front(), c.queue[..n], k);
    }
  }

  lemma SendNCarries(c: Conn, written: seq<Payload>, sent: set<Message>, n: nat, limit: int)
    requires Mirrors(c, written) && n <= |c.queue| && Carries(c, written, sent, limit)
    requires n > 0 ==> c.Front() + n <= limit
    ensures Carries(SendN(c, n), written, sent + Elements(SentMsgs(c, n)), limit)
  {
    SendNWf(c, n);
    var d := SendN(c, n);
    forall m | m in sent + Elements(SentMsgs(c, n)) && m.Data?
      ensures && d.isn < m.seqNum <= d.isn + |written|
              && m.seqNum < d.Front()
              && Genuine(m) && m.payload == Nth(d, written, m.seqNum)
              && m.seqNum < limit
    {
      if m !in sent {
        SentCarry(c, written, n, m);
      }
    }
  }

  lemma RefillKeeps(x: Side, y: Side)
    requires Channel(x, y)
    ensures Channel(x.(conn := Refill(x.conn), sent := x.sent + Elements(RefillMsgs(x.conn))), y)
  {
    var c := x.conn;
    var n := Sendable(c, MinPending(c));
    EdgeDelivered(x, y);
    SendNMirrors(c, x.written, n);
    SendNCarries(c, x.written, x.sent, n, y.conn.expected + c.params.window);
    SendNWf(c, n);
    SendNAccounted(c, y.conn, n);
  }

  /** An acknowledgement the receiver sent leads only to received numbers being forgotten. */
  lemma OnAckKeeps(x: Side, y: Side, m: Message)
    requires Channel(x, y) && x.conn.connID != 0 && m in y.sent && (m.Ack? || m.CAck?)
    ensures Channel(x.(conn := OnAck(x.conn, m), sent := x.sent + Elements(OnAckMsgs(x.conn, m))), y)
  {
    var ks := Acked(x.conn, m);
    if ks == {} {
      assert x.sent + Elements(OnAckMsgs(x.conn, m)) == x.sent;
    } else {
      forall k | k in ks ensures Got(y.conn, k) {
        assert k in x.conn.unacked;
      }
      ForgetKeeps(x, y, ks);
      RefillKeeps(x.(conn := Forget(x.conn, ks)), y);
    }
  }

  lemma ResendKeeps(x: Side, y: Side)
    requires Channel(x, y) && Sound(x.conn)
    ensures Carries(x.conn, x.written, x.sent + Resent(x.conn), y.conn.expected + x.conn.params.window)
  {
    EdgeDelivered(x, y);
    forall m | m in Resent(x.conn)
      ensures m.Data? && x.conn.isn < m.seqNum <= x.conn.isn + |x.written| && m.seqNum < x.conn.Front()
      ensures Genuine(m) && m.payload == Nth(x.conn, x.written, m.seqNum)
      ensures m.seqNum < y.conn.expected + x.conn.params.window
    {
      var k :| k in x.conn.unacked && m == DataMsg(x.conn.connID, k, x.conn.unacked[k]);
      assert MinPending(x.conn) in x.conn.unacked;
    }
  }

  // ----- the receiver moves -----

  lemma OneMore(read: seq<Payload>, inbox: seq<Payload>, p: Payload, written: seq<Payload>)
    requires |read + inbox| < |written| && read + inbox == written[..|read + inbox|] && p == written[|read + inbox|]
    ensures read + (inbox + [p]) == written[..|read + inbox| + 1]
  {
    var delivered := read + inbox;
    assert read + (inbox + [p]) == delivered + [p];
    assert written[..|delivered| + 1] == written[..|delivered|] + [written[|delivered|]];
  }

  lemma DeliverFollows(r: Conn, read: seq<Payload>, isn: nat, written: seq<Payload>, front: int)
    requires Follows(r, read + r.inbox, isn, written, front) && r.expected in r.buffered
    ensures Follows(DeliverOne(r), read + DeliverOne(r).inbox, isn, written, front)
    ensures forall k :: Got(r, k) ==> Got(DeliverOne(r), k)
  {
    OneMore(read, r.inbox, r.buffered[r.expected], written);
  }

  lemma {:induction false} DrainFollows(r: Conn, read: seq<Payload>, isn: nat, written: seq<Payload>, front: int)
    requires Follows(r, read + r.inbox, isn, written, front)
    ensures Follows(Drain(r), read + Drain(r).inbox, isn, written, front)
    ensures Drain(r).expected !in Drain(r).buffered && r.expected <= Drain(r).expected
    ensures forall k :: Got(r, k) ==> Got(Drain(r), k)
    decreases |r.buffered|
  {
    if r.expected in r.buffered {
      DeliverFollows(r, read, isn, written, front);
      DrainFollows(DeliverOne(r), read, isn, written, front);
    }
  }

  /** The receiver may move to `z` as long as it forgets nothing and acknowledges only what it got. */
  lemma ReceiverKeeps(x: Side, y: Side, z: Side)
    requires Channel(x, y)
    requires Follows(z.conn, z.Delivered(), x.conn.isn, x.written, x.conn.Front())
    requires z.conn.expected !in z.conn.buffered && y.conn.expected <= z.conn.expected
    requires forall k :: Got(y.conn, k) ==> Got(z.conn, k)
    requires y.sent <= z.sent && Truthful(z.conn, z.sent - y.sent)
    ensures Channel(x, z)
  {
    forall m | m in z.sent
      ensures m.Ack? && m.seqNum != 0 && m.seqNum != z.conn.isn ==> Got(z.conn, m.seqNum)
      ensures m.CAck? ==> m.seqNum < z.conn.expected
    {
      assert m in y.sent || m in z.sent - y.sent;
    }
  }

  /** A genuine data message is never out of the receiver's window. */
  lemma NeverOutOfWindow(x: Side, y: Side, m: Message)
    requires Channel(x, y) && m in x.sent && m.Data? && x.conn.params.window <= y.conn.params.window
    ensures m.seqNum < y.conn.expected + y.conn.params.window
    ensures y.conn.connID != 0 ==> Accepts(y.conn, m)
  {
  }

  function Buffer(r: Conn, m: Message): Conn
    requires m.Data? && r.expected <= m.seqNum
  {
    r.(buffered := r.buffered[m.seqNum := m.payload])
  }

  lemma BufferFollows(x: Side, y: Side, m: Message)
    requires Channel(x, y) && m in x.sent && m.Data? && y.conn.expected <= m.seqNum
    ensures Follows(Buffer(y.conn, m), y.read + y.conn.inbox, x.conn.isn, x.written, x.conn.Front())
    ensures Got(Buffer(y.conn, m), m.seqNum)
    ensures forall k :: Got(y.conn, k) ==> Got(Buffer(y.conn, m), k)
  {
  }

  /** A payload at or past the next expected number is buffered, acknowledged, and drained if its turn has come. */
  lemma BufferKeeps(x: Side, y: Side, m: Message, b: bool)
    requires Channel(x, y) && m in x.sent && m.Data? && y.conn.expected <= m.seqNum
    ensures Channel(x, y.(conn := Drain(Buffer(y.conn, m)).(heardData := b),
                          sent := y.sent + {Ack(y.conn.connID, m.seqNum)}))
  {
    var d := Buffer(y.conn, m);
    var e := Drain(d);
    var z := y.(conn := e.(heardData := b), sent := y.sent + {Ack(y.conn.connID, m.seqNum)});
    BufferFollows(x, y, m);
    DrainFollows(d, y.read, x.conn.isn, x.written, x.conn.Front());
    forall k | Got(d, k) ensures Got(z.conn, k) {
      assert Got(e, k);
    }
    ReceiverKeeps(x, y, z);
  }

  lemma OnDataKeeps(x: Side, y: Side, m: Message, b: bool)
    requires Channel(x, y) && m in x.sent && m.Data?
    ensures Channel(x, y.(conn := OnData(y.conn, m).(heardData := b), sent := y.sent + Elements(OnDataMsgs(y.conn, m))))
  {
    var r := y.conn;
    var z := y.(conn := r.(heardData := b), sent := y.sent + Elements(OnDataMsgs(r, m)));
    if !Accepts(r, m) {
      assert Elements(OnDataMsgs(r, m)) == {};
      ReceiverKeeps(x, y, z);
    } else {
      assert Elements(OnDataMsgs(r, m)) == {Ack(r.connID, m.seqNum)};
      if m.seqNum < r.expected {
        assert Got(z.conn, m.seqNum);
        ReceiverKeeps(x, y, z);
      } else {
        BufferKeeps(x, y, m, b);
      }
    }
  }

  // ----- the two sides together -----

  datatype Move =
    | Local(e: Event)
    | Arrive(g: Message, m: Message)  // a message the peer sent arrives, possibly damaged
    | SendCumulative(n: int)          // a cumulative acknowledgement, as other implementations send them
    | CloseCall
    | CloseCheck

  ghost function Apply(x: Side, e: Event): Side
    requires x.conn.Wf() && Enabled(x.conn, e)
  {
    x.(conn := Next(x.conn, e),
       sent := x.sent + Emits(x.conn, e),
       written := if e.Write? then x.written + [e.payload] else x.written,
       read := if e.Read? then x.read + [x.conn.inbox[0]] else x.read)
  }

  /** `x` moves to `z` while its peer is `y`. Nothing moves after Close has returned, and nothing is written after Close. */
  ghost predicate Moves(x: Side, y: Side, a: Move, z: Side) {
    && !x.close.Closed?
    && match a
       case Local(e) =>
         && !e.Receive?
         && (e.Write? ==> x.close.Open?)
         && (x.conn.Wf() ==> Enabled(x.conn, e) && z == Apply(x, e))
       case Arrive(g, m) =>
         && g in y.sent && MayArriveAs(g, m)
         && (x.conn.Wf() ==> z == Apply(x, Receive(m)))
       case SendCumulative(n) =>
         n < x.conn.expected && z == x.(sent := x.sent + {CAck(x.conn.connID, n)})
       case CloseCall =>
         x.close.Open? && z == x.(close := Closing)
       case CloseCheck =>
         && x.close.Closing?
         && z == x.(close := if x.conn.AllAcked() then Closed(true)
                             else if x.conn.Lost() then Closed(false) else Closing)
  }

  ghost predicate Healthy(x: Side) {
    && Sound(x.conn)
    && x.conn.connID != 0
    && (x.close == Closed(true) ==> x.conn.AllAcked())
  }

  ghost predicate Both(x: Side, y: Side) {
    Channel(x, y) && Channel(y, x)
  }

  /** A move that touches neither the sender's nor the receiver's records. */
  lemma IdleKeeps(x: Side, y: Side, z: Side)
    requires Both(x, y) && z.conn.Wf()
    requires z.conn == x.conn.(inbox := z.conn.inbox, heardData := z.conn.heardData, lastHeard := z.conn.lastHeard,
                               epoch := z.conn.epoch, countdown := z.conn.countdown, backoff := z.conn.backoff)
    requires z.Delivered() == x.Delivered() && z.written == x.written && x.sent <= z.sent
    requires Carries(x.conn, x.written, z.sent, y.conn.expected + x.conn.params.window)
    requires Truthful(x.conn, z.sent - x.sent)
    ensures Both(z, y)
  {
    assert z.conn.Front() == x.conn.Front();
    SenderIdle(x, y, z);
    forall k | Got(x.conn, k) ensures Got(z.conn, k) {}
    ReceiverKeeps(y, x, z);
  }

  lemma SenderIdle(x: Side, y: Side, z: Side)
    requires Channel(x, y) && z.conn.Wf() && z.written == x.written
    requires z.conn.isn == x.conn.isn && z.conn.nextSeq == x.conn.nextSeq && z.conn.queue == x.conn.queue
    requires z.conn.unacked == x.conn.unacked && z.conn.params == x.conn.params
    requires Carries(x.conn, x.written, z.sent, y.conn.expected + x.conn.params.window)
    ensures Channel(z, y)
  {
    assert z.conn.Front() == x.conn.Front();
    SameCarries(x.conn, z.conn, x.written, z.sent, y.conn.expected + x.conn.params.window);
  }

  /** A move of the sender's records alone, which sends data messages only. */
  lemma ReceiverIdle(x: Side, y: Side, z: Side)
    requires Channel(y, x)
    requires z.conn.isn == x.conn.isn && z.conn.expected == x.conn.expected && z.conn.buffered == x.conn.buffered
    requires z.Delivered() == x.Delivered() && x.sent <= z.sent && forall m :: m in z.sent - x.sent ==> m.Data?
    ensures Channel(y, z)
  {
    forall k | Got(x.conn, k) ensures Got(z.conn, k) {}
    ReceiverKeeps(y, x, z);
  }

  lemma RefillMsgsData(c: Conn, m: Message)
    requires 0 <= c.Front() && m in Elements(RefillMsgs(c))
    ensures m.Data?
  {
  }

  lemma WriteKeeps(x: Side, y: Side, p: Payload)
    requires Both(x, y) && Enabled(x.conn, Write(p))
    ensures Both(Apply(x, Write(p)), y)
  {
    EnqueueKeeps(x, y, p);
    var w := x.(conn := Enqueue(x.conn, p), written := x.written + [p]);
    RefillKeeps(w, y);
    var z := Apply(x, Write(p));
    forall m | m in z.sent - x.sent ensures m.Data? {
      RefillMsgsData(w.conn, m);
    }
    ReceiverIdle(x, y, z);
  }

  lemma AckSendsData(c: Conn, m: Message, a: Message)
    requires 0 <= c.Front() && (m.Ack? || m.CAck?) && a in Elements(OnAckMsgs(c, m))
    ensures a.Data?
  {
    RefillMsgsData(Forget(c, Acked(c, m)), a);
  }

  /** The receiver's half of a connection. */
  predicate SameReceiver(c: Conn, d: Conn) {
    d.isn == c.isn && d.expected == c.expected && d.buffered == c.buffered && d.inbox == c.inbox
  }

  lemma RefillIds(c: Conn)
    requires 0 <= c.Front()
    ensures SameReceiver(c, Refill(c))
  {
  }

  /** An acknowledgement touches only what is outstanding and queued. */
  lemma AckIds(c: Conn, m: Message)
    requires 0 <= c.Front() && (m.Ack? || m.CAck?) && c.connID != 0
    ensures SameReceiver(c, OnAck(c, m))
  {
    var ks := Acked(c, m);
    if ks != {} {
      RefillIds(Forget(c, ks));
    }
  }

  lemma AckArrives(x: Side, y: Side, m: Message)
    requires Both(x, y) && x.conn.connID != 0 && m in y.sent && (m.Ack? || m.CAck?)
    ensures Both(Apply(x, Receive(m)), y)
  {
    var z := x.(conn := OnAck(x.conn, m), sent := x.sent + Elements(OnAckMsgs(x.conn, m)));
    assert Apply(x, Receive(m)) == z;
    OnAckKeeps(x, y, m);
    AckIds(x.conn, m);
    forall a | a in z.sent - x.sent ensures a.Data? {
      AckSendsData(x.conn, m, a);
    }
    ReceiverIdle(x, y, z);
  }

  /** Data touches nothing of the sender's half. */
  lemma DataIds(c: Conn, m: Message)
    requires c.Wf() && m.Data?
    ensures var d := OnData(c, m);
            && d.isn == c.isn && d.nextSeq == c.nextSeq && d.queue == c.queue && d.unacked == c.unacked && d.params == c.params
            && forall a :: a in Elements(OnDataMsgs(c, m)) ==> a.Ack?
  {
    DrainIds(c.(buffered := if m.seqNum >= 0 then c.buffered[m.seqNum := m.payload] else c.buffered));
  }

  lemma DataLeavesSender(x: Side, y: Side, m: Message)
    requires Channel(x, y) && Sound(x.conn) && m.Data?
    ensures Channel(x.(conn := OnData(x.conn, m).(heardData := true), sent := x.sent + Elements(OnDataMsgs(x.conn, m))), y)
  {
    var z := x.(conn := OnData(x.conn, m).(heardData := true), sent := x.sent + Elements(OnDataMsgs(x.conn, m)));
    DataIds(x.conn, m);
    OnDataSound(x.conn, m);
    SameSenderSound(OnData(x.conn, m), z.conn);
    SenderIdle(x, y, z);
  }

  lemma DataArrives(x: Side, y: Side, m: Message)
    requires Both(x, y) && Sound(x.conn) && m in y.sent && m.Data?
    ensures Both(Apply(x, Receive(m)), y)
  {
    assert Admit(m) == Some(m);
    OnDataKeeps(y, x, m, true);
    DataLeavesSender(x, y, m);
    assert Apply(x, Receive(m)) ==
      x.(conn := OnData(x.conn, m).(heardData := true), sent := x.sent + Elements(OnDataMsgs(x.conn, m)));
  }

  lemma EpochMsgs(x: Side, y: Side)
    requires Channel(x, y) && Sound(x.conn)
    ensures Carries(x.conn, x.written, x.sent + Emits(x.conn, Epoch), y.conn.expected + x.conn.params.window)
    ensures forall m :: m in Emits(x.conn, Epoch) ==> !m.CAck? && (m.Ack? ==> m.seqNum == 0)
  {
    ResendKeeps(x, y);
    forall m | m in Emits(x.conn, Epoch)
      ensures !m.CAck? && (m.Ack? ==> m.seqNum == 0)
      ensures m.Data? ==> m in Resent(x.conn)
    {
      assert m in Resent(x.conn) || m in Reminders(x.conn);
    }
  }

  lemma EpochKeeps(x: Side, y: Side)
    requires Both(x, y) && Sound(x.conn)
    ensures Both(Apply(x, Epoch), y)
  {
    TickSound(x.conn);
    EpochMsgs(x, y);
    IdleKeeps(x, y, Apply(x, Epoch));
  }

  lemma QuietKeeps(x: Side, y: Side, c: Conn)
    requires Both(x, y) && Sound(x.conn)
    requires c == x.conn.(heardData := c.heardData, lastHeard := c.lastHeard)
    ensures Both(x.(conn := c), y)
  {
    SameSenderSound(x.conn, c);
    IdleKeeps(x, y, x.(conn := c));
  }

  lemma ReadDelivers(read: seq<Payload>, inbox: seq<Payload>)
    requires inbox != []
    ensures (read + [inbox[0]]) + inbox[1..] == read + inbox
  {
  }

  lemma ReadKeeps(x: Side, y: Side)
    requires Both(x, y) && Sound(x.conn) && Enabled(x.conn, Read)
    ensures Both(Apply(x, Read), y)
  {
    var z := Apply(x, Read);
    ReadDelivers(x.read, x.conn.inbox);
    SameSenderSound(x.conn, z.conn);
    IdleKeeps(x, y, z);
  }

  lemma IntactArrives(x: Side, y: Side, g: Message)
    requires Both(x, y) && Sound(x.conn) && x.conn.connID != 0 && g in y.sent
    ensures Both(Apply(x, Receive(g)), y)
  {
    if g.Data? {
      DataArrives(x, y, g);
    } else if g.Connect? {
      QuietKeeps(x, y, x.conn.(heardData := true));
      assert Apply(x, Receive(g)) == x.(conn := x.conn.(heardData := true));
    } else {
      AckArrives(x, y, g);
    }
  }

  lemma SameArrival(x: Side, y: Side, g: Message, m: Message)
    requires Both(x, y) && Sound(x.conn) && x.conn.connID != 0 && g in y.sent
    requires Next(x.conn, Receive(m)) == Next(x.conn, Receive(g)) && Emits(x.conn, Receive(m)) == Emits(x.conn, Receive(g))
    ensures Both(Apply(x, Receive(m)), y)
  {
    IntactArrives(x, y, g);
  }

  lemma NoArrival(x: Side, y: Side, m: Message)
    requires Both(x, y) && Sound(x.conn) && Emits(x.conn, Receive(m)) == {}
    requires Next(x.conn, Receive(m)) in {x.conn, x.conn.(heardData := true)}
    ensures Both(Apply(x, Receive(m)), y)
  {
    QuietKeeps(x, y, Next(x.conn, Receive(m)));
    assert x.sent + {} == x.sent;
  }

  lemma ArrivalKeeps(x: Side, y: Side, g: Message, m: Message)
    requires Both(x, y) && Sound(x.conn) && x.conn.connID != 0 && g in y.sent && MayArriveAs(g, m)
    ensures Both(Apply(x, Receive(m)), y)
  {
    DamageHarmless(x.conn, g, m);
    if Next(x.conn, Receive(m)) == Next(x.conn, Receive(g)) && Emits(x.conn, Receive(m)) == Emits(x.conn, Receive(g)) {
      SameArrival(x, y, g, m);
    } else {
      NoArrival(x, y, m);
    }
  }

  lemma CumulativeKeeps(x: Side, y: Side, n: int)
    requires Both(x, y) && n < x.conn.expected
    ensures Both(x.(sent := x.sent + {CAck(x.conn.connID, n)}), y)
  {
    IdleKeeps(x, y, x.(sent := x.sent + {CAck(x.conn.connID, n)}));
  }

  lemma NextIds(c: Conn, e: Event)
    requires c.Wf() && Enabled(c, e) && c.connID != 0
    ensures Next(c, e).connID == c.connID && Next(c, e).isn == c.isn && Next(c, e).params == c.params
  {
    match e
    case Receive(m) =>
      if m.Data? && Admit(m).Some? && c.expected <= m.seqNum {
        DrainIds(Buffer(c, Admit(m).value));
      }
    case _ =>
  }

  lemma LocalKeeps(x: Side, y: Side, e: Event)
    requires Both(x, y) && Sound(x.conn) && Enabled(x.conn, e) && !e.Receive?
    ensures Both(Apply(x, e), y)
  {
    match e
    case Write(p) => WriteKeeps(x, y, p);
    case Read => ReadKeeps(x, y);
    case Heard =>
      QuietKeeps(x, y, Next(x.conn, e));
      assert Apply(x, e) == x.(conn := Next(x.conn, e));
    case Epoch => EpochKeeps(x, y);
  }

  lemma ApplyHealthy(x: Side, e: Event)
    requires Healthy(x) && !x.close.Closed? && Enabled(x.conn, e)
    ensures Healthy(Apply(x, e))
  {
    NextSound(x.conn, e);
    NextIds(x.conn, e);
  }

  lemma MoveKeeps(x: Side, y: Side, a: Move, z: Side)
    requires Both(x, y) && Healthy(x) && Moves(x, y, a, z)
    ensures Both(z, y) && Healthy(z)
  {
    match a
    case Local(e) =>
      LocalKeeps(x, y, e);
      ApplyHealthy(x, e);
    case Arrive(g, m) =>
      ArrivalKeeps(x, y, g, m);
      ApplyHealthy(x, Receive(m));
    case SendCumulative(n) =>
      CumulativeKeeps(x, y, n);
    case CloseCall =>
      IdleKeeps(x, y, z);
    case CloseCheck =>
      IdleKeeps(x, y, z);
  }

  // ----- runs -----

  datatype Net = Net(a: Side, b: Side)

  /** A turn: which side moves, and how. */
  datatype Turn = Turn(first: bool, move: Move)

  ghost predicate NetStep(s: Net, t: Turn, s': Net) {
    if t.first then s'.b == s.b && Moves(s.a, s.b, t.move, s'.a)
    else s'.a == s.a && Moves(s.b, s.a, t.move, s'.b)
  }

  /** The connection as the handshake leaves it, with its messages still around in the network. */
  ghost predicate Connected(s: Net) {
    var isn, id := s.a.conn.isn, s.a.conn.connID;
    && id != 0
    && s.a == Side(Fresh(s.a.conn.params, id, isn), [], [], {Connect(isn)}, Open)
    && s.b == Side(Fresh(s.b.conn.params, id, isn), [], [], {Ack(id, isn)}, Open)
  }

  /** Turn `i` leads from state `i` to the next one. */
  ghost predicate TurnAt(run: seq<Net>, turns: seq<Turn>, i: nat) {
    i < |turns| && i + 1 < |run| && NetStep(run[i], turns[i], run[i + 1])
  }

  ghost predicate NetRun(run: seq<Net>, turns: seq<Turn>) {
    && |run| == |turns| + 1
    && Connected(run[0])
    && (forall i: nat :: i < |turns| ==> TurnAt(run, turns, i))
  }

  ghost predicate NetInv(s: Net) {
    Both(s.a, s.b) && Healthy(s.a) && Healthy(s.b)
  }

  lemma ConnectedInv(s: Net)
    requires Connected(s)
    ensures NetInv(s)
  {
    FreshSound(s.a.conn.params, s.a.conn.connID, s.a.conn.isn);
    FreshSound(s.b.conn.params, s.b.conn.connID, s.b.conn.isn);
  }

  lemma NetStepKeeps(s: Net, t: Turn, s': Net)
    requires NetInv(s) && NetStep(s, t, s')
    ensures NetInv(s')
  {
    if t.first {
      MoveKeeps(s.a, s.b, t.move, s'.a);
    } else {
      MoveKeeps(s.b, s.a, t.move, s'.b);
    }
  }

  lemma {:induction false} InvAlong(run: seq<Net>, turns: seq<Turn>, i: nat)
    requires i < |run| && NetInv(run[0]) && forall k: nat :: k < i ==> TurnAt(run, turns, k)
    ensures NetInv(run[i])
  {
    if i > 0 {
      var k := i - 1;
      InvAlong(run, turns, k);
      assert TurnAt(run, turns, k);
      NetStepKeeps(run[k], turns[k], run[k + 1]);
    }
  }

  lemma RunInv(run: seq<Net>, turns: seq<Turn>, i: nat)
    requires NetRun(run, turns) && i < |run|
    ensures NetInv(run[i])
  {
    ConnectedInv(run[0]);
    InvAlong(run, turns, i);
  }

  /** Reliable FIFO: in every state of every run, what a side delivered is a prefix of what the other wrote. */
  lemma FifoTheorem(run: seq<Net>, turns: seq<Turn>, i: nat)
    requires NetRun(run, turns) && i < |run|
    ensures run[i].b.Delivered() <= run[i].a.written && run[i].a.Delivered() <= run[i].b.written
    ensures run[i].b.read <= run[i].a.written && run[i].a.read <= run[i].b.written
  {
    RunInv(run, turns, i);
    ReadIsDelivered(run[i].a);
    ReadIsDelivered(run[i].b);
  }

  lemma ReadIsDelivered(x: Side)
    ensures x.read <= x.Delivered()
  {
  }

  /** A side with nothing queued and nothing outstanding has had everything delivered. */
  lemma AllAckedDelivered(x: Side, y: Side)
    requires Channel(x, y) && x.conn.AllAcked()
    ensures y.Delivered() == x.written
  {
    var e := y.conn.expected;
    assert x.conn.unacked == map[] && x.conn.queue == [];
    assert !Got(y.conn, e);
    assert e == x.conn.Front();
  }

  /** When Close returns success, the peer has delivered everything that was ever written. */
  lemma CloseTheorem(run: seq<Net>, turns: seq<Turn>, i: nat)
    requires NetRun(run, turns) && i < |run|
    ensures run[i].a.close == Closed(true) ==> run[i].b.Delivered() == run[i].a.written
    ensures run[i].b.close == Closed(true) ==> run[i].a.Delivered() == run[i].b.written
  {
    RunInv(run, turns, i);
    if run[i].a.close == Closed(true) {
      AllAckedDelivered(run[i].a, run[i].b);
    }
    if run[i].b.close == Closed(true) {
      AllAckedDelivered(run[i].b, run[i].a);
    }
  }

  /** Whatever a side has sent and no longer holds as outstanding has reached the peer. */
  lemma ReleasedMeansReceived(run: seq<Net>, turns: seq<Turn>, i: nat, k: nat)
    requires NetRun(run, turns) && i < |run|
    ensures var a, b := run[i].a.conn, run[i].b.conn;
            && (a.isn < k < a.Front() && k !in a.unacked ==> Got(b, k))
            && (b.isn < k < b.Front() && k !in b.unacked ==> Got(a, k))
  {
    RunInv(run, turns, i);
  }

  /** However long a data message was delayed, the receiver's window check and checksum let it in. */
  lemma WindowsAgreeTheorem(run: seq<Net>, turns: seq<Turn>, i: nat, m: Message)
    requires NetRun(run, turns) && i < |run| && m.Data?
    ensures var a, b := run[i].a, run[i].b;
            && (m in a.sent && a.conn.params.window <= b.conn.params.window ==> Accepts(b.conn, m))
            && (m in b.sent && b.conn.params.window <= a.conn.params.window ==> Accepts(a.conn, m))
  {
    RunInv(run, turns, i);
    var a, b := run[i].a, run[i].b;
    if m in a.sent && a.conn.params.window <= b.conn.params.window {
      NeverOutOfWindow(a, b, m);
    }
    if m in b.sent && b.conn.params.window <= a.conn.params.window {
      NeverOutOfWindow(b, a, m);
    }
  }
}
