/**
 One LSP endpoint: a sliding-window sender and an in-order receiver.
 The value type `Conn` and the functions on it say what every operation computes; the class
 `Endpoint` performs the operations in place, with the loops of the implementation.
 */
module LspEndpoint {
  import opened Checksum

  type Payload = seq<byte>

  datatype Option<+T> = None | Some(value: T)

  datatype Message =
    | Connect(seqNum: int)
    | Data(connID: int, seqNum: int, size: int, checksum: int, payload: Payload)
    | Ack(connID: int, seqNum: int)
    | CAck(connID: int, seqNum: int)

  datatype Params = Params(window: nat, maxUnacked: nat, maxBackoff: nat, epochLimit: int)

  datatype Conn = Conn(
    params: Params,
    connID: int,               // 0 until the connection request is acknowledged
    isn: nat,                  // initial sequence number
    nextSeq: nat,              // next sequence number to assign
    queue: seq<Payload>,       // written, not yet sent
    unacked: map<nat, Payload>,
    backoff: map<nat, int>,    // epochs to skip after the next retransmission
    countdown: map<nat, int>,  // epochs left to skip
    expected: nat,             // next sequence number to deliver
    buffered: map<nat, Payload>,
    inbox: seq<Payload>,       // delivered in order, not yet read
    epoch: int,
    lastHeard: int,
    heardData: bool)
  {
    /** The first sequence number that has not been sent. */
    function Front(): int {
      nextSeq - |queue|
    }

    predicate Lost() {
      epoch - lastHeard >= params.epochLimit
    }

    predicate AllAcked() {
      |unacked| + |queue| == 0
    }

    /** Every outstanding message has a retransmission schedule. */
    ghost predicate Scheduled() {
      forall k :: k in unacked ==> k in backoff && k in countdown
    }

    /** What every operation keeps about the bookkeeping of one endpoint. */
    ghost predicate Wf() {
      && isn < Front()
      && (forall k :: k in unacked ==> isn < k < Front())
      && Scheduled()
      && isn < expected
      && expected !in buffered
      && (forall k :: k in buffered ==> expected < k)
    }
  }

  /** A connection before anything is written or received. */
  function Fresh(params: Params, connID: int, isn: nat): Conn {
    Conn(params, connID, isn, isn + 1, [], map[], map[], map[], isn + 1, map[], [], 0, 0, false)
  }

  /** The arithmetic noise function of the implementation: its guard never holds and it always yields 0. */
  function Zero(x: bv64): (r: bv64)
    ensures r == 0
  {
    var c: bv64 := 9921;
    if (((x ^ x) | c) ^ c) + 1 == 5 then x ^ (x & c) else x ^ x
  }

  // ----- sending -----

  function DataMsg(connID: int, seqNum: int, payload: Payload): Message {
    Data(connID, seqNum, |payload|, Sum16(connID, seqNum, |payload|, payload), payload)
  }

  lemma {:induction false} LeastExists(ks: set<nat>) returns (k: nat)
    requires |ks| > 0
    ensures k in ks && forall j :: j in ks ==> k <= j
  {
    var x :| x in ks;
    k := x;
    var rest := ks - {x};
    if |rest| > 0 {
      var r := LeastExists(rest);
      k := if r < x then r else x;
    }
    forall j | j in ks ensures k <= j {
      assert j == x || j in rest;
    }
  }

  ghost predicate IsLeast(m: int, front: int, ks: set<nat>) {
    && m <= front
    && (forall k :: k in ks ==> m <= k)
    && (m == front || m in ks)
  }

  /** The oldest sequence number that still matters to the window: the least of `front` and `ks`. */
  function Least(front: int, ks: set<nat>): (m: int)
    ensures IsLeast(m, front, ks)
  {
    if forall k :: k in ks ==> front <= k then front
    else
      assert exists k :: k in ks && forall j :: j in ks ==> k <= j by {
        var least := LeastExists(ks);
      }
      var k :| k in ks && forall j :: j in ks ==> k <= j;
      k
  }

  lemma LeastUnique(m: int, front: int, ks: set<nat>)
    requires IsLeast(m, front, ks)
    ensures m == Least(front, ks)
  {
  }

  function MinPending(c: Conn): int {
    Least(c.Front(), c.unacked.Keys)
  }

  function Max(a: int, b: int): int { if a < b then b else a }

  function Min(a: int, b: int): int { if a < b then a else b }

  /** How many queued payloads both limits allow, when `base` is the lower edge of the window. */
  function Sendable(c: Conn, base: int): nat {
    Max(0, Min(|c.queue|, Min(base + c.params.window - c.Front(), c.params.maxUnacked - |c.unacked|)))
  }

  /** The map `m` with the values `vs` at the keys from `lo` on. */
  function Extend<V>(m: map<nat, V>, lo: nat, vs: seq<V>): map<nat, V> {
    if vs == [] then m
    else
      var n := |vs| - 1;
      Extend(m, lo, vs[..n])[lo + n := vs[n]]
  }

  lemma {:induction false} ExtendAt<V>(m: map<nat, V>, lo: nat, vs: seq<V>, k: nat)
    ensures k in Extend(m, lo, vs) <==> k in m || lo <= k < lo + |vs|
    ensures lo <= k < lo + |vs| ==> Extend(m, lo, vs)[k] == vs[k - lo]
    ensures k in m && !(lo <= k < lo + |vs|) ==> Extend(m, lo, vs)[k] == m[k]
  {
    if vs != [] {
      ExtendAt(m, lo, vs[..|vs| - 1], k);
    }
  }

  /** The state after the first `n` queued payloads went out. */
  function SendN(c: Conn, n: nat): Conn
    requires n <= |c.queue| && 0 <= c.Front()
  {
    c.(queue := c.queue[n..],
       unacked := Extend(c.unacked, c.Front(), c.queue[..n]),
       backoff := Extend(c.backoff, c.Front(), Repeat(Min(1, c.params.maxBackoff), n)),
       countdown := Extend(c.countdown, c.Front(), Repeat(0, n)))
  }

  function Repeat(v: int, n: nat): (r: seq<int>)
    ensures |r| == n
  {
    seq(n, _ => v)
  }

  function SentMsgs(c: Conn, n: nat): seq<Message>
    requires n <= |c.queue| && 0 <= c.Front()
  {
    seq(n, i requires 0 <= i < n => DataMsg(c.connID, c.Front() + i, c.queue[i]))
  }

  function Refill(c: Conn): Conn
    requires 0 <= c.Front()
  {
    SendN(c, Sendable(c, MinPending(c)))
  }

  function RefillMsgs(c: Conn): seq<Message>
    requires 0 <= c.Front()
  {
    SentMsgs(c, Sendable(c, MinPending(c)))
  }

  function Enqueue(c: Conn, payload: Payload): Conn {
    c.(queue := c.queue + [payload], nextSeq := c.nextSeq + 1)
  }

  // ----- receiving -----

  /** The size check of the reader: short payloads are rejected, long ones cut back to the announced size. */
  function Admit(m: Message): Option<Message> {
    if !m.Data? then Some(m)
    else if |m.payload| < m.size then None
    else if |m.payload| > m.size >= 0 then Some(m.(payload := m.payload[..m.size]))
    else Some(m)
  }

  function DeliverOne(c: Conn): Conn
    requires c.expected in c.buffered
  {
    c.(inbox := c.inbox + [c.buffered[c.expected]],
       buffered := c.buffered - {c.expected},
       expected := c.expected + 1)
  }

  /** Moves the run of consecutive buffered payloads that starts at `expected` to the inbox. */
  function Drain(c: Conn): Conn
    decreases |c.buffered|
  {
    if c.expected in c.buffered then Drain(DeliverOne(c)) else c
  }

  predicate Accepts(c: Conn, m: Message)
    requires m.Data?
  {
    && c.connID != 0
    && m.seqNum < c.expected + c.params.window
    && Sum16(m.connID, m.seqNum, m.size, m.payload) == m.checksum
  }

  function OnData(c: Conn, m: Message): Conn
    requires m.Data?
  {
    if Accepts(c, m) && c.expected <= m.seqNum then
      Drain(c.(buffered := c.buffered[m.seqNum := m.payload]))
    else c
  }

  function OnDataMsgs(c: Conn, m: Message): seq<Message>
    requires m.Data?
  {
    if Accepts(c, m) then [Ack(c.connID, m.seqNum)] else []
  }

  /** The outstanding sequence numbers that an acknowledgement covers. */
  function Acked(c: Conn, m: Message): set<nat>
    requires m.Ack? || m.CAck?
  {
    if m.seqNum == 0 then {}
    else set k | k in c.unacked && (if m.Ack? then k == m.seqNum else k <= m.seqNum)
  }

  function Forget(c: Conn, ks: set<nat>): Conn {
    c.(unacked := c.unacked - ks)
  }

  function OnAck(c: Conn, m: Message): Conn
    requires 0 <= c.Front() && (m.Ack? || m.CAck?)
  {
    if c.connID == 0 then
      if m.seqNum == c.isn then c.(connID := m.connID) else c
    else if Acked(c, m) == {} then c
    else Refill(Forget(c, Acked(c, m)))
  }

  function OnAckMsgs(c: Conn, m: Message): seq<Message>
    requires 0 <= c.Front() && (m.Ack? || m.CAck?)
  {
    if c.connID == 0 || Acked(c, m) == {} then [] else RefillMsgs(Forget(c, Acked(c, m)))
  }

  function OnMessage(c: Conn, m: Message): Conn
    requires 0 <= c.Front()
  {
    match m
    case Connect(_) => c.(heardData := true)
    case Data(_, _, _, _, _) => OnData(c, m).(heardData := true)
    case Ack(_, _) => OnAck(c, m)
    case CAck(_, _) => OnAck(c, m)
  }

  function OnMessageMsgs(c: Conn, m: Message): seq<Message>
    requires 0 <= c.Front()
  {
    match m
    case Connect(_) => []
    case Data(_, _, _, _, _) => OnDataMsgs(c, m)
    case Ack(_, _) => OnAckMsgs(c, m)
    case CAck(_, _) => OnAckMsgs(c, m)
  }

  // ----- epochs -----

  predicate Due(c: Conn, k: nat)
    requires k in c.countdown
  {
    c.countdown[k] == 0
  }

  predicate Resends(c: Conn) {
    c.connID > 0 && !c.(epoch := c.epoch + 1).Lost()
  }

  /** One epoch on a schedule of `countdown` epochs to skip and `backoff` as the next interval. */
  function AgedCountdown(countdown: int, backoff: int): int {
    if countdown == 0 then backoff else countdown - 1
  }

  function AgedBackoff(countdown: int, backoff: int, maxBackoff: int): int {
    if countdown == 0 then Min(2 * backoff, maxBackoff) else backoff
  }

  function NextCountdown(c: Conn, k: nat): int
    requires k in c.countdown && k in c.backoff
  {
    AgedCountdown(c.countdown[k], c.backoff[k])
  }

  function NextBackoff(c: Conn, k: nat): int
    requires k in c.countdown && k in c.backoff
  {
    AgedBackoff(c.countdown[k], c.backoff[k], c.params.maxBackoff)
  }

  function Tick(c: Conn): Conn
    requires c.Scheduled()
  {
    var d := c.(epoch := c.epoch + 1, heardData := false);
    if !Resends(c) then d
    else
      d.(countdown := map k | k in c.countdown :: if k in c.unacked then NextCountdown(c, k) else c.countdown[k],
         backoff := map k | k in c.backoff :: if k in c.unacked then NextBackoff(c, k) else c.backoff[k])
  }

  /** The due messages among the outstanding numbers `ks`. */
  ghost function DueAmong(c: Conn, ks: set<nat>): set<Message>
    requires c.Scheduled() && ks <= c.unacked.Keys
  {
    set k | k in ks && Due(c, k) :: DataMsg(c.connID, k, c.unacked[k])
  }

  /** The retransmissions of one epoch; the implementation emits them in no particular order. */
  ghost function Resent(c: Conn): set<Message>
    requires c.Scheduled()
  {
    if Resends(c) then DueAmong(c, c.unacked.Keys) else {}
  }

  /** What an epoch sends besides retransmissions: a sign of life, or the connection request again. */
  function ReminderMsgs(connID: int, isn: nat, live: bool, heardData: bool): seq<Message> {
    (if live && !heardData then [Ack(connID, 0)] else []) +
    (if connID == 0 then [Connect(isn)] else [])
  }

  function Reminders(c: Conn): seq<Message> {
    ReminderMsgs(c.connID, c.isn, Resends(c), c.heardData)
  }

  // ----- steps of the loops -----

  /** The oldest queued payload goes out. */
  function SendOne(c: Conn): Conn
    requires c.queue != [] && 0 <= c.Front()
  {
    c.(queue := c.queue[1..],
       unacked := c.unacked[c.Front() := c.queue[0]],
       backoff := c.backoff[c.Front() := Min(1, c.params.maxBackoff)],
       countdown := c.countdown[c.Front() := 0])
  }

  /** One more payload sent after `n` is `n + 1` payloads sent. */
  lemma SendOneMore(c: Conn, n: nat)
    requires n < |c.queue| && 0 <= c.Front()
    ensures SendN(c, n + 1) == SendOne(SendN(c, n))
  {
    var w := Min(1, c.params.maxBackoff);
    assert c.queue[..n + 1][..n] == c.queue[..n];
    assert Repeat(w, n + 1)[..n] == Repeat(w, n);
    assert Repeat(0, n + 1)[..n] == Repeat(0, n);
    assert SendN(c, n).Front() == c.Front() + n;
    assert SendN(c, n).queue[1..] == c.queue[n + 1..];
  }

  lemma Assoc<T>(a: seq<T>, b: seq<T>, x: T)
    ensures (a + b) + [x] == a + (b + [x])
  {
  }

  lemma SentOneMore(c: Conn, n: nat)
    requires n < |c.queue| && 0 <= c.Front()
    ensures SendN(c, n).queue != [] && SendN(c, n).Front() == c.Front() + n
    ensures SentMsgs(c, n + 1) ==
            SentMsgs(c, n) + [DataMsg(c.connID, SendN(c, n).Front(), SendN(c, n).queue[0])]
  {
  }

  lemma InsertSize<V>(m: map<nat, V>, k: nat, v: V)
    requires k !in m
    ensures |m[k := v]| == |m| + 1
  {
    assert m[k := v].Keys == m.Keys + {k};
  }

  lemma {:induction false} ExtendSize<V>(m: map<nat, V>, lo: nat, vs: seq<V>)
    requires forall k :: k in m ==> k < lo
    ensures |Extend(m, lo, vs)| == |m| + |vs|
  {
    if vs != [] {
      var n := |vs| - 1;
      ExtendSize(m, lo, vs[..n]);
      ExtendAt(m, lo, vs[..n], lo + n);
      InsertSize(Extend(m, lo, vs[..n]), lo + n, vs[n]);
    }
  }

  lemma EnqueueWf(c: Conn, payload: Payload)
    requires c.Wf()
    ensures Enqueue(c, payload).Wf()
  {
    assert Enqueue(c, payload).Front() == c.Front();
  }

  lemma ForgetWf(c: Conn, ks: set<nat>)
    requires c.Wf()
    ensures Forget(c, ks).Wf()
  {
    assert Forget(c, ks).Front() == c.Front();
  }

  /** What one turn of the refill loop contributes, starting from `outbox`. */
  lemma SendStep(c: Conn, n: nat, outbox: seq<Message>)
    requires c.Wf() && n < |c.queue|
    ensures SendN(c, n).queue != []
    ensures SendN(c, n + 1) == SendOne(SendN(c, n))
    ensures |SendN(c, n + 1).unacked| == |c.unacked| + n + 1
    ensures outbox + SentMsgs(c, n) + [DataMsg(c.connID, SendN(c, n).Front(), SendN(c, n).queue[0])] ==
            outbox + SentMsgs(c, n + 1)
  {
    SendOneMore(c, n);
    SentOneMore(c, n);
    SendNSize(c, n + 1);
    Assoc(outbox, SentMsgs(c, n), DataMsg(c.connID, SendN(c, n).Front(), SendN(c, n).queue[0]));
  }

  predicate MaySend(c: Conn, least: int) {
    |c.queue| > 0 && c.nextSeq - |c.queue| < least + c.params.window && |c.unacked| < c.params.maxUnacked
  }

  /** The loop goes on exactly while fewer than the closed-form number have been sent. */
  lemma SendableGuard(c: Conn, least: int, n: nat)
    requires c.Wf() && n <= Sendable(c, least)
    ensures MaySend(SendN(c, n), least) <==> n < Sendable(c, least)
  {
    SendNSize(c, n);
  }

  /** One turn of the loop. */
  lemma SendTurn(c: Conn, least: int, n: nat, outbox: seq<Message>)
    requires c.Wf() && n < Sendable(c, least)
    ensures SendN(c, n).queue != [] && |SendN(c, n).queue| <= SendN(c, n).nextSeq
    ensures SendN(c, n + 1) == SendOne(SendN(c, n))
    ensures MaySend(SendN(c, n + 1), least) <==> n + 1 < Sendable(c, least)
    ensures outbox + SentMsgs(c, n) + [DataMsg(c.connID, SendN(c, n).Front(), SendN(c, n).queue[0])] ==
            outbox + SentMsgs(c, n + 1)
  {
    SendStep(c, n, outbox);
    SendableGuard(c, least, n + 1);
  }

  lemma SendNothing(c: Conn)
    requires 0 <= c.Front()
    ensures SendN(c, 0) == c && SentMsgs(c, 0) == []
  {
  }

  lemma SendNSize(c: Conn, n: nat)
    requires c.Wf() && n <= |c.queue|
    ensures |SendN(c, n).unacked| == |c.unacked| + n
  {
    ExtendSize(c.unacked, c.Front(), c.queue[..n]);
  }

  /** The outstanding sequence numbers below `i`. */
  function Below(c: Conn, i: int): set<nat> {
    set k | k in c.unacked && k < i
  }

  lemma BelowStep(c: Conn, i: int)
    ensures Below(c, i + 1) == Below(c, i) + (if i in c.unacked then {i} else {})
  {
  }

  lemma DueGrows(c: Conn, ks: set<nat>, k: nat)
    requires c.Scheduled() && ks <= c.unacked.Keys && k in c.unacked && k !in ks
    ensures DueAmong(c, ks + {k}) ==
            if Due(c, k) then DueAmong(c, ks) + {DataMsg(c.connID, k, c.unacked[k])} else DueAmong(c, ks)
    ensures DataMsg(c.connID, k, c.unacked[k]) !in DueAmong(c, ks)
  {
    var m := DataMsg(c.connID, k, c.unacked[k]);
    forall x | x in DueAmong(c, ks) ensures x != m {
      var j :| j in ks && Due(c, j) && x == DataMsg(c.connID, j, c.unacked[j]);
    }
    forall x | x in DueAmong(c, ks + {k})
      ensures x in DueAmong(c, ks) || (Due(c, k) && x == m)
    {
      var j :| j in ks + {k} && Due(c, j) && x == DataMsg(c.connID, j, c.unacked[j]);
    }
    forall x | x in DueAmong(c, ks) ensures x in DueAmong(c, ks + {k}) {
      var j :| j in ks && Due(c, j) && x == DataMsg(c.connID, j, c.unacked[j]);
      assert j in ks + {k};
    }
  }

  ghost function Elements<T>(s: seq<T>): set<T> {
    set x | x in s
  }

  lemma ElementsAppend<T>(s: seq<T>, x: T)
    ensures Elements(s + [x]) == Elements(s) + {x}
  {
  }

  /** The schedules `cd` and `bo` have moved on by one epoch at the numbers in `done` and nowhere else. */
  ghost predicate Aged(c: Conn, done: set<nat>, cd: map<nat, int>, bo: map<nat, int>)
    requires c.Scheduled() && done <= c.unacked.Keys
  {
    && cd.Keys == c.countdown.Keys && bo.Keys == c.backoff.Keys
    && (forall k :: k in cd ==> cd[k] == if k in done then NextCountdown(c, k) else c.countdown[k])
    && (forall k :: k in bo ==> bo[k] == if k in done then NextBackoff(c, k) else c.backoff[k])
  }

  lemma AgedStep(c: Conn, done: set<nat>, cd: map<nat, int>, bo: map<nat, int>, k: nat)
    requires c.Scheduled() && done <= c.unacked.Keys && k in c.unacked && k !in done
    requires Aged(c, done, cd, bo)
    ensures cd[k] == c.countdown[k] && bo[k] == c.backoff[k]
    ensures Aged(c, done + {k}, cd[k := NextCountdown(c, k)], bo[k := NextBackoff(c, k)])
  {
  }

  /** `resent` lists the due messages of `done`, each once. */
  ghost predicate Lists(c: Conn, done: set<nat>, resent: seq<Message>)
    requires c.Scheduled() && done <= c.unacked.Keys
  {
    Elements(resent) == DueAmong(c, done) && |resent| == |DueAmong(c, done)|
  }

  lemma ListsStep(c: Conn, done: set<nat>, resent: seq<Message>, k: nat)
    requires c.Scheduled() && done <= c.unacked.Keys && k in c.unacked && k !in done
    requires Lists(c, done, resent)
    ensures Lists(c, done + {k}, resent + if Due(c, k) then [DataMsg(c.connID, k, c.unacked[k])] else [])
  {
    DueGrows(c, done, k);
    if Due(c, k) {
      ElementsAppend(resent, DataMsg(c.connID, k, c.unacked[k]));
    } else {
      assert resent + [] == resent;
    }
  }

  /** What one turn of the retransmission loop contributes, starting from `outbox`. */
  lemma AgeTurn(c: Conn, done: set<nat>, cd: map<nat, int>, bo: map<nat, int>,
                resent: seq<Message>, outbox: seq<Message>, k: nat) returns (more: seq<Message>)
    requires c.Scheduled() && done <= c.unacked.Keys && k in c.unacked && k !in done
    requires Aged(c, done, cd, bo) && Lists(c, done, resent)
    ensures k in cd && k in bo
    ensures var cd', bo' := cd[k := AgedCountdown(cd[k], bo[k])], bo[k := AgedBackoff(cd[k], bo[k], c.params.maxBackoff)];
            Aged(c, done + {k}, cd', bo')
    ensures more == if cd[k] == 0 then [DataMsg(c.connID, k, c.unacked[k])] else []
    ensures Lists(c, done + {k}, resent + more)
    ensures outbox + resent + more == outbox + (resent + more)
  {
    AgedStep(c, done, cd, bo, k);
    ListsStep(c, done, resent, k);
    more := if Due(c, k) then [DataMsg(c.connID, k, c.unacked[k])] else [];
    AssocSeq(outbox, resent, more);
  }

  /** When every outstanding message has been aged, what is left is one epoch later. */
  lemma AgedAll(c: Conn, d: Conn, cd: map<nat, int>, bo: map<nat, int>, resent: seq<Message>)
    requires c.Scheduled() && Resends(c) && d == c.(epoch := c.epoch + 1) && d.Scheduled()
    requires Aged(d, d.unacked.Keys, cd, bo) && Lists(d, d.unacked.Keys, resent)
    ensures Tick(c) == d.(heardData := false, countdown := cd, backoff := bo)
    ensures Elements(resent) == Resent(c) && |resent| == |Resent(c)|
  {
    assert Tick(c).countdown == cd;
    assert Tick(c).backoff == bo;
    assert DueAmong(d, d.unacked.Keys) == DueAmong(c, c.unacked.Keys);
  }

  lemma MoveOne(all: set<nat>, todo: set<nat>, k: nat)
    requires k in todo && todo <= all
    ensures all - (todo - {k}) == (all - todo) + {k} && todo - {k} <= all
  {
  }

  lemma AssocSeq<T>(a: seq<T>, b: seq<T>, c: seq<T>)
    ensures (a + b) + c == a + (b + c)
  {
  }
}
