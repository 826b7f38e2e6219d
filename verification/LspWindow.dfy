/**
 What holds of one endpoint in every run, whatever messages arrive: the sender's window is respected
 and no payload waits that could be sent. Also, a cumulative acknowledgement amounts to the individual
 acknowledgements it stands for.
 */
module LspWindow {
  import opened LspEndpoint
  import opened Collections

  /** At most `maxUnacked` messages are outstanding and they span fewer than `window` numbers. */
  ghost predicate Windowed(c: Conn) {
    && |c.unacked| <= c.params.maxUnacked
    && (forall j, k :: j in c.unacked && k in c.unacked ==> k < j + c.params.window)
  }

  /** No queued payload is left unsent while both limits would allow it. */
  ghost predicate Saturated(c: Conn) {
    || c.queue == []
    || |c.unacked| >= c.params.maxUnacked
    || c.Front() >= MinPending(c) + c.params.window
  }

  ghost predicate Sound(c: Conn) {
    c.Wf() && Windowed(c) && Saturated(c)
  }

  // ----- sending -----

  lemma SendNWf(c: Conn, n: nat)
    requires c.Wf() && n <= |c.queue|
    ensures SendN(c, n).Wf() && SendN(c, n).Front() == c.Front() + n
  {
    var f := c.Front();
    var d := SendN(c, n);
    forall k | k in d.unacked ensures c.isn < k < f + n && k in d.backoff && k in d.countdown {
      ExtendAt(c.unacked, f, c.queue[..n], k);
      ExtendAt(c.backoff, f, Repeat(Min(1, c.params.maxBackoff), n), k);
      ExtendAt(c.countdown, f, Repeat(0, n), k);
    }
  }

  /** Sending leaves the lower edge of the window where it was. */
  lemma SendNEdge(c: Conn, n: nat)
    requires c.Wf() && n <= |c.queue|
    ensures MinPending(SendN(c, n)) == MinPending(c)
  {
    var f, m, d := c.Front(), MinPending(c), SendN(c, n);
    forall k | k in d.unacked ensures m <= k {
      ExtendAt(c.unacked, f, c.queue[..n], k);
    }
    if m == f {
      ExtendAt(c.unacked, f, c.queue[..n], f);
    } else {
      ExtendAt(c.unacked, f, c.queue[..n], m);
    }
    assert d.Front() == f + n;
    LeastUnique(m, d.Front(), d.unacked.Keys);
  }

  lemma SendableAfter(c: Conn, n: nat, base: int)
    requires c.Wf() && n <= Sendable(c, base)
    ensures Sendable(SendN(c, n), base) == Sendable(c, base) - n
  {
    SendNSize(c, n);
    assert SendN(c, n).Front() == c.Front() + n;
  }

  lemma SaturatedIff(c: Conn)
    ensures Saturated(c) <==> Sendable(c, MinPending(c)) == 0
  {
  }

  lemma RefillSound(c: Conn)
    requires c.Wf() && Windowed(c)
    ensures Sound(Refill(c))
  {
    var base := MinPending(c);
    var n := Sendable(c, base);
    var d := SendN(c, n);
    SendNWf(c, n);
    SendNEdge(c, n);
    SendableAfter(c, n, base);
    SaturatedIff(d);
    SendNSize(c, n);
    forall j, k | j in d.unacked && k in d.unacked ensures k < j + c.params.window {
      ExtendAt(c.unacked, c.Front(), c.queue[..n], j);
      ExtendAt(c.unacked, c.Front(), c.queue[..n], k);
    }
  }

  lemma ForgetSound(c: Conn, ks: set<nat>)
    requires c.Wf() && Windowed(c)
    ensures Forget(c, ks).Wf() && Windowed(Forget(c, ks))
  {
    ForgetWf(c, ks);
    assert Forget(c, ks).unacked.Keys <= c.unacked.Keys;
    SubsetSize(Forget(c, ks).unacked.Keys, c.unacked.Keys);
  }

  // ----- receiving -----

  /** Draining moves payloads and nothing else. */
  lemma {:induction false} DrainIds(c: Conn)
    ensures Drain(c) == c.(inbox := Drain(c).inbox, buffered := Drain(c).buffered, expected := Drain(c).expected)
    decreases |c.buffered|
  {
    if c.expected in c.buffered {
      DrainIds(DeliverOne(c));
    }
  }

  lemma {:induction false} DrainWf(c: Conn)
    requires c.Front() > c.isn && c.isn < c.expected && c.Scheduled()
    requires forall k :: k in c.unacked ==> c.isn < k < c.Front()
    requires forall k :: k in c.buffered ==> c.expected <= k
    ensures Drain(c).Wf()
    decreases |c.buffered|
  {
    if c.expected in c.buffered {
      DrainWf(DeliverOne(c));
    }
  }

  lemma OnDataSound(c: Conn, m: Message)
    requires Sound(c) && m.Data?
    ensures Sound(OnData(c, m))
  {
    if Accepts(c, m) && c.expected <= m.seqNum {
      DrainWf(c.(buffered := c.buffered[m.seqNum := m.payload]));
      DrainIds(c.(buffered := c.buffered[m.seqNum := m.payload]));
    }
  }

  lemma OnAckSound(c: Conn, m: Message)
    requires Sound(c) && (m.Ack? || m.CAck?)
    ensures Sound(OnAck(c, m))
  {
    if c.connID != 0 && Acked(c, m) != {} {
      ForgetSound(c, Acked(c, m));
      RefillSound(Forget(c, Acked(c, m)));
    }
  }

  // ----- runs of one endpoint -----

  datatype Event =
    | Write(payload: Payload)
    | Read
    | Receive(m: Message)  // a packet that the network hands over, whatever it holds
    | Heard                // the arrival of a packet is noted
    | Epoch

  predicate Enabled(c: Conn, e: Event) {
    match e
    case Write(_) => c.connID != 0 && !c.Lost()
    case Read => c.connID != 0 && c.inbox != []
    case _ => true
  }

  ghost function Next(c: Conn, e: Event): Conn
    requires c.Wf() && Enabled(c, e)
  {
    match e
    case Write(p) => Refill(Enqueue(c, p))
    case Read => c.(inbox := c.inbox[1..])
    case Receive(m) => if Admit(m).Some? then OnMessage(c, Admit(m).value) else c
    case Heard => c.(lastHeard := c.epoch)
    case Epoch => Tick(c)
  }

  /** The messages that an event sends. */
  ghost function Emits(c: Conn, e: Event): set<Message>
    requires c.Wf() && Enabled(c, e)
  {
    match e
    case Write(p) => Elements(RefillMsgs(Enqueue(c, p)))
    case Receive(m) => if Admit(m).Some? then Elements(OnMessageMsgs(c, Admit(m).value)) else {}
    case Epoch => Resent(c) + Elements(Reminders(c))
    case _ => {}
  }

  lemma SameSenderSound(c: Conn, d: Conn)
    requires Sound(c)
    requires d == c.(inbox := d.inbox, lastHeard := d.lastHeard, heardData := d.heardData, epoch := d.epoch,
                     countdown := d.countdown, backoff := d.backoff)
    requires d.countdown.Keys == c.countdown.Keys && d.backoff.Keys == c.backoff.Keys
    ensures Sound(d)
  {
    assert d.Front() == c.Front();
    forall k | k in d.unacked ensures k in d.backoff && k in d.countdown {
      assert k in c.backoff.Keys && k in c.countdown.Keys;
    }
  }

  lemma OnMessageSound(c: Conn, m: Message)
    requires Sound(c)
    ensures Sound(OnMessage(c, m))
  {
    if m.Connect? {
      SameSenderSound(c, c.(heardData := true));
    } else if m.Data? {
      OnDataSound(c, m);
      SameSenderSound(OnData(c, m), OnData(c, m).(heardData := true));
    } else {
      OnAckSound(c, m);
    }
  }

  lemma TickSound(c: Conn)
    requires Sound(c)
    ensures Sound(Tick(c))
  {
    assert Tick(c).countdown.Keys == c.countdown.Keys;
    assert Tick(c).backoff.Keys == c.backoff.Keys;
    SameSenderSound(c, Tick(c));
  }

  lemma NextSound(c: Conn, e: Event)
    requires Sound(c) && Enabled(c, e)
    ensures Sound(Next(c, e))
  {
    match e
    case Write(p) =>
      EnqueueWf(c, p);
      RefillSound(Enqueue(c, p));
    case Receive(m) =>
      if Admit(m).Some? {
        OnMessageSound(c, Admit(m).value);
      }
    case Read =>
      SameSenderSound(c, Next(c, e));
    case Heard =>
      SameSenderSound(c, Next(c, e));
    case Epoch =>
      TickSound(c);
  }

  lemma FreshSound(params: Params, connID: int, isn: nat)
    ensures Sound(Fresh(params, connID, isn))
  {
  }

  ghost predicate IsStep(c: Conn, e: Event, d: Conn) {
    c.Wf() ==> Enabled(c, e) && d == Next(c, e)
  }

  /** Event `i` leads from state `i` to the next one. */
  ghost predicate StepAt(run: seq<Conn>, events: seq<Event>, i: nat) {
    i < |events| && i + 1 < |run| && IsStep(run[i], events[i], run[i + 1])
  }

  ghost predicate IsRun(run: seq<Conn>, events: seq<Event>) {
    && |run| == |events| + 1
    && run[0] == Fresh(run[0].params, run[0].connID, run[0].isn)
    && (forall i: nat :: i < |events| ==> StepAt(run, events, i))
  }

  lemma SoundStepAt(run: seq<Conn>, events: seq<Event>, i: nat)
    requires StepAt(run, events, i) && Sound(run[i])
    ensures Sound(run[i + 1])
  {
    NextSound(run[i], events[i]);
  }

  lemma {:induction false} SoundAlong(run: seq<Conn>, events: seq<Event>, i: nat)
    requires i < |run| && Sound(run[0]) && forall k: nat :: k < i ==> StepAt(run, events, k)
    ensures Sound(run[i])
  {
    if i > 0 {
      var k := i - 1;
      SoundAlong(run, events, k);
      SoundStepAt(run, events, k);
    }
  }

  /** The sender's window is safe and used to the full in every state of every run. */
  lemma WindowTheorem(run: seq<Conn>, events: seq<Event>, i: nat)
    requires IsRun(run, events) && i < |run|
    ensures run[i].Wf() && Windowed(run[i]) && Saturated(run[i])
  {
    FreshSound(run[0].params, run[0].connID, run[0].isn);
    SoundAlong(run, events, i);
  }

  // ----- cumulative acknowledgements -----

  lemma {:induction false} SendNCompose(c: Conn, a: nat, b: nat)
    requires c.Wf() && a + b <= |c.queue|
    ensures SendN(c, a).Front() >= 0
    ensures SendN(SendN(c, a), b) == SendN(c, a + b)
  {
    SendNWf(c, a);
    if b == 0 {
      SendNothing(SendN(c, a));
    } else {
      var n := b - 1;
      SendNCompose(c, a, n);
      SendOneMore(SendN(c, a), n);
      SendOneMore(c, a + n);
    }
  }

  lemma SentMsgsCompose(c: Conn, a: nat, b: nat)
    requires c.Wf() && a + b <= |c.queue|
    ensures SendN(c, a).Front() >= 0
    ensures SentMsgs(c, a) + SentMsgs(SendN(c, a), b) == SentMsgs(c, a + b)
  {
    SendNWf(c, a);
  }

  lemma ExtendRemove(m: map<nat, Payload>, lo: nat, vs: seq<Payload>, k: nat)
    requires k < lo
    ensures Extend(m, lo, vs) - {k} == Extend(m - {k}, lo, vs)
  {
    var a, b := Extend(m, lo, vs) - {k}, Extend(m - {k}, lo, vs);
    forall j: nat ensures (j in a <==> j in b) && (j in a ==> a[j] == b[j]) {
      ExtendAt(m, lo, vs, j);
      ExtendAt(m - {k}, lo, vs, j);
    }
  }

  /** Forgetting an old number and sending new ones are independent. */
  lemma ForgetSendN(c: Conn, k: nat, n: nat)
    requires c.Wf() && k in c.unacked && n <= |c.queue|
    ensures Forget(SendN(c, n), {k}) == SendN(Forget(c, {k}), n)
    ensures SentMsgs(Forget(c, {k}), n) == SentMsgs(c, n)
  {
    ExtendRemove(c.unacked, c.Front(), c.queue[..n], k);
    assert Forget(c, {k}).Front() == c.Front();
  }

  lemma ForgetFreesRoom(c: Conn, k: nat)
    requires c.Wf() && k in c.unacked
    ensures Sendable(c, MinPending(c)) <= Sendable(Forget(c, {k}), MinPending(Forget(c, {k})))
  {
    var d := Forget(c, {k});
    assert d.Front() == c.Front();
    assert d.unacked.Keys <= c.unacked.Keys;
    SubsetSize(d.unacked.Keys, c.unacked.Keys);
    assert MinPending(c) <= MinPending(d);
  }

  /** What is left to send after a refill and one more number forgotten is what the refill could not send. */
  lemma LeftToSend(c: Conn, k: nat)
    requires c.Wf() && k in c.unacked
    ensures var n := Sendable(c, MinPending(c));
            var d := Forget(c, {k});
            var total := Sendable(d, MinPending(d));
            && n <= total
            && Refill(c).Front() >= 0
            && Forget(Refill(c), {k}) == SendN(d, n)
            && Sendable(SendN(d, n), MinPending(SendN(d, n))) == total - n
  {
    var n := Sendable(c, MinPending(c));
    var d := Forget(c, {k});
    ForgetWf(c, {k});
    ForgetFreesRoom(c, k);
    SendNWf(c, n);
    ForgetSendN(c, k, n);
    SendNEdge(d, n);
    SendableAfter(d, n, MinPending(d));
  }

  /** A refill in between changes nothing: forgetting one more number after it sends what was still missing. */
  lemma RefillInBetween(c: Conn, k: nat)
    requires c.Wf() && k in c.unacked
    ensures Refill(c).Front() >= 0
    ensures Refill(Forget(Refill(c), {k})) == Refill(Forget(c, {k}))
  {
    var n := Sendable(c, MinPending(c));
    var d := Forget(c, {k});
    LeftToSend(c, k);
    ForgetWf(c, {k});
    SendNCompose(d, n, Sendable(d, MinPending(d)) - n);
  }

  lemma RefillMsgsInBetween(c: Conn, k: nat)
    requires c.Wf() && k in c.unacked
    ensures Refill(c).Front() >= 0
    ensures RefillMsgs(c) + RefillMsgs(Forget(Refill(c), {k})) == RefillMsgs(Forget(c, {k}))
  {
    var n := Sendable(c, MinPending(c));
    var d := Forget(c, {k});
    LeftToSend(c, k);
    ForgetWf(c, {k});
    ForgetSendN(c, k, n);
    SentMsgsCompose(d, n, Sendable(d, MinPending(d)) - n);
  }

  lemma RefillWf(c: Conn)
    requires c.Wf()
    ensures Refill(c).Wf()
  {
    SendNWf(c, Sendable(c, MinPending(c)));
  }

  lemma OnAckWf(c: Conn, m: Message)
    requires c.Wf() && (m.Ack? || m.CAck?)
    ensures OnAck(c, m).Wf()
  {
    ForgetWf(c, Acked(c, m));
    RefillWf(Forget(c, Acked(c, m)));
  }

  /** Individual acknowledgements for `order`, one after the other, each with its own refill. */
  ghost function AckEach(c: Conn, order: seq<nat>): (r: (Conn, seq<Message>))
    requires c.Wf()
    ensures r.0.Wf()
  {
    if order == [] then (c, [])
    else
      var n := |order| - 1;
      var before := AckEach(c, order[..n]);
      var ack := Ack(c.connID, order[n]);
      OnAckWf(before.0, ack);
      (OnAck(before.0, ack), before.1 + OnAckMsgs(before.0, ack))
  }

  lemma ForgetMore(c: Conn, ks: set<nat>, k: nat)
    ensures Forget(Forget(c, ks), {k}) == Forget(c, ks + {k})
  {
    assert (c.unacked - ks) - {k} == c.unacked - (ks + {k});
  }

  lemma AckedAlone(c: Conn, k: nat)
    requires c.Wf() && k in c.unacked
    ensures Acked(c, Ack(c.connID, k)) == {k}
  {
  }

  lemma StillOutstanding(c: Conn, k: nat)
    requires c.Wf() && k in c.unacked
    ensures k in Refill(c).unacked && Refill(c).Wf() && Refill(c).connID == c.connID
  {
    RefillWf(c);
    ExtendAt(c.unacked, c.Front(), c.queue[..Sendable(c, MinPending(c))], k);
  }

  /** One more acknowledgement after those for `ks`, which already caused a refill. */
  lemma AckOneMore(c: Conn, ks: set<nat>, k: nat)
    requires c.Wf() && c.connID != 0 && k in c.unacked && k !in ks
    ensures var d := Forget(c, ks); var e := Forget(c, ks + {k}); var ack := Ack(c.connID, k);
            && d.Wf() && e.Wf() && Refill(d).Wf()
            && OnAck(Refill(d), ack) == Refill(e)
            && RefillMsgs(d) + OnAckMsgs(Refill(d), ack) == RefillMsgs(e)
  {
    var d := Forget(c, ks);
    ForgetWf(c, ks);
    ForgetWf(c, ks + {k});
    ForgetMore(c, ks, k);
    StillOutstanding(d, k);
    AckedAlone(Refill(d), k);
    RefillInBetween(d, k);
    RefillMsgsInBetween(d, k);
  }

  lemma AckFirst(c: Conn, k: nat)
    requires c.Wf() && c.connID != 0 && k in c.unacked
    ensures Forget(c, {k}).Wf()
    ensures AckEach(c, [k]) == (Refill(Forget(c, {k})), RefillMsgs(Forget(c, {k})))
  {
    ForgetWf(c, {k});
    AckedAlone(c, k);
    var ack := Ack(c.connID, k);
    assert [k][..0] == [];
    assert AckEach(c, [k][..0]) == (c, []);
    assert [] + OnAckMsgs(c, ack) == OnAckMsgs(c, ack);
  }

  lemma AckEachLast(c: Conn, front: seq<nat>, k: nat)
    requires c.Wf()
    ensures var before, ack := AckEach(c, front), Ack(c.connID, k);
            AckEach(c, front + [k]) == (OnAck(before.0, ack), before.1 + OnAckMsgs(before.0, ack))
  {
    assert (front + [k])[..|front|] == front;
  }

  /** Outstanding numbers acknowledged one by one are forgotten together, and one refill serves them all. */
  lemma {:induction false} AckEachRefillsOnce(c: Conn, order: seq<nat>)
    requires c.Wf() && c.connID != 0 && order != [] && Distinct(order)
    requires forall k :: k in order ==> k in c.unacked
    ensures Forget(c, Elements(order)).Wf()
    ensures AckEach(c, order) == (Refill(Forget(c, Elements(order))), RefillMsgs(Forget(c, Elements(order))))
  {
    var n := |order| - 1;
    var k, front := order[n], order[..n];
    assert order == front + [k];
    ElementsAppend(front, k);
    assert k in order;
    if front == [] {
      assert order == [k];
      assert Elements(order) == {k};
      AckFirst(c, k);
    } else {
      LastIsNew(order);
      AckEachRefillsOnce(c, front);
      AckEachLast(c, front, k);
      AckOneMore(c, Elements(front), k);
    }
  }

  lemma LastIsNew(order: seq<nat>)
    requires order != [] && Distinct(order)
    ensures var n := |order| - 1; Distinct(order[..n]) && order[n] !in Elements(order[..n])
    ensures forall k :: k in order[..|order| - 1] ==> k in order
  {
  }

  /**
   A cumulative acknowledgement leaves the state, and sends the data messages, of individual
   acknowledgements for everything outstanding up to its number, in whatever order these come.
   */
  lemma CumulativeAckTheorem(c: Conn, n: nat, order: seq<nat>)
    requires c.Wf() && c.connID != 0
    requires Distinct(order) && forall k :: k in order <==> k in c.unacked && k <= n
    ensures AckEach(c, order) == (OnAck(c, CAck(c.connID, n)), OnAckMsgs(c, CAck(c.connID, n)))
  {
    assert Acked(c, CAck(c.connID, n)) == Elements(order);
    if order != [] {
      assert order[0] in Elements(order);
      AckEachRefillsOnce(c, order);
    }
  }
}
