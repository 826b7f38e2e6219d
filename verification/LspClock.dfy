/**
 What an endpoint tells from the passing of epochs: when its peer is lost, when to send a sign of life, and
 which connection it has been given. Each is a function of the events so far.
 */
module LspClock {
  import opened LspEndpoint
  import opened LspWindow

  /** The epochs since the arrival of a packet was last noted. */
  function Silence(events: seq<Event>): nat {
    if events == [] then 0
    else
      var n := |events| - 1;
      match events[n]
      case Epoch => Silence(events[..n]) + 1
      case Heard => 0
      case _ => Silence(events[..n])
  }

  /** The packet is a connection request or data, whole enough to be read. */
  predicate CarriesData(m: Message) {
    Admit(m).Some? && (m.Connect? || m.Data?)
  }

  /** Some such packet has come since the last epoch. */
  predicate Noticed(events: seq<Event>) {
    if events == [] then false
    else
      var n := |events| - 1;
      match events[n]
      case Epoch => false
      case Receive(m) => CarriesData(m) || Noticed(events[..n])
      case _ => Noticed(events[..n])
  }

  /** The id in the first acknowledgement of the connection request, given that `id` is the one before. */
  function GivenId(events: seq<Event>, isn: nat, id: int): int {
    if events == [] then id
    else
      var n := |events| - 1;
      var before := GivenId(events[..n], isn, id);
      match events[n]
      case Receive(m) => if before == 0 && (m.Ack? || m.CAck?) && m.seqNum == isn then m.connID else before
      case _ => before
  }

  /** The fields that this is about. */
  ghost predicate SameClock(c: Conn, d: Conn) {
    && d.params == c.params && d.isn == c.isn && d.epoch == c.epoch && d.lastHeard == c.lastHeard
    && d.heardData == c.heardData
  }

  lemma MessageClock(c: Conn, m: Message)
    requires c.Wf()
    ensures var d := OnMessage(c, m);
            && SameClock(c.(heardData := c.heardData || m.Connect? || m.Data?), d)
            && d.connID == if c.connID == 0 && (m.Ack? || m.CAck?) && m.seqNum == c.isn then m.connID else c.connID
  {
    if m.Data? && Accepts(c, m) && c.expected <= m.seqNum {
      DrainIds(c.(buffered := c.buffered[m.seqNum := m.payload]));
    }
  }

  lemma EventClock(c: Conn, e: Event)
    requires c.Wf() && Enabled(c, e)
    ensures var d := Next(c, e);
            && d.params == c.params && d.isn == c.isn
            && d.epoch == (if e.Epoch? then c.epoch + 1 else c.epoch)
            && d.lastHeard == (if e.Heard? then c.epoch else c.lastHeard)
            && d.heardData == (if e.Epoch? then false else c.heardData || (e.Receive? && CarriesData(e.m)))
            && d.connID == if e.Receive? && c.connID == 0 && (e.m.Ack? || e.m.CAck?) && e.m.seqNum == c.isn
                           then e.m.connID else c.connID
  {
    if e.Receive? && Admit(e.m).Some? {
      MessageClock(c, Admit(e.m).value);
    }
  }

  lemma Prefix(events: seq<Event>, k: nat)
    requires k < |events|
    ensures events[..k + 1][..k] == events[..k] && events[..k + 1][k] == events[k]
  {
  }

  ghost predicate Tells(c: Conn, start: Conn, events: seq<Event>) {
    && c.params == start.params && c.isn == start.isn
    && c.epoch - c.lastHeard == Silence(events)
    && c.heardData == Noticed(events)
    && c.connID == GivenId(events, start.isn, start.connID)
  }

  lemma TellsStep(run: seq<Conn>, events: seq<Event>, k: nat)
    requires StepAt(run, events, k) && run[k].Wf() && Tells(run[k], run[0], events[..k])
    ensures Tells(run[k + 1], run[0], events[..k + 1])
  {
    EventClock(run[k], events[k]);
    Prefix(events, k);
  }

  lemma {:induction false} TellsAlong(run: seq<Conn>, events: seq<Event>, i: nat)
    requires IsRun(run, events) && i < |run|
    ensures Tells(run[i], run[0], events[..i])
  {
    if i > 0 {
      var k := i - 1;
      TellsAlong(run, events, k);
      WindowTheorem(run, events, k);
      assert StepAt(run, events, k);
      TellsStep(run, events, k);
    }
  }

  /** A connection is lost if and only if nothing has been heard for as many epochs as the limit says. */
  lemma LostIff(run: seq<Conn>, events: seq<Event>, i: nat)
    requires IsRun(run, events) && i < |run|
    ensures run[i].Lost() <==> Silence(events[..i]) >= run[0].params.epochLimit
  {
    TellsAlong(run, events, i);
  }

  /** Before its request is acknowledged a client has no connection; then it has the one it was given first. */
  lemma ConnectedBy(run: seq<Conn>, events: seq<Event>, i: nat)
    requires IsRun(run, events) && i < |run|
    ensures run[i].connID == GivenId(events[..i], run[0].isn, run[0].connID)
  {
    TellsAlong(run, events, i);
  }

  /**
   At the end of an epoch the endpoint sends a sign of life if and only if it is connected, will not be lost and
   has received no data in the epoch, and repeats its request if and only if it is not connected.
   */
  lemma SignsOfLife(run: seq<Conn>, events: seq<Event>, i: nat)
    requires IsRun(run, events) && i < |events| && events[i].Epoch?
    ensures run[i].Wf()
    ensures var c := run[i];
            && (Ack(c.connID, 0) in Emits(c, Epoch) <==>
                c.connID > 0 && Silence(events[..i]) + 1 < run[0].params.epochLimit && !Noticed(events[..i]))
            && (Connect(run[0].isn) in Emits(c, Epoch) <==> c.connID == 0)
  {
    TellsAlong(run, events, i);
    WindowTheorem(run, events, i);
    var c := run[i];
    assert Emits(c, Epoch) == Resent(c) + Elements(Reminders(c));
    assert Ack(c.connID, 0) !in Resent(c) && Connect(c.isn) !in Resent(c);
  }
}
