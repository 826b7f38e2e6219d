/**
 What every message keeps, whatever the clocks do: actors pass on what they store, know their
 neighbours, and hold only what somebody wrote.
 */
module GossipSane {
  import opened GossipActor
  import opened GossipSystem

  /** The actor that a step changes. */
  function Touched(e: Step): Ref {
    match e
    case Put(at, _, _) => at
    case Introduce(at) => at
    case Join(l) => l.dest
    case Sync(at) => at
    case Deliver(p) => p.dest
  }

  lemma ActorUpdated(s: Sys, e: Step)
    requires Enabled(s, e)
    ensures Touched(e) in s.actors && Touched(e) in Next(s, e).actors
    ensures Next(s, e).actors == s.actors[Touched(e) := Next(s, e).actors[Touched(e)]]
  {
  }

  lemma OneActor(s: Sys, e: Step)
    requires Enabled(s, e)
    ensures Next(s, e).actors.Keys == s.actors.Keys && Next(s, e).plan == s.plan && s.puts <= Next(s, e).puts
    ensures forall r :: r in s.actors && r != Touched(e) ==> Next(s, e).actors[r] == s.actors[r]
  {
    ActorUpdated(s, e);
  }

  lemma SyncSends(a: Actor)
    ensures forall p :: p in SyncPackets(a) ==> p.dest in Targets(a) && p.update == a.putList
    ensures |a.putList| > 0 ==> forall r :: r in Targets(a) ==> Packet(r, a.putList) in SyncPackets(a)
  {
    if |a.putList| > 0 {
      forall r ensures Packet(r, a.putList) in SyncPackets(a) <==> r in Targets(a) {
        SentToAll(Targets(a), a.putList, r);
      }
    }
  }

  /** Every message in flight after a step was there before or was just sent by the actor touched. */
  lemma NewPackets(s: Sys, e: Step, p: Packet)
    requires Enabled(s, e) && p in Next(s, e).updates
    ensures || p in s.updates
            || (e.Introduce? && p.dest in Next(s, e).actors[e.at].local && p.update == s.actors[e.at].storage)
            || (e.Sync? && p.dest in Targets(s.actors[e.at]) && p.update == s.actors[e.at].putList)
  {
    if e.Introduce? {
      var a := Next(s, e).actors[e.at];
      SentToAll(a.local, a.storage, p.dest);
    } else if e.Sync? {
      SyncSends(s.actors[e.at]);
    }
  }

  lemma TouchedListed(s: Sys, e: Step)
    requires Enabled(s, e) && Listed(s.actors[Touched(e)])
    ensures Listed(Next(s, e).actors[Touched(e)])
  {
  }

  lemma RepsKnown(known: seq<nat>, d: nat)
    ensures Rep(d) in Reps(known) <==> d in known
    ensures forall x :: x in Reps(known) ==> x.counter == 0 && x.server in known
  {
    assert forall j :: 0 <= j < |known| ==> Reps(known)[j] == Rep(known[j]);
  }

  lemma IntroducePlaced(s: Sys, r: Ref)
    requires Sane(s) && Enabled(s, Introduce(r))
    ensures Placed(Next(s, Introduce(r)), r)
  {
    var server, b := s.plan[r.server], Next(s, Introduce(r)).actors[r];
    assert Placed(s, r);
    assert b.remote == Reps(server.known) && b.local == Locals(r.server, server.size);
    forall d | d in server.known ensures Rep(d) in b.remote {
      RepsKnown(server.known, d);
    }
    forall x | x in b.remote ensures InPlan(s.plan, x) {
      RepsKnown(server.known, x.server);
      var j :| 0 <= j < |server.known| && server.known[j] == x.server;
    }
  }

  lemma JoinPlaced(s: Sys, l: Link)
    requires Sane(s) && Enabled(s, Join(l))
    ensures Placed(Next(s, Join(l)), l.dest)
  {
    assert Placed(s, l.dest);
    assert InPlan(s.plan, l.sender);
  }

  lemma TouchedPlaced(s: Sys, e: Step)
    requires Sane(s) && Enabled(s, e)
    ensures Placed(Next(s, e), Touched(e))
  {
    match e
    case Introduce(at) => IntroducePlaced(s, at);
    case Join(l) => JoinPlaced(s, l);
    case _ => assert Placed(s, Touched(e));
  }

  lemma JoinLinked(s: Sys, l: Link, v: nat, d: nat)
    requires Linked(s) && Enabled(s, Join(l)) && v < |s.plan| && d in s.plan[v].known
    ensures var t := Next(s, Join(l));
            || Link(Rep(d), Rep(v)) in t.links
            || (Rep(d) in t.actors && Rep(d) !in t.waiting && Rep(v) in t.actors[Rep(d)].remote)
  {
    if l == Link(Rep(d), Rep(v)) {
      assert Next(s, Join(l)).actors[Rep(d)].remote == s.actors[Rep(d)].remote + [Rep(v)];
    }
  }

  /** Links stay as they are when no introduction is handled twice and no neighbour forgotten. */
  lemma SameLinked(s: Sys, t: Sys)
    requires Linked(s) && t.plan == s.plan && t.links == s.links
    requires forall r :: r in s.actors && r !in s.waiting ==>
      r in t.actors && r !in t.waiting && t.actors[r].remote == s.actors[r].remote
    ensures Linked(t)
  {
  }

  lemma JoinKeepsLinks(s: Sys, l: Link)
    requires Linked(s) && Enabled(s, Join(l))
    ensures Linked(Next(s, Join(l)))
  {
    var t := Next(s, Join(l));
    forall v: nat, d | v < |t.plan| && d in t.plan[v].known
      ensures || Link(Rep(d), Rep(v)) in t.links
              || (Rep(d) in t.actors && Rep(d) !in t.waiting && Rep(v) in t.actors[Rep(d)].remote)
    {
      JoinLinked(s, l, v, d);
    }
  }

  lemma OthersKeepLinks(s: Sys, e: Step)
    requires Linked(s) && Enabled(s, e) && !e.Join?
    ensures Linked(Next(s, e))
  {
    OneActor(s, e);
    assert Next(s, e).waiting <= s.waiting && Next(s, e).links == s.links;
    SameLinked(s, Next(s, e));
  }

  lemma LinkedStep(s: Sys, e: Step)
    requires Linked(s) && Enabled(s, e)
    ensures Linked(Next(s, e))
  {
    if e.Join? {
      JoinKeepsLinks(s, e.l);
    } else {
      OthersKeepLinks(s, e);
    }
  }

  /** What the touched actor stores it stored before, or it came with the step. */
  lemma StoredBefore(s: Sys, e: Step, k: string)
    requires Enabled(s, e) && k in Next(s, e).actors[Touched(e)].storage
    ensures var a, b := s.actors[Touched(e)].storage, Next(s, e).actors[Touched(e)].storage;
            || (k in a && b[k] == a[k])
            || (e.Put? && k == e.key && b[k] == e.c)
            || (e.Deliver? && k in e.p.update && b[k] == e.p.update[k])
  {
  }

  lemma StoredGenuine(s: Sys, e: Step, k: string)
    requires Genuine(s) && Enabled(s, e) && k in Next(s, e).actors[Touched(e)].storage
    ensures Wrote(Next(s, e), k, Next(s, e).actors[Touched(e)].storage[k])
  {
    var t := Next(s, e);
    var c := t.actors[Touched(e)].storage[k];
    OneActor(s, e);
    StoredBefore(s, e, k);
    if e.Put? && k == e.key {
      assert Written(k, c, e.at) in t.puts;
    } else {
      assert Wrote(s, k, c);
      StillWrote(s, t, k, c);
    }
  }

  lemma StillWrote(s: Sys, t: Sys, k: string, c: Content)
    requires s.puts <= t.puts && Wrote(s, k, c)
    ensures Wrote(t, k, c)
  {
    var w :| w in s.puts && w.key == k && w.content == c;
    assert w in t.puts;
  }

  lemma GenuineStep(s: Sys, e: Step)
    requires Sane(s) && Enabled(s, e)
    ensures Genuine(Next(s, e))
  {
    var t := Next(s, e);
    OneActor(s, e);
    forall r, k | r in t.actors && k in t.actors[r].storage ensures Wrote(t, k, t.actors[r].storage[k]) {
      if r == Touched(e) {
        StoredGenuine(s, e, k);
      } else {
        StillWrote(s, t, k, s.actors[r].storage[k]);
      }
    }
    forall p, k | p in t.updates && k in p.update ensures Wrote(t, k, p.update[k]) {
      NewPackets(s, e, p);
      if p !in s.updates {
        assert Listed(s.actors[Touched(e)]);
        assert k in s.actors[Touched(e)].storage && p.update[k] == s.actors[Touched(e)].storage[k];
      }
      StillWrote(s, t, k, p.update[k]);
    }
  }

  lemma SaneStep(s: Sys, e: Step)
    requires Sane(s) && Enabled(s, e)
    ensures Sane(Next(s, e))
  {
    var t := Next(s, e);
    OneActor(s, e);
    forall r | r in t.actors ensures Listed(t.actors[r]) && Placed(t, r) {
      if r == Touched(e) {
        TouchedListed(s, e);
        TouchedPlaced(s, e);
      } else {
        assert Placed(s, r);
      }
    }
    forall p | p in t.updates ensures p.dest in t.actors {
      NewPackets(s, e, p);
      if p !in s.updates {
        TouchedPlaced(s, e);
        assert Placed(s, Touched(e));
      }
    }
    LinkedStep(s, e);
    GenuineStep(s, e);
  }

  lemma StartsSane(s: Sys)
    requires Starts(s)
    ensures Sane(s)
  {
    forall v, d | 0 <= v < |s.plan| && d in s.plan[v].known ensures Link(Rep(d), Rep(v)) in s.links {
      var j :| 0 <= j < |s.plan[v].known| && s.plan[v].known[j] == d;
    }
  }

  lemma {:induction false} SaneInvariant(run: seq<Sys>, steps: seq<Step>, i: nat)
    requires IsRun(run, steps) && i < |run|
    ensures Sane(run[i])
  {
    if i == 0 {
      StartsSane(run[0]);
    } else {
      SaneInvariant(run, steps, i - 1);
      assert StepAt(run, steps, i - 1);
      SaneStep(run[i - 1], steps[i - 1]);
    }
  }
}
