/**
 Convergence: when nothing is left to send or to handle, every actor of every server holds the newest
 write of every key.
 */
module GossipConverge {
  import opened GossipActor
  import opened GossipSystem
  import opened GossipSane

  // ----- the invariant -----

  ghost predicate Holds(s: Sys, r: Ref, key: string, c: Content) {
    r in s.actors && key in s.actors[r].storage && AtLeast(s.actors[r].storage[key], c)
  }

  ghost predicate OnItsWay(s: Sys, r: Ref, key: string, c: Content) {
    exists p :: p in s.updates && p.dest == r && key in p.update && AtLeast(p.update[key], c)
  }

  /** What `a` stores under the key is still listed, or on its way to its neighbour `b`, or there. */
  ghost predicate Passed(s: Sys, a: Ref, b: Ref, key: string)
    requires a in s.actors && key in s.actors[a].storage
  {
    var c := s.actors[a].storage[key];
    key in s.actors[a].putList || OnItsWay(s, b, key, c) || Holds(s, b, key, c)
  }

  ghost predicate Edges(s: Sys, key: string) {
    forall a, b :: a in s.actors && b in Targets(s.actors[a]) && key in s.actors[a].storage ==> Passed(s, a, b, key)
  }

  ghost predicate Origins(s: Sys, key: string) {
    forall w :: w in s.puts && w.key == key ==> Holds(s, w.at, key, w.content)
  }

  // ----- hypotheses on the runs, key by key -----

  /**
   The Put handler overwrites without comparing. That does no harm when the write is at least as new as all
   earlier ones made here, and as whatever a neighbour relies on this actor to have.
   */
  ghost predicate PutHarmless(s: Sys, at: Ref, key: string, c: Content) {
    && (forall w :: w in s.puts && w.key == key && w.at == at ==> AtLeast(c, w.content))
    && NeighboursCovered(s, at, key, c)
  }

  ghost predicate NeighboursCovered(s: Sys, at: Ref, key: string, c: Content) {
    forall b :: b in s.actors && b != at && at in Targets(s.actors[b]) && key in s.actors[b].storage ==>
      || key in s.actors[b].putList
      || OnItsWay(s, at, key, s.actors[b].storage[key])
      || AtLeast(c, s.actors[b].storage[key])
  }

  /** A newer server is sent only what is passed on later, so this key must not depend on what went before. */
  ghost predicate JoinHarmless(s: Sys, l: Link, key: string)
    requires l.dest in s.actors
  {
    key in s.actors[l.dest].storage ==> Passed(s, l.dest, l.sender, key)
  }

  ghost predicate Harmless(s: Sys, e: Step, key: string)
    requires Enabled(s, e)
  {
    match e
    case Put(at, k, c) => k == key ==> PutHarmless(s, at, key, c)
    case Join(l) => JoinHarmless(s, l, key)
    case _ => true
  }

  ghost predicate HarmlessAt(run: seq<Sys>, steps: seq<Step>, key: string, i: nat) {
    StepAt(run, steps, i) && Harmless(run[i], steps[i], key)
  }

  ghost predicate WellTimed(run: seq<Sys>, steps: seq<Step>, key: string) {
    forall i: nat :: i < |steps| ==> HarmlessAt(run, steps, key, i)
  }

  // ----- every step keeps it -----

  /** Two writes of one key that are not told apart by the order are the same write. */
  ghost predicate Distinct(s: Sys) {
    forall v, w :: v in s.puts && w in s.puts && v.content.uid == w.content.uid ==> v == w
  }

  lemma GenuineTotal(s: Sys, key: string, c: Content, d: Content)
    requires Distinct(s) && Wrote(s, key, c) && Wrote(s, key, d) && !Newer(d, c)
    ensures AtLeast(c, d)
  {
    if c.uid == d.uid {
      var v :| v in s.puts && v.key == key && v.content == c;
      var w :| w in s.puts && w.key == key && w.content == d;
      assert v == w;
    } else {
      NewerTotal(c, d);
    }
  }

  /** The step is no Put of this key. */
  predicate Leaves(e: Step, key: string) {
    e.Put? ==> e.key != key
  }

  lemma HoldsStep(s: Sys, e: Step, r: Ref, key: string, c: Content)
    requires Enabled(s, e) && Leaves(e, key) && Holds(s, r, key, c)
    ensures Holds(Next(s, e), r, key, c)
  {
    var was, now := s.actors[r].storage[key], Next(s, e).actors[r].storage;
    assert key in now && AtLeast(now[key], was);
    AtLeastTransitive(now[key], was, c);
  }

  /** A handled update leaves the receiver at least as new as the update. */
  lemma Handled(s: Sys, p: Packet, key: string, c: Content)
    requires Sane(s) && Distinct(s) && Enabled(s, Deliver(p)) && key in p.update && AtLeast(p.update[key], c)
    ensures Holds(Next(s, Deliver(p)), p.dest, key, c)
  {
    var a := s.actors[p.dest];
    var now := OnUpdate(a, p.update).storage[key];
    if !Accepts(a.storage, key, p.update[key]) {
      assert Wrote(s, key, p.update[key]) && Wrote(s, key, a.storage[key]);
      GenuineTotal(s, key, a.storage[key], p.update[key]);
    }
    AtLeastTransitive(now, p.update[key], c);
  }

  lemma OnItsWayStep(s: Sys, e: Step, r: Ref, key: string, c: Content)
    requires Sane(s) && Distinct(s) && Enabled(s, e) && Leaves(e, key) && OnItsWay(s, r, key, c)
    ensures OnItsWay(Next(s, e), r, key, c) || Holds(Next(s, e), r, key, c)
  {
    var p :| p in s.updates && p.dest == r && key in p.update && AtLeast(p.update[key], c);
    if e.Deliver? && e.p == p {
      Handled(s, p, key, c);
    } else {
      assert p in Next(s, e).updates;
    }
  }

  /** An edge whose source has the same entry, still listed if it was. */
  lemma OldEdge(s: Sys, e: Step, a: Ref, b: Ref, key: string)
    requires Sane(s) && Distinct(s) && Enabled(s, e) && Leaves(e, key)
    requires a in s.actors && key in s.actors[a].storage && Passed(s, a, b, key)
    requires var a' := Next(s, e).actors[a];
             key in a'.storage && a'.storage[key] == s.actors[a].storage[key]
             && (key in s.actors[a].putList ==> key in a'.putList)
    ensures Passed(Next(s, e), a, b, key)
  {
    var c := s.actors[a].storage[key];
    if Holds(s, b, key, c) {
      HoldsStep(s, e, b, key, c);
    } else if OnItsWay(s, b, key, c) {
      OnItsWayStep(s, e, b, key, c);
    }
  }

  lemma SyncEdge(s: Sys, a: Ref, b: Ref, key: string)
    requires Sane(s) && Enabled(s, Sync(a)) && b in Targets(s.actors[a]) && key in s.actors[a].putList
    ensures Passed(Next(s, Sync(a)), a, b, key)
  {
    var act, t := s.actors[a], Next(s, Sync(a));
    assert Listed(act);
    SyncSends(act);
    assert |act.putList| > 0 by {
      assert act.putList != map[];
    }
    assert Packet(b, act.putList) in t.updates;
  }

  lemma TouchedEdge(s: Sys, e: Step, b: Ref, key: string)
    requires Sane(s) && Distinct(s) && Edges(s, key) && Enabled(s, e) && Leaves(e, key) && Harmless(s, e, key)
    requires b in Targets(Next(s, e).actors[Touched(e)]) && key in Next(s, e).actors[Touched(e)].storage
    ensures Passed(Next(s, e), Touched(e), b, key)
  {
    var a := Touched(e);
    var was, now := s.actors[a], Next(s, e).actors[a];
    assert Placed(s, a);
    if key !in now.putList {
      if e.Sync? && key in was.putList {
        SyncEdge(s, a, b, key);
      } else {
        assert key in was.storage && was.storage[key] == now.storage[key];
        assert b in Targets(was) || (e.Join? && b == e.l.sender);
        OldEdge(s, e, a, b, key);
      }
    }
  }

  /** Exactly when a Put keeps what its neighbours rely on, and what was written here. */
  lemma PutHarmlessIff(s: Sys, at: Ref, key: string, c: Content)
    requires Enabled(s, Put(at, key, c)) && Edges(s, key) && Origins(s, key)
    ensures Edges(Next(s, Put(at, key, c)), key) && Origins(Next(s, Put(at, key, c)), key) <==> PutHarmless(s, at, key, c)
  {
    PutEdgesIff(s, at, key, c);
    PutOriginsIff(s, at, key, c);
  }

  lemma PutEdgesIff(s: Sys, at: Ref, key: string, c: Content)
    requires Enabled(s, Put(at, key, c)) && Edges(s, key)
    ensures Edges(Next(s, Put(at, key, c)), key) <==> NeighboursCovered(s, at, key, c)
  {
    var t := Next(s, Put(at, key, c));
    forall a, b | a in t.actors && b in Targets(t.actors[a]) && key in t.actors[a].storage && (a == at || b != at)
      ensures Passed(t, a, b, key)
    {
      if a != at {
        assert Passed(s, a, b, key);
      }
    }
    forall b | b in s.actors && b != at && at in Targets(s.actors[b]) && key in s.actors[b].storage
      ensures Passed(t, b, at, key) <==>
              || key in s.actors[b].putList
              || OnItsWay(s, at, key, s.actors[b].storage[key])
              || AtLeast(c, s.actors[b].storage[key])
    {
      assert t.actors[b] == s.actors[b] && t.updates == s.updates && t.actors[at].storage[key] == c;
    }
  }

  lemma PutOriginsIff(s: Sys, at: Ref, key: string, c: Content)
    requires Enabled(s, Put(at, key, c)) && Origins(s, key)
    ensures Origins(Next(s, Put(at, key, c)), key) <==>
            forall w :: w in s.puts && w.key == key && w.at == at ==> AtLeast(c, w.content)
  {
    var t := Next(s, Put(at, key, c));
    forall w | w in s.puts && w.key == key
      ensures Holds(t, w.at, key, w.content) <==> (w.at == at ==> AtLeast(c, w.content))
    {
      assert Holds(s, w.at, key, w.content);
    }
    assert forall w :: w in t.puts <==> w in s.puts || w == Written(key, c, at);
  }

  lemma EdgesStep(s: Sys, e: Step, key: string)
    requires Sane(s) && Distinct(s) && Edges(s, key) && Enabled(s, e) && Leaves(e, key) && Harmless(s, e, key)
    ensures Edges(Next(s, e), key)
  {
    var t := Next(s, e);
    OneActor(s, e);
    forall a, b | a in t.actors && b in Targets(t.actors[a]) && key in t.actors[a].storage
      ensures Passed(t, a, b, key)
    {
      if a == Touched(e) {
        TouchedEdge(s, e, b, key);
      } else {
        OldEdge(s, e, a, b, key);
      }
    }
  }

  /** Exactly when learning of a newer server keeps what neighbours rely on. */
  lemma JoinHarmlessIff(s: Sys, l: Link, key: string)
    requires Sane(s) && Distinct(s) && Edges(s, key) && Enabled(s, Join(l))
    ensures Edges(Next(s, Join(l)), key) <==> JoinHarmless(s, l, key)
  {
    if JoinHarmless(s, l, key) {
      EdgesStep(s, Join(l), key);
    } else {
      NewEdgeFails(s, l, key);
    }
  }

  lemma NewEdgeFails(s: Sys, l: Link, key: string)
    requires Enabled(s, Join(l)) && !JoinHarmless(s, l, key)
    ensures !Edges(Next(s, Join(l)), key)
  {
    var t := Next(s, Join(l));
    var a := t.actors[l.dest];
    assert a.remote[|a.remote| - 1] == l.sender;
    assert l.sender in Targets(a);
    if Passed(t, l.dest, l.sender, key) {
      SamePassed(s, t, l.dest, l.sender, key);
    }
  }

  lemma SamePassed(s: Sys, t: Sys, a: Ref, b: Ref, key: string)
    requires a in s.actors && key in s.actors[a].storage && t.updates == s.updates && t.actors.Keys == s.actors.Keys
    requires forall r :: r in s.actors ==>
      t.actors[r].storage == s.actors[r].storage && t.actors[r].putList == s.actors[r].putList
    requires Passed(t, a, b, key)
    ensures Passed(s, a, b, key)
  {
  }

  /** A stamp later than the entry it overwrites is enough for a Put. */
  lemma OrderedHarmless(s: Sys, at: Ref, key: string, c: Content)
    requires Enabled(s, Put(at, key, c)) && Sane(s) && Edges(s, key) && Origins(s, key)
    requires key in s.actors[at].storage ==> Newer(c, s.actors[at].storage[key])
    ensures PutHarmless(s, at, key, c)
  {
    forall w | w in s.puts && w.key == key && w.at == at ensures AtLeast(c, w.content) {
      assert Holds(s, at, key, w.content);
      AtLeastTransitive(c, s.actors[at].storage[key], w.content);
    }
    forall b | b in s.actors && b != at && at in Targets(s.actors[b]) && key in s.actors[b].storage
      ensures || key in s.actors[b].putList
              || OnItsWay(s, at, key, s.actors[b].storage[key])
              || AtLeast(c, s.actors[b].storage[key])
    {
      assert Passed(s, b, at, key);
      if Holds(s, at, key, s.actors[b].storage[key]) {
        AtLeastTransitive(c, s.actors[at].storage[key], s.actors[b].storage[key]);
      }
    }
  }

  lemma OriginsStep(s: Sys, e: Step, key: string)
    requires Origins(s, key) && Enabled(s, e) && Leaves(e, key)
    ensures Origins(Next(s, e), key)
  {
    forall w | w in Next(s, e).puts && w.key == key ensures Holds(Next(s, e), w.at, key, w.content) {
      HoldsStep(s, e, w.at, key, w.content);
    }
  }

  lemma DistinctStep(s: Sys, e: Step)
    requires Distinct(s) && Enabled(s, e)
    ensures Distinct(Next(s, e))
  {
  }

  lemma KeyStep(s: Sys, e: Step, key: string)
    requires Sane(s) && Distinct(s) && Edges(s, key) && Origins(s, key) && Enabled(s, e) && Harmless(s, e, key)
    ensures Edges(Next(s, e), key) && Origins(Next(s, e), key)
  {
    if Leaves(e, key) {
      EdgesStep(s, e, key);
      OriginsStep(s, e, key);
    } else {
      PutHarmlessIff(s, e.at, key, e.c);
    }
  }

  /**
   Exactly when the first step that may do harm does: after a well-timed run, what is stored is still listed,
   on its way or there for every neighbour, and every write held where it was made, if and only if the step is
   harmless for the key.
   */
  lemma HarmlessIff(run: seq<Sys>, steps: seq<Step>, key: string, e: Step)
    requires IsRun(run, steps) && WellTimed(run, steps, key) && Enabled(run[|steps|], e)
    ensures var t := Next(run[|steps|], e);
            Edges(t, key) && Origins(t, key) <==> Harmless(run[|steps|], e, key)
  {
    var s := run[|steps|];
    GossipInvariant(run, steps, key, |steps|);
    if Harmless(s, e, key) {
      KeyStep(s, e, key);
    } else if e.Put? {
      PutHarmlessIff(s, e.at, key, e.c);
    } else {
      JoinHarmlessIff(s, e.l, key);
    }
  }

  ghost predicate Good(s: Sys, key: string) {
    Sane(s) && Distinct(s) && Edges(s, key) && Origins(s, key)
  }

  lemma GoodStart(s: Sys, key: string)
    requires Starts(s)
    ensures Good(s, key)
  {
    StartsSane(s);
  }

  lemma GoodStep(run: seq<Sys>, steps: seq<Step>, key: string, i: nat)
    requires HarmlessAt(run, steps, key, i) && Good(run[i], key)
    ensures Good(run[i + 1], key)
  {
    SaneStep(run[i], steps[i]);
    DistinctStep(run[i], steps[i]);
    KeyStep(run[i], steps[i], key);
  }

  lemma {:induction false} GoodAlong(run: seq<Sys>, steps: seq<Step>, key: string, i: nat)
    requires i < |run| && Good(run[0], key) && forall k: nat :: k < i ==> HarmlessAt(run, steps, key, k)
    ensures Good(run[i], key)
  {
    if i > 0 {
      var k := i - 1;
      GoodAlong(run, steps, key, k);
      GoodStep(run, steps, key, k);
    }
  }

  lemma GossipInvariant(run: seq<Sys>, steps: seq<Step>, key: string, i: nat)
    requires IsRun(run, steps) && WellTimed(run, steps, key) && i < |run|
    ensures Good(run[i], key)
  {
    GoodStart(run[0], key);
    GoodAlong(run, steps, key, i);
  }

  // ----- the membership graph connects everybody -----

  /** Nothing is in flight, nobody has anything left to pass on, and all introductions are done. */
  ghost predicate Quiet(s: Sys) {
    && s.updates == multiset{} && s.links == multiset{} && s.waiting == {}
    && (forall r :: r in s.actors ==> s.actors[r].putList == map[])
  }

  /** In a quiet state an edge carries everything over. */
  lemma Across(s: Sys, a: Ref, b: Ref, key: string, c: Content)
    requires Sane(s) && Edges(s, key) && Quiet(s) && Holds(s, a, key, c) && b in Targets(s.actors[a])
    ensures Holds(s, b, key, c)
  {
    assert Passed(s, a, b, key);
    AtLeastTransitive(s.actors[b].storage[key], s.actors[a].storage[key], c);
  }

  lemma AcrossLocal(s: Sys, a: Ref, b: Ref, key: string, c: Content)
    requires Sane(s) && Edges(s, key) && Quiet(s) && Holds(s, a, key, c) && b in s.actors && b.server == a.server
    ensures Holds(s, b, key, c)
  {
    if a != b {
      assert Placed(s, a);
      assert s.actors[a].local[b.counter] == b;
      Across(s, a, b, key, c);
    }
  }

  /** From any representative to that of the first server: every server knows an earlier one. */
  lemma {:induction false} Inwards(s: Sys, v: nat, key: string, c: Content)
    requires Sane(s) && Edges(s, key) && Quiet(s) && v < |s.plan| && Holds(s, Rep(v), key, c)
    ensures Holds(s, Rep(0), key, c)
  {
    if v > 0 {
      var d := s.plan[v].known[0];
      assert Placed(s, Rep(v));
      Across(s, Rep(v), Rep(d), key, c);
      Inwards(s, d, key, c);
    }
  }

  /** And back: the earlier server was told of the newer one. */
  lemma {:induction false} Outwards(s: Sys, v: nat, key: string, c: Content)
    requires Sane(s) && Edges(s, key) && Quiet(s) && v < |s.plan| && Holds(s, Rep(0), key, c)
    ensures Holds(s, Rep(v), key, c)
  {
    if v > 0 {
      var d := s.plan[v].known[0];
      Outwards(s, d, key, c);
      assert Link(Rep(d), Rep(v)) !in s.links;
      Across(s, Rep(d), Rep(v), key, c);
    }
  }

  lemma Everywhere(s: Sys, a: Ref, b: Ref, key: string, c: Content)
    requires Sane(s) && Edges(s, key) && Quiet(s) && Holds(s, a, key, c) && b in s.actors
    ensures Holds(s, b, key, c)
  {
    AcrossLocal(s, a, Rep(a.server), key, c);
    Inwards(s, a.server, key, c);
    Outwards(s, b.server, key, c);
    AcrossLocal(s, Rep(b.server), b, key, c);
  }

  // ----- the result -----

  /**
   In every quiet state of every well-timed run, each actor holds under the key a write whose time is at least
   that of every write of the key, and among those of the same time the one with the greatest uid; if there was
   none, it holds nothing.
   */
  lemma Convergence(run: seq<Sys>, steps: seq<Step>, key: string, i: nat, r: Ref)
    requires IsRun(run, steps) && WellTimed(run, steps, key) && i < |run| && Quiet(run[i]) && r in run[i].actors
    ensures key in run[i].actors[r].storage <==> exists w :: w in run[i].puts && w.key == key
    ensures key in run[i].actors[r].storage ==> Wrote(run[i], key, run[i].actors[r].storage[key])
    ensures forall w :: w in run[i].puts && w.key == key ==>
              key in run[i].actors[r].storage && Outranks(run[i].actors[r].storage[key], w.content)
  {
    var s := run[i];
    GossipInvariant(run, steps, key, i);
    forall w | w in s.puts && w.key == key
      ensures key in s.actors[r].storage && Outranks(s.actors[r].storage[key], w.content)
    {
      Everywhere(s, w.at, r, key, w.content);
      AtLeastOutranks(s.actors[r].storage[key], w.content);
    }
  }

  /** So any two actors agree. */
  lemma Agreement(run: seq<Sys>, steps: seq<Step>, key: string, i: nat, a: Ref, b: Ref)
    requires IsRun(run, steps) && WellTimed(run, steps, key) && i < |run| && Quiet(run[i])
    requires a in run[i].actors && b in run[i].actors && key in run[i].actors[a].storage
    ensures key in run[i].actors[b].storage && run[i].actors[a].storage[key] == run[i].actors[b].storage[key]
  {
    var s := run[i];
    GossipInvariant(run, steps, key, i);
    Everywhere(s, a, b, key, s.actors[a].storage[key]);
    Everywhere(s, b, a, key, s.actors[b].storage[key]);
    AtLeastAntisymmetric(s.actors[a].storage[key], s.actors[b].storage[key]);
  }
}
