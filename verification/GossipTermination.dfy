/**
 Gossip dies down: once Puts stop, with N actors and P writes at most N * P more entries are accepted,
 and at most N + N * P more broadcasts carry anything.
 */
module GossipTermination {
  import opened GossipActor
  import opened GossipSystem
  import opened GossipSane
  import opened Collections

  // ----- what is left to do -----

  /** The actor has yet to see this write or a newer one of its key. */
  ghost predicate Behind(a: Actor, w: Written) {
    Accepts(a.storage, w.key, w.content)
  }

  ghost function Open(s: Sys): set<(Ref, Written)> {
    set r, w | r in s.actors && w in s.puts && Behind(s.actors[r], w) :: (r, w)
  }

  ghost function Accepted(s: Sys, e: Step): set<string>
    requires Enabled(s, e)
  {
    if e.Deliver? then set k | k in e.p.update && Accepts(s.actors[e.p.dest].storage, k, e.p.update[k]) else {}
  }

  /** The actors with something to pass on. */
  ghost function Dirty(s: Sys): set<Ref> {
    set r | r in s.actors && s.actors[r].putList != map[]
  }

  ghost predicate Broadcast(s: Sys, e: Step)
    requires Enabled(s, e)
  {
    e.Sync? && s.actors[e.at].putList != map[]
  }

  // ----- counting -----

  lemma {:induction false} KeysAtMost(gone: set<(Ref, Written)>, keys: set<string>)
    requires forall k :: k in keys ==> exists g :: g in gone && g.1.key == k
    ensures |keys| <= |gone|
    decreases |gone|
  {
    if keys != {} {
      var k :| k in keys;
      var g :| g in gone && g.1.key == k;
      forall x | x in keys - {k} ensures exists h :: h in gone - {g} && h.1.key == x {
        var h :| h in gone && h.1.key == x;
        assert h in gone - {g};
      }
      KeysAtMost(gone - {g}, keys - {k});
    }
  }

  lemma {:induction false} PairsAtMost(open: set<(Ref, Written)>, actors: set<Ref>, puts: set<Written>)
    requires forall g :: g in open ==> g.0 in actors && g.1 in puts
    ensures |open| <= |actors| * |puts|
    decreases |actors|
  {
    if actors == {} {
      assert open == {};
    } else {
      var r :| r in actors;
      var mine := set g | g in open && g.0 == r;
      SubsetSize(mine, open);
      PairsAtMost(open - mine, actors - {r}, puts);
      OneRow(mine, r, puts);
      assert |actors| == |actors - {r}| + 1;
    }
  }

  lemma {:induction false} OneRow(mine: set<(Ref, Written)>, r: Ref, puts: set<Written>)
    requires forall g :: g in mine ==> g.0 == r && g.1 in puts
    ensures |mine| <= |puts|
    decreases |puts|
  {
    if mine != {} {
      var g :| g in mine;
      OneRow(mine - {g}, r, puts - {g.1});
    }
  }

  // ----- one step -----

  lemma NewerStill(a: Content, b: Content, c: Content)
    requires Newer(a, b) && AtLeast(b, c)
    ensures Newer(a, c)
  {
    if b != c && a.time == b.time == c.time {
      LessTransitive(c.uid, b.uid, a.uid);
    }
  }

  /** Storage only gets newer, Puts aside. */
  lemma StaysAhead(s: Sys, e: Step, r: Ref, w: Written)
    requires Enabled(s, e) && !e.Put? && r in s.actors && !Behind(s.actors[r], w)
    ensures !Behind(Next(s, e).actors[r], w)
  {
    OneActor(s, e);
    var was, now := s.actors[r].storage, Next(s, e).actors[r].storage;
    if now[w.key] != was[w.key] && Newer(w.content, now[w.key]) {
      NewerStill(w.content, now[w.key], was[w.key]);
    }
  }

  lemma NoLongerBehind(s: Sys, e: Step, k: string)
    requires Sane(s) && Enabled(s, e) && k in Accepted(s, e)
    ensures exists g :: g in Open(s) && g !in Open(Next(s, e)) && g.1.key == k
  {
    assert Wrote(s, k, e.p.update[k]);
    var w :| w in s.puts && w.key == k && w.content == e.p.update[k];
    assert (e.p.dest, w) in Open(s);
    assert Next(s, e).actors[e.p.dest].storage[k] == w.content;
    LessIrreflexive(w.content.uid);
    assert (e.p.dest, w) !in Open(Next(s, e));
  }

  lemma AcceptStep(s: Sys, e: Step)
    requires Sane(s) && Enabled(s, e) && !e.Put?
    ensures |Open(Next(s, e))| + |Accepted(s, e)| <= |Open(s)|
  {
    var t := Next(s, e);
    OneActor(s, e);
    forall g | g in Open(t) ensures g in Open(s) {
      if !Behind(s.actors[g.0], g.1) {
        StaysAhead(s, e, g.0, g.1);
      }
    }
    var gone := Open(s) - Open(t);
    SubsetSize(Open(t), Open(s));
    forall k | k in Accepted(s, e) ensures exists g :: g in gone && g.1.key == k {
      NoLongerBehind(s, e, k);
      var g :| g in Open(s) && g !in Open(t) && g.1.key == k;
      assert g in gone;
    }
    KeysAtMost(gone, Accepted(s, e));
  }

  lemma NothingForwarded(a: Actor, update: Store)
    requires forall k :: k in update ==> !Accepts(a.storage, k, update[k])
    ensures OnUpdate(a, update).putList == a.putList
  {
  }

  /** Only an accepted entry gives an actor something to pass on. */
  lemma StillClean(s: Sys, e: Step, r: Ref)
    requires Enabled(s, e) && !e.Put? && r in s.actors && (r != Touched(e) || Accepted(s, e) == {})
    ensures r in Dirty(Next(s, e)) ==> r in Dirty(s)
  {
    OneActor(s, e);
    if e.Deliver? && r == e.p.dest {
      forall k | k in e.p.update ensures !Accepts(s.actors[r].storage, k, e.p.update[k]) {
        assert k !in Accepted(s, e);
      }
      NothingForwarded(s.actors[r], e.p.update);
    }
  }

  lemma DirtyStep(s: Sys, e: Step)
    requires Enabled(s, e) && !e.Put?
    ensures |Dirty(Next(s, e))| + (if Broadcast(s, e) then 1 else 0) <= |Dirty(s)| + |Accepted(s, e)|
  {
    var t := Next(s, e);
    forall r | r in Dirty(t) && (r != Touched(e) || Accepted(s, e) == {}) ensures r in Dirty(s) {
      OneActor(s, e);
      StillClean(s, e, r);
    }
    if Broadcast(s, e) {
      assert Dirty(t) <= Dirty(s) - {e.at};
      SubsetSize(Dirty(t), Dirty(s) - {e.at});
    } else if Accepted(s, e) == {} {
      SubsetSize(Dirty(t), Dirty(s));
    } else {
      assert Dirty(t) <= Dirty(s) + {e.p.dest};
      SubsetSize(Dirty(t), Dirty(s) + {e.p.dest});
      assert |Accepted(s, e)| >= 1;
    }
  }

  // ----- whole runs -----

  /** Between states `i` and `j` nobody writes. */
  ghost predicate PutFree(run: seq<Sys>, steps: seq<Step>, i: nat, j: nat)
    requires IsRun(run, steps) && i <= j < |run|
  {
    forall x :: i <= x < j ==> !steps[x].Put?
  }

  ghost function Acceptances(run: seq<Sys>, steps: seq<Step>, i: nat, j: nat): nat
    requires IsRun(run, steps) && i <= j < |run|
    decreases j
  {
    if i == j then 0
    else
      assert StepAt(run, steps, j - 1);
      Acceptances(run, steps, i, j - 1) + |Accepted(run[j - 1], steps[j - 1])|
  }

  ghost function Broadcasts(run: seq<Sys>, steps: seq<Step>, i: nat, j: nat): nat
    requires IsRun(run, steps) && i <= j < |run|
    decreases j
  {
    if i == j then 0
    else
      assert StepAt(run, steps, j - 1);
      Broadcasts(run, steps, i, j - 1) + if Broadcast(run[j - 1], steps[j - 1]) then 1 else 0
  }

  lemma StepBudget(run: seq<Sys>, steps: seq<Step>, x: nat)
    requires IsRun(run, steps) && x < |steps| && !steps[x].Put?
    ensures Enabled(run[x], steps[x])
    ensures |Open(run[x + 1])| + |Accepted(run[x], steps[x])| <= |Open(run[x])|
    ensures |Dirty(run[x + 1])| + (if Broadcast(run[x], steps[x]) then 1 else 0) <= |Dirty(run[x])| + |Accepted(run[x], steps[x])|
  {
    assert StepAt(run, steps, x);
    SaneInvariant(run, steps, x);
    AcceptStep(run[x], steps[x]);
    DirtyStep(run[x], steps[x]);
  }

  lemma {:induction false} Budget(run: seq<Sys>, steps: seq<Step>, i: nat, j: nat)
    requires IsRun(run, steps) && i <= j < |run| && PutFree(run, steps, i, j)
    ensures Acceptances(run, steps, i, j) + |Open(run[j])| <= |Open(run[i])|
    ensures Broadcasts(run, steps, i, j) + |Dirty(run[j])| <= |Dirty(run[i])| + Acceptances(run, steps, i, j)
    decreases j
  {
    if i < j {
      Budget(run, steps, i, j - 1);
      StepBudget(run, steps, j - 1);
    }
  }

  lemma GossipTerminates(run: seq<Sys>, steps: seq<Step>, i: nat, j: nat)
    requires IsRun(run, steps) && i <= j < |run| && PutFree(run, steps, i, j)
    ensures Acceptances(run, steps, i, j) <= |run[i].actors| * |run[i].puts|
    ensures Broadcasts(run, steps, i, j) <= |run[i].actors| + |run[i].actors| * |run[i].puts|
  {
    Budget(run, steps, i, j);
    PairsAtMost(Open(run[i]), run[i].actors.Keys, run[i].puts);
    SubsetSize(Dirty(run[i]), run[i].actors.Keys);
    assert |run[i].actors.Keys| == |run[i].actors|;
  }
}
