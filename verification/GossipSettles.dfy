/**
 Gossip reaches rest: once Puts stop and everybody is introduced, enough rounds of deliveries and syncs end in
 a state with nothing left to send or to handle, in which all actors hold the newest writes.
 */
module GossipSettles {
  import opened GossipActor
  import opened GossipSystem
  import opened GossipSane
  import opened GossipConverge
  import opened GossipTermination

  // ----- rounds -----

  /** How often `p` is delivered between states `i` and `j`. */
  ghost function Deliveries(steps: seq<Step>, p: Packet, i: nat, j: nat): nat
    requires i <= j <= |steps|
    decreases j
  {
    if i == j then 0 else Deliveries(steps, p, i, j - 1) + if steps[j - 1] == Deliver(p) then 1 else 0
  }

  ghost predicate Syncs(steps: seq<Step>, r: Ref, i: nat, j: nat)
    requires i <= j <= |steps|
  {
    exists x :: i <= x < j && steps[x] == Sync(r)
  }

  /** Everything in flight at the start is delivered, and every actor's timer goes off. */
  ghost predicate Round(run: seq<Sys>, steps: seq<Step>, i: nat, j: nat)
    requires IsRun(run, steps)
  {
    && i <= j < |run|
    && (forall p :: Deliveries(steps, p, i, j) >= run[i].updates[p])
    && (forall r :: r in run[i].actors ==> Syncs(steps, r, i, j))
  }

  /** All introductions are done. */
  ghost predicate Introduced(s: Sys) {
    s.waiting == {} && s.links == multiset{}
  }

  // ----- a step in which nothing happens -----

  /** Nothing is accepted and nothing is broadcast. */
  ghost predicate Silent(s: Sys, e: Step)
    requires Enabled(s, e)
  {
    !e.Put? && Accepted(s, e) == {} && !Broadcast(s, e)
  }

  lemma IntroducedStep(s: Sys, e: Step)
    requires Introduced(s) && Enabled(s, e)
    ensures Introduced(Next(s, e)) && !e.Introduce? && !e.Join?
  {
  }

  lemma SilentStep(s: Sys, e: Step, p: Packet)
    requires Introduced(s) && Enabled(s, e) && Silent(s, e)
    ensures Next(s, e).updates[p] == s.updates[p] - if e == Deliver(p) then 1 else 0
    ensures forall r :: r in s.actors && s.actors[r].putList == map[] ==> Next(s, e).actors[r].putList == map[]
    ensures e.Sync? ==> s.actors[e.at].putList == map[]
  {
    if e.Sync? {
      assert SyncPackets(s.actors[e.at]) == [];
    }
    forall r | r in s.actors && s.actors[r].putList == map[] ensures Next(s, e).actors[r].putList == map[] {
      StillClean(s, e, r);
      assert r !in Dirty(s);
    }
  }

  // ----- a silent stretch -----

  ghost predicate SilentAt(run: seq<Sys>, steps: seq<Step>, x: nat) {
    StepAt(run, steps, x) && Silent(run[x], steps[x])
  }

  ghost predicate AllSilent(run: seq<Sys>, steps: seq<Step>, i: nat, j: nat)
    requires IsRun(run, steps) && i <= j < |run|
  {
    forall x: nat :: i <= x < j ==> SilentAt(run, steps, x)
  }

  lemma {:induction false} IntroducedStays(run: seq<Sys>, steps: seq<Step>, i: nat, j: nat)
    requires IsRun(run, steps) && i <= j < |run| && Introduced(run[i])
    ensures Introduced(run[j]) && run[j].actors.Keys == run[i].actors.Keys
    decreases j
  {
    if i < j {
      IntroducedStays(run, steps, i, j - 1);
      assert StepAt(run, steps, j - 1);
      IntroducedStep(run[j - 1], steps[j - 1]);
      OneActor(run[j - 1], steps[j - 1]);
    }
  }

  lemma {:induction false} SilentPackets(run: seq<Sys>, steps: seq<Step>, i: nat, j: nat, p: Packet)
    requires IsRun(run, steps) && i <= j < |run| && Introduced(run[i]) && AllSilent(run, steps, i, j)
    ensures run[j].updates[p] + Deliveries(steps, p, i, j) == run[i].updates[p]
    decreases j
  {
    if i < j {
      SilentPackets(run, steps, i, j - 1, p);
      IntroducedStays(run, steps, i, j - 1);
      assert StepAt(run, steps, j - 1);
      assert SilentAt(run, steps, j - 1);
      SilentStep(run[j - 1], steps[j - 1], p);
    }
  }

  lemma {:induction false} StaysClean(run: seq<Sys>, steps: seq<Step>, i: nat, j: nat, r: Ref)
    requires IsRun(run, steps) && i <= j < |run| && Introduced(run[i]) && AllSilent(run, steps, i, j)
    requires r in run[i].actors && run[i].actors[r].putList == map[]
    ensures r in run[j].actors && run[j].actors[r].putList == map[]
    decreases j
  {
    if i < j {
      StaysClean(run, steps, i, j - 1, r);
      IntroducedStays(run, steps, i, j - 1);
      assert StepAt(run, steps, j - 1);
      assert SilentAt(run, steps, j - 1);
      OneActor(run[j - 1], steps[j - 1]);
      SilentStep(run[j - 1], steps[j - 1], Packet(r, map[]));
    }
  }

  lemma SyncedClean(run: seq<Sys>, steps: seq<Step>, i: nat, j: nat, r: Ref)
    requires IsRun(run, steps) && i <= j < |run| && Introduced(run[i]) && AllSilent(run, steps, i, j)
    requires r in run[i].actors && Syncs(steps, r, i, j)
    ensures r in run[j].actors && run[j].actors[r].putList == map[]
  {
    var x :| i <= x < j && steps[x] == Sync(r);
    IntroducedStays(run, steps, i, x);
    assert StepAt(run, steps, x);
    assert SilentAt(run, steps, x);
    StaysClean(run, steps, x, j, r);
  }

  /** A round in which nothing happens ends at rest. */
  lemma SilentRound(run: seq<Sys>, steps: seq<Step>, i: nat, j: nat)
    requires IsRun(run, steps) && Round(run, steps, i, j) && Introduced(run[i]) && AllSilent(run, steps, i, j)
    ensures Quiet(run[j])
  {
    IntroducedStays(run, steps, i, j);
    forall p: Packet ensures run[j].updates[p] == 0 {
      SilentPackets(run, steps, i, j, p);
    }
    assert run[j].updates == multiset{};
    forall r | r in run[j].actors ensures run[j].actors[r].putList == map[] {
      SyncedClean(run, steps, i, j, r);
    }
  }

  lemma QuietStep(s: Sys, e: Step)
    requires Quiet(s) && Enabled(s, e) && !e.Put?
    ensures Quiet(Next(s, e))
  {
    assert e.Sync?;
    assert SyncPackets(s.actors[e.at]) == [];
  }

  lemma {:induction false} QuietStays(run: seq<Sys>, steps: seq<Step>, i: nat, j: nat)
    requires IsRun(run, steps) && i <= j < |run| && PutFree(run, steps, i, j) && Quiet(run[i])
    ensures Quiet(run[j])
    decreases j
  {
    if i < j {
      QuietStays(run, steps, i, j - 1);
      assert StepAt(run, steps, j - 1);
      QuietStep(run[j - 1], steps[j - 1]);
    }
  }

  // ----- only so many rounds are not silent -----

  /** What was accepted and broadcast between `i` and `j`. */
  ghost function Events(run: seq<Sys>, steps: seq<Step>, i: nat, j: nat): nat
    requires IsRun(run, steps) && i <= j < |run|
  {
    Acceptances(run, steps, i, j) + Broadcasts(run, steps, i, j)
  }

  lemma {:induction false} EventsAdd(run: seq<Sys>, steps: seq<Step>, i: nat, j: nat, k: nat)
    requires IsRun(run, steps) && i <= j <= k < |run|
    ensures Events(run, steps, i, k) == Events(run, steps, i, j) + Events(run, steps, j, k)
    decreases k
  {
    if j < k {
      assert StepAt(run, steps, k - 1);
      EventsAdd(run, steps, i, j, k - 1);
    }
  }

  lemma {:induction false} NoEvents(run: seq<Sys>, steps: seq<Step>, i: nat, j: nat)
    requires IsRun(run, steps) && i <= j < |run| && PutFree(run, steps, i, j) && Events(run, steps, i, j) == 0
    ensures AllSilent(run, steps, i, j)
    decreases j
  {
    if i < j {
      assert StepAt(run, steps, j - 1);
      NoEvents(run, steps, i, j - 1);
    }
  }

  /** The marks cut the run into rounds. */
  ghost predicate Rounds(run: seq<Sys>, steps: seq<Step>, marks: seq<nat>)
    requires IsRun(run, steps)
  {
    && marks != [] && marks[0] < |run|
    && (forall k :: 0 <= k < |marks| - 1 ==> Round(run, steps, marks[k], marks[k + 1]))
  }

  lemma {:induction false} MarksOrdered(run: seq<Sys>, steps: seq<Step>, marks: seq<nat>, k: nat, l: nat)
    requires IsRun(run, steps) && Rounds(run, steps, marks) && k <= l < |marks|
    ensures marks[k] <= marks[l] < |run|
    decreases l
  {
    if k < l {
      MarksOrdered(run, steps, marks, k, l - 1);
      assert Round(run, steps, marks[l - 1], marks[l - 1 + 1]);
    } else if l > 0 {
      assert Round(run, steps, marks[l - 1], marks[l - 1 + 1]);
    }
  }

  /** Unless it has come to rest, every round has cost an event. */
  lemma {:induction false} RoundsCost(run: seq<Sys>, steps: seq<Step>, marks: seq<nat>, k: nat)
    requires IsRun(run, steps) && Rounds(run, steps, marks) && k < |marks| && Introduced(run[marks[0]])
    requires marks[0] <= marks[k] < |run| && PutFree(run, steps, marks[0], marks[k])
    ensures Quiet(run[marks[k]]) || Events(run, steps, marks[0], marks[k]) >= k
    decreases k
  {
    if k > 0 {
      MarksOrdered(run, steps, marks, 0, k - 1);
      var i, j := marks[k - 1], marks[k];
      assert Round(run, steps, marks[k - 1], marks[k - 1 + 1]);
      RoundsCost(run, steps, marks, k - 1);
      EventsAdd(run, steps, marks[0], i, j);
      if Quiet(run[i]) {
        QuietStays(run, steps, i, j);
      } else if Events(run, steps, i, j) == 0 {
        NoEvents(run, steps, i, j);
        IntroducedStays(run, steps, marks[0], i);
        SilentRound(run, steps, i, j);
      }
    }
  }

  /**
   With N actors and P writes, more than N + 2 * N * P rounds without a Put end at rest, however messages
   are delayed and reordered.
   */
  lemma ComesToRest(run: seq<Sys>, steps: seq<Step>, marks: seq<nat>)
    requires IsRun(run, steps) && Rounds(run, steps, marks) && Introduced(run[marks[0]])
    requires var last := marks[|marks| - 1]; marks[0] <= last < |run| && PutFree(run, steps, marks[0], last)
    requires var s := run[marks[0]]; |marks| - 1 > |s.actors| + 2 * (|s.actors| * |s.puts|)
    ensures Quiet(run[marks[|marks| - 1]])
  {
    RoundsCost(run, steps, marks, |marks| - 1);
    GossipTerminates(run, steps, marks[0], marks[|marks| - 1]);
  }

  /** And at rest, if the key was well timed, any two actors agree on it and hold its newest write. */
  lemma EventuallyConsistent(run: seq<Sys>, steps: seq<Step>, marks: seq<nat>, key: string, r: Ref)
    requires IsRun(run, steps) && WellTimed(run, steps, key) && Rounds(run, steps, marks) && Introduced(run[marks[0]])
    requires var last := marks[|marks| - 1]; marks[0] <= last < |run| && PutFree(run, steps, marks[0], last)
    requires var s := run[marks[0]]; |marks| - 1 > |s.actors| + 2 * (|s.actors| * |s.puts|)
    requires r in run[marks[|marks| - 1]].actors
    ensures var s := run[marks[|marks| - 1]];
            && (key in s.actors[r].storage ==> Wrote(s, key, s.actors[r].storage[key]))
            && (forall w :: w in s.puts && w.key == key ==>
                  key in s.actors[r].storage && Outranks(s.actors[r].storage[key], w.content))
  {
    ComesToRest(run, steps, marks);
    Convergence(run, steps, key, marks[|marks| - 1], r);
  }
}
