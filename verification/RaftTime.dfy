/**
 How a run of Raft unfolds in time: terms rise, the recorded logs of leaders grow, and every leader, every
 accepted message and every entry of a leader goes back to a step of the run.
 */
module RaftTime {
  import opened RaftPeer
  import opened RaftSystem
  import opened RaftElection
  import opened RaftLog
  import opened RaftVotes

  /** A run in which no test is stale when it is acted on. */
  ghost predicate Proper(run: seq<Sys>, steps: seq<Step>) {
    IsRun(run, steps) && NeverStale(run, steps) && AlwaysLeads(run, steps)
  }

  lemma ProperInv(run: seq<Sys>, steps: seq<Step>, p: nat)
    requires Proper(run, steps) && p < |run|
    ensures LogInv(run[p]) && AllBacked(run, steps)
  {
    NeverStaleIsBacked(run, steps);
    LogInvariant(run, steps, p);
  }

  lemma ProperStep(run: seq<Sys>, steps: seq<Step>, p: nat)
    requires Proper(run, steps) && p < |steps|
    ensures LogInv(run[p]) && Enabled(run[p], steps[p]) && run[p + 1] == Next(run[p], steps[p])
    ensures NotStale(run[p], steps[p]) && Backed(run[p], steps[p]) && StillLeads(run[p], steps[p])
  {
    ProperInv(run, steps, p);
    assert TimelyAt(run, steps, p) && LeadsAt(run, steps, p) && BackedAt(run, steps, p);
  }

  // ----- terms -----

  lemma TermStep(s: Sys, e: Step, i: nat)
    requires Shape(s) && Enabled(s, e) && NotStale(s, e) && i < |s.nodes|
    ensures |Next(s, e).nodes| == |s.nodes| && s.nodes[i].term <= Next(s, e).nodes[i].term
  {
  }

  lemma TermStepAt(run: seq<Sys>, steps: seq<Step>, k: nat, i: nat)
    requires Proper(run, steps) && k < |steps| && i < |run[k].nodes|
    ensures |run[k + 1].nodes| == |run[k].nodes| && run[k].nodes[i].term <= run[k + 1].nodes[i].term
  {
    ProperStep(run, steps, k);
    TermStep(run[k], steps[k], i);
  }

  lemma {:induction false} TermsRise(run: seq<Sys>, steps: seq<Step>, p: nat, q: nat, i: nat)
    requires Proper(run, steps) && p <= q < |run| && i < |run[p].nodes|
    ensures |run[q].nodes| == |run[p].nodes| && run[p].nodes[i].term <= run[q].nodes[i].term
    decreases q
  {
    if p < q {
      var k := q - 1;
      TermsRise(run, steps, p, k, i);
      TermStepAt(run, steps, k, i);
    }
  }

  // ----- the recorded logs -----

  lemma HistStep(s: Sys, e: Step)
    requires LogInv(s) && Enabled(s, e) && Backed(s, e)
    ensures Grows(s.hist, Next(s, e).hist)
  {
    if e.HandOver? {
      ElectionStep(s, e);
      NewTerm(s, e.i, e.term);
      HandOverGrows(s, e.i, e.term);
    } else if e.PutCmd? && s.nodes[e.i].role == Leader {
      TracesPut(s.hist, s.nodes[e.i].term, s.nodes[e.i].log, e.c);
    }
  }

  lemma GrowsFurther(f: History, g: History, h: History)
    requires Grows(f, g) && Grows(g, h)
    ensures Grows(f, h)
  {
    forall t | t in f ensures t in h && f[t] <= h[t] {
      assert t in g && f[t] <= g[t] <= h[t];
    }
  }

  lemma HistStepAt(run: seq<Sys>, steps: seq<Step>, k: nat)
    requires Proper(run, steps) && k < |steps|
    ensures Grows(run[k].hist, run[k + 1].hist)
  {
    ProperStep(run, steps, k);
    HistStep(run[k], steps[k]);
  }

  lemma {:induction false} HistGrows(run: seq<Sys>, steps: seq<Step>, p: nat, q: nat)
    requires Proper(run, steps) && p <= q < |run|
    ensures Grows(run[p].hist, run[q].hist)
    decreases q
  {
    if p < q {
      var k := q - 1;
      HistGrows(run, steps, p, k);
      HistStepAt(run, steps, k);
      GrowsFurther(run[p].hist, run[k].hist, run[q].hist);
    }
  }

  function Reach(a: AppendArgs): nat {
    a.prevIndex + |a.entries|
  }

  /** Who answers an AppendEntries with success has the sender's log of the time it was built. */
  lemma AcceptedLog(s: Sys, m: Append)
    requires LogInv(s) && Enabled(s, Deliver(m)) && AppendAnswer(s.nodes[m.dest], m.args).success
    ensures m.args.term in s.hist && Reach(m.args) < |s.hist[m.args.term]|
    ensures var n := Next(s, Deliver(m)).nodes[m.dest];
            n.term == m.args.term && n.log == s.hist[m.args.term][..Reach(m.args) + 1]
  {
    var n, a := s.nodes[m.dest], m.args;
    assert Snapshot(s, m);
    var snap := s.hist[a.term][..Reach(a) + 1];
    TracesPrefix(s.hist, s.hist[a.term], |snap|);
    assert a.entries == snap[a.prevIndex + 1..];
    MergeYieldsSnapshot(s.hist, n.log, snap, a);
  }

  // ----- terms within a log -----

  /** The terms in a log never fall and end at `term` at the latest. */
  ghost predicate RisesTo(log: seq<Entry>, term: nat) {
    && (forall a, b :: 0 <= a <= b < |log| ==> log[a].term <= log[b].term)
    && (forall a :: 0 <= a < |log| ==> log[a].term <= term)
  }

  ghost predicate Ordered(s: Sys) {
    && (forall i :: 0 <= i < |s.nodes| ==> RisesTo(s.nodes[i].log, s.nodes[i].term))
    && (forall t :: t in s.hist ==> RisesTo(s.hist[t], t))
  }

  /** One peer changes, and at most its own log is recorded. */
  lemma OneNodeOrdered(s: Sys, t: Sys, i: nat)
    requires Ordered(s) && i < |s.nodes| && |t.nodes| == |s.nodes| && t.nodes == s.nodes[i := t.nodes[i]]
    requires RisesTo(t.nodes[i].log, t.nodes[i].term)
    requires t.hist == s.hist || t.hist == s.hist[t.nodes[i].term := t.nodes[i].log]
    ensures Ordered(t)
  {
  }

  lemma PutRises(log: seq<Entry>, term: nat, c: Command)
    requires RisesTo(log, term)
    ensures RisesTo(log + [Entry(term, c)], term)
  {
  }

  lemma PrefixRises(log: seq<Entry>, n: nat, term: nat, later: nat)
    requires RisesTo(log, term) && n <= |log| && term <= later
    ensures RisesTo(log[..n], later)
  {
  }

  /** A message that is not accepted leaves the log, and an accepted one brings the log of a leader of its term. */
  lemma DeliverOrdered(s: Sys, m: Append)
    requires LogInv(s) && Ordered(s) && Enabled(s, Deliver(m))
    ensures Ordered(Next(s, Deliver(m)))
  {
    var n, t := s.nodes[m.dest], Next(s, Deliver(m));
    if AppendAnswer(n, m.args).success {
      AcceptedLog(s, m);
      PrefixRises(s.hist[m.args.term], Reach(m.args) + 1, m.args.term, m.args.term);
    } else {
      PrefixRises(n.log, |n.log|, n.term, t.nodes[m.dest].term);
      assert n.log[..|n.log|] == n.log;
    }
    OneNodeOrdered(s, t, m.dest);
  }

  lemma OrderedStep(s: Sys, e: Step)
    requires LogInv(s) && Ordered(s) && Enabled(s, e) && NotStale(s, e)
    ensures Ordered(Next(s, e))
  {
    match e
    case PutCmd(i, c) =>
      PutRises(s.nodes[i].log, s.nodes[i].term, c);
      OneNodeOrdered(s, Next(s, e), i);
    case Deliver(m) =>
      DeliverOrdered(s, m);
    case Reply(x) =>
      var a := x.append.args;
      ReplyNode(s.nodes[a.leader], x.append.dest, a, x.reply, a.entries == []);
      OneNodeOrdered(s, Next(s, e), a.leader);
    case Send(_, _) =>
    case _ =>
      OneNodeOrdered(s, Next(s, e), e.i);
  }

  lemma OrderedStepAt(run: seq<Sys>, steps: seq<Step>, k: nat)
    requires Proper(run, steps) && k < |steps| && Ordered(run[k])
    ensures Ordered(run[k + 1])
  {
    ProperStep(run, steps, k);
    OrderedStep(run[k], steps[k]);
  }

  lemma {:induction false} OrderedInv(run: seq<Sys>, steps: seq<Step>, p: nat)
    requires Proper(run, steps) && p < |run|
    ensures Ordered(run[p])
  {
    if p > 0 {
      var k := p - 1;
      OrderedInv(run, steps, k);
      OrderedStepAt(run, steps, k);
    }
  }

  // ----- where things come from -----

  lemma NewTermAt(run: seq<Sys>, steps: seq<Step>, k: nat, term: nat)
    requires Proper(run, steps) && k < |steps| && term in run[k + 1].hist && term !in run[k].hist
    ensures steps[k].HandOver? && steps[k].i < |run[k].nodes| && run[k].nodes[steps[k].i].term == term
    ensures Campaign(steps[k].i, term) in run[k + 1].leaders && run[k + 1].hist[term] == run[k].nodes[steps[k].i].log
  {
    ProperStep(run, steps, k);
  }

  /** Every term but the first was taken over once, by a peer whose log was then recorded. */
  lemma {:induction false} WhenLed(run: seq<Sys>, steps: seq<Step>, p: nat, term: nat) returns (h: nat, c: nat)
    requires Proper(run, steps) && p < |run| && term != 0 && term in run[p].hist
    ensures h < p && steps[h].HandOver? && steps[h].i == c && c < |run[h].nodes|
    ensures run[h].nodes[c].term == term && term !in run[h].hist
    ensures Campaign(c, term) in run[h + 1].leaders && run[h].nodes[c].log <= run[p].hist[term]
  {
    assert run[0].hist == map[0 := [DUMMY]];
    var k := p - 1;
    if term in run[k].hist {
      h, c := WhenLed(run, steps, k, term);
      HistStepAt(run, steps, k);
      assert run[k].hist[term] <= run[p].hist[term];
    } else {
      NewTermAt(run, steps, k, term);
      h, c := k, steps[k].i;
    }
  }

  /** From standing for election to taking over its term, a peer's log stays as it is. */
  lemma {:induction false} LogWhileStanding(run: seq<Sys>, steps: seq<Step>, j: nat, q: nat, h: nat, c: nat, term: nat)
    requires Proper(run, steps) && Stands(run, steps, j, c, term) && j < q <= h < |run|
    requires c < |run[h].nodes| && run[h].nodes[c].term == term && term !in run[h].hist
    ensures c < |run[q].nodes| && run[q].nodes[c].term == term && run[q].nodes[c].log == run[j].nodes[c].log
    decreases q
  {
    var k := q - 1;
    ProperStep(run, steps, k);
    ShapeStep(run[k], steps[k]);
    if j < k {
      LogWhileStanding(run, steps, j, k, h, c, term);
      TermsRise(run, steps, k, q, c);
      TermsRise(run, steps, q, h, c);
      HistGrows(run, steps, k, h);
      StandingStep(run[k], steps[k], c);
    }
  }

  lemma StandingDeliver(s: Sys, m: Append)
    requires LogInv(s) && Enabled(s, Deliver(m)) && s.nodes[m.dest].term !in s.hist
    requires OnAppend(s.nodes[m.dest], m.args).term == s.nodes[m.dest].term
    ensures OnAppend(s.nodes[m.dest], m.args).log == s.nodes[m.dest].log
  {
    assert Snapshot(s, m);
  }

  /** No log but a leader's changes in a term that has no leader. */
  lemma StandingStep(s: Sys, e: Step, c: nat)
    requires LogInv(s) && Enabled(s, e) && c < |s.nodes| && s.nodes[c].term !in s.hist
    requires c < |Next(s, e).nodes| && Next(s, e).nodes[c].term == s.nodes[c].term
    ensures Next(s, e).nodes[c].log == s.nodes[c].log
  {
    if e.Deliver? && e.m.dest == c {
      StandingDeliver(s, e.m);
    } else if e.Reply? {
      var a := e.x.append.args;
      ReplyNode(s.nodes[a.leader], e.x.append.dest, a, e.x.reply, a.entries == []);
    }
  }

  lemma NewAnswerAt(run: seq<Sys>, steps: seq<Step>, k: nat, x: Answer)
    requires Proper(run, steps) && k < |steps| && x in run[k + 1].answers && x !in run[k].answers && x.reply.success
    ensures steps[k] == Deliver(x.append) && x.append.dest < |run[k + 1].nodes|
    ensures x.append.args.term in run[k].hist && Reach(x.append.args) < |run[k].hist[x.append.args.term]|
    ensures var n := run[k + 1].nodes[x.append.dest];
            && n.term == x.append.args.term
            && n.log == run[k].hist[x.append.args.term][..Reach(x.append.args) + 1]
  {
    ProperStep(run, steps, k);
    AcceptedLog(run[k], x.append);
  }

  lemma {:induction false} WhenAccepted(run: seq<Sys>, steps: seq<Step>, p: nat, x: Answer) returns (d: nat)
    requires Proper(run, steps) && p < |run| && x in run[p].answers && x.reply.success
    ensures d < p && steps[d] == Deliver(x.append) && x.append.dest < |run[d + 1].nodes|
    ensures x.append.args.term in run[p].hist && Reach(x.append.args) < |run[p].hist[x.append.args.term]|
    ensures var n := run[d + 1].nodes[x.append.dest];
            && n.term == x.append.args.term
            && n.log == run[p].hist[x.append.args.term][..Reach(x.append.args) + 1]
  {
    var k := p - 1;
    HistStepAt(run, steps, k);
    var term, l := x.append.args.term, Reach(x.append.args) + 1;
    if x in run[k].answers {
      d := WhenAccepted(run, steps, k, x);
    } else {
      d := k;
      NewAnswerAt(run, steps, k, x);
    }
    assert run[k].hist[term] <= run[p].hist[term];
    assert run[p].hist[term][..l] == run[k].hist[term][..l];
  }

  /** An entry that a leader added to its log was in its log while it led. */
  lemma {:induction false} WhenPut(run: seq<Sys>, steps: seq<Step>, p: nat, term: nat, k: nat) returns (d: nat, c: nat)
    requires Proper(run, steps) && p < |run| && term != 0 && term in run[p].hist && k < |run[p].hist[term]|
    requires run[p].hist[term][k].term == term
    ensures d < p && Campaign(c, term) in run[p].leaders && c < |run[d + 1].nodes|
    ensures run[d + 1].nodes[c].term == term && run[p].hist[term][..k + 1] <= run[d + 1].nodes[c].log
  {
    assert run[0].hist == map[0 := [DUMMY]];
    var q := p - 1;
    RecordsGrow(run, steps, q);
    if term in run[q].hist && k < |run[q].hist[term]| {
      HistStepAt(run, steps, q);
      assert run[q].hist[term] <= run[p].hist[term];
      d, c := WhenPut(run, steps, q, term, k);
      assert run[p].hist[term][..k + 1] == run[q].hist[term][..k + 1];
    } else {
      NewEntryAt(run, steps, q, term, k);
      d, c := q, steps[q].i;
    }
  }

  lemma NewEntryAt(run: seq<Sys>, steps: seq<Step>, q: nat, term: nat, k: nat)
    requires Proper(run, steps) && q < |steps| && term in run[q + 1].hist && k < |run[q + 1].hist[term]|
    requires !(term in run[q].hist && k < |run[q].hist[term]|)
    ensures (steps[q].HandOver? || steps[q].PutCmd?) && steps[q].i < |run[q + 1].nodes|
    ensures var n := run[q + 1].nodes[steps[q].i];
            n.term == term && Campaign(steps[q].i, term) in run[q + 1].leaders && run[q + 1].hist[term] == n.log
  {
    ProperStep(run, steps, q);
  }

  lemma RecordsGrow(run: seq<Sys>, steps: seq<Step>, q: nat)
    requires Proper(run, steps) && q < |steps|
    ensures run[q].leaders <= run[q + 1].leaders && run[q].answers <= run[q + 1].answers
    ensures |run[q + 1].nodes| == |run[q].nodes|
  {
    ProperStep(run, steps, q);
  }
}
