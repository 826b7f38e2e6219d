/**
 Leader Completeness (section 5.4 of the extended Raft paper), for the runs in which the code behaves like Raft:
 votes go to candidates that are not behind at all, and no message cuts off entries that agree with it.
 */
module RaftComplete {
  import opened RaftPeer
  import opened RaftSystem
  import opened RaftElection
  import opened RaftLog
  import opened RaftVotes
  import opened RaftTime

  // ----- where the code is not Raft -----

  /** If the vote is granted, the candidate's log is not even one entry shorter than the voter's. */
  ghost predicate FairVote(s: Sys, e: Step)
    requires Shape(s) && Enabled(s, e)
  {
    e.Vote? && Grants(s.nodes[e.i], e.a) ==>
      e.a.lastTerm > LastTerm(s.nodes[e.i].log) || e.a.lastIndex >= |s.nodes[e.i].log|
  }

  /** If the message is accepted, it reaches to the end of the log or to an entry of another term. */
  ghost predicate NoCut(s: Sys, e: Step)
    requires Enabled(s, e)
  {
    e.Deliver? && AppendAnswer(s.nodes[e.m.dest], e.m.args).success ==>
      var log, a := s.nodes[e.m.dest].log, e.m.args;
      |log| <= Reach(a) + 1 || Agree(log[a.prevIndex + 1..], a.entries) < |a.entries|
  }

  ghost predicate FairAt(run: seq<Sys>, steps: seq<Step>, i: nat) {
    StepAt(run, steps, i) && Shape(run[i]) && FairVote(run[i], steps[i]) && NoCut(run[i], steps[i])
  }

  ghost predicate Fair(run: seq<Sys>, steps: seq<Step>) {
    Proper(run, steps) && forall i: nat :: i < |steps| ==> FairAt(run, steps, i)
  }

  // ----- committed entries -----

  /** Peer `v` has answered with success a message of `term` that reaches to index `k`. */
  ghost predicate Accepted(s: Sys, v: nat, term: nat, k: nat) {
    exists x :: x in s.answers && x.reply.success && x.append.dest == v && x.append.args.term == term &&
                k <= Reach(x.append.args)
  }

  ghost predicate HeldBy(s: Sys, v: nat, term: nat, k: nat) {
    v < |s.nodes| && (Campaign(v, term) in s.leaders || Accepted(s, v, term, k))
  }

  ghost predicate Quorum(s: Sys, q: set<nat>, term: nat, k: nat) {
    |q| > |s.nodes| / 2 && forall v :: v in q ==> HeldBy(s, v, term, k)
  }

  /** Entry `k` of the leader of `term` is of that term, and a majority took it over from that leader. */
  ghost predicate Committed(s: Sys, term: nat, k: nat) {
    && term != 0 && term in s.hist && k < |s.hist[term]| && s.hist[term][k].term == term
    && exists q :: Quorum(s, q, term, k)
  }

  // ----- what a peer holds -----

  /** Everybody in the quorum once had the committed entry in its log, in the term of the entry. */
  lemma WhenHeld(run: seq<Sys>, steps: seq<Step>, p: nat, term: nat, k: nat, v: nat) returns (d: nat)
    requires Proper(run, steps) && p < |run| && Committed(run[p], term, k) && HeldBy(run[p], v, term, k)
    ensures d < p && v < |run[d + 1].nodes|
    ensures run[d + 1].nodes[v].term == term && run[p].hist[term][..k + 1] <= run[d + 1].nodes[v].log
  {
    if Campaign(v, term) in run[p].leaders {
      var c: nat;
      d, c := WhenPut(run, steps, p, term, k);
      ProperInv(run, steps, p);
      OneLeaderPerTerm(run[p], Campaign(v, term), Campaign(c, term));
    } else {
      var x :| x in run[p].answers && x.reply.success && x.append.dest == v && x.append.args.term == term &&
               k <= Reach(x.append.args);
      d := WhenAccepted(run, steps, p, x);
    }
  }

  /** A message that reaches less far than a log and agrees with it is one that cuts it. */
  lemma CutAgrees(log: seq<Entry>, after: seq<Entry>, a: AppendArgs)
    requires |after| == Reach(a) + 1 < |log| && after <= log && a.entries == after[a.prevIndex + 1..]
    ensures Agree(log[a.prevIndex + 1..], a.entries) == |a.entries|
  {
    var tail := log[a.prevIndex + 1..];
    assert forall i :: 0 <= i < |a.entries| ==> tail[i] == a.entries[i];
  }

  lemma PrefixesOf(a: seq<Entry>, b: seq<Entry>, whole: seq<Entry>)
    requires a <= whole && b <= whole
    ensures |a| <= |b| ==> a <= b
    ensures |b| <= |a| ==> b <= a
  {
  }

  /** An accepted message takes nothing away that the log of its leader has as well. */
  lemma KeptByMessage(s: Sys, m: Append, es: seq<Entry>, whole: seq<Entry>)
    requires LogInv(s) && Enabled(s, Deliver(m)) && NoCut(s, Deliver(m))
    requires AppendAnswer(s.nodes[m.dest], m.args).success && es <= s.nodes[m.dest].log
    requires m.args.term in s.hist ==> s.hist[m.args.term] <= whole && es <= whole
    ensures es <= Next(s, Deliver(m)).nodes[m.dest].log
  {
    AcceptedLog(s, m);
    assert Snapshot(s, m);
    var log, after := s.nodes[m.dest].log, s.hist[m.args.term][..Reach(m.args) + 1];
    assert m.args.entries == after[m.args.prevIndex + 1..];
    PrefixesOf(after, es, whole);
    assert after <= es ==> after <= log;
    if after <= log && |after| < |log| {
      CutAgrees(log, after, m.args);
    }
  }

  /** Nothing but an accepted message takes anything away from a log. */
  lemma KeptByOthers(s: Sys, e: Step, v: nat)
    requires Shape(s) && Enabled(s, e) && v < |s.nodes|
    requires !(e.Deliver? && e.m.dest == v && AppendAnswer(s.nodes[v], e.m.args).success)
    ensures v < |Next(s, e).nodes| && s.nodes[v].log <= Next(s, e).nodes[v].log
  {
  }

  /** All leaders recorded from `term` on and before `limit` have `es`. */
  ghost predicate AllHave(hist: History, es: seq<Entry>, term: nat, limit: nat) {
    forall w :: w in hist && term <= w < limit ==> es <= hist[w]
  }

  /** Whose log step `k` may take something away from. */
  ghost predicate AcceptsAt(run: seq<Sys>, steps: seq<Step>, k: nat, v: nat) {
    && k < |steps| && k + 1 < |run| && v < |run[k].nodes| == |run[k + 1].nodes|
    && steps[k].Deliver? && steps[k].m.dest == v && AppendAnswer(run[k].nodes[v], steps[k].m.args).success
  }

  lemma AcceptedAt(run: seq<Sys>, steps: seq<Step>, k: nat, v: nat)
    requires Proper(run, steps) && AcceptsAt(run, steps, k, v)
    ensures run[k + 1].nodes[v].term in run[k].hist && run[k].hist == run[k + 1].hist
  {
    ProperStep(run, steps, k);
    AcceptedLog(run[k], steps[k].m);
  }

  lemma KeptAt(run: seq<Sys>, steps: seq<Step>, k: nat, v: nat, es: seq<Entry>, whole: seq<Entry>)
    requires Fair(run, steps) && k < |steps| && v < |run[k].nodes| && es <= run[k].nodes[v].log
    requires AcceptsAt(run, steps, k, v) && run[k + 1].nodes[v].term in run[k].hist ==>
               run[k].hist[run[k + 1].nodes[v].term] <= whole && es <= whole
    ensures v < |run[k + 1].nodes| && es <= run[k + 1].nodes[v].log
  {
    ProperStep(run, steps, k);
    assert FairAt(run, steps, k);
    var s, e := run[k], steps[k];
    if e.Deliver? && e.m.dest == v && AppendAnswer(s.nodes[v], e.m.args).success {
      KeptByMessage(s, e.m, es, whole);
    } else {
      KeptByOthers(s, e, v);
    }
  }

  lemma PersistsAt(run: seq<Sys>, steps: seq<Step>, p: nat, k: nat, v: nat, es: seq<Entry>, term: nat, limit: nat)
    requires Fair(run, steps) && k < p < |run| && v < |run[k].nodes|
    requires es <= run[k].nodes[v].log && term <= run[k].nodes[v].term
    requires v < |run[k + 1].nodes| && run[k + 1].nodes[v].term <= limit && limit !in run[k + 1].hist
    requires AllHave(run[p].hist, es, term, limit)
    ensures es <= run[k + 1].nodes[v].log
  {
    var whole := es;
    if AcceptsAt(run, steps, k, v) {
      AcceptedAt(run, steps, k, v);
      TermsRise(run, steps, k, k + 1, v);
      HistGrows(run, steps, k, p);
      var w := run[k + 1].nodes[v].term;
      assert w in run[p].hist && run[k].hist[w] <= run[p].hist[w];
      whole := run[p].hist[w];
    }
    KeptAt(run, steps, k, v, es, whole);
  }

  lemma {:induction false} Persists(
      run: seq<Sys>, steps: seq<Step>, p: nat, a: nat, q: nat, v: nat, es: seq<Entry>, term: nat, limit: nat)
    requires Fair(run, steps) && a <= q <= p < |run| && v < |run[a].nodes| && v < |run[q].nodes|
    requires es <= run[a].nodes[v].log && term <= run[a].nodes[v].term
    requires run[q].nodes[v].term <= limit && limit !in run[q].hist
    requires AllHave(run[p].hist, es, term, limit)
    ensures es <= run[q].nodes[v].log
    decreases q
  {
    if a < q {
      var k := q - 1;
      TermsRise(run, steps, a, k, v);
      TermsRise(run, steps, k, q, v);
      HistGrows(run, steps, k, q);
      Persists(run, steps, p, a, k, v, es, term, limit);
      PersistsAt(run, steps, p, k, v, es, term, limit);
    }
  }

  // ----- elections -----

  predicate AtLeast(ours: seq<Entry>, theirs: seq<Entry>)
    requires ours != [] && theirs != []
  {
    LastTerm(ours) > LastTerm(theirs) || (LastTerm(ours) == LastTerm(theirs) && |ours| >= |theirs|)
  }

  /** At step `i`, peer `v` gives its vote to `c`, which stood at step `j` with a log at least as up to date. */
  ghost predicate GivesVote(run: seq<Sys>, steps: seq<Step>, i: nat, j: nat, v: nat, c: nat, term: nat) {
    && j <= i && Stands(run, steps, j, c, term) && i + 1 < |run| && Shape(run[i])
    && v < |run[i].nodes| == |run[i + 1].nodes|
    && run[i].nodes[v].term <= term <= run[i + 1].nodes[v].term
    && AtLeast(run[j].nodes[c].log, run[i].nodes[v].log)
  }

  lemma BallotGiven(run: seq<Sys>, steps: seq<Step>, p: nat, b: Ballot) returns (i: nat, j: nat)
    requires Fair(run, steps) && p < |run| && b in run[p].ballots && b.reply.granted
    ensures i < p && steps[i].Vote? && GivesVote(run, steps, i, j, b.voter, b.candidate, b.election)
  {
    i, j := WhenCast(run, steps, p, b);
    var k := WhoAsked(run, steps, i, steps[i].a);
    ProperInv(run, steps, i);
    StandsOnce(run, steps, j, k, b.candidate, b.election);
    assert FairAt(run, steps, i);
    assert Grants(run[i].nodes[b.voter], steps[i].a);
  }

  lemma OwnVote(run: seq<Sys>, steps: seq<Step>, p: nat, c: Campaign) returns (j: nat)
    requires Fair(run, steps) && p < |run| && c in run[p].started
    ensures j < p && steps[j].Elect? && GivesVote(run, steps, j, j, c.node, c.node, c.term)
  {
    j := WhenStood(run, steps, p, c);
    ProperStep(run, steps, j);
  }

  /** Some peer of any majority voted for the leader. */
  lemma VoterAmong(s: Sys, c: Campaign, q: set<nat>) returns (v: nat)
    requires ElectionInv(s) && c in s.leaders && |q| > |s.nodes| / 2 && forall x :: x in q ==> x < |s.nodes|
    ensures v in q && c in s.started && Voted(s, v, c.term, c.node)
  {
    SupportersVoted(s, c);
    v := MajoritiesMeet(q, Supporters(s, c.node, c.term), |s.nodes|);
  }

  lemma VoteGiven(run: seq<Sys>, steps: seq<Step>, p: nat, c: Campaign, v: nat) returns (i: nat, j: nat)
    requires Fair(run, steps) && p < |run| && c in run[p].started && Voted(run[p], v, c.term, c.node)
    ensures i < p && !steps[i].HandOver? && GivesVote(run, steps, i, j, v, c.node, c.term)
  {
    if v == c.node {
      i := OwnVote(run, steps, p, c);
      j := i;
    } else {
      var b :| b in run[p].ballots && b.voter == v && b.candidate == c.node && b.election == c.term && b.reply.granted;
      i, j := BallotGiven(run, steps, p, b);
    }
  }

  /** Some peer of any majority gave its vote to the leader before that took over. */
  lemma Meeting(run: seq<Sys>, steps: seq<Step>, h: nat, c: Campaign, q: set<nat>) returns (v: nat, i: nat, j: nat)
    requires Fair(run, steps) && h < |steps| && steps[h].HandOver? && c in run[h + 1].leaders
    requires |q| > |run[h + 1].nodes| / 2 && forall x :: x in q ==> x < |run[h + 1].nodes|
    ensures v in q && i < h && GivesVote(run, steps, i, j, v, c.node, c.term)
  {
    ProperInv(run, steps, h + 1);
    v := VoterAmong(run[h + 1], c, q);
    i, j := VoteGiven(run, steps, h + 1, c, v);
  }

  // ----- Leader Completeness -----

  /** A log at least as up to date as one that has `es` has `es` too, if all leaders in between had it. */
  lemma CandidateHas(hist: History, ours: seq<Entry>, theirs: seq<Entry>, es: seq<Entry>, term: nat, limit: nat)
    requires ours != [] && theirs != [] && AtLeast(ours, theirs) && es != [] && LastTerm(es) == term && es <= theirs
    requires RisesTo(theirs, LastTerm(theirs)) && RisesTo(ours, LastTerm(ours)) && LastTerm(ours) < limit
    requires Traces(hist, ours) && AllHave(hist, es, term, limit)
    ensures es <= ours
  {
    var w, n := LastTerm(ours), |ours|;
    assert theirs[|es| - 1].term == term;
    assert TracesAt(hist, ours, n - 1) && ours[..n] == ours;
    assert es <= hist[w];
    if n <= |es| {
      assert es[n - 1] == hist[w][n - 1] == ours[n - 1];
      assert es[n - 1] == theirs[n - 1];
      assert theirs[n - 1].term <= theirs[|es| - 1].term;
    }
  }

  lemma OrderedLog(run: seq<Sys>, steps: seq<Step>, i: nat, v: nat)
    requires Proper(run, steps) && i < |run| && v < |run[i].nodes|
    ensures var log := run[i].nodes[v].log;
            && log != [] && RisesTo(log, LastTerm(log)) && LastTerm(log) <= run[i].nodes[v].term
            && Traces(run[i].hist, log)
  {
    ProperInv(run, steps, i);
    OrderedInv(run, steps, i);
    assert RisesTo(run[i].nodes[v].log, run[i].nodes[v].term);
  }

  /** The vote of a peer that once held the entry went to a candidate that has it. */
  lemma VoteCarries(run: seq<Sys>, steps: seq<Step>, p: nat, term: nat, k: nat, limit: nat,
                    v: nat, i: nat, j: nat, c: nat)
    requires Fair(run, steps) && i < p < |run| && Committed(run[p], term, k) && HeldBy(run[p], v, term, k)
    requires term < limit && limit !in run[i].hist && GivesVote(run, steps, i, j, v, c, limit)
    requires AllHave(run[p].hist, run[p].hist[term][..k + 1], term, limit)
    ensures run[p].hist[term][..k + 1] <= run[j].nodes[c].log
  {
    var es := run[p].hist[term][..k + 1];
    var d := WhenHeld(run, steps, p, term, k, v);
    if i <= d {
      TermsRise(run, steps, i + 1, d + 1, v);
      assert false;
    }
    Persists(run, steps, p, d + 1, i, v, es, term, limit);
    OrderedLog(run, steps, i, v);
    OrderedLog(run, steps, j, c);
    HistGrows(run, steps, j, p);
    TracesGrow(run[j].hist, run[p].hist, run[j].nodes[c].log);
    CandidateHas(run[p].hist, run[j].nodes[c].log, run[i].nodes[v].log, es, term, limit);
  }

  /** A committed entry, with all before it, is in the log of every leader of a later term. */
  lemma {:induction false} LeaderCompleteness(run: seq<Sys>, steps: seq<Step>, p: nat, term: nat, k: nat, later: nat)
    requires Fair(run, steps) && p < |run| && Committed(run[p], term, k) && term < later && later in run[p].hist
    ensures run[p].hist[term][..k + 1] <= run[p].hist[later]
    decreases later
  {
    var es := run[p].hist[term][..k + 1];
    forall w | w in run[p].hist && term <= w < later ensures es <= run[p].hist[w] {
      if term < w {
        LeaderCompleteness(run, steps, p, term, k, w);
      }
    }
    var h, c := WhenLed(run, steps, p, later);
    var q :| Quorum(run[p], q, term, k);
    ShapeAlong(run, steps, p);
    ShapeAlong(run, steps, h + 1);
    var v, i, j := Meeting(run, steps, h, Campaign(c, later), q);
    HistGrows(run, steps, i, h);
    VoteCarries(run, steps, p, term, k, later, v, i, j, c);
    LogWhileStanding(run, steps, j, h, h, c, later);
  }
}
