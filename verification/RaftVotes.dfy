/**
 What a vote says about logs: a vote is granted if and only if it is free and the candidate's log, when it
 stood, was not behind the voter's log, when it voted. So no elected leader was behind a majority.
 */
module RaftVotes {
  import opened RaftPeer
  import opened RaftSystem
  import opened RaftElection

  function LastTerm(log: seq<Entry>): nat
    requires log != []
  {
    log[|log| - 1].term
  }

  /** The last term of `ours` is higher, or it is the same and `ours` is at most one entry shorter. */
  predicate NotBehind(ours: seq<Entry>, theirs: seq<Entry>)
    requires ours != [] && theirs != []
  {
    LastTerm(ours) > LastTerm(theirs) || (LastTerm(ours) == LastTerm(theirs) && |ours| + 1 >= |theirs|)
  }

  /** The peer has not given its vote of `term` to anyone but `c`, and is in no later term. */
  predicate Free(n: Node, c: nat, term: nat) {
    n.term < term || (n.term == term && (n.votedFor == -1 || n.votedFor == c))
  }

  /** At step `j`, peer `c` stands for election in `term`. */
  ghost predicate Stands(run: seq<Sys>, steps: seq<Step>, j: nat, c: nat, term: nat) {
    && StepAt(run, steps, j) && Shape(run[j])
    && steps[j] == Elect(c) && run[j].nodes[c].term + 1 == term
  }

  /** At step `i`, peer `v` answers the request of `c` for its vote in `term`. */
  ghost predicate Answers(run: seq<Sys>, steps: seq<Step>, i: nat, v: nat, c: nat, term: nat) {
    && StepAt(run, steps, i) && Shape(run[i])
    && steps[i].Vote? && steps[i].i == v && steps[i].a.candidate == c && steps[i].a.term == term
  }

  /** Candidate `c` stood at step `j` with a log that was not behind the one of voter `v` at step `i`. */
  ghost predicate Ahead(run: seq<Sys>, steps: seq<Step>, j: nat, i: nat, v: nat, c: nat, term: nat) {
    && Stands(run, steps, j, c, term) && Answers(run, steps, i, v, c, term)
    && NotBehind(run[j].nodes[c].log, run[i].nodes[v].log)
  }

  lemma {:induction false} ShapeAlong(run: seq<Sys>, steps: seq<Step>, p: nat)
    requires IsRun(run, steps) && p < |run|
    ensures Shape(run[p]) && |run[p].nodes| == |run[0].nodes|
  {
    if p > 0 {
      var k := p - 1;
      ShapeAlong(run, steps, k);
      assert StepAt(run, steps, k);
      ShapeStep(run[k], steps[k]);
    }
  }

  /** Every request for a vote was made by a candidate that stood, and describes its log of that moment. */
  lemma {:induction false} WhoAsked(run: seq<Sys>, steps: seq<Step>, p: nat, a: VoteArgs) returns (j: nat)
    requires IsRun(run, steps) && p < |run| && a in run[p].asked
    ensures j < p && Stands(run, steps, j, a.candidate, a.term)
    ensures a.lastIndex == |run[j].nodes[a.candidate].log| && a.lastTerm == LastTerm(run[j].nodes[a.candidate].log)
  {
    var k := p - 1;
    ShapeAlong(run, steps, k);
    assert StepAt(run, steps, k);
    if a in run[k].asked {
      j := WhoAsked(run, steps, k, a);
    } else {
      j := k;
    }
  }

  /**
   A peer that is asked for its vote grants it if and only if its vote is free and the candidate's log, when it
   stood, was not behind the peer's own. It takes over a later term and answers an earlier one with its own;
   its log stays as it is.
   */
  lemma VoteExactly(run: seq<Sys>, steps: seq<Step>, i: nat) returns (j: nat, b: Ballot)
    requires IsRun(run, steps) && i < |steps| && steps[i].Vote?
    ensures b.voter == steps[i].i && b.candidate == steps[i].a.candidate && b.election == steps[i].a.term
    ensures Answers(run, steps, i, b.voter, b.candidate, b.election)
    ensures j < i && Stands(run, steps, j, b.candidate, b.election)
    ensures run[i + 1].ballots == run[i].ballots + {b}
    ensures b.reply.granted <==>
              && Free(run[i].nodes[b.voter], b.candidate, b.election)
              && NotBehind(run[j].nodes[b.candidate].log, run[i].nodes[b.voter].log)
    ensures b.reply.term > b.election <==> run[i].nodes[b.voter].term > b.election
    ensures b.reply.term > b.election ==> b.reply.term == run[i].nodes[b.voter].term
    ensures var n := run[i].nodes[b.voter];
            run[i + 1].nodes == run[i].nodes[b.voter := n.(
              term := if b.election > n.term then b.election else n.term,
              role := if b.election > n.term then Follower else n.role,
              votedFor := if b.reply.granted then b.candidate else if b.election > n.term then -1 else n.votedFor)]
  {
    ShapeAlong(run, steps, i);
    assert StepAt(run, steps, i);
    var v, a := steps[i].i, steps[i].a;
    j := WhoAsked(run, steps, i, a);
    b := Ballot(v, a.candidate, a.term, VoteAnswer(run[i].nodes[v], a));
    var n := run[i].nodes[v];
    assert SeenTerm(n, a.term).log == n.log;
    assert Grants(n, a) <==> Free(n, a.candidate, a.term) && NotBehind(run[j].nodes[a.candidate].log, n.log);
  }

  /** Every ballot was cast at some step. */
  lemma {:induction false} WhenCast(run: seq<Sys>, steps: seq<Step>, p: nat, b: Ballot) returns (i: nat, j: nat)
    requires IsRun(run, steps) && p < |run| && b in run[p].ballots
    ensures j < i < p && Stands(run, steps, j, b.candidate, b.election)
    ensures Answers(run, steps, i, b.voter, b.candidate, b.election)
    ensures b.reply.granted <==>
              && Free(run[i].nodes[b.voter], b.candidate, b.election)
              && NotBehind(run[j].nodes[b.candidate].log, run[i].nodes[b.voter].log)
  {
    var k := p - 1;
    if b in run[k].ballots {
      i, j := WhenCast(run, steps, k, b);
    } else {
      ShapeAlong(run, steps, k);
      assert StepAt(run, steps, k) && steps[k].Vote?;
      var c: Ballot;
      i := k;
      j, c := VoteExactly(run, steps, k);
    }
  }

  lemma {:induction false} CampaignStays(run: seq<Sys>, steps: seq<Step>, j: nat, p: nat, c: nat, term: nat)
    requires IsRun(run, steps) && j < p < |run| && Stands(run, steps, j, c, term)
    ensures Campaign(c, term) in run[p].started
    decreases p
  {
    var k := p - 1;
    ShapeAlong(run, steps, k);
    assert StepAt(run, steps, k);
    if j < k {
      CampaignStays(run, steps, j, k, c, term);
    }
  }

  /** A peer stands at most once in a term. */
  lemma StandsOnce(run: seq<Sys>, steps: seq<Step>, j: nat, k: nat, c: nat, term: nat)
    requires IsRun(run, steps) && AllBacked(run, steps)
    requires Stands(run, steps, j, c, term) && Stands(run, steps, k, c, term)
    ensures j == k
  {
    if j != k {
      var first, second := if j < k then j else k, if j < k then k else j;
      CampaignStays(run, steps, first, second, c, term);
      ElectionInvariant(run, steps, second);
      assert Voted(run[second], c, term, c);
      assert false;
    }
  }

  lemma {:induction false} WhenStood(run: seq<Sys>, steps: seq<Step>, p: nat, c: Campaign) returns (j: nat)
    requires IsRun(run, steps) && p < |run| && c in run[p].started
    ensures j < p && Stands(run, steps, j, c.node, c.term)
  {
    var k := p - 1;
    ShapeAlong(run, steps, k);
    assert StepAt(run, steps, k);
    if c in run[k].started {
      j := WhenStood(run, steps, k, c);
    } else {
      j := k;
    }
  }

  ghost predicate GaveWay(run: seq<Sys>, steps: seq<Step>, j: nat, p: nat, v: nat, c: Campaign) {
    exists i: nat :: j < i < p && Ahead(run, steps, j, i, v, c.node, c.term)
  }

  /**
   Every leader stood in its term exactly once, and a majority, itself included, consists of peers whose logs,
   when they voted, its own log at that moment was not behind.
   */
  lemma LeaderNotBehind(run: seq<Sys>, steps: seq<Step>, p: nat, c: Campaign) returns (j: nat, backers: set<nat>)
    requires IsRun(run, steps) && AllBacked(run, steps) && p < |run| && c in run[p].leaders
    ensures j < p && Stands(run, steps, j, c.node, c.term)
    ensures forall k: nat :: Stands(run, steps, k, c.node, c.term) ==> k == j
    ensures c.node in backers && |backers| > |run[p].nodes| / 2
    ensures forall v :: v in backers && v != c.node ==> GaveWay(run, steps, j, p, v, c)
  {
    ElectionInvariant(run, steps, p);
    j := WhenStood(run, steps, p, c);
    forall k: nat | Stands(run, steps, k, c.node, c.term) ensures k == j {
      StandsOnce(run, steps, j, k, c.node, c.term);
    }
    SupportersVoted(run[p], c);
    backers := Supporters(run[p], c.node, c.term);
    forall v | v in backers && v != c.node ensures GaveWay(run, steps, j, p, v, c) {
      assert Voted(run[p], v, c.term, c.node);
      var b :| b in run[p].ballots && b.voter == v && b.candidate == c.node && b.election == c.term && b.reply.granted;
      var i, k := WhenCast(run, steps, p, b);
      assert Ahead(run, steps, j, i, v, c.node, c.term);
    }
  }
}
