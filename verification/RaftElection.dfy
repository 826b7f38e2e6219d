/**
 Election Safety (section 5.2 of the extended Raft paper): no term has two leaders.
 */
module RaftElection {
  import opened RaftPeer
  import opened RaftSystem
  import opened Collections

  /** Peer `v` voted for peer `c` in `term`, by a ballot or by standing itself. */
  ghost predicate Voted(s: Sys, v: nat, term: nat, c: nat) {
    || (v == c && Campaign(c, term) in s.started)
    || (exists b :: b in s.ballots && b.voter == v && b.candidate == c && b.election == term && b.reply.granted)
  }

  /** A vote is of the present term or an older one, and the present one is on record. */
  ghost predicate OnRecord(s: Sys) {
    forall v: nat, term: nat, c: nat :: Voted(s, v, term, c) ==>
      v < |s.nodes| && term <= s.nodes[v].term && (term == s.nodes[v].term ==> s.nodes[v].votedFor == c)
  }

  ghost predicate OneVotePerTerm(s: Sys) {
    forall v: nat, term: nat, c: nat, d: nat :: Voted(s, v, term, c) && Voted(s, v, term, d) ==> c == d
  }

  /** No peer casts a ballot for itself: its own vote is counted apart. */
  ghost predicate NoSelfBallots(s: Sys) {
    forall b :: b in s.ballots ==> b.voter != b.candidate
  }

  ghost predicate LeadersElected(s: Sys) {
    && (forall c :: c in s.leaders ==> c in s.started && Majority(s, c.node, c.term))
    && s.active <= s.started
    && (forall i :: 0 <= i < |s.nodes| && s.nodes[i].role == Leader ==> Campaign(i, s.nodes[i].term) in s.leaders)
  }

  ghost predicate ElectionInv(s: Sys) {
    Shape(s) && OnRecord(s) && OneVotePerTerm(s) && NoSelfBallots(s) && LeadersElected(s)
  }

  /** A step keeps a vote's record when it keeps the peer's vote or raises its term. */
  ghost predicate KeepsVote(n: Node, m: Node) {
    n.term < m.term || (n.term == m.term && n.votedFor == m.votedFor)
  }

  lemma ShapeStep(s: Sys, e: Step)
    requires Shape(s) && Enabled(s, e)
    ensures Shape(Next(s, e)) && |Next(s, e).nodes| == |s.nodes|
  {
    if e.Reply? {
      var a := e.x.append.args;
      assert s.nodes[a.leader].log != [];
    }
  }

  /** Votes that are not new stay on record. */
  lemma SameVotes(s: Sys, t: Sys)
    requires OnRecord(s) && |t.nodes| == |s.nodes|
    requires forall v: nat, term: nat, c: nat :: Voted(t, v, term, c) ==> Voted(s, v, term, c)
    requires forall i :: 0 <= i < |s.nodes| ==> KeepsVote(s.nodes[i], t.nodes[i])
    ensures OnRecord(t)
  {
  }

  lemma NoNewVotes(s: Sys, t: Sys)
    requires t.started == s.started && t.ballots == s.ballots
    ensures forall v: nat, term: nat, c: nat :: Voted(t, v, term, c) <==> Voted(s, v, term, c)
  {
  }

  lemma ElectVotes(s: Sys, i: nat)
    requires ElectionInv(s) && i < |s.nodes|
    ensures OnRecord(Next(s, Elect(i))) && OneVotePerTerm(Next(s, Elect(i)))
  {
    var t := Next(s, Elect(i));
    var term := s.nodes[i].term + 1;
    forall v: nat, u: nat, c: nat | Voted(t, v, u, c) ensures Voted(s, v, u, c) || (v == i && u == term && c == i) {}
    forall v: nat, u: nat, c: nat | Voted(t, v, u, c)
      ensures v < |t.nodes| && u <= t.nodes[v].term && (u == t.nodes[v].term ==> t.nodes[v].votedFor == c)
    {
      if Voted(s, v, u, c) {}
    }
  }

  lemma VoteVotes(s: Sys, i: nat, a: VoteArgs)
    requires ElectionInv(s) && Enabled(s, Vote(i, a))
    ensures OnRecord(Next(s, Vote(i, a))) && OneVotePerTerm(Next(s, Vote(i, a)))
  {
    var t := Next(s, Vote(i, a));
    var n, m := s.nodes[i], t.nodes[i];
    forall v: nat, u: nat, c: nat | Voted(t, v, u, c)
      ensures Voted(s, v, u, c) || (v == i && u == a.term && c == a.candidate && Grants(n, a))
    {}
    if Grants(n, a) {
      assert m.term == a.term && m.votedFor == a.candidate;
      forall c: nat | Voted(s, i, a.term, c) ensures c == a.candidate {
        assert n.term == a.term && n.votedFor == c;
      }
    }
    assert n.term < m.term || (n.term == m.term && (n.votedFor == m.votedFor || n.votedFor == -1));
  }

  /** Ballots are only added, so a majority stays one. */
  lemma MajorityStays(s: Sys, t: Sys, i: nat, term: nat)
    requires s.ballots <= t.ballots && |t.nodes| == |s.nodes| && Majority(s, i, term)
    ensures Majority(t, i, term)
  {
    assert Voters(s, i, term) <= Voters(t, i, term);
    SubsetSize(Voters(s, i, term), Voters(t, i, term));
  }

  /**
   What the peer itself can tell before it acts. To take over leadership of its present term, it has campaigned
   in that term and has a majority of its votes. To step down to the term of a reply, it has given no vote in
   that term or a later one.
   */
  ghost predicate Backed(s: Sys, e: Step)
    requires Enabled(s, e)
  {
    match e
    case HandOver(i, _) => Campaign(i, s.nodes[i].term) in s.started && Majority(s, i, s.nodes[i].term)
    case HigherReply(i, b) => forall term: nat, c: nat :: Voted(s, i, term, c) ==> term < b.reply.term
    case _ => true
  }

  lemma LeadersStep(s: Sys, e: Step)
    requires ElectionInv(s) && Enabled(s, e) && Backed(s, e)
    ensures LeadersElected(Next(s, e))
  {
    var t := Next(s, e);
    ShapeStep(s, e);
    forall c | c in t.leaders ensures c in t.started && Majority(t, c.node, c.term) {
      if c !in s.leaders {
        assert e.HandOver? && c == Campaign(e.i, s.nodes[e.i].term);
      }
      MajorityStays(s, t, c.node, c.term);
    }
  }

  lemma QuietVotes(s: Sys, e: Step)
    requires ElectionInv(s) && Enabled(s, e) && !e.Elect? && !e.Vote? && !e.HigherReply?
    ensures OnRecord(Next(s, e)) && OneVotePerTerm(Next(s, e))
  {
    var t := Next(s, e);
    ShapeStep(s, e);
    NoNewVotes(s, t);
    forall i | 0 <= i < |s.nodes| ensures KeepsVote(s.nodes[i], t.nodes[i]) {}
    SameVotes(s, t);
  }

  /** Stepping down keeps every vote on record exactly when none of the peer's own is of that term or a later one. */
  lemma StepDownVotes(s: Sys, i: nat, b: Ballot)
    requires ElectionInv(s) && Enabled(s, HigherReply(i, b))
    ensures OneVotePerTerm(Next(s, HigherReply(i, b)))
    ensures OnRecord(Next(s, HigherReply(i, b))) <==> Backed(s, HigherReply(i, b))
  {
    var t := Next(s, HigherReply(i, b));
    NoNewVotes(s, t);
    if OnRecord(t) {
      forall term: nat, c: nat | Voted(s, i, term, c) ensures term < b.reply.term {
        assert Voted(t, i, term, c);
      }
    }
    if Backed(s, HigherReply(i, b)) {
      forall v: nat, term: nat, c: nat | Voted(t, v, term, c)
        ensures v < |t.nodes| && term <= t.nodes[v].term && (term == t.nodes[v].term ==> t.nodes[v].votedFor == c)
      {
        assert Voted(s, v, term, c);
      }
    }
  }

  lemma ElectionStep(s: Sys, e: Step)
    requires ElectionInv(s) && Enabled(s, e) && Backed(s, e)
    ensures ElectionInv(Next(s, e))
  {
    ShapeStep(s, e);
    LeadersStep(s, e);
    if e.Elect? {
      ElectVotes(s, e.i);
    } else if e.Vote? {
      VoteVotes(s, e.i, e.a);
    } else if e.HigherReply? {
      StepDownVotes(s, e.i, e.b);
    } else {
      QuietVotes(s, e);
    }
  }

  /** A step keeps the voting record and elected leaders if and only if it is backed. */
  lemma BackedIff(s: Sys, e: Step)
    requires ElectionInv(s) && Enabled(s, e)
    ensures ElectionInv(Next(s, e)) <==> Backed(s, e)
  {
    var t := Next(s, e);
    if Backed(s, e) {
      ElectionStep(s, e);
    } else if e.HigherReply? {
      StepDownVotes(s, e.i, e.b);
    } else {
      assert Campaign(e.i, s.nodes[e.i].term) in t.leaders;
      assert t.started == s.started && Voters(t, e.i, s.nodes[e.i].term) == Voters(s, e.i, s.nodes[e.i].term);
    }
  }

  /** A step whose tests still hold when it acts is backed. */
  lemma TimelyIsBacked(s: Sys, e: Step)
    requires ElectionInv(s) && Enabled(s, e) && NotStale(s, e)
    ensures Backed(s, e)
  {
    if e.HigherReply? {
      forall term: nat, c: nat | Voted(s, e.i, term, c) ensures term < e.b.reply.term {
        assert term <= s.nodes[e.i].term;
      }
    }
  }

  // ----- runs -----

  ghost predicate BackedAt(run: seq<Sys>, steps: seq<Step>, i: nat) {
    StepAt(run, steps, i) && Backed(run[i], steps[i])
  }

  ghost predicate AllBacked(run: seq<Sys>, steps: seq<Step>) {
    forall i: nat :: i < |steps| ==> BackedAt(run, steps, i)
  }

  lemma ElectionStepAt(run: seq<Sys>, steps: seq<Step>, i: nat)
    requires BackedAt(run, steps, i) && ElectionInv(run[i])
    ensures ElectionInv(run[i + 1])
  {
    ElectionStep(run[i], steps[i]);
  }

  lemma {:induction false} ElectionAlong(run: seq<Sys>, steps: seq<Step>, i: nat)
    requires i < |run| && ElectionInv(run[0]) && forall k: nat :: k < i ==> BackedAt(run, steps, k)
    ensures ElectionInv(run[i])
  {
    if i > 0 {
      var k := i - 1;
      ElectionAlong(run, steps, k);
      ElectionStepAt(run, steps, k);
    }
  }

  lemma ElectionInvariant(run: seq<Sys>, steps: seq<Step>, i: nat)
    requires IsRun(run, steps) && AllBacked(run, steps) && i < |run|
    ensures ElectionInv(run[i])
  {
    ElectionAlong(run, steps, i);
  }

  lemma {:induction false} TimelyAlong(run: seq<Sys>, steps: seq<Step>, i: nat)
    requires i < |run| && ElectionInv(run[0]) && forall k: nat :: k < i ==> TimelyAt(run, steps, k)
    ensures ElectionInv(run[i]) && forall k: nat :: k < i ==> BackedAt(run, steps, k)
  {
    if i > 0 {
      var k := i - 1;
      TimelyAlong(run, steps, k);
      assert TimelyAt(run, steps, k);
      TimelyIsBacked(run[k], steps[k]);
      ElectionStepAt(run, steps, k);
    }
  }

  /** If no test is stale when it is acted on, every step is backed. */
  lemma NeverStaleIsBacked(run: seq<Sys>, steps: seq<Step>)
    requires IsRun(run, steps) && NeverStale(run, steps)
    ensures AllBacked(run, steps)
  {
    TimelyAlong(run, steps, |steps|);
  }

  // ----- majorities meet -----

  lemma {:induction false} Range(n: nat) returns (all: set<nat>)
    ensures (forall v: nat :: v in all <==> v < n) && |all| == n
  {
    if n == 0 {
      all := {};
    } else {
      var rest := Range(n - 1);
      all := rest + {n - 1};
    }
  }

  lemma MajoritiesMeet(a: set<nat>, b: set<nat>, n: nat) returns (v: nat)
    requires (forall x :: x in a ==> x < n) && (forall x :: x in b ==> x < n)
    requires |a| > n / 2 && |b| > n / 2
    ensures v in a && v in b
  {
    var all := Range(n);
    if a !! b {
      assert |a + b| == |a| + |b|;
      SubsetSize(a + b, all);
      assert false;
    }
    v :| v in a && v in b;
  }

  ghost function Supporters(s: Sys, i: nat, term: nat): set<nat> {
    Voters(s, i, term) + {i}
  }

  lemma SupportersVoted(s: Sys, c: Campaign)
    requires ElectionInv(s) && c in s.leaders
    ensures |Supporters(s, c.node, c.term)| > |s.nodes| / 2
    ensures forall v :: v in Supporters(s, c.node, c.term) ==> Voted(s, v, c.term, c.node) && v < |s.nodes|
  {
    var voters := Voters(s, c.node, c.term);
    assert c.node !in voters;
    forall v | v in Supporters(s, c.node, c.term) ensures Voted(s, v, c.term, c.node) {
      if v in voters {
        var b :| b in s.ballots && b.candidate == c.node && b.election == c.term && b.reply.granted && b.voter == v;
      }
    }
  }

  lemma OneLeaderPerTerm(s: Sys, c: Campaign, d: Campaign)
    requires ElectionInv(s) && c in s.leaders && d in s.leaders && c.term == d.term
    ensures c == d
  {
    SupportersVoted(s, c);
    SupportersVoted(s, d);
    var v := MajoritiesMeet(Supporters(s, c.node, c.term), Supporters(s, d.node, d.term), |s.nodes|);
    assert Voted(s, v, c.term, c.node) && Voted(s, v, c.term, d.node);
  }

  lemma {:induction false} LeadersStay(run: seq<Sys>, steps: seq<Step>, i: nat, j: nat)
    requires IsRun(run, steps) && AllBacked(run, steps) && i <= j < |run|
    ensures run[i].leaders <= run[j].leaders
    decreases j
  {
    if i < j {
      var k := j - 1;
      LeadersStay(run, steps, i, k);
      ElectionInvariant(run, steps, k);
      assert StepAt(run, steps, k);
    }
  }

  /** Over a whole run, two peers that ever lead in the same term are the same peer. */
  lemma ElectionSafety(run: seq<Sys>, steps: seq<Step>, p: nat, q: nat, i: nat, j: nat)
    requires IsRun(run, steps) && AllBacked(run, steps) && p <= q < |run|
    requires i < |run[p].nodes| && j < |run[q].nodes|
    requires run[p].nodes[i].role == Leader && run[q].nodes[j].role == Leader
    requires run[p].nodes[i].term == run[q].nodes[j].term
    ensures i == j
  {
    ElectionInvariant(run, steps, p);
    ElectionInvariant(run, steps, q);
    LeadersStay(run, steps, p, q);
    var term := run[q].nodes[j].term;
    OneLeaderPerTerm(run[q], Campaign(i, term), Campaign(j, term));
  }
}
