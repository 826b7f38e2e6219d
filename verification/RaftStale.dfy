/**
 The hand-over to leadership does not look at the term again: a peer whose votes were given in an older
 term leads its present term. One such hand-over is enough to give a term two leaders.
 */
module RaftStale {
  import opened RaftPeer
  import opened RaftSystem
  import opened RaftElection

  /** One step of the code; `timely` and `leads` say whether its tests still hold when it acts. */
  ghost predicate Link(s: Sys, e: Step, t: Sys, timely: bool, leads: bool) {
    Shape(s) && Enabled(s, e) && t == Next(s, e) && NotStale(s, e) == timely && StillLeads(s, e) == leads
  }

  const LOG := [DUMMY]
  const HIST: map<nat, seq<Entry>> := map[0 := LOG]
  const FIRST := VoteArgs(1, 0, 1, 0)     // peer 0 campaigns for term 1
  const OTHER := VoteArgs(2, 1, 1, 0)      // peer 1 campaigns for term 2
  const SECOND := VoteArgs(2, 2, 1, 0)    // peer 2 campaigns for term 2
  const GIVEN1 := Ballot(1, 0, 1, VoteReply(1, true))
  const GIVEN0 := Ballot(0, 2, 2, VoteReply(2, true))

  function State(me: nat, term: nat, votedFor: int, role: Role): Node {
    Node(me, 3, term, votedFor, role, LOG, 0, [], [])
  }

  /** A state in which nobody has led yet. */
  function Leaderless(nodes: seq<Node>, asked: set<VoteArgs>, ballots: set<Ballot>, campaigns: set<Campaign>): Sys {
    Sys(nodes, asked, ballots, {}, {}, campaigns, campaigns, {}, HIST)
  }

  lemma OneVoteIsMajority(s: Sys, i: nat, term: nat, b: Ballot)
    requires |s.nodes| == 3 && b in s.ballots && b.candidate == i && b.election == term && b.reply.granted
    ensures Majority(s, i, term)
  {
    assert b.voter in Voters(s, i, term);
  }

  /** Peer 0 campaigns for term 1 and gets the vote of peer 1. */
  lemma FirstCampaign() returns (s0: Sys, s1: Sys, s2: Sys)
    ensures Starts(s0) && Link(s0, Elect(0), s1, true, true) && Link(s1, Vote(1, FIRST), s2, true, true)
    ensures s2 == Leaderless([State(0, 1, 0, Candidate), State(1, 1, 0, Follower), State(2, 0, -1, Follower)],
                             {FIRST}, {GIVEN1}, {Campaign(0, 1)})
  {
    s0 := Leaderless([NewNode(0, 3), NewNode(1, 3), NewNode(2, 3)], {}, {}, {});
    s1 := Next(s0, Elect(0));
    s2 := Next(s1, Vote(1, FIRST));
  }

  /** Peer 2 campaigns twice. */
  lemma SecondCampaign(s2: Sys) returns (s3: Sys, s4: Sys)
    requires s2 == Leaderless([State(0, 1, 0, Candidate), State(1, 1, 0, Follower), State(2, 0, -1, Follower)],
                              {FIRST}, {GIVEN1}, {Campaign(0, 1)})
    ensures Link(s2, Elect(2), s3, true, true) && Link(s3, Elect(2), s4, true, true)
    ensures s4 == Leaderless([State(0, 1, 0, Candidate), State(1, 1, 0, Follower), State(2, 2, 2, Candidate)],
                             {FIRST, VoteArgs(1, 2, 1, 0), SECOND}, {GIVEN1},
                             {Campaign(0, 1), Campaign(2, 1), Campaign(2, 2)})
  {
    s3 := Next(s2, Elect(2));
    s4 := Next(s3, Elect(2));
  }

  /** Everybody has campaigned or voted: both campaigns have their majority, but peer 0 is in term 2 now. */
  function Split(): Sys {
    Leaderless([State(0, 2, 2, Follower), State(1, 1, 0, Follower), State(2, 2, 2, Candidate)],
               {FIRST, VoteArgs(1, 2, 1, 0), SECOND}, {GIVEN1, GIVEN0},
               {Campaign(0, 1), Campaign(2, 1), Campaign(2, 2)})
  }

  /** Peer 0 votes for peer 2 in term 2. */
  lemma Overtaken(s4: Sys)
    requires s4 == Leaderless([State(0, 1, 0, Candidate), State(1, 1, 0, Follower), State(2, 2, 2, Candidate)],
                              {FIRST, VoteArgs(1, 2, 1, 0), SECOND}, {GIVEN1},
                              {Campaign(0, 1), Campaign(2, 1), Campaign(2, 2)})
    ensures Link(s4, Vote(0, SECOND), Split(), true, true)
  {
    var s5 := Next(s4, Vote(0, SECOND));
    assert s5.ballots == {GIVEN1, GIVEN0};
  }

  const SPLIT_STEPS := [Elect(0), Vote(1, FIRST), Elect(2), Elect(2), Vote(0, SECOND)]

  /** The five steps that lead there. */
  lemma SplitRun() returns (s: seq<Sys>)
    ensures |s| == 6 && Starts(s[0]) && s[5] == Split()
    ensures forall i :: 0 <= i < 5 ==> Link(s[i], SPLIT_STEPS[i], s[i + 1], true, true)
  {
    var s0, s1, s2 := FirstCampaign();
    var s3, s4 := SecondCampaign(s2);
    Overtaken(s4);
    s := [s0, s1, s2, s3, s4, Split()];
  }

  /** Peer 2 takes over in its own term. */
  lemma Rightful(s: Sys) returns (t: Sys)
    requires |s.nodes| == 3 && Shape(s) && GIVEN0 in s.ballots && Campaign(2, 2) in s.active && s.nodes[2].term == 2
    ensures Link(s, HandOver(2, 2), t, true, true) && |t.nodes| == 3 && t.nodes[0] == s.nodes[0]
    ensures Shape(t) && t.nodes[2].role == Leader && t.nodes[2].term == 2
    ensures t.ballots == s.ballots && t.active == s.active - {Campaign(2, 2)}
  {
    OneVoteIsMajority(s, 2, 2, GIVEN0);
    t := Next(s, HandOver(2, 2));
  }

  /** Peer 0 takes over on votes of term 1, but is in term 2. */
  lemma Outdated(s: Sys) returns (t: Sys)
    requires |s.nodes| == 3 && Shape(s) && GIVEN1 in s.ballots && Campaign(0, 1) in s.active && s.nodes[0].term == 2
    ensures Link(s, HandOver(0, 1), t, false, true) && |t.nodes| == 3 && t.nodes[2] == s.nodes[2]
    ensures Shape(t) && t.nodes[0].role == Leader && t.nodes[0].term == 2
    ensures t.ballots == s.ballots && t.active == s.active - {Campaign(0, 1)}
    ensures t.leaders == s.leaders + {Campaign(0, 2)}
  {
    OneVoteIsMajority(s, 0, 1, GIVEN1);
    t := Next(s, HandOver(0, 1));
  }

  /** Linked states are a run, in which only the steps `stale` and `unled` act on an outdated test. */
  lemma LinksAreRun(s: seq<Sys>, e: seq<Step>, stale: int, unled: int)
    requires |s| == |e| + 1 && Starts(s[0])
    requires forall i :: 0 <= i < |e| ==> Link(s[i], e[i], s[i + 1], i != stale, i != unled)
    ensures IsRun(s, e)
    ensures forall i: nat :: i < |e| ==> (TimelyAt(s, e, i) <==> i != stale) && (LeadsAt(s, e, i) <==> i != unled)
  {
    forall i: nat | i < |e|
      ensures StepAt(s, e, i) && (TimelyAt(s, e, i) <==> i != stale) && (LeadsAt(s, e, i) <==> i != unled)
    {
      assert Link(s[i], e[i], s[i + 1], i != stale, i != unled);
    }
  }

  /**
   Without the term test at the hand-over, Election Safety fails: in this run of three peers only the
   last step is stale, and afterwards peers 0 and 2 both lead term 2.
   */
  lemma TwoLeaders() returns (run: seq<Sys>, steps: seq<Step>)
    ensures IsRun(run, steps) && AlwaysLeads(run, steps) && |steps| == 7
    ensures steps[6].HandOver? && forall i: nat :: i < 7 ==> (TimelyAt(run, steps, i) <==> i != 6)
    ensures |run[7].nodes| == 3 && run[7].nodes[0].role == Leader && run[7].nodes[2].role == Leader
    ensures run[7].nodes[0].term == run[7].nodes[2].term == 2
  {
    var s := SplitRun();
    var s6 := Rightful(Split());
    var s7 := Outdated(s6);
    run, steps := s + [s6, s7], SPLIT_STEPS + [HandOver(2, 2), HandOver(0, 1)];
    LinksAreRun(run, steps, 6, -1);
  }

  ghost predicate OneLeaderEach(s: Sys) {
    forall c, d :: c in s.leaders && d in s.leaders && c.term == d.term ==> c.node == d.node
  }

  /**
   The harm may come later: here the stale hand-over is step 5, after which no term has two leaders, and the
   next hand-over, which is not stale, gives term 2 its second one.
   */
  lemma TwoLeadersLater() returns (run: seq<Sys>, steps: seq<Step>)
    ensures IsRun(run, steps) && AlwaysLeads(run, steps) && |steps| == 7
    ensures steps[5].HandOver? && forall i: nat :: i < 7 ==> (TimelyAt(run, steps, i) <==> i != 5)
    ensures OneLeaderEach(run[6])
    ensures |run[7].nodes| == 3 && run[7].nodes[0].role == Leader && run[7].nodes[2].role == Leader
    ensures run[7].nodes[0].term == run[7].nodes[2].term == 2
  {
    var s := SplitRun();
    var s6 := Outdated(Split());
    var s7 := Rightful(s6);
    run, steps := s + [s6, s7], SPLIT_STEPS + [HandOver(0, 1), HandOver(2, 2)];
    LinksAreRun(run, steps, 5, -1);
  }

  /**
   Exactly when a hand-over keeps the voting record and elected leaders, and with it Election Safety for as long
   as later steps do: when the peer has campaigned in its present term and has a majority of its votes.
   */
  lemma HandOverSafeIff(run: seq<Sys>, steps: seq<Step>, i: nat, term: nat)
    requires IsRun(run, steps) && AllBacked(run, steps) && Enabled(run[|steps|], HandOver(i, term))
    ensures Shape(run[|steps|])
    ensures var s := run[|steps|];
            ElectionInv(Next(s, HandOver(i, term))) <==>
            Campaign(i, s.nodes[i].term) in s.started && Majority(s, i, s.nodes[i].term)
  {
    ElectionInvariant(run, steps, |steps|);
    BackedIff(run[|steps|], HandOver(i, term));
  }
}
