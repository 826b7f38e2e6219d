/**
 A higher term in a vote reply is compared with the term of the campaign, not with the peer's present term.
 Stepping down on a stale reply forgets a vote of the present term, and the peer votes twice in it.
 */
module RaftStaleReply {
  import opened RaftPeer
  import opened RaftSystem
  import opened RaftElection
  import opened RaftStale

  const REFUSED := Ballot(1, 0, 1, VoteReply(2, false))
  const FOR1 := Ballot(0, 1, 2, VoteReply(2, true))
  const EARLY := {FIRST, VoteArgs(1, 1, 1, 0), OTHER}
  const CAMPAIGNS := {Campaign(0, 1), Campaign(1, 1), Campaign(1, 2)}
  const ALL := CAMPAIGNS + {Campaign(2, 1), Campaign(2, 2)}
  const CANDIDATE0 := State(0, 1, 0, Candidate)
  const CANDIDATE1 := State(1, 2, 1, Candidate)
  const CANDIDATE2 := State(2, 2, 2, Candidate)

  /** Everybody has asked for votes, and peer 0 is in the state `n0`. */
  function Voting(n0: Node, ballots: set<Ballot>, active: set<Campaign>): Sys {
    Sys([n0, CANDIDATE1, CANDIDATE2], EARLY + {VoteArgs(1, 2, 1, 0), SECOND}, ballots, {}, {}, active, ALL, {}, HIST)
  }

  function At(i: nat): Sys {
    match i
    case 0 => Leaderless([NewNode(0, 3), NewNode(1, 3), NewNode(2, 3)], {}, {}, {})
    case 1 => Leaderless([CANDIDATE0, NewNode(1, 3), NewNode(2, 3)], {FIRST}, {}, {Campaign(0, 1)})
    case 2 => Leaderless([CANDIDATE0, State(1, 1, 1, Candidate), NewNode(2, 3)],
                         {FIRST, VoteArgs(1, 1, 1, 0)}, {}, {Campaign(0, 1), Campaign(1, 1)})
    case 3 => Leaderless([CANDIDATE0, CANDIDATE1, NewNode(2, 3)], EARLY, {}, CAMPAIGNS)
    case 4 => Leaderless([CANDIDATE0, CANDIDATE1, NewNode(2, 3)], EARLY, {REFUSED}, CAMPAIGNS)
    case 5 => Leaderless([CANDIDATE0, CANDIDATE1, State(2, 1, 2, Candidate)],
                         EARLY + {VoteArgs(1, 2, 1, 0)}, {REFUSED}, CAMPAIGNS + {Campaign(2, 1)})
    case 6 => Voting(CANDIDATE0, {REFUSED}, ALL)
    case 7 => Voting(State(0, 2, 2, Follower), {REFUSED, GIVEN0}, ALL)
    case 8 => Voting(State(0, 2, -1, Follower), {REFUSED, GIVEN0}, ALL - {Campaign(0, 1)})
    case 9 => Voting(State(0, 2, 1, Follower), {REFUSED, GIVEN0, FOR1}, ALL - {Campaign(0, 1)})
    case 10 => First()
    case _ => Second()
  }

  function Doing(i: nat): Step {
    match i
    case 0 => Elect(0)
    case 1 => Elect(1)
    case 2 => Elect(1)
    case 3 => Vote(1, FIRST)
    case 4 => Elect(2)
    case 5 => Elect(2)
    case 6 => Vote(0, SECOND)
    case 7 => HigherReply(0, REFUSED)
    case 8 => Vote(0, OTHER)
    case 9 => HandOver(1, 2)
    case _ => HandOver(2, 2)
  }

  /** Peer 1 leads term 2. */
  function First(): Sys {
    Sys([State(0, 2, 1, Follower), BecomeLeader(CANDIDATE1), CANDIDATE2], EARLY + {VoteArgs(1, 2, 1, 0), SECOND},
        {REFUSED, GIVEN0, FOR1}, {}, {}, ALL - {Campaign(0, 1)} - {Campaign(1, 2)}, ALL, {Campaign(1, 2)}, HIST[2 := LOG])
  }

  /** And so does peer 2. */
  function Second(): Sys {
    First().(nodes := [State(0, 2, 1, Follower), BecomeLeader(CANDIDATE1), BecomeLeader(CANDIDATE2)],
             active := First().active - {Campaign(2, 2)}, leaders := {Campaign(1, 2), Campaign(2, 2)})
  }

  lemma FirstElect()
    ensures Link(At(0), Doing(0), At(1), true, true)
  {
  }

  lemma SecondElect()
    ensures Link(At(1), Doing(1), At(2), true, true)
  {
  }

  lemma ThirdElect()
    ensures Link(At(2), Doing(2), At(3), true, true)
  {
  }

  lemma Refusal()
    ensures Link(At(3), Doing(3), At(4), true, true)
  {
  }

  lemma LastCampaigns(i: nat)
    requires 4 <= i < 6
    ensures Link(At(i), Doing(i), At(i + 1), true, true)
  {
    assert EARLY + {VoteArgs(1, 2, 1, 0)} + {SECOND} == EARLY + {VoteArgs(1, 2, 1, 0), SECOND};
    assert CAMPAIGNS + {Campaign(2, 1)} + {Campaign(2, 2)} == ALL;
  }

  lemma FirstVote()
    ensures Link(At(6), Doing(6), At(7), true, true)
  {
    assert {REFUSED} + {GIVEN0} == {REFUSED, GIVEN0};
  }

  lemma ForgottenVote()
    ensures Link(At(7), Doing(7), At(8), false, true)
  {
  }

  lemma SecondVote()
    ensures Link(At(8), Doing(8), At(9), true, true)
  {
    assert {REFUSED, GIVEN0} + {FOR1} == {REFUSED, GIVEN0, FOR1};
  }

  lemma TakesOver1()
    ensures Link(At(9), Doing(9), At(10), true, true)
  {
    OneVoteIsMajority(At(9), 1, 2, FOR1);
  }

  lemma TakesOver2()
    ensures Link(At(10), Doing(10), At(11), true, true)
  {
    OneVoteIsMajority(At(10), 2, 2, GIVEN0);
    assert HIST[2 := LOG][2 := LOG] == HIST[2 := LOG];
  }

  lemma Linked(i: nat)
    requires i < 11
    ensures Link(At(i), Doing(i), At(i + 1), i != 7, true)
  {
    if 4 <= i < 6 {
      LastCampaigns(i);
    } else {
      match i
      case 0 => FirstElect();
      case 1 => SecondElect();
      case 2 => ThirdElect();
      case 3 => Refusal();
      case 6 => FirstVote();
      case 7 => ForgottenVote();
      case 8 => SecondVote();
      case 9 => TakesOver1();
      case _ => TakesOver2();
    }
  }

  /**
   Election Safety fails without the comparison with the present term: in this run of three peers the only
   stale step is the stepping down of peer 0, and in the end peers 1 and 2 both lead term 2.
   */
  lemma VotesTwice() returns (run: seq<Sys>, steps: seq<Step>)
    ensures IsRun(run, steps) && AlwaysLeads(run, steps) && |steps| == 11
    ensures forall i: nat :: i < 11 ==> (TimelyAt(run, steps, i) <==> i != 7)
    ensures steps[7].HigherReply?
    ensures |run[11].nodes| == 3 && run[11].nodes[1].role == Leader && run[11].nodes[2].role == Leader
    ensures run[11].nodes[1].term == run[11].nodes[2].term == 2
  {
    run, steps := seq(12, i requires 0 <= i < 12 => At(i)), seq(11, i requires 0 <= i < 11 => Doing(i));
    forall i: nat | i < 11 ensures Link(run[i], steps[i], run[i + 1], i != 7, true) {
      Linked(i);
    }
    LinksAreRun(run, steps, 7, -1);
  }

  /**
   Exactly when stepping down on a reply keeps the voting record and elected leaders: when the peer has given
   no vote, by ballot or by standing, in the term of the reply or a later one.
   */
  lemma StepDownSafeIff(run: seq<Sys>, steps: seq<Step>, i: nat, b: Ballot)
    requires IsRun(run, steps) && AllBacked(run, steps) && Enabled(run[|steps|], HigherReply(i, b))
    ensures Shape(run[|steps|])
    ensures var s := run[|steps|];
            ElectionInv(Next(s, HigherReply(i, b))) <==>
            forall term: nat, c: nat :: Voted(s, i, term, c) ==> term < b.reply.term
  {
    ElectionInvariant(run, steps, |steps|);
    BackedIff(run[|steps|], HigherReply(i, b));
  }
}
