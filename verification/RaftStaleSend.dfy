/**
 A broadcast tests leadership once and then builds one message after the other. A peer that has been voted
 out in between sends its old log under the new term, and the new leader takes it over.
 */
module RaftStaleSend {
  import opened RaftPeer
  import opened RaftSystem
  import opened RaftElection
  import opened RaftLog
  import opened RaftStale

  const BY2 := Ballot(2, 1, 2, VoteReply(2, true))
  const A := Command("a")
  const B := Command("b")
  const C := Command("c")
  const D := Command("d")
  const OLD := [DUMMY, Entry(1, A)]
  const TWO := [DUMMY, Entry(2, B), Entry(2, C)]
  const GOOD := Append(2, AppendArgs(2, 1, 0, 0, [Entry(2, B), Entry(2, C)], 0))
  const BAD := Append(1, AppendArgs(2, 0, 0, 0, [Entry(1, A)], 0))

  /** A peer that has led with an empty log. */
  function Led(me: nat, term: nat, votedFor: int, role: Role, log: seq<Entry>): Node {
    Node(me, 3, term, votedFor, role, log, 0, [1, 1, 1], [0, 0, 0])
  }

  /** A part of a run, from step `from` on, whose only outdated test is that of step 12. */
  ghost predicate Walk(s: seq<Sys>, e: seq<Step>, from: nat) {
    |s| == |e| + 1 && forall i :: 0 <= i < |e| ==> Link(s[i], e[i], s[i + 1], true, from + i != 12)
  }

  lemma Glue(s: seq<Sys>, e: seq<Step>, from: nat, t: seq<Sys>, f: seq<Step>)
    requires Walk(s, e, from) && Walk(t, f, from + |e|) && s[|e|] == t[0]
    ensures Walk(s + t[1..], e + f, from) && (s + t[1..])[|e| + |f|] == t[|f|]
  {
    var u, g := s + t[1..], e + f;
    forall i | 0 <= i < |g| ensures Link(u[i], g[i], u[i + 1], true, from + i != 12) {
      if i < |e| {
        assert Link(s[i], e[i], s[i + 1], true, from + i != 12);
      } else {
        var j := i - |e|;
        assert Link(t[j], f[j], t[j + 1], true, from + |e| + j != 12);
        assert u[i] == t[j] && u[i + 1] == t[j + 1] && g[i] == f[j];
      }
    }
  }

  lemma NewLeader(me: nat, term: nat, votedFor: int)
    ensures BecomeLeader(State(me, term, votedFor, Candidate)) == Led(me, term, votedFor, Leader, LOG)
  {
    assert seq(3, _ => 1) == [1, 1, 1] && seq(3, _ => 0) == [0, 0, 0];
  }

  /** Peer 0 campaigns for term 1 and gets the vote of peer 1. */
  lemma FirstCampaign() returns (s: seq<Sys>, e: seq<Step>)
    ensures Walk(s, e, 0) && Starts(s[0]) && |e| == 2
    ensures s[2] == Leaderless([State(0, 1, 0, Candidate), State(1, 1, 0, Follower), State(2, 0, -1, Follower)],
                               {FIRST}, {GIVEN1}, {Campaign(0, 1)})
  {
    var s0, s1, s2 := RaftStale.FirstCampaign();
    s, e := [s0, s1, s2], [Elect(0), Vote(1, FIRST)];
  }

  /** It leads term 1 and has one entry that nobody else has. */
  lemma FirstLeader(s2: Sys) returns (s: seq<Sys>, e: seq<Step>)
    requires s2 == Leaderless([State(0, 1, 0, Candidate), State(1, 1, 0, Follower), State(2, 0, -1, Follower)],
                              {FIRST}, {GIVEN1}, {Campaign(0, 1)})
    ensures Walk(s, e, 2) && |e| == 2 && s[0] == s2
    ensures s[2].nodes == [Led(0, 1, 0, Leader, OLD), State(1, 1, 0, Follower), State(2, 0, -1, Follower)]
  {
    OneVoteIsMajority(s2, 0, 1, GIVEN1);
    NewLeader(0, 1, 0);
    var s3 := Next(s2, HandOver(0, 1));
    assert s3.nodes == [Led(0, 1, 0, Leader, LOG), State(1, 1, 0, Follower), State(2, 0, -1, Follower)];
    var s4 := Next(s3, PutCmd(0, A));
    assert LOG + [Entry(1, A)] == OLD;
    s, e := [s2, s3, s4], [HandOver(0, 1), PutCmd(0, A)];
  }

  /** Peer 1 campaigns for term 2; peer 2 votes for it, and peer 0 refuses but is in term 2 now. */
  lemma VotedOut(s4: Sys) returns (s: seq<Sys>, e: seq<Step>)
    requires s4.nodes == [Led(0, 1, 0, Leader, OLD), State(1, 1, 0, Follower), State(2, 0, -1, Follower)]
    ensures Walk(s, e, 4) && |e| == 3 && s[0] == s4
    ensures s[3].nodes == [Led(0, 2, -1, Follower, OLD), State(1, 2, 1, Candidate), State(2, 2, 1, Follower)]
    ensures BY2 in s[3].ballots && Campaign(1, 2) in s[3].active
  {
    var s5 := Next(s4, Elect(1));
    assert s5.nodes == [Led(0, 1, 0, Leader, OLD), State(1, 2, 1, Candidate), State(2, 0, -1, Follower)];
    assert OTHER in s5.asked;
    var s6 := Next(s5, Vote(2, OTHER));
    assert s6.nodes == [Led(0, 1, 0, Leader, OLD), State(1, 2, 1, Candidate), State(2, 2, 1, Follower)];
    var s7 := Next(s6, Vote(0, OTHER));
    s, e := [s4, s5, s6, s7], [Elect(1), Vote(2, OTHER), Vote(0, OTHER)];
  }

  /** Peer 1 leads term 2 and appends two entries. */
  lemma SecondLeader(s7: Sys) returns (s: seq<Sys>, e: seq<Step>)
    requires s7.nodes == [Led(0, 2, -1, Follower, OLD), State(1, 2, 1, Candidate), State(2, 2, 1, Follower)]
    requires BY2 in s7.ballots && Campaign(1, 2) in s7.active
    ensures Walk(s, e, 7) && |e| == 3 && s[0] == s7
    ensures s[3].nodes == [Led(0, 2, -1, Follower, OLD), Led(1, 2, 1, Leader, TWO), State(2, 2, 1, Follower)]
  {
    OneVoteIsMajority(s7, 1, 2, BY2);
    NewLeader(1, 2, 1);
    var s8 := Next(s7, HandOver(1, 2));
    assert s8.nodes == [Led(0, 2, -1, Follower, OLD), Led(1, 2, 1, Leader, LOG), State(2, 2, 1, Follower)];
    var s9 := Next(s8, PutCmd(1, B));
    assert LOG + [Entry(2, B)] == [DUMMY, Entry(2, B)];
    assert s9.nodes == [Led(0, 2, -1, Follower, OLD), Led(1, 2, 1, Leader, [DUMMY, Entry(2, B)]), State(2, 2, 1, Follower)];
    var s10 := Next(s9, PutCmd(1, C));
    assert [DUMMY, Entry(2, B)] + [Entry(2, C)] == TWO;
    s, e := [s7, s8, s9, s10], [HandOver(1, 2), PutCmd(1, B), PutCmd(1, C)];
  }

  /** Peer 2 gets them. */
  lemma Replicated(s10: Sys) returns (s: seq<Sys>, e: seq<Step>)
    requires s10.nodes == [Led(0, 2, -1, Follower, OLD), Led(1, 2, 1, Leader, TWO), State(2, 2, 1, Follower)]
    ensures Walk(s, e, 10) && |e| == 2 && s[0] == s10
    ensures s[2].nodes == [Led(0, 2, -1, Follower, OLD), Led(1, 2, 1, Leader, TWO), State(2, 2, 1, Follower).(log := TWO)]
  {
    var s11 := Next(s10, Send(1, 2));
    assert TWO[1..] == [Entry(2, B), Entry(2, C)];
    assert GOOD in s11.appends;
    var s12 := Next(s11, Deliver(GOOD));
    assert Merge(LOG, 0, [Entry(2, B), Entry(2, C)]) == TWO;
    s, e := [s10, s11, s12], [Send(1, 2), Deliver(GOOD)];
  }

  /** Peer 0 no longer leads, but sends; the leader of term 2 takes over its log and appends to it. */
  lemma Overwritten(s12: Sys) returns (s: seq<Sys>, e: seq<Step>)
    requires s12.nodes == [Led(0, 2, -1, Follower, OLD), Led(1, 2, 1, Leader, TWO), State(2, 2, 1, Follower).(log := TWO)]
    ensures Walk(s, e, 12) && |e| == 3 && s[0] == s12 && e[0].Send?
    ensures s[3].nodes ==
      [Led(0, 2, -1, Follower, OLD), Led(1, 2, 1, Leader, OLD + [Entry(2, D)]), State(2, 2, 1, Follower).(log := TWO)]
  {
    var s13 := Next(s12, Send(0, 1));
    assert OLD[1..] == [Entry(1, A)];
    assert BAD in s13.appends;
    var s14 := Next(s13, Deliver(BAD));
    assert Merge(TWO, 0, [Entry(1, A)]) == OLD;
    assert s14.nodes == [Led(0, 2, -1, Follower, OLD), Led(1, 2, 1, Leader, OLD), State(2, 2, 1, Follower).(log := TWO)];
    var s15 := Next(s14, PutCmd(1, D));
    s, e := [s12, s13, s14, s15], [Send(0, 1), Deliver(BAD), PutCmd(1, D)];
  }

  lemma AllTwelve() returns (s: seq<Sys>, e: seq<Step>)
    ensures Walk(s, e, 0) && Starts(s[0]) && |e| == 12
    ensures s[12].nodes == [Led(0, 2, -1, Follower, OLD), Led(1, 2, 1, Leader, TWO), State(2, 2, 1, Follower).(log := TWO)]
  {
    s, e := FirstCampaign();
    var t, f := FirstLeader(s[2]);
    Glue(s, e, 0, t, f);
    s, e := s + t[1..], e + f;
    t, f := VotedOut(s[4]);
    Glue(s, e, 0, t, f);
    s, e := s + t[1..], e + f;
    t, f := SecondLeader(s[7]);
    Glue(s, e, 0, t, f);
    s, e := s + t[1..], e + f;
    t, f := Replicated(s[10]);
    Glue(s, e, 0, t, f);
    s, e := s + t[1..], e + f;
  }

  /**
   Log Matching fails without the test of leadership when a message is built: the only outdated test in this
   run is that of step 12, and in the end two logs agree on the term at index 2 but not on what is before it.
   */
  lemma LogsPartWays() returns (run: seq<Sys>, steps: seq<Step>)
    ensures IsRun(run, steps) && NeverStale(run, steps) && |steps| == 15 && steps[12].Send?
    ensures forall i: nat :: i < 15 ==> (LeadsAt(run, steps, i) <==> i != 12)
    ensures |run[15].nodes| == 3 && |run[15].nodes[1].log| == 3 && |run[15].nodes[2].log| == 3
    ensures run[15].nodes[1].log[2].term == run[15].nodes[2].log[2].term
    ensures run[15].nodes[1].log[..3] != run[15].nodes[2].log[..3]
  {
    var s, e := AllTwelve();
    var t, f := Overwritten(s[12]);
    Glue(s, e, 0, t, f);
    run, steps := s + t[1..], e + f;
    LinksAreRun(run, steps, -1, 12);
    assert run[15].nodes[1].log[..3][1] != run[15].nodes[2].log[..3][1];
  }

  /** A message keeps the invariant of Log Matching exactly when its sender leads as it builds it. */
  lemma SendSafeIff(run: seq<Sys>, steps: seq<Step>, i: nat, dest: nat)
    requires IsRun(run, steps) && AllBacked(run, steps) && AlwaysLeads(run, steps)
    requires Enabled(run[|steps|], Send(i, dest))
    ensures Shape(run[|steps|])
    ensures LogInv(Next(run[|steps|], Send(i, dest))) <==> run[|steps|].nodes[i].role == Leader
  {
    LogInvariant(run, steps, |steps|);
    LogSafeIff(run[|steps|], Send(i, dest));
  }
}
