/**
 The third way in which the code loses what it has committed: a leader counts the answer to a message that it
 sent as the leader of an earlier term, with another log.
 */
module RaftUnsafeReply {
  import opened Collections
  import opened RaftPeer
  import opened RaftSystem
  import opened RaftCommit
  import opened RaftUnsafe

  const C1 := Entry(1, Command("a"))
  const C2 := Entry(1, Command("b"))
  const D2 := Entry(2, Command("c"))
  const E3 := Entry(3, Command("d"))
  const OLD := [DUMMY, C1, C2]
  const MID := [DUMMY, D2]
  const NEW := [DUMMY, D2, E3]

  const ASK1 := VoteArgs(1, 0, 1, 0)
  const ASK2 := VoteArgs(2, 2, 1, 0)
  const ASK3 := VoteArgs(3, 0, 2, 2)
  const ASK4 := VoteArgs(4, 1, 3, 1)
  const TO1 := Append(1, AppendArgs(1, 0, 0, 0, [C1, C2], 0))
  const FROM1 := Answer(TO1, AppendReply(1, true))
  const TO0 := Append(0, AppendArgs(2, 2, 0, 0, [D2], 0))
  const TO2 := Append(2, AppendArgs(3, 0, 1, 2, [E3], 0))
  const FROM2 := Answer(TO2, AppendReply(2, true))

  const NONE := [0, 0, 0, 0, 0]
  const NEXT1 := [1, 1, 1, 1, 1]
  const NEXT2 := [2, 2, 2, 2, 2]

  /** A peer that has never led. */
  function Peer5(me: nat, term: nat, votedFor: int, role: Role, log: seq<Entry>): Node {
    Node(me, 5, term, votedFor, role, log, 0, [], [])
  }

  function Led5(me: nat, term: nat, votedFor: int, role: Role, log: seq<Entry>, next: seq<int>, match': seq<int>,
                commitIndex: nat): Node {
    Node(me, 5, term, votedFor, role, log, commitIndex, next, match')
  }

  function Vote5(voter: nat, a: VoteArgs): Ballot {
    Ballot(voter, a.candidate, a.term, VoteReply(a.term, true))
  }

  lemma TwoVotesAreMajority(s: Sys, a: VoteArgs, v: nat, w: nat)
    requires |s.nodes| == 5 && v != w && Vote5(v, a) in s.ballots && Vote5(w, a) in s.ballots
    ensures Majority(s, a.candidate, a.term)
  {
    assert v in Voters(s, a.candidate, a.term) && w in Voters(s, a.candidate, a.term);
    SubsetSize({v, w}, Voters(s, a.candidate, a.term));
  }

  lemma NewLeader5(n: Node, next: seq<int>)
    requires n.peers == 5 && next == [|n.log|, |n.log|, |n.log|, |n.log|, |n.log|]
    ensures BecomeLeader(n) == n.(role := Leader, nextIndex := next, matchIndex := NONE)
  {
    assert seq(5, _ => |n.log|) == next && seq(5, _ => 0) == NONE;
  }

  /** The candidate is not behind at all. */
  predicate FairVoteFor(n: Node, a: VoteArgs)
    requires n.log != []
  {
    a.lastTerm > n.log[|n.log| - 1].term || a.lastIndex >= |n.log|
  }

  const FLAW := ReplyFlaw(20)

  /** Peer `c` stands with request `a`. */
  ghost predicate Stood(s: Sys, t: Sys, c: nat, a: VoteArgs) {
    && Shape(s) && Onward(s, t) && |s.nodes| == 5 && c < 5 && a.candidate == c
    && t.nodes == s.nodes[c := StartElect(s.nodes[c])] && a.term == s.nodes[c].term + 1
    && a in t.asked && Campaign(c, a.term) in t.active
  }

  lemma Stand(s: Sys, a: VoteArgs, from: nat) returns (t: Sys)
    requires Shape(s) && |s.nodes| == 5 && from != 20 && a.candidate < 5
    requires ElectArgs(StartElect(s.nodes[a.candidate])) == a
    ensures LinkAt(s, Elect(a.candidate), t, FLAW, from) && Stood(s, t, a.candidate, a)
  {
    t := DoElect(s, a.candidate, FLAW, from);
  }

  /** Peers `v` and `w` vote for it. */
  lemma TwoVote(s: Sys, a: VoteArgs, v: nat, w: nat, from: nat) returns (t: Sys, u: Sys)
    requires Shape(s) && |s.nodes| == 5 && from != 20 && from + 1 != 20 && a in s.asked
    requires v < 5 && w < 5 && v != w && v != a.candidate && w != a.candidate
    requires Grants(s.nodes[v], a) && FairVoteFor(s.nodes[v], a) && Grants(s.nodes[w], a) && FairVoteFor(s.nodes[w], a)
    ensures LinkAt(s, Vote(v, a), t, FLAW, from) && LinkAt(t, Vote(w, a), u, FLAW, from + 1) && Onward(s, u)
    ensures u.nodes == s.nodes[v := OnRequestVote(s.nodes[v], a)][w := OnRequestVote(s.nodes[w], a)]
    ensures u.active == s.active && Vote5(v, a) in u.ballots && Vote5(w, a) in u.ballots
  {
    t := DoVote(s, v, a, FLAW, from);
    u := DoVote(t, w, a, FLAW, from + 1);
  }

  /** Then it takes over. */
  lemma TakeOver(s: Sys, a: VoteArgs, v: nat, w: nat, from: nat, next: seq<int>) returns (t: Sys)
    requires Shape(s) && |s.nodes| == 5 && a.candidate < 5 && v != w && from != 20
    requires Vote5(v, a) in s.ballots && Vote5(w, a) in s.ballots && Campaign(a.candidate, a.term) in s.active
    requires var n := s.nodes[a.candidate];
             n.peers == 5 && n.term == a.term && next == [|n.log|, |n.log|, |n.log|, |n.log|, |n.log|]
    ensures LinkAt(s, HandOver(a.candidate, a.term), t, FLAW, from) && Onward(s, t)
    ensures t.nodes == s.nodes[a.candidate := s.nodes[a.candidate].(role := Leader, nextIndex := next, matchIndex := NONE)]
  {
    TwoVotesAreMajority(s, a, v, w);
    NewLeader5(s.nodes[a.candidate], next);
    t := DoLead(s, a.candidate, FLAW, from);
  }

  lemma UpdatedLast(ns: seq<Node>, c: nat, x: Node, y: Node, v: nat, m: Node, w: nat, n: Node)
    requires c < |ns| && v < |ns| && w < |ns| && v != c && w != c
    ensures ns[c := x][v := m][w := n][c := y] == ns[c := y][v := m][w := n]
    ensures ns[c := x][v := m][w := n][c] == x && ns[c := x][v] == ns[v] && ns[c := x][w] == ns[w]
  {
  }

  lemma FourSteps(s: seq<Sys>, e: seq<Step>, from: nat)
    requires |s| == 5 && |e| == 4
    requires LinkAt(s[0], e[0], s[1], FLAW, from) && LinkAt(s[1], e[1], s[2], FLAW, from + 1)
    requires LinkAt(s[2], e[2], s[3], FLAW, from + 2) && LinkAt(s[3], e[3], s[4], FLAW, from + 3)
    ensures Walk(s, e, FLAW, from)
  {
    forall i | 0 <= i < |e| ensures LinkAt(s[i], e[i], s[i + 1], FLAW, from + i) {
      if i == 0 {} else if i == 1 {} else if i == 2 {} else {}
    }
  }

  /** A campaign: peer `a.candidate` stands, `v` and `w` vote for it, and it takes over. */
  lemma Campaigns(s0: Sys, a: VoteArgs, v: nat, w: nat, from: nat, next: seq<int>)
      returns (s: seq<Sys>, e: seq<Step>)
    requires Shape(s0) && |s0.nodes| == 5 && (from + 3 < 20 || 20 < from)
    requires a.candidate < 5 && v < 5 && w < 5 && v != w && v != a.candidate && w != a.candidate
    requires ElectArgs(StartElect(s0.nodes[a.candidate])) == a
    requires Grants(s0.nodes[v], a) && FairVoteFor(s0.nodes[v], a) && Grants(s0.nodes[w], a) && FairVoteFor(s0.nodes[w], a)
    requires var l := |s0.nodes[a.candidate].log|; s0.nodes[a.candidate].peers == 5 && next == [l, l, l, l, l]
    ensures Walk(s, e, FLAW, from) && |e| == 4 && s[0] == s0 && Onward(s0, s[4])
    ensures s[4].nodes == s0.nodes[a.candidate := StartElect(s0.nodes[a.candidate]).(
                                     role := Leader, nextIndex := next, matchIndex := NONE)]
                                  [v := OnRequestVote(s0.nodes[v], a)][w := OnRequestVote(s0.nodes[w], a)]
  {
    var c := a.candidate;
    var n := StartElect(s0.nodes[c]);
    UpdatedLast(s0.nodes, c, n, n.(role := Leader, nextIndex := next, matchIndex := NONE),
                v, OnRequestVote(s0.nodes[v], a), w, OnRequestVote(s0.nodes[w], a));
    var s1 := Stand(s0, a, from);
    var s2, s3 := TwoVote(s1, a, v, w, from + 1);
    var s4 := TakeOver(s3, a, v, w, from + 3, next);
    s, e := [s0, s1, s2, s3, s4], [Elect(c), Vote(v, a), Vote(w, a), HandOver(c, a.term)];
    FourSteps(s, e, from);
  }

  // ----- term 1: peer 0 has two entries, which peer 1 takes over -----

  const LOG5 := [DUMMY]

  ghost predicate Term1(s: Sys) {
    && Shape(s)
    && s.nodes == [Led5(0, 1, 0, Leader, LOG5, NEXT1, NONE, 0), Peer5(1, 1, 0, Follower, LOG5),
                   Peer5(2, 1, 0, Follower, LOG5),
                   Peer5(3, 0, -1, Follower, LOG5), Peer5(4, 0, -1, Follower, LOG5)]
  }

  lemma FirstCampaign() returns (s: seq<Sys>, e: seq<Step>)
    ensures Walk(s, e, FLAW, 0) && |e| == 4 && Starts(s[0]) && Term1(s[4])
  {
    var s0 := Sys([NewNode(0, 5), NewNode(1, 5), NewNode(2, 5), NewNode(3, 5), NewNode(4, 5)],
                  {}, {}, {}, {}, {}, {}, {}, map[0 := [DUMMY]]);
    s, e := Campaigns(s0, ASK1, 1, 2, 0, NEXT1);
  }

  ghost predicate Term1Sent(s: Sys) {
    && Shape(s) && FROM1 in s.answers
    && s.nodes == [Led5(0, 1, 0, Leader, OLD, NEXT1, NONE, 0), Peer5(1, 1, 0, Follower, OLD),
                   Peer5(2, 1, 0, Follower, LOG5),
                   Peer5(3, 0, -1, Follower, LOG5), Peer5(4, 0, -1, Follower, LOG5)]
  }

  lemma TwoPut(s4: Sys) returns (s5: Sys, s6: Sys)
    requires Term1(s4)
    ensures LinkAt(s4, PutCmd(0, C1.command), s5, FLAW, 4) && LinkAt(s5, PutCmd(0, C2.command), s6, FLAW, 5) && Shape(s6)
    ensures s6.nodes == s4.nodes[0 := Led5(0, 1, 0, Leader, OLD, NEXT1, NONE, 0)]
  {
    s5 := DoPut(s4, 0, C1.command, FLAW, 4);
    s6 := DoPut(s5, 0, C2.command, FLAW, 5);
    assert LOG5 + [C1] + [C2] == OLD;
  }

  lemma OldSent(s4: Sys) returns (s: seq<Sys>, e: seq<Step>)
    requires Term1(s4)
    ensures Walk(s, e, FLAW, 4) && |e| == 4 && s[0] == s4 && Term1Sent(s[4])
  {
    var s5, s6 := TwoPut(s4);
    assert OLD[1..] == [C1, C2];
    var s7 := DoSend(s6, 0, 1, FLAW, 6);
    MergeNew(LOG5, [C1, C2]);
    assert LOG5 + [C1, C2] == OLD;
    var s8 := DoDeliver(s7, TO1, FLAW, 7);
    s, e := [s4, s5, s6, s7, s8], [PutCmd(0, C1.command), PutCmd(0, C2.command), Send(0, 1), Deliver(TO1)];
    assert LinkAt(s[0], e[0], s[1], FLAW, 4 + 0);
  }

  // ----- term 2: peer 2 overwrites the log of peer 0 -----

  ghost predicate Term2(s: Sys) {
    && Shape(s) && FROM1 in s.answers
    && s.nodes == [Led5(0, 1, 0, Leader, OLD, NEXT1, NONE, 0), Peer5(1, 1, 0, Follower, OLD),
                   Led5(2, 2, 2, Leader, LOG5, NEXT1, NONE, 0), Peer5(3, 2, 2, Follower, LOG5),
                   Peer5(4, 2, 2, Follower, LOG5)]
  }

  lemma SecondCampaign(s8: Sys) returns (s: seq<Sys>, e: seq<Step>)
    requires Term1Sent(s8)
    ensures Walk(s, e, FLAW, 8) && |e| == 4 && s[0] == s8 && Term2(s[4])
  {
    s, e := Campaigns(s8, ASK2, 3, 4, 8, NEXT1);
  }

  ghost predicate Term2Sent(s: Sys) {
    && Shape(s) && FROM1 in s.answers
    && s.nodes == [Led5(0, 2, 0, Follower, MID, NEXT1, NONE, 0), Peer5(1, 1, 0, Follower, OLD),
                   Led5(2, 2, 2, Leader, MID, NEXT1, NONE, 0), Peer5(3, 2, 2, Follower, LOG5),
                   Peer5(4, 2, 2, Follower, LOG5)]
  }

  lemma Overwritten(s12: Sys) returns (s: seq<Sys>, e: seq<Step>)
    requires Term2(s12)
    ensures Walk(s, e, FLAW, 12) && |e| == 3 && s[0] == s12 && Term2Sent(s[3])
  {
    var s13 := DoPut(s12, 2, D2.command, FLAW, 12);
    assert LOG5 + [D2] == MID && MID[1..] == [D2];
    var s14 := DoSend(s13, 2, 0, FLAW, 13);
    assert Merge(OLD, 0, [D2]) == MID;
    var s15 := DoDeliver(s14, TO0, FLAW, 14);
    s, e := [s12, s13, s14, s15], [PutCmd(2, D2.command), Send(2, 0), Deliver(TO0)];
    assert LinkAt(s[0], e[0], s[1], FLAW, 12 + 0);
  }

  // ----- term 3: peer 0 counts the answer from term 1 -----

  ghost predicate Term3(s: Sys) {
    && Shape(s) && FROM1 in s.answers
    && s.nodes == [Led5(0, 3, 0, Leader, MID, NEXT2, NONE, 0), Peer5(1, 3, 0, Follower, OLD),
                   Led5(2, 2, 2, Leader, MID, NEXT1, NONE, 0), Peer5(3, 3, 0, Follower, LOG5),
                   Peer5(4, 2, 2, Follower, LOG5)]
  }

  lemma ThirdCampaign(s15: Sys) returns (s: seq<Sys>, e: seq<Step>)
    requires Term2Sent(s15)
    ensures Walk(s, e, FLAW, 15) && |e| == 4 && s[0] == s15 && Term3(s[4])
  {
    s, e := Campaigns(s15, ASK3, 1, 3, 15, NEXT2);
  }

  /** With the answer of peer 1 there is no majority yet. */
  lemma StaleAnswer()
    ensures OnAppendReply(Led5(0, 3, 0, Leader, NEW, NEXT2, NONE, 0), 1, TO1.args, FROM1.reply, false) ==
            Led5(0, 3, 0, Leader, NEW, [2, 3, 2, 2, 2], [0, 2, 0, 0, 0], 0)
  {
    var n := Led5(0, 3, 0, Leader, NEW, [2, 3, 2, 2, 2], [0, 2, 0, 0, 0], 0);
    assert Replicated(Led5(0, 3, 0, Leader, NEW, NEXT2, NONE, 0), 1, TO1.args, FROM1.reply, false) == n;
    assert Holders(n, 2, 5) == 2 by {
      assert Holders(n, 2, 1) == 1 && Holders(n, 2, 2) == 2 && Holders(n, 2, 3) == 2 && Holders(n, 2, 4) == 2;
    }
    assert NextCommit(n, 3) == 3 && NextCommit(n, 2) == 3;
  }

  /** With that of peer 2 there seems to be one. */
  lemma LastAnswer()
    ensures OnAppendReply(Led5(0, 3, 0, Leader, NEW, [2, 3, 2, 2, 2], [0, 2, 0, 0, 0], 0),
                          2, TO2.args, FROM2.reply, false) ==
            Led5(0, 3, 0, Leader, NEW, [2, 3, 3, 2, 2], [0, 2, 2, 0, 0], 2)
  {
    var n := Led5(0, 3, 0, Leader, NEW, [2, 3, 3, 2, 2], [0, 2, 2, 0, 0], 0);
    assert Replicated(Led5(0, 3, 0, Leader, NEW, [2, 3, 2, 2, 2], [0, 2, 0, 0, 0], 0), 2, TO2.args, FROM2.reply, false) == n;
    assert Holders(n, 2, 5) == 3 by {
      assert Holders(n, 2, 1) == 1 && Holders(n, 2, 2) == 2 && Holders(n, 2, 3) == 3 && Holders(n, 2, 4) == 3;
    }
    assert NextCommit(n, 2) == 2 && NextCommit(n, 1) == 2;
  }

  ghost predicate Term3Counted(s: Sys) {
    && Shape(s)
    && s.nodes == [Led5(0, 3, 0, Leader, NEW, [2, 3, 2, 2, 2], [0, 2, 0, 0, 0], 0), Peer5(1, 3, 0, Follower, OLD),
                   Led5(2, 2, 2, Leader, MID, NEXT1, NONE, 0), Peer5(3, 3, 0, Follower, LOG5),
                   Peer5(4, 2, 2, Follower, LOG5)]
  }

  lemma Counted(s19: Sys) returns (s: seq<Sys>, e: seq<Step>)
    requires Term3(s19)
    ensures Walk(s, e, FLAW, 19) && |e| == 2 && s[0] == s19 && Term3Counted(s[2]) && e[1] == Reply(FROM1)
  {
    var s20 := DoPut(s19, 0, E3.command, FLAW, 19);
    assert MID + [E3] == NEW;
    assert s20.nodes[0] == Led5(0, 3, 0, Leader, NEW, NEXT2, NONE, 0);
    StaleAnswer();
    var s21 := DoReply(s20, FROM1, FLAW, 20);
    s, e := [s19, s20, s21], [PutCmd(0, E3.command), Reply(FROM1)];
    assert LinkAt(s[0], e[0], s[1], FLAW, 19 + 0);
  }

  ghost predicate Term3Committed(s: Sys) {
    && Shape(s)
    && s.nodes == [Led5(0, 3, 0, Leader, NEW, [2, 3, 3, 2, 2], [0, 2, 2, 0, 0], 2), Peer5(1, 3, 0, Follower, OLD),
                   Led5(2, 3, 2, Follower, NEW, NEXT1, NONE, 0), Peer5(3, 3, 0, Follower, LOG5),
                   Peer5(4, 2, 2, Follower, LOG5)]
  }

  lemma FalselyCommitted(s21: Sys) returns (s: seq<Sys>, e: seq<Step>)
    requires Term3Counted(s21)
    ensures Walk(s, e, FLAW, 21) && |e| == 3 && s[0] == s21 && Term3Committed(s[3])
  {
    assert NEW[2..] == [E3];
    var s22 := DoSend(s21, 0, 2, FLAW, 21);
    MergeNew(MID, [E3]);
    assert MID + [E3] == NEW;
    var s23 := DoDeliver(s22, TO2, FLAW, 22);
    LastAnswer();
    var s24 := DoReply(s23, FROM2, FLAW, 23);
    s, e := [s21, s22, s23, s24], [Send(0, 2), Deliver(TO2), Reply(FROM2)];
    assert LinkAt(s[0], e[0], s[1], FLAW, 21 + 0);
  }

  // ----- term 4: peer 1 leads without the entry -----

  lemma LastCampaign(s24: Sys) returns (s: seq<Sys>, e: seq<Step>)
    requires Term3Committed(s24)
    ensures Walk(s, e, FLAW, 24) && |e| == 4 && s[0] == s24 && Lacks(s[4], 0, s[4], 1, 2)
  {
    s, e := Campaigns(s24, ASK4, 3, 4, 24, [3, 3, 3, 3, 3]);
    assert NEW[..3] == NEW && NEW[1] != OLD[1];
  }

  /**
   Replies are processed whatever the term is by then: in this run of five peers the second entry that peer 0 has
   committed is not in the log of the leader of term 4, and only step 20 breaks a rule.
   */
  lemma StaleReplyCounts() returns (run: seq<Sys>, steps: seq<Step>)
    ensures Flawed(run, steps, ReplyFlaw(20)) && |steps| == 28 && steps[20].Reply?
    ensures Lacks(run[28], 0, run[28], 1, 2)
  {
    var s, e := FirstCampaign();
    var t, g := OldSent(s[4]);
    s, e := Join(s, e, FLAW, t, g);
    t, g := SecondCampaign(s[8]);
    s, e := Join(s, e, FLAW, t, g);
    t, g := Overwritten(s[12]);
    s, e := Join(s, e, FLAW, t, g);
    run, steps := LastTwoTerms(s, e);
    WalkIsFlawed(run, steps, FLAW);
  }

  lemma LastTwoTerms(s15: seq<Sys>, e15: seq<Step>) returns (s: seq<Sys>, e: seq<Step>)
    requires Walk(s15, e15, FLAW, 0) && |e15| == 15 && Term2Sent(s15[15])
    ensures Walk(s, e, FLAW, 0) && |e| == 28 && s[0] == s15[0] && e[20].Reply? && Lacks(s[28], 0, s[28], 1, 2)
  {
    var t, g := ThirdCampaign(s15[15]);
    s, e := Join(s15, e15, FLAW, t, g);
    t, g := Counted(s[19]);
    s, e := Join(s, e, FLAW, t, g);
    t, g := FalselyCommitted(s[21]);
    s, e := Join(s, e, FLAW, t, g);
    t, g := LastCampaign(s[24]);
    s, e := Join(s, e, FLAW, t, g);
  }
}
