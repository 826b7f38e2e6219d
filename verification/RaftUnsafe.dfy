/**
 Two of the ways in which the code loses what it has committed: a vote for a candidate one entry shorter, and a
 delayed heartbeat that cuts off accepted entries. In each run a single step is to blame.
 */
module RaftUnsafe {
  import opened RaftPeer
  import opened RaftSystem
  import opened RaftTime
  import opened RaftComplete
  import opened RaftCommit

  /** The step goes by the rules; `vote`, `cut` and `reply` say whether it keeps each of the three that the code does not. */
  ghost predicate Link(s: Sys, e: Step, t: Sys, vote: bool, cut: bool, reply: bool) {
    && Shape(s) && Enabled(s, e) && t == Next(s, e) && NotStale(s, e) && StillLeads(s, e)
    && FairVote(s, e) == vote && NoCut(s, e) == cut && InTerm(s, e) == reply
  }

  datatype Flaw = VoteFlaw(at: nat) | CutFlaw(at: nat) | ReplyFlaw(at: nat)

  ghost predicate LinkAt(s: Sys, e: Step, t: Sys, f: Flaw, i: nat) {
    Link(s, e, t, f != VoteFlaw(i), f != CutFlaw(i), f != ReplyFlaw(i))
  }

  /** A part of a run, from step `from` on. */
  ghost predicate Walk(s: seq<Sys>, e: seq<Step>, f: Flaw, from: nat) {
    |s| == |e| + 1 && forall i :: 0 <= i < |e| ==> LinkAt(s[i], e[i], s[i + 1], f, from + i)
  }

  lemma Join(s: seq<Sys>, e: seq<Step>, f: Flaw, t: seq<Sys>, g: seq<Step>) returns (u: seq<Sys>, h: seq<Step>)
    requires Walk(s, e, f, 0) && Walk(t, g, f, |e|) && s[|e|] == t[0]
    ensures Walk(u, h, f, 0) && h == e + g && u[0] == s[0] && u[|h|] == t[|g|]
  {
    u, h := s + t[1..], e + g;
    forall i | 0 <= i < |h| ensures LinkAt(u[i], h[i], u[i + 1], f, i) {
      if i < |e| {
        assert LinkAt(s[i], e[i], s[i + 1], f, 0 + i);
      } else {
        var j := i - |e|;
        assert LinkAt(t[j], g[j], t[j + 1], f, |e| + j);
        assert u[i] == t[j] && u[i + 1] == t[j + 1] && h[i] == g[j];
      }
    }
  }

  ghost predicate FairVoteAt(run: seq<Sys>, steps: seq<Step>, i: nat) {
    StepAt(run, steps, i) && Shape(run[i]) && FairVote(run[i], steps[i])
  }

  ghost predicate NoCutAt(run: seq<Sys>, steps: seq<Step>, i: nat) {
    StepAt(run, steps, i) && NoCut(run[i], steps[i])
  }

  /** A proper run of which step `f.at`, and no other, breaks the rule of the flaw, and none breaks the others. */
  ghost predicate Flawed(run: seq<Sys>, steps: seq<Step>, f: Flaw) {
    && Proper(run, steps) && f.at < |steps|
    && forall i: nat :: i < |steps| ==>
         && (FairVoteAt(run, steps, i) <==> f != VoteFlaw(i))
         && (NoCutAt(run, steps, i) <==> f != CutFlaw(i))
         && (InTermAt(run, steps, i) <==> f != ReplyFlaw(i))
  }

  lemma WalkIsFlawed(s: seq<Sys>, e: seq<Step>, f: Flaw)
    requires Walk(s, e, f, 0) && Starts(s[0]) && f.at < |e|
    ensures Flawed(s, e, f)
  {
    forall i: nat | i < |e|
      ensures StepAt(s, e, i) && TimelyAt(s, e, i) && LeadsAt(s, e, i)
      ensures FairVoteAt(s, e, i) <==> f != VoteFlaw(i)
      ensures NoCutAt(s, e, i) <==> f != CutFlaw(i)
      ensures InTermAt(s, e, i) <==> f != ReplyFlaw(i)
    {
      assert LinkAt(s[i], e[i], s[i + 1], f, 0 + i);
    }
  }

  // ----- single steps -----

  /** Nothing that was sent is forgotten. */
  ghost predicate Onward(s: Sys, t: Sys) {
    && |t.nodes| == |s.nodes| && Shape(t)
    && s.asked <= t.asked && s.ballots <= t.ballots && s.appends <= t.appends && s.answers <= t.answers
  }

  lemma DoElect(s: Sys, i: nat, f: Flaw, k: nat) returns (t: Sys)
    requires Shape(s) && i < |s.nodes| && f.at != k
    ensures LinkAt(s, Elect(i), t, f, k) && Onward(s, t)
    ensures t.nodes == s.nodes[i := StartElect(s.nodes[i])] && ElectArgs(t.nodes[i]) in t.asked
    ensures Campaign(i, s.nodes[i].term + 1) in t.active
  {
    t := Next(s, Elect(i));
  }

  lemma DoVote(s: Sys, i: nat, a: VoteArgs, f: Flaw, k: nat) returns (t: Sys)
    requires Shape(s) && Enabled(s, Vote(i, a)) && Grants(s.nodes[i], a)
    requires (FairVote(s, Vote(i, a)) <==> f != VoteFlaw(k)) && f != CutFlaw(k) && f != ReplyFlaw(k)
    ensures LinkAt(s, Vote(i, a), t, f, k) && Onward(s, t)
    ensures t.nodes == s.nodes[i := OnRequestVote(s.nodes[i], a)] && t.active == s.active
    ensures Ballot(i, a.candidate, a.term, VoteReply(a.term, true)) in t.ballots
  {
    t := Next(s, Vote(i, a));
  }

  lemma DoLead(s: Sys, i: nat, f: Flaw, k: nat) returns (t: Sys)
    requires Shape(s) && f.at != k && i < |s.nodes|
    requires Campaign(i, s.nodes[i].term) in s.active && Majority(s, i, s.nodes[i].term)
    ensures LinkAt(s, HandOver(i, s.nodes[i].term), t, f, k) && Onward(s, t)
    ensures t.nodes == s.nodes[i := BecomeLeader(s.nodes[i])]
  {
    t := Next(s, HandOver(i, s.nodes[i].term));
  }

  lemma DoPut(s: Sys, i: nat, c: Command, f: Flaw, k: nat) returns (t: Sys)
    requires Shape(s) && i < |s.nodes| && s.nodes[i].role == Leader && f.at != k
    ensures LinkAt(s, PutCmd(i, c), t, f, k) && Onward(s, t)
    ensures t.nodes == s.nodes[i := s.nodes[i].(log := s.nodes[i].log + [Entry(s.nodes[i].term, c)])]
  {
    t := Next(s, PutCmd(i, c));
  }

  lemma DoSend(s: Sys, i: nat, dest: nat, f: Flaw, k: nat) returns (t: Sys)
    requires Shape(s) && Enabled(s, Send(i, dest)) && s.nodes[i].role == Leader && f.at != k
    ensures LinkAt(s, Send(i, dest), t, f, k) && Onward(s, t)
    ensures t.nodes == s.nodes && Append(dest, BuildAppend(s.nodes[i], dest)) in t.appends
  {
    t := Next(s, Send(i, dest));
  }

  lemma DoDeliver(s: Sys, m: Append, f: Flaw, k: nat) returns (t: Sys)
    requires Shape(s) && Enabled(s, Deliver(m)) && AppendAnswer(s.nodes[m.dest], m.args).success
    requires (NoCut(s, Deliver(m)) <==> f != CutFlaw(k)) && f != VoteFlaw(k) && f != ReplyFlaw(k)
    ensures LinkAt(s, Deliver(m), t, f, k) && Onward(s, t)
    ensures t.nodes == s.nodes[m.dest := OnAppend(s.nodes[m.dest], m.args)]
    ensures Answer(m, AppendReply(s.nodes[m.dest].term, true)) in t.answers
  {
    t := Next(s, Deliver(m));
  }

  lemma DoReply(s: Sys, x: Answer, f: Flaw, k: nat) returns (t: Sys)
    requires Shape(s) && Enabled(s, Reply(x))
    requires (InTerm(s, Reply(x)) <==> f != ReplyFlaw(k)) && f != VoteFlaw(k) && f != CutFlaw(k)
    ensures LinkAt(s, Reply(x), t, f, k) && Onward(s, t)
    ensures var a := x.append.args;
            t.nodes == s.nodes[a.leader := OnAppendReply(s.nodes[a.leader], x.append.dest, a, x.reply, a.entries == [])]
  {
    t := Next(s, Reply(x));
  }

  // ----- three peers -----

  const A := Command("a")
  const B := Command("b")
  const E1 := Entry(1, A)
  const E2 := Entry(1, B)
  const LOG := [DUMMY]
  const ONE := [DUMMY, E1]
  const TWO := [DUMMY, E1, E2]
  const FIRST := VoteArgs(1, 0, 1, 0)
  const GIVEN1 := Ballot(1, 0, 1, VoteReply(1, true))

  function Plain(me: nat, term: nat, votedFor: int, role: Role, log: seq<Entry>): Node {
    Node(me, 3, term, votedFor, role, log, 0, [], [])
  }

  /** Peer 0 as the leader of term 1. */
  function Head(log: seq<Entry>, next: int, match': int, commitIndex: nat): Node {
    Node(0, 3, 1, 0, Leader, log, commitIndex, [1, next, 1], [0, match', 0])
  }

  lemma OneVoteIsMajority(s: Sys, i: nat, term: nat, b: Ballot)
    requires |s.nodes| == 3 && b in s.ballots && b.candidate == i && b.election == term && b.reply.granted
    ensures Majority(s, i, term)
  {
    assert b.voter in Voters(s, i, term);
  }

  lemma NewLeader(n: Node)
    requires n.peers == 3
    ensures BecomeLeader(n) == n.(role := Leader, nextIndex := [|n.log|, |n.log|, |n.log|], matchIndex := [0, 0, 0])
  {
    assert seq(3, _ => |n.log|) == [|n.log|, |n.log|, |n.log|] && seq(3, _ => 0) == [0, 0, 0];
  }

  /** Peer 0 is elected in term 1 by peer 1. */
  lemma FirstLeader(f: Flaw) returns (s: seq<Sys>, e: seq<Step>)
    requires f.at > 2
    ensures Walk(s, e, f, 0) && |e| == 3 && Starts(s[0]) && Shape(s[3])
    ensures s[3].nodes == [Head(LOG, 1, 0, 0), Plain(1, 1, 0, Follower, LOG), Plain(2, 0, -1, Follower, LOG)]
  {
    var s0 := Sys([NewNode(0, 3), NewNode(1, 3), NewNode(2, 3)], {}, {}, {}, {}, {}, {}, {}, map[0 := LOG]);
    var s1 := DoElect(s0, 0, f, 0);
    assert s1.nodes == [Plain(0, 1, 0, Candidate, LOG), NewNode(1, 3), NewNode(2, 3)];
    var s2 := DoVote(s1, 1, FIRST, f, 1);
    assert s2.nodes == [Plain(0, 1, 0, Candidate, LOG), Plain(1, 1, 0, Follower, LOG), NewNode(2, 3)];
    OneVoteIsMajority(s2, 0, 1, GIVEN1);
    NewLeader(Plain(0, 1, 0, Candidate, LOG));
    var s3 := DoLead(s2, 0, f, 2);
    s, e := [s0, s1, s2, s3], [Elect(0), Vote(1, FIRST), HandOver(0, 1)];
  }

  // ----- a delayed heartbeat -----

  const BEAT := Append(1, AppendArgs(1, 0, 0, 0, [], 0))
  const MSG1 := Append(1, AppendArgs(1, 0, 0, 0, [E1], 0))
  const GOT1 := Answer(MSG1, AppendReply(1, true))
  const OTHER := VoteArgs(2, 1, 1, 0)
  const BY2 := Ballot(2, 1, 2, VoteReply(2, true))

  /** Peer 0 sends a heartbeat to peer 1, appends an entry and sends that as well. */
  lemma BothSent(s3: Sys, f: Flaw) returns (s: seq<Sys>, e: seq<Step>)
    requires Shape(s3) && f == CutFlaw(8)
    requires s3.nodes == [Head(LOG, 1, 0, 0), Plain(1, 1, 0, Follower, LOG), Plain(2, 0, -1, Follower, LOG)]
    ensures Walk(s, e, f, 3) && |e| == 3 && s[0] == s3 && Shape(s[3]) && BEAT in s[3].appends && MSG1 in s[3].appends
    ensures s[3].nodes == [Head(ONE, 1, 0, 0), Plain(1, 1, 0, Follower, LOG), Plain(2, 0, -1, Follower, LOG)]
  {
    var s4 := DoSend(s3, 0, 1, f, 3);
    var s5 := DoPut(s4, 0, A, f, 4);
    assert LOG + [E1] == ONE && ONE[1..] == [E1];
    var s6 := DoSend(s5, 0, 1, f, 5);
    s, e := [s3, s4, s5, s6], [Send(0, 1), PutCmd(0, A), Send(0, 1)];
  }

  /** Where entries are appended to a log that has none of them. */
  lemma MergeNew(log: seq<Entry>, entries: seq<Entry>)
    requires log != []
    ensures Merge(log, |log| - 1, entries) == log + entries
  {
    assert log[..|log|] == log;
  }

  /** After the first answer of peer 1 the leader commits index 1. */
  lemma FirstAnswer(log: seq<Entry>)
    requires ONE <= log && log[1].term == 1
    ensures OnAppendReply(Head(log, 1, 0, 0), 1, MSG1.args, GOT1.reply, false) == Head(log, 2, 1, 1)
  {
    var n := Head(log, 2, 1, 0);
    assert Replicated(Head(log, 1, 0, 0), 1, MSG1.args, GOT1.reply, false) == n;
    assert Holders(n, 1, 3) == 2 by {
      assert Holders(n, 1, 1) == 1 && Holders(n, 1, 2) == 2;
    }
    assert NextCommit(n, 1) == 1;
  }

  /** The entry arrives, the leader commits it, and then the heartbeat arrives. */
  lemma CutOff(s6: Sys, f: Flaw) returns (s: seq<Sys>, e: seq<Step>)
    requires Shape(s6) && f == CutFlaw(8) && BEAT in s6.appends && MSG1 in s6.appends
    requires s6.nodes == [Head(ONE, 1, 0, 0), Plain(1, 1, 0, Follower, LOG), Plain(2, 0, -1, Follower, LOG)]
    ensures Walk(s, e, f, 6) && |e| == 3 && s[0] == s6 && Shape(s[3]) && e[2] == Deliver(BEAT)
    ensures s[3].nodes == [Head(ONE, 2, 1, 1), Plain(1, 1, 0, Follower, LOG), Plain(2, 0, -1, Follower, LOG)]
  {
    MergeNew(LOG, [E1]);
    assert LOG + [E1] == ONE;
    var s7 := DoDeliver(s6, MSG1, f, 6);
    assert s7.nodes == [Head(ONE, 1, 0, 0), Plain(1, 1, 0, Follower, ONE), Plain(2, 0, -1, Follower, LOG)];
    FirstAnswer(ONE);
    var s8 := DoReply(s7, GOT1, f, 7);
    assert s8.nodes == [Head(ONE, 2, 1, 1), Plain(1, 1, 0, Follower, ONE), Plain(2, 0, -1, Follower, LOG)];
    assert Merge(ONE, 0, []) == LOG;
    var s9 := DoDeliver(s8, BEAT, f, 8);
    s, e := [s6, s7, s8, s9], [Deliver(MSG1), Reply(GOT1), Deliver(BEAT)];
  }

  /** Peer 1 is elected in term 2 by peer 2. */
  lemma NextLeader(s9: Sys, f: Flaw) returns (s: seq<Sys>, e: seq<Step>)
    requires Shape(s9) && f == CutFlaw(8)
    requires s9.nodes == [Head(ONE, 2, 1, 1), Plain(1, 1, 0, Follower, LOG), Plain(2, 0, -1, Follower, LOG)]
    ensures Walk(s, e, f, 9) && |e| == 3 && s[0] == s9
    ensures Lacks(s[3], 0, s[3], 1, 1)
  {
    var s10 := DoElect(s9, 1, f, 9);
    assert s10.nodes == [Head(ONE, 2, 1, 1), Plain(1, 2, 1, Candidate, LOG), Plain(2, 0, -1, Follower, LOG)];
    var s11 := DoVote(s10, 2, OTHER, f, 10);
    assert s11.nodes == [Head(ONE, 2, 1, 1), Plain(1, 2, 1, Candidate, LOG), Plain(2, 2, 1, Follower, LOG)];
    OneVoteIsMajority(s11, 1, 2, BY2);
    var s12 := DoLead(s11, 1, f, 11);
    s, e := [s9, s10, s11, s12], [Elect(1), Vote(2, OTHER), HandOver(1, 2)];
  }

  /**
   Accepting a delayed heartbeat cuts the log back to where it was built: in this run of three peers the entry
   that peer 0 has committed is not in the log of the leader of term 2, and only step 8 breaks a rule.
   */
  lemma HeartbeatCuts() returns (run: seq<Sys>, steps: seq<Step>)
    ensures Flawed(run, steps, CutFlaw(8)) && |steps| == 12 && steps[8].Deliver? && steps[8].m.args.entries == []
    ensures Lacks(run[12], 0, run[12], 1, 1)
  {
    var f := CutFlaw(8);
    var s, e := FirstLeader(f);
    var t, g := BothSent(s[3], f);
    s, e := Join(s, e, f, t, g);
    t, g := CutOff(s[6], f);
    s, e := Join(s, e, f, t, g);
    t, g := NextLeader(s[9], f);
    run, steps := Join(s, e, f, t, g);
    WalkIsFlawed(run, steps, f);
  }

  // ----- a vote for a shorter log -----

  const MSG2 := Append(2, AppendArgs(1, 0, 0, 0, [E1], 0))
  const MSG3 := Append(1, AppendArgs(1, 0, 0, 0, [E1, E2], 0))
  const GOT3 := Answer(MSG3, AppendReply(1, true))
  const SHORTER := VoteArgs(2, 2, 2, 1)
  const BY1 := Ballot(1, 2, 2, VoteReply(2, true))

  /** Peer 0 sends its first entry to both others. */
  lemma FirstEntrySent(s3: Sys, f: Flaw) returns (s: seq<Sys>, e: seq<Step>)
    requires Shape(s3) && f == VoteFlaw(14)
    requires s3.nodes == [Head(LOG, 1, 0, 0), Plain(1, 1, 0, Follower, LOG), Plain(2, 0, -1, Follower, LOG)]
    ensures Walk(s, e, f, 3) && |e| == 3 && s[0] == s3 && Shape(s[3]) && MSG1 in s[3].appends && MSG2 in s[3].appends
    ensures s[3].nodes == [Head(ONE, 1, 0, 0), Plain(1, 1, 0, Follower, LOG), Plain(2, 0, -1, Follower, LOG)]
  {
    var s4 := DoPut(s3, 0, A, f, 3);
    assert LOG + [E1] == ONE && ONE[1..] == [E1];
    var s5 := DoSend(s4, 0, 1, f, 4);
    var s6 := DoSend(s5, 0, 2, f, 5);
    s, e := [s3, s4, s5, s6], [PutCmd(0, A), Send(0, 1), Send(0, 2)];
  }

  /** Both get it. */
  lemma FirstEntry(s6: Sys, f: Flaw) returns (s: seq<Sys>, e: seq<Step>)
    requires Shape(s6) && f == VoteFlaw(14) && MSG1 in s6.appends && MSG2 in s6.appends
    requires s6.nodes == [Head(ONE, 1, 0, 0), Plain(1, 1, 0, Follower, LOG), Plain(2, 0, -1, Follower, LOG)]
    ensures Walk(s, e, f, 6) && |e| == 2 && s[0] == s6 && Shape(s[2]) && GOT1 in s[2].answers
    ensures s[2].nodes == [Head(ONE, 1, 0, 0), Plain(1, 1, 0, Follower, ONE), Plain(2, 1, -1, Follower, ONE)]
  {
    MergeNew(LOG, [E1]);
    assert LOG + [E1] == ONE;
    var s7 := DoDeliver(s6, MSG1, f, 6);
    assert s7.nodes == [Head(ONE, 1, 0, 0), Plain(1, 1, 0, Follower, ONE), Plain(2, 0, -1, Follower, LOG)];
    var s8 := DoDeliver(s7, MSG2, f, 7);
    s, e := [s6, s7, s8], [Deliver(MSG1), Deliver(MSG2)];
  }

  /** Peer 0 sends a second entry to peer 1. */
  lemma SecondEntrySent(s8: Sys, f: Flaw) returns (s: seq<Sys>, e: seq<Step>)
    requires Shape(s8) && f == VoteFlaw(14) && GOT1 in s8.answers
    requires s8.nodes == [Head(ONE, 1, 0, 0), Plain(1, 1, 0, Follower, ONE), Plain(2, 1, -1, Follower, ONE)]
    ensures Walk(s, e, f, 8) && |e| == 2 && s[0] == s8 && Shape(s[2]) && GOT1 in s[2].answers && MSG3 in s[2].appends
    ensures s[2].nodes == [Head(TWO, 1, 0, 0), Plain(1, 1, 0, Follower, ONE), Plain(2, 1, -1, Follower, ONE)]
  {
    var s9 := DoPut(s8, 0, B, f, 8);
    assert ONE + [E2] == TWO && TWO[1..] == [E1, E2];
    var s10 := DoSend(s9, 0, 1, f, 9);
    s, e := [s8, s9, s10], [PutCmd(0, B), Send(0, 1)];
  }

  /** Peer 1 alone gets it. */
  lemma SecondEntry(s10: Sys, f: Flaw) returns (s: seq<Sys>, e: seq<Step>)
    requires Shape(s10) && f == VoteFlaw(14) && GOT1 in s10.answers && MSG3 in s10.appends
    requires s10.nodes == [Head(TWO, 1, 0, 0), Plain(1, 1, 0, Follower, ONE), Plain(2, 1, -1, Follower, ONE)]
    ensures Walk(s, e, f, 10) && |e| == 1 && s[0] == s10 && Shape(s[1]) && GOT1 in s[1].answers && GOT3 in s[1].answers
    ensures s[1].nodes == [Head(TWO, 1, 0, 0), Plain(1, 1, 0, Follower, TWO), Plain(2, 1, -1, Follower, ONE)]
  {
    assert Merge(ONE, 0, [E1, E2]) == TWO by {
      assert ONE[1..] == [E1] && Agree([E1], [E1, E2]) == 1;
      assert ONE[..2] + [E1, E2][1..] == TWO;
    }
    var s11 := DoDeliver(s10, MSG3, f, 10);
    s, e := [s10, s11], [Deliver(MSG3)];
  }

  lemma SecondAnswer()
    ensures OnAppendReply(Head(TWO, 2, 1, 1), 1, MSG3.args, GOT3.reply, false) == Head(TWO, 3, 2, 2)
  {
    var n := Head(TWO, 3, 2, 1);
    assert Replicated(Head(TWO, 2, 1, 1), 1, MSG3.args, GOT3.reply, false) == n;
    assert Holders(n, 2, 3) == 2 by {
      assert Holders(n, 2, 1) == 1 && Holders(n, 2, 2) == 2;
    }
    assert NextCommit(n, 2) == 2;
  }

  /** The leader commits both. */
  lemma BothCommitted(s11: Sys, f: Flaw) returns (s: seq<Sys>, e: seq<Step>)
    requires Shape(s11) && f == VoteFlaw(14) && GOT1 in s11.answers && GOT3 in s11.answers
    requires s11.nodes == [Head(TWO, 1, 0, 0), Plain(1, 1, 0, Follower, TWO), Plain(2, 1, -1, Follower, ONE)]
    ensures Walk(s, e, f, 11) && |e| == 2 && s[0] == s11 && Shape(s[2])
    ensures s[2].nodes == [Head(TWO, 3, 2, 2), Plain(1, 1, 0, Follower, TWO), Plain(2, 1, -1, Follower, ONE)]
  {
    FirstAnswer(TWO);
    var s12 := DoReply(s11, GOT1, f, 11);
    assert s12.nodes == [Head(TWO, 2, 1, 1), Plain(1, 1, 0, Follower, TWO), Plain(2, 1, -1, Follower, ONE)];
    SecondAnswer();
    var s13 := DoReply(s12, GOT3, f, 12);
    s, e := [s11, s12, s13], [Reply(GOT1), Reply(GOT3)];
  }

  /** Peer 2 is elected in term 2 by peer 1, whose log is longer by one. */
  lemma ShorterLeader(s13: Sys, f: Flaw) returns (s: seq<Sys>, e: seq<Step>)
    requires Shape(s13) && f == VoteFlaw(14)
    requires s13.nodes == [Head(TWO, 3, 2, 2), Plain(1, 1, 0, Follower, TWO), Plain(2, 1, -1, Follower, ONE)]
    ensures Walk(s, e, f, 13) && |e| == 3 && s[0] == s13 && e[1] == Vote(1, SHORTER)
    ensures Lacks(s[3], 0, s[3], 2, 2)
  {
    var s14 := DoElect(s13, 2, f, 13);
    assert s14.nodes == [Head(TWO, 3, 2, 2), Plain(1, 1, 0, Follower, TWO), Plain(2, 2, 2, Candidate, ONE)];
    var s15 := DoVote(s14, 1, SHORTER, f, 14);
    assert s15.nodes == [Head(TWO, 3, 2, 2), Plain(1, 2, 2, Follower, TWO), Plain(2, 2, 2, Candidate, ONE)];
    OneVoteIsMajority(s15, 2, 2, BY1);
    var s16 := DoLead(s15, 2, f, 15);
    s, e := [s13, s14, s15, s16], [Elect(2), Vote(1, SHORTER), HandOver(2, 2)];
  }

  /**
   The vote handler admits candidates one entry shorter: in this run of three peers the second entry that peer 0
   has committed is not in the log of the leader of term 2, and only step 14 breaks a rule.
   */
  lemma ShorterElected() returns (run: seq<Sys>, steps: seq<Step>)
    ensures Flawed(run, steps, VoteFlaw(14)) && |steps| == 16 && steps[14].Vote?
    ensures Lacks(run[16], 0, run[16], 2, 2)
  {
    var f := VoteFlaw(14);
    var s, e := FirstLeader(f);
    var t, g := FirstEntrySent(s[3], f);
    s, e := Join(s, e, f, t, g);
    t, g := FirstEntry(s[6], f);
    s, e := Join(s, e, f, t, g);
    t, g := SecondEntrySent(s[8], f);
    s, e := Join(s, e, f, t, g);
    t, g := SecondEntry(s[10], f);
    s, e := Join(s, e, f, t, g);
    t, g := BothCommitted(s[11], f);
    s, e := Join(s, e, f, t, g);
    t, g := ShorterLeader(s[13], f);
    run, steps := Join(s, e, f, t, g);
    WalkIsFlawed(run, steps, f);
  }
}
