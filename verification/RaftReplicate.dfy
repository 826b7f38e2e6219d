/**
 What the leader's messages achieve: in every run in which a leader and a majority can still talk in its term,
 a command that it takes can be brought into all their logs and be committed by all of them.
 */
module RaftReplicate {
  import opened RaftPeer
  import opened RaftSystem
  import opened RaftElection
  import opened RaftLog
  import opened RaftVotes
  import opened RaftTime
  import opened RaftCommit

  // ----- extending a run -----

  ghost predicate Moves(s: Sys, e: Step, t: Sys) {
    Shape(s) && Enabled(s, e) && t == Next(s, e) && NotStale(s, e) && StillLeads(s, e)
  }

  function Last(run: seq<Sys>): Sys
    requires run != []
  {
    run[|run| - 1]
  }

  ghost predicate Continues(run: seq<Sys>, steps: seq<Step>, more: seq<Sys>, moves: seq<Step>) {
    run <= more && steps <= moves && Proper(more, moves)
  }

  lemma OneStep(run: seq<Sys>, steps: seq<Step>, e: Step, t: Sys)
    requires Proper(run, steps) && Moves(Last(run), e, t)
    ensures Proper(run + [t], steps + [e]) && Last(run + [t]) == t
  {
    var more, moves := run + [t], steps + [e];
    forall i: nat | i < |moves| ensures StepAt(more, moves, i) && TimelyAt(more, moves, i) && LeadsAt(more, moves, i) {
      if i < |steps| {
        assert TimelyAt(run, steps, i) && LeadsAt(run, steps, i);
      }
    }
  }

  // ----- one exchange between the leader and a follower -----

  /** Leader `i` can send to peer `j`, which has seen no later term. */
  ghost predicate Ready(s: Sys, i: nat, j: nat) {
    && i < |s.nodes| && j < |s.nodes| && i != j && s.nodes[i].role == Leader
    && |s.nodes[i].nextIndex| == |s.nodes[i].matchIndex| == |s.nodes|
    && 1 <= s.nodes[i].nextIndex[j] <= |s.nodes[i].log| && s.nodes[j].term <= s.nodes[i].term
    && s.nodes[i].log != [] && s.nodes[j].log != [] && s.nodes[i].log[0] == s.nodes[j].log[0]
  }

  /** The nodes after the leader has sent a message, the follower has handled it and the leader the answer. */
  ghost function Exchanged(s: Sys, i: nat, j: nat): seq<Node>
    requires Ready(s, i, j)
  {
    var n, m, a := s.nodes[i], s.nodes[j], BuildAppend(s.nodes[i], j);
    s.nodes[j := OnAppend(m, a)][i := OnAppendReply(n, j, a, AppendAnswer(m, a), a.entries == [])]
  }

  lemma Exchange(s: Sys, i: nat, j: nat) returns (e1: Step, s1: Sys, e2: Step, s2: Sys, e3: Step, s3: Sys)
    requires Shape(s) && Ready(s, i, j)
    ensures Moves(s, e1, s1) && Moves(s1, e2, s2) && Moves(s2, e3, s3) && s3.nodes == Exchanged(s, i, j)
  {
    var m := Append(j, BuildAppend(s.nodes[i], j));
    e1, s1 := Send(i, j), Next(s, Send(i, j));
    e2, s2 := Deliver(m), Next(s1, Deliver(m));
    var x := Answer(m, AppendAnswer(s.nodes[j], m.args));
    ShapeStep(s1, e2);
    e3, s3 := Reply(x), Next(s2, Reply(x));
  }

  lemma ExchangeRun(run: seq<Sys>, steps: seq<Step>, i: nat, j: nat) returns (more: seq<Sys>, moves: seq<Step>)
    requires Proper(run, steps) && Ready(Last(run), i, j)
    ensures Continues(run, steps, more, moves) && Last(more).nodes == Exchanged(Last(run), i, j)
  {
    ShapeAlong(run, steps, |run| - 1);
    var e1, s1, e2, s2, e3, s3 := Exchange(Last(run), i, j);
    OneStep(run, steps, e1, s1);
    OneStep(run + [s1], steps + [e1], e2, s2);
    OneStep(run + [s1] + [s2], steps + [e1] + [e2], e3, s3);
    more, moves := run + [s1] + [s2] + [s3], steps + [e1] + [e2] + [e3];
  }

  // ----- what an exchange does -----

  /** Only the follower changes, and what the leader knows of it and has committed. */
  ghost predicate Between(s: seq<Node>, t: seq<Node>, i: nat, j: nat) {
    && |t| == |s| && i < |s| && j < |s| && i != j
    && |s[i].nextIndex| == |s[i].matchIndex| == |t[i].nextIndex| == |t[i].matchIndex| == |s|
    && (forall k: nat :: k < |s| && k != i && k != j ==> t[k] == s[k])
    && t[i] == s[i].(nextIndex := s[i].nextIndex[j := t[i].nextIndex[j]],
                     matchIndex := s[i].matchIndex[j := t[i].matchIndex[j]], commitIndex := t[i].commitIndex)
    && s[i].commitIndex <= t[i].commitIndex
    && (s[i].commitIndex < |s[i].log| ==> t[i].commitIndex < |s[i].log|)
    && t[j].me == s[j].me && t[j].peers == s[j].peers
  }

  /** The follower has the leader's log, and the leader knows. */
  ghost predicate InStep(s: seq<Node>, i: nat, j: nat) {
    && i < |s| && j < |s| && |s[i].nextIndex| == |s[i].matchIndex| == |s| && s[i].log != []
    && s[j].log == s[i].log && s[j].term == s[i].term
    && s[i].nextIndex[j] == |s[i].log| && s[i].matchIndex[j] == |s[i].log| - 1
  }

  /** If the last entry may be committed, an answer moves the commit index. */
  lemma ReplyAdvances(n: Node, server: nat, a: AppendArgs, reply: AppendReply, heartbeat: bool)
    requires server < |n.nextIndex| && server < |n.matchIndex|
    ensures var m := OnAppendReply(n, server, a, reply, heartbeat);
            n.commitIndex + 1 < |n.log| && Commits(m, |m.log| - 1) ==> n.commitIndex < m.commitIndex
  {
    var r, m := Replicated(n, server, a, reply, heartbeat), OnAppendReply(n, server, a, reply, heartbeat);
    if n.commitIndex + 1 < |n.log| {
      FirstCommit(r, r.commitIndex + 1);
      SameHolders(r, m.commitIndex, |r.log| - 1, r.peers);
    }
  }

  /** An answer changes nothing but the leader's tables, at one place, and its commit index. */
  lemma ReplyTables(n: Node, server: nat, a: AppendArgs, reply: AppendReply, heartbeat: bool)
    requires server < |n.nextIndex| && server < |n.matchIndex|
    ensures var m := OnAppendReply(n, server, a, reply, heartbeat);
            && |m.nextIndex| == |n.nextIndex| && |m.matchIndex| == |n.matchIndex|
            && m == n.(nextIndex := n.nextIndex[server := m.nextIndex[server]],
                       matchIndex := n.matchIndex[server := m.matchIndex[server]], commitIndex := m.commitIndex)
  {
  }

  lemma LeaderSide(s: Sys, i: nat, j: nat)
    requires Shape(s) && Ready(s, i, j)
    ensures Between(s.nodes, Exchanged(s, i, j), i, j)
    ensures var n, m := s.nodes[i], Exchanged(s, i, j)[i];
            n.commitIndex + 1 < |n.log| && Commits(m, |m.log| - 1) ==> n.commitIndex < m.commitIndex
  {
    var a, r := BuildAppend(s.nodes[i], j), AppendAnswer(s.nodes[j], BuildAppend(s.nodes[i], j));
    ReplyTables(s.nodes[i], j, a, r, a.entries == []);
    ReplyCommits(s.nodes[i], j, a, r, a.entries == []);
    ReplyAdvances(s.nodes[i], j, a, r, a.entries == []);
  }

  lemma TakesOver(s: Sys, i: nat, j: nat)
    requires LogInv(s) && Ready(s, i, j) && Fits(s.nodes[j].log, BuildAppend(s.nodes[i], j))
    ensures var a := BuildAppend(s.nodes[i], j); Merge(s.nodes[j].log, a.prevIndex, a.entries) == s.nodes[i].log
  {
    MergeYieldsSnapshot(s.hist, s.nodes[j].log, s.nodes[i].log, BuildAppend(s.nodes[i], j));
  }

  lemma ReplySuccess(n: Node, server: nat, a: AppendArgs, reply: AppendReply, heartbeat: bool)
    requires server < |n.nextIndex| && server < |n.matchIndex| && reply.success
    ensures var m := OnAppendReply(n, server, a, reply, heartbeat);
            && m.log == n.log && m.term == n.term && |m.nextIndex| == |n.nextIndex| && |m.matchIndex| == |n.matchIndex|
            && m.nextIndex[server] == Reach(a) + 1 && m.matchIndex[server] == Reach(a)
  {
  }

  /** If the message fits, the follower takes over the whole log of the leader. */
  lemma Accepts(s: Sys, i: nat, j: nat)
    requires LogInv(s) && Ready(s, i, j) && Fits(s.nodes[j].log, BuildAppend(s.nodes[i], j))
    ensures var t := Exchanged(s, i, j);
            && InStep(t, i, j) && t[i].log == s.nodes[i].log
            && t[j].commitIndex == (var c, l := s.nodes[j].commitIndex, s.nodes[i].commitIndex;
                                    if c < l then (if |s.nodes[i].log| - 1 < l then |s.nodes[i].log| - 1 else l) else c)
  {
    var a := BuildAppend(s.nodes[i], j);
    TakesOver(s, i, j);
    ReplySuccess(s.nodes[i], j, a, AppendAnswer(s.nodes[j], a), a.entries == []);
  }

  /** If entries do not fit, the leader tries an earlier place. */
  lemma Retries(s: Sys, i: nat, j: nat)
    requires Shape(s) && Ready(s, i, j) && !Fits(s.nodes[j].log, BuildAppend(s.nodes[i], j))
    requires s.nodes[i].nextIndex[j] < |s.nodes[i].log|
    ensures var n, t := s.nodes[i], Exchanged(s, i, j);
            && 1 < n.nextIndex[j] && t[i].nextIndex[j] == n.nextIndex[j] - 1
            && t[j].log == s.nodes[j].log && t[j].commitIndex == s.nodes[j].commitIndex && t[j].term == n.term
  {
    LeaderSide(s, i, j);
    assert BuildAppend(s.nodes[i], j).entries != [];
  }

  // ----- one follower -----

  lemma BetweenAgain(s: seq<Node>, t: seq<Node>, u: seq<Node>, i: nat, j: nat)
    requires Between(s, t, i, j) && Between(t, u, i, j)
    ensures Between(s, u, i, j)
  {
    assert s[i].nextIndex[j := t[i].nextIndex[j]][j := u[i].nextIndex[j]] == s[i].nextIndex[j := u[i].nextIndex[j]];
    assert s[i].matchIndex[j := t[i].matchIndex[j]][j := u[i].matchIndex[j]] == s[i].matchIndex[j := u[i].matchIndex[j]];
  }

  /** A leader with something to send brings a follower in step. */
  lemma {:induction false} Replicate(run: seq<Sys>, steps: seq<Step>, i: nat, j: nat)
      returns (more: seq<Sys>, moves: seq<Step>)
    requires Proper(run, steps) && Ready(Last(run), i, j)
    requires var n := Last(run).nodes[i]; n.nextIndex[j] < |n.log| && Last(run).nodes[j].commitIndex < |n.log|
    ensures Continues(run, steps, more, moves) && Between(Last(run).nodes, Last(more).nodes, i, j)
    ensures InStep(Last(more).nodes, i, j) && Last(more).nodes[j].commitIndex < |Last(more).nodes[i].log|
    decreases Last(run).nodes[i].nextIndex[j]
  {
    var s := Last(run);
    ProperInv(run, steps, |run| - 1);
    LeaderSide(s, i, j);
    more, moves := ExchangeRun(run, steps, i, j);
    if Fits(s.nodes[j].log, BuildAppend(s.nodes[i], j)) {
      Accepts(s, i, j);
    } else {
      Retries(s, i, j);
      var t := Last(more);
      var run', steps' := more, moves;
      more, moves := Replicate(run', steps', i, j);
      BetweenAgain(s.nodes, t.nodes, Last(more).nodes, i, j);
    }
  }

  // ----- many followers -----

  /** Only the leader and the peers in `todo` change, and of the leader only its tables and commit index. */
  ghost predicate Among(s: seq<Node>, t: seq<Node>, i: nat, todo: set<nat>) {
    && |t| == |s| && i < |s| && i !in todo
    && |s[i].nextIndex| == |s[i].matchIndex| == |t[i].nextIndex| == |t[i].matchIndex| == |s|
    && (forall k: nat :: k < |s| && k != i && k !in todo ==>
          t[k] == s[k] && t[i].nextIndex[k] == s[i].nextIndex[k] && t[i].matchIndex[k] == s[i].matchIndex[k])
    && t[i] == s[i].(nextIndex := t[i].nextIndex, matchIndex := t[i].matchIndex, commitIndex := t[i].commitIndex)
    && s[i].commitIndex <= t[i].commitIndex
    && (s[i].commitIndex < |s[i].log| ==> t[i].commitIndex < |s[i].log|)
  }

  lemma AmongOne(s: seq<Node>, t: seq<Node>, u: seq<Node>, i: nat, j: nat, rest: set<nat>)
    requires Between(s, t, i, j) && Among(t, u, i, rest) && j !in rest
    ensures Among(s, u, i, rest + {j})
  {
    forall k: nat | k < |s| && k != i && k !in rest + {j}
      ensures u[k] == s[k] && u[i].nextIndex[k] == s[i].nextIndex[k] && u[i].matchIndex[k] == s[i].matchIndex[k]
    {
      assert t[k] == s[k];
    }
  }

  ghost predicate Caught(s: seq<Node>, i: nat, j: nat) {
    InStep(s, i, j) && s[j].commitIndex < |s[i].log|
  }

  lemma CaughtStays(s: seq<Node>, t: seq<Node>, i: nat, todo: set<nat>, j: nat)
    requires Among(s, t, i, todo) && Caught(s, i, j) && j !in todo && j != i
    ensures Caught(t, i, j)
  {
  }

  lemma {:induction false} ReplicateAll(run: seq<Sys>, steps: seq<Step>, i: nat, todo: set<nat>)
      returns (more: seq<Sys>, moves: seq<Step>)
    requires Proper(run, steps) && i < |Last(run).nodes| && i !in todo
    requires var n := Last(run).nodes[i]; |n.nextIndex| == |n.matchIndex| == |Last(run).nodes|
    requires forall j :: j in todo ==>
      && Ready(Last(run), i, j) && Last(run).nodes[i].nextIndex[j] < |Last(run).nodes[i].log|
      && Last(run).nodes[j].commitIndex < |Last(run).nodes[i].log|
    ensures Continues(run, steps, more, moves) && Among(Last(run).nodes, Last(more).nodes, i, todo)
    ensures forall j :: j in todo ==> Caught(Last(more).nodes, i, j)
    decreases |todo|
  {
    if todo == {} {
      more, moves := run, steps;
    } else {
      var j :| j in todo;
      var rest := todo - {j};
      var run', steps' := Replicate(run, steps, i, j);
      var s, t := Last(run).nodes, Last(run').nodes;
      forall k | k in rest
        ensures Ready(Last(run'), i, k) && t[i].nextIndex[k] < |t[i].log| && t[k].commitIndex < |t[i].log|
      {
        assert Ready(Last(run), i, k) && t[k] == s[k];
      }
      more, moves := ReplicateAll(run', steps', i, rest);
      AmongOne(s, t, Last(more).nodes, i, j, rest);
      assert rest + {j} == todo;
      CaughtStays(t, Last(more).nodes, i, rest, j);
    }
  }

  // ----- commitment -----

  lemma {:induction false} AtLeastHolders(n: Node, k: nat, upTo: nat, q: set<nat>)
    requires forall v :: v in q ==> v < upTo && v != n.me && v < |n.matchIndex| && n.matchIndex[v] >= k
    ensures Holders(n, k, upTo) >= 1 + |q|
  {
    if upTo == 0 {
      assert q == {};
    } else {
      AtLeastHolders(n, k, upTo - 1, q - {upTo - 1});
    }
  }

  /** The leader's last entry is of its own term, and the majority `others` together with the leader is in step. */
  ghost predicate Agreed(s: seq<Node>, i: nat, others: set<nat>) {
    && i < |s| && i !in others && others != {} && 1 + |others| > |s| / 2
    && s[i].me == i && s[i].peers == |s| && s[i].role == Leader
    && s[i].log != [] && LastTerm(s[i].log) == s[i].term && s[i].commitIndex < |s[i].log|
    && (forall j :: j in others ==> Caught(s, i, j))
  }

  lemma LastMayCommit(s: seq<Node>, i: nat, others: set<nat>)
    requires Agreed(s, i, others)
    ensures Commits(s[i], |s[i].log| - 1)
  {
    forall v | v in others
      ensures v < s[i].peers && v != i && v < |s[i].matchIndex| && s[i].matchIndex[v] >= |s[i].log| - 1
    {
      assert Caught(s, i, v);
    }
    AtLeastHolders(s[i], |s[i].log| - 1, s[i].peers, others);
  }

  lemma AgreedStays(s: seq<Node>, t: seq<Node>, i: nat, j: nat, others: set<nat>)
    requires Agreed(s, i, others) && j in others && Between(s, t, i, j) && Caught(t, i, j)
    ensures Agreed(t, i, others)
  {
    forall k | k in others ensures Caught(t, i, k) {
      assert Caught(s, i, k);
    }
  }

  /** A follower in step accepts a heartbeat and learns of the leader's commit index. */
  lemma BeatAccepted(s: Sys, i: nat, j: nat)
    requires LogInv(s) && Caught(s.nodes, i, j) && i != j && s.nodes[i].role == Leader
    requires s.nodes[i].commitIndex < |s.nodes[i].log|
    ensures Ready(s, i, j)
    ensures var t := Exchanged(s, i, j);
            && Caught(t, i, j)
            && (s.nodes[i].commitIndex + 1 == |s.nodes[i].log| ==> t[j].commitIndex == s.nodes[i].commitIndex)
  {
    LeaderSide(s, i, j);
    Accepts(s, i, j);
  }

  lemma BeatNodes(s: Sys, i: nat, j: nat, others: set<nat>)
    requires LogInv(s) && Agreed(s.nodes, i, others) && j in others
    ensures Ready(s, i, j) && Agreed(Exchanged(s, i, j), i, others) && Between(s.nodes, Exchanged(s, i, j), i, j)
    ensures var n, m := s.nodes, Exchanged(s, i, j);
            && (n[i].commitIndex + 1 < |n[i].log| ==> n[i].commitIndex < m[i].commitIndex)
            && (n[i].commitIndex + 1 == |n[i].log| ==> m[j].commitIndex == n[i].commitIndex)
  {
    assert Caught(s.nodes, i, j);
    BeatAccepted(s, i, j);
    LeaderSide(s, i, j);
    AgreedStays(s.nodes, Exchanged(s, i, j), i, j, others);
    LastMayCommit(Exchanged(s, i, j), i, others);
  }

  /** A heartbeat to a follower in step. */
  lemma Heartbeat(run: seq<Sys>, steps: seq<Step>, i: nat, j: nat, others: set<nat>)
      returns (more: seq<Sys>, moves: seq<Step>)
    requires Proper(run, steps) && Agreed(Last(run).nodes, i, others) && j in others
    ensures Continues(run, steps, more, moves) && Between(Last(run).nodes, Last(more).nodes, i, j)
    ensures Agreed(Last(more).nodes, i, others)
    ensures var n, m := Last(run).nodes, Last(more).nodes;
            && (n[i].commitIndex + 1 < |n[i].log| ==> n[i].commitIndex < m[i].commitIndex)
            && (n[i].commitIndex + 1 == |n[i].log| ==> m[j].commitIndex == n[i].commitIndex)
  {
    ProperInv(run, steps, |run| - 1);
    BeatNodes(Last(run), i, j, others);
    more, moves := ExchangeRun(run, steps, i, j);
  }

  /** Answers to heartbeats move the leader's commit index to the end of its log. */
  lemma {:induction false} LeaderCommits(run: seq<Sys>, steps: seq<Step>, i: nat, j: nat, others: set<nat>)
      returns (more: seq<Sys>, moves: seq<Step>)
    requires Proper(run, steps) && Agreed(Last(run).nodes, i, others) && j in others
    ensures Continues(run, steps, more, moves) && Agreed(Last(more).nodes, i, others)
    ensures var n, m := Last(run).nodes[i], Last(more).nodes[i];
            m.log == n.log && m.term == n.term && m.commitIndex == |m.log| - 1
    decreases |Last(run).nodes[i].log| - Last(run).nodes[i].commitIndex
  {
    var n := Last(run).nodes[i];
    if n.commitIndex + 1 == |n.log| {
      more, moves := run, steps;
    } else {
      var run', steps' := Heartbeat(run, steps, i, j, others);
      more, moves := LeaderCommits(run', steps', i, j, others);
    }
  }

  /** Further heartbeats tell the followers. */
  lemma {:induction false} FollowersCommit(run: seq<Sys>, steps: seq<Step>, i: nat, todo: set<nat>, others: set<nat>)
      returns (more: seq<Sys>, moves: seq<Step>)
    requires Proper(run, steps) && Agreed(Last(run).nodes, i, others) && todo <= others
    requires var n := Last(run).nodes[i]; n.commitIndex == |n.log| - 1
    requires forall j :: j in others - todo ==> Last(run).nodes[j].commitIndex == Last(run).nodes[i].commitIndex
    ensures Continues(run, steps, more, moves) && Agreed(Last(more).nodes, i, others)
    ensures var n, m := Last(run).nodes[i], Last(more).nodes[i];
            m.log == n.log && m.term == n.term && m.commitIndex == |m.log| - 1
    ensures forall j :: j in others ==> Last(more).nodes[j].commitIndex == Last(more).nodes[i].commitIndex
    decreases |todo|
  {
    if todo == {} {
      more, moves := run, steps;
      assert others - todo == others;
    } else {
      var j :| j in todo;
      var run', steps' := Heartbeat(run, steps, i, j, others);
      var n, m := Last(run).nodes, Last(run').nodes;
      forall k | k in others - (todo - {j}) ensures m[k].commitIndex == m[i].commitIndex {
        if k != j {
          assert k in others - todo && Caught(n, i, k) && m[k] == n[k];
        }
      }
      more, moves := FollowersCommit(run', steps', i, todo - {j}, others);
    }
  }

  // ----- what holds of leaders in every run -----

  /** All logs start with the dummy entry. */
  ghost predicate Bottom(s: Sys) {
    && (forall i :: 0 <= i < |s.nodes| ==> s.nodes[i].log != [] && s.nodes[i].log[0] == DUMMY)
    && (forall t :: t in s.hist ==> s.hist[t] != [] && s.hist[t][0] == DUMMY)
  }

  lemma OneNodeBottom(s: Sys, t: Sys, i: nat)
    requires Bottom(s) && i < |s.nodes| && |t.nodes| == |s.nodes| && t.nodes == s.nodes[i := t.nodes[i]]
    requires t.nodes[i].log != [] && t.nodes[i].log[0] == DUMMY
    requires t.hist == s.hist || t.hist == s.hist[t.nodes[i].term := t.nodes[i].log]
    ensures Bottom(t)
  {
  }

  lemma DeliverBottom(s: Sys, m: Append)
    requires LogInv(s) && Bottom(s) && Enabled(s, Deliver(m))
    ensures Bottom(Next(s, Deliver(m)))
  {
    DeliveredLog(s, m);
    OneNodeBottom(s, Next(s, Deliver(m)), m.dest);
  }

  lemma BottomStep(s: Sys, e: Step)
    requires LogInv(s) && Bottom(s) && Enabled(s, e)
    ensures Bottom(Next(s, e))
  {
    match e
    case Deliver(m) => DeliverBottom(s, m);
    case Reply(x) => OneNodeBottom(s, Next(s, e), x.append.args.leader);
    case Send(_, _) =>
    case _ => OneNodeBottom(s, Next(s, e), e.i);
  }

  lemma {:induction false} BottomInv(run: seq<Sys>, steps: seq<Step>, p: nat)
    requires Proper(run, steps) && p < |run|
    ensures Bottom(run[p])
  {
    if p > 0 {
      var k := p - 1;
      BottomInv(run, steps, k);
      ProperStep(run, steps, k);
      BottomStep(run[k], steps[k]);
    }
  }

  /** A leader has an entry for every peer in its tables, and none that points past its log. */
  ghost predicate TablesAt(s: Sys, i: nat)
    requires i < |s.nodes|
  {
    var n := s.nodes[i];
    n.role == Leader ==>
      |n.nextIndex| == |n.matchIndex| == |s.nodes| && forall j :: 0 <= j < |s.nodes| ==> n.nextIndex[j] <= |n.log|
  }

  ghost predicate Tables(s: Sys) {
    forall i: nat :: i < |s.nodes| ==> TablesAt(s, i)
  }

  lemma ReplyPlaces(s: Sys, x: Answer)
    requires LogInv(s) && AnswersSent(s) && Enabled(s, Reply(x)) && InTerm(s, Reply(x)) && TablesAt(s, x.append.args.leader)
    ensures |Next(s, Reply(x)).nodes| == |s.nodes| && TablesAt(Next(s, Reply(x)), x.append.args.leader)
  {
    var a := x.append.args;
    RepliesToLeader(s, x);
    assert Snapshot(s, x.append);
    ReplyTables(s.nodes[a.leader], x.append.dest, a, x.reply, a.entries == []);
  }

  lemma OtherPlaces(s: Sys, e: Step, i: nat)
    requires LogInv(s) && Enabled(s, e) && i < |s.nodes| && TablesAt(s, i)
    requires !(e.Reply? && e.x.append.args.leader == i)
    ensures i < |Next(s, e).nodes| == |s.nodes| && TablesAt(Next(s, e), i)
  {
    if e.Deliver? && e.m.dest == i && e.m.args.term >= s.nodes[i].term {
      DeliveredToFollower(s, e.m);
    }
  }

  lemma {:induction false} TablesInv(run: seq<Sys>, steps: seq<Step>, p: nat)
    requires Careful(run, steps) && p < |run|
    ensures Tables(run[p])
  {
    if p > 0 {
      var k := p - 1;
      TablesInv(run, steps, k);
      MatchInv(run, steps, k);
      ProperStep(run, steps, k);
      assert InTermAt(run, steps, k);
      RecordsGrow(run, steps, k);
      forall i: nat | i < |run[p].nodes| ensures TablesAt(run[p], i) {
        var e := steps[k];
        if e.Reply? && e.x.append.args.leader == i {
          ReplyPlaces(run[k], e.x);
        } else {
          OtherPlaces(run[k], e, i);
        }
      }
    }
  }

  /** Nobody that a leader can talk to has committed more than is in the leader's log. */
  lemma CommittedWithin(run: seq<Sys>, steps: seq<Step>, p: nat, i: nat, j: nat)
    requires Careful(run, steps) && p < |run| && i < |run[p].nodes| && j < |run[p].nodes|
    requires run[p].nodes[i].role == Leader && run[p].nodes[j].term <= run[p].nodes[i].term
    ensures run[p].nodes[j].commitIndex < |run[p].nodes[i].log|
  {
    CommitInv(run, steps, p);
    ProperInv(run, steps, p);
    var n := run[p].nodes[j];
    assert Covered(run[p], n.log, n.commitIndex, n.term);
    if n.commitIndex != 0 {
      CommittedIsThere(run, steps, p, n.log, n.commitIndex, n.term, run[p].nodes[i].term);
    }
  }

  // ----- commands get through -----

  lemma PutReady(run: seq<Sys>, steps: seq<Step>, i: nat, c: Command, j: nat)
    requires Careful(run, steps) && i < |Last(run).nodes| && Last(run).nodes[i].role == Leader
    requires j < |Last(run).nodes| && j != i && Last(run).nodes[j].term <= Last(run).nodes[i].term
    requires Shape(Last(run))
    ensures var t := Next(Last(run), PutCmd(i, c));
            && Ready(t, i, j) && t.nodes[i].nextIndex[j] < |t.nodes[i].log| && t.nodes[j].commitIndex < |t.nodes[i].log|
  {
    var p := |run| - 1;
    ProperInv(run, steps, p);
    BottomInv(run, steps, p);
    TablesInv(run, steps, p);
    assert TablesAt(run[p], i) && AfterDummy(run[p].nodes[i]);
    CommittedWithin(run, steps, p, i, j);
  }

  lemma PutAll(run: seq<Sys>, steps: seq<Step>, i: nat, c: Command, others: set<nat>)
      returns (more: seq<Sys>, moves: seq<Step>)
    requires Careful(run, steps) && i < |Last(run).nodes| && Last(run).nodes[i].role == Leader
    requires i !in others && others != {} && 1 + |others| > |Last(run).nodes| / 2
    requires forall j :: j in others ==> j < |Last(run).nodes| && Last(run).nodes[j].term <= Last(run).nodes[i].term
    ensures Continues(run, steps, more, moves) && Agreed(Last(more).nodes, i, others)
    ensures var n, m := Last(run).nodes[i], Last(more).nodes[i]; m.term == n.term && m.log == n.log + [Entry(n.term, c)]
  {
    var p := |run| - 1;
    var s := Last(run);
    ProperInv(run, steps, p);
    TablesInv(run, steps, p);
    assert TablesAt(run[p], i);
    CommittedWithin(run, steps, p, i, i);
    var t := Next(s, PutCmd(i, c));
    OneStep(run, steps, PutCmd(i, c), t);
    forall j | j in others
      ensures Ready(t, i, j) && t.nodes[i].nextIndex[j] < |t.nodes[i].log| && t.nodes[j].commitIndex < |t.nodes[i].log|
    {
      PutReady(run, steps, i, c, j);
    }
    more, moves := ReplicateAll(run + [t], steps + [PutCmd(i, c)], i, others);
  }

  /**
   In every careful run: as long as a majority has seen no later term than the leader's, any command that the
   leader takes can be brought into the logs of all of them, with everything before it, and be committed there.
   */
  lemma CanCommit(run: seq<Sys>, steps: seq<Step>, i: nat, c: Command, others: set<nat>)
      returns (more: seq<Sys>, moves: seq<Step>)
    requires Careful(run, steps) && i < |Last(run).nodes| && Last(run).nodes[i].role == Leader
    requires i !in others && others != {} && 1 + |others| > |Last(run).nodes| / 2
    requires forall j :: j in others ==> j < |Last(run).nodes| && Last(run).nodes[j].term <= Last(run).nodes[i].term
    ensures Continues(run, steps, more, moves)
    ensures var n, t := Last(run).nodes[i], Last(more).nodes;
            && i < |t| && t[i].log == n.log + [Entry(n.term, c)] && t[i].commitIndex == |n.log|
            && forall j :: j in others ==> j < |t| && t[j].log == t[i].log && t[j].commitIndex == |n.log|
  {
    var run1, steps1 := PutAll(run, steps, i, c, others);
    var j :| j in others;
    var run2, steps2 := LeaderCommits(run1, steps1, i, j, others);
    more, moves := FollowersCommit(run2, steps2, i, others, others);
    forall k | k in others ensures k < |Last(more).nodes| && Last(more).nodes[k].log == Last(more).nodes[i].log {
      assert Caught(Last(more).nodes, i, k);
    }
  }

  /** A peer that is alone never commits anything, since only answers move the commit index. */
  lemma {:induction false} AloneNeverCommits(run: seq<Sys>, steps: seq<Step>, p: nat)
    requires IsRun(run, steps) && p < |run| && |run[0].nodes| == 1
    ensures |run[p].nodes| == 1 && run[p].appends == {} && run[p].answers == {} && run[p].nodes[0].commitIndex == 0
  {
    if p > 0 {
      var k := p - 1;
      AloneNeverCommits(run, steps, k);
      ShapeAlong(run, steps, k);
      assert StepAt(run, steps, k);
    }
  }
}
