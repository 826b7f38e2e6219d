/**
 State Machine Safety (section 5.4 of the extended Raft paper), for the runs that have Leader Completeness and in
 which replies are processed in the term of the message they answer.
 */
module RaftCommit {
  import opened RaftPeer
  import opened RaftSystem
  import opened RaftElection
  import opened RaftLog
  import opened RaftVotes
  import opened RaftTime
  import opened RaftComplete

  /** When a reply is processed, the peer is still in the term of the message. */
  ghost predicate InTerm(s: Sys, e: Step)
    requires Enabled(s, e)
  {
    e.Reply? ==> s.nodes[e.x.append.args.leader].term == e.x.append.args.term
  }

  ghost predicate InTermAt(run: seq<Sys>, steps: seq<Step>, i: nat) {
    StepAt(run, steps, i) && InTerm(run[i], steps[i])
  }

  ghost predicate Careful(run: seq<Sys>, steps: seq<Step>) {
    Fair(run, steps) && forall i: nat :: i < |steps| ==> InTermAt(run, steps, i)
  }

  // ----- what a leader knows of its followers -----

  ghost predicate MatchAt(s: Sys, i: nat, j: nat)
    requires i < |s.nodes| && j < |s.nodes[i].matchIndex|
  {
    var k := s.nodes[i].matchIndex[j];
    k > 0 ==> Accepted(s, j, s.nodes[i].term, k)
  }

  /** What a leader takes its followers to hold, they have accepted in its term. */
  ghost predicate MatchTrue(s: Sys) {
    forall i: nat, j: nat :: i < |s.nodes| && s.nodes[i].role == Leader && j < |s.nodes[i].matchIndex| ==> MatchAt(s, i, j)
  }

  /** Only messages that were sent are answered. */
  ghost predicate AnswersSent(s: Sys) {
    forall x :: x in s.answers ==> x.append in s.appends
  }

  lemma AcceptedMore(s: Sys, t: Sys, v: nat, term: nat, k: nat, l: nat)
    requires Accepted(s, v, term, k) && s.answers <= t.answers && l <= k
    ensures Accepted(t, v, term, l)
  {
    var x :| x in s.answers && x.reply.success && x.append.dest == v && x.append.args.term == term &&
             k <= Reach(x.append.args);
    assert x in t.answers;
  }

  /** A leader that neither takes over nor processes a reply was one before, with the same knowledge. */
  lemma LeaderKept(s: Sys, e: Step, i: nat)
    requires Shape(s) && Enabled(s, e) && i < |s.nodes| && i < |Next(s, e).nodes| && Next(s, e).nodes[i].role == Leader
    requires !(e.HandOver? && e.i == i) && !(e.Reply? && e.x.append.args.leader == i)
    ensures var n, m := s.nodes[i], Next(s, e).nodes[i];
            n.role == Leader && n.term == m.term && n.matchIndex == m.matchIndex
  {
  }

  lemma ReplyMatches(s: Sys, x: Answer, j: nat)
    requires Shape(s) && Enabled(s, Reply(x)) && InTerm(s, Reply(x))
    requires MatchTrue(s) && Next(s, Reply(x)).nodes[x.append.args.leader].role == Leader
    requires j < |Next(s, Reply(x)).nodes[x.append.args.leader].matchIndex|
    ensures MatchAt(Next(s, Reply(x)), x.append.args.leader, j)
  {
    var i, t := x.append.args.leader, Next(s, Reply(x));
    if x.reply.success && j == x.append.dest {
      assert Accepted(s, j, s.nodes[i].term, Reach(x.append.args));
      AcceptedMore(s, t, j, s.nodes[i].term, Reach(x.append.args), Reach(x.append.args));
    } else {
      assert MatchAt(s, i, j);
      if t.nodes[i].matchIndex[j] > 0 {
        AcceptedMore(s, t, j, s.nodes[i].term, s.nodes[i].matchIndex[j], s.nodes[i].matchIndex[j]);
      }
    }
  }

  lemma OtherMatches(s: Sys, e: Step, i: nat, j: nat)
    requires Shape(s) && Enabled(s, e) && MatchTrue(s) && i < |s.nodes| && i < |Next(s, e).nodes|
    requires Next(s, e).nodes[i].role == Leader && j < |Next(s, e).nodes[i].matchIndex|
    requires !(e.Reply? && e.x.append.args.leader == i)
    ensures MatchAt(Next(s, e), i, j)
  {
    if !(e.HandOver? && e.i == i) {
      LeaderKept(s, e, i);
      assert MatchAt(s, i, j);
      if s.nodes[i].matchIndex[j] > 0 {
        AcceptedMore(s, Next(s, e), j, s.nodes[i].term, s.nodes[i].matchIndex[j], s.nodes[i].matchIndex[j]);
      }
    }
  }

  lemma MatchStep(s: Sys, e: Step)
    requires Shape(s) && Enabled(s, e) && InTerm(s, e) && MatchTrue(s) && AnswersSent(s)
    ensures MatchTrue(Next(s, e)) && AnswersSent(Next(s, e))
  {
    var t := Next(s, e);
    ShapeStep(s, e);
    forall i: nat, j: nat | i < |t.nodes| && t.nodes[i].role == Leader && j < |t.nodes[i].matchIndex|
      ensures MatchAt(t, i, j)
    {
      if e.Reply? && e.x.append.args.leader == i {
        ReplyMatches(s, e.x, j);
      } else {
        OtherMatches(s, e, i, j);
      }
    }
  }

  lemma {:induction false} MatchInv(run: seq<Sys>, steps: seq<Step>, p: nat)
    requires Careful(run, steps) && p < |run|
    ensures MatchTrue(run[p]) && AnswersSent(run[p])
  {
    if p > 0 {
      var k := p - 1;
      MatchInv(run, steps, k);
      ProperStep(run, steps, k);
      assert InTermAt(run, steps, k);
      MatchStep(run[k], steps[k]);
    }
  }

  // ----- a leader commits -----

  /** The peers that a count stands for. */
  lemma {:induction false} WhoHolds(n: Node, k: nat, upTo: nat) returns (q: set<nat>)
    ensures |q| == Holders(n, k, upTo) && n.me in q
    ensures forall v :: v in q && v != n.me ==> v < upTo && v < |n.matchIndex| && n.matchIndex[v] >= k
  {
    if upTo == 0 {
      q := {n.me};
    } else {
      var v := upTo - 1;
      q := WhoHolds(n, k, v);
      if v != n.me && v < |n.matchIndex| && n.matchIndex[v] >= k {
        assert v !in q;
        q := q + {v};
      }
    }
  }

  /** The search for the next entry to commit finds the first one there is. */
  lemma {:induction false} FirstCommit(n: Node, k: nat)
    requires k <= |n.log|
    ensures k <= NextCommit(n, k) <= |n.log|
    ensures NextCommit(n, k) < |n.log| ==> Commits(n, NextCommit(n, k))
    ensures forall j :: k <= j < NextCommit(n, k) ==> !Commits(n, j)
    decreases |n.log| - k
  {
    if k < |n.log| && !Commits(n, k) {
      FirstCommit(n, k + 1);
    }
  }

  /** What a leader commits, a majority has accepted from it. */
  lemma CommitsIsCommitted(s: Sys, i: nat, k: nat)
    requires LogInv(s) && MatchTrue(s) && i < |s.nodes| && s.nodes[i].role == Leader
    requires 0 < k < |s.nodes[i].log| && Commits(s.nodes[i], k)
    ensures Committed(s, s.nodes[i].term, k) && s.hist[s.nodes[i].term] == s.nodes[i].log
  {
    var n := s.nodes[i];
    var q := WhoHolds(n, k, n.peers);
    assert Campaign(i, n.term) in s.leaders && Campaign(i, n.term) in s.started;
    forall v | v in q ensures HeldBy(s, v, n.term, k) {
      if v != i {
        assert MatchAt(s, i, v);
        AcceptedMore(s, s, v, n.term, n.matchIndex[v], k);
      }
    }
    assert Quorum(s, q, n.term, k);
  }

  // ----- what commit indexes stand for -----

  ghost predicate Cover(s: Sys, log: seq<Entry>, c: nat, limit: nat, term: nat, k: nat) {
    && term <= limit && Committed(s, term, k) && c <= k
    && c < |log| && log[..c + 1] == s.hist[term][..c + 1]
  }

  /** The log up to index `c` is the beginning of something committed in a term up to `limit`. */
  ghost predicate Covered(s: Sys, log: seq<Entry>, c: nat, limit: nat) {
    c < |log| && (c == 0 || exists term: nat, k: nat :: Cover(s, log, c, limit, term, k))
  }

  ghost predicate CommitsTrue(s: Sys) {
    forall i: nat :: i < |s.nodes| ==> Covered(s, s.nodes[i].log, s.nodes[i].commitIndex, s.nodes[i].term)
  }

  ghost predicate MessageTrue(s: Sys, m: Append) {
    m.args.term in s.hist && Covered(s, s.hist[m.args.term], m.args.leaderCommit, m.args.term)
  }

  ghost predicate MessagesTrue(s: Sys) {
    forall m :: m in s.appends ==> MessageTrue(s, m)
  }

  /** History that only grows. */
  ghost predicate Later(s: Sys, t: Sys) {
    Grows(s.hist, t.hist) && s.leaders <= t.leaders && s.answers <= t.answers && |s.nodes| == |t.nodes|
  }

  lemma CommittedLater(s: Sys, t: Sys, term: nat, k: nat)
    requires Later(s, t) && Committed(s, term, k)
    ensures Committed(t, term, k) && t.hist[term][..k + 1] == s.hist[term][..k + 1]
  {
    assert s.hist[term] <= t.hist[term];
    var q :| Quorum(s, q, term, k);
    forall v | v in q ensures HeldBy(t, v, term, k) {
      assert HeldBy(s, v, term, k);
      if Accepted(s, v, term, k) {
        AcceptedMore(s, t, v, term, k, k);
      }
    }
    assert Quorum(t, q, term, k);
    assert t.hist[term][k] == s.hist[term][k];
  }

  lemma CoveredLater(s: Sys, t: Sys, log: seq<Entry>, more: seq<Entry>, c: nat, d: nat, limit: nat, limit': nat)
    requires Later(s, t) && Covered(s, log, c, limit) && limit <= limit' && d <= c && d < |more|
    requires log[..d + 1] == more[..d + 1]
    ensures Covered(t, more, d, limit')
  {
    if d != 0 {
      var term: nat, k: nat :| Cover(s, log, c, limit, term, k);
      CommittedLater(s, t, term, k);
      assert more[..d + 1] == log[..c + 1][..d + 1] == s.hist[term][..d + 1];
      assert t.hist[term][..k + 1][..d + 1] == s.hist[term][..k + 1][..d + 1];
      assert t.hist[term][..k + 1][..d + 1] == t.hist[term][..d + 1];
      assert s.hist[term][..k + 1][..d + 1] == s.hist[term][..d + 1];
      assert Cover(t, more, d, limit', term, k);
    }
  }

  lemma LaterAt(run: seq<Sys>, steps: seq<Step>, p: nat)
    requires Proper(run, steps) && p < |steps|
    ensures Later(run[p], run[p + 1])
  {
    HistStepAt(run, steps, p);
    RecordsGrow(run, steps, p);
  }

  lemma {:induction false} LaterAlong(run: seq<Sys>, steps: seq<Step>, p: nat, q: nat)
    requires Proper(run, steps) && p <= q < |run|
    ensures Later(run[p], run[q])
    decreases q
  {
    if p < q {
      var k := q - 1;
      LaterAlong(run, steps, p, k);
      LaterAt(run, steps, k);
      GrowsFurther(run[p].hist, run[k].hist, run[q].hist);
    }
  }

  // ----- a reply -----

  lemma {:induction false} SameHolders(n: Node, c: nat, k: nat, upTo: nat)
    ensures Holders(n.(commitIndex := c), k, upTo) == Holders(n, k, upTo)
  {
    if upTo > 0 {
      SameHolders(n, c, k, upTo - 1);
    }
  }

  /** The commit index stays, or goes up to an entry that may be committed by what is then known. */
  lemma ReplyCommits(n: Node, server: nat, a: AppendArgs, reply: AppendReply, heartbeat: bool)
    requires server < |n.nextIndex| && server < |n.matchIndex|
    ensures var m := OnAppendReply(n, server, a, reply, heartbeat);
            && m.log == n.log && m.role == n.role && m.term == n.term
            && (m.commitIndex == n.commitIndex ||
                (n.commitIndex < m.commitIndex < |m.log| && Commits(m, m.commitIndex)))
  {
    var r := Replicated(n, server, a, reply, heartbeat);
    if r.commitIndex + 1 < |r.log| {
      FirstCommit(r, r.commitIndex + 1);
      var k := NextCommit(r, r.commitIndex + 1);
      SameHolders(r, k, k, r.peers);
    }
  }

  /** Who processes a reply in the term of the message leads it. */
  lemma RepliesToLeader(s: Sys, x: Answer)
    requires LogInv(s) && AnswersSent(s) && Enabled(s, Reply(x)) && InTerm(s, Reply(x))
    ensures s.nodes[x.append.args.leader].role == Leader
  {
    assert Snapshot(s, x.append);
  }

  lemma ReplyCovered(s: Sys, x: Answer, t: Sys)
    requires LogInv(s) && LogInv(t) && AnswersSent(s) && MatchTrue(t) && Enabled(s, Reply(x)) && InTerm(s, Reply(x))
    requires t == Next(s, Reply(x)) && Later(s, t) && CommitsTrue(s)
    ensures var m := t.nodes[x.append.args.leader]; Covered(t, m.log, m.commitIndex, m.term)
  {
    var i, a := x.append.args.leader, x.append.args;
    var n, m := s.nodes[i], t.nodes[i];
    ReplyCommits(n, x.append.dest, a, x.reply, a.entries == []);
    assert Covered(s, n.log, n.commitIndex, n.term);
    if m.commitIndex == n.commitIndex {
      CoveredLater(s, t, n.log, m.log, n.commitIndex, n.commitIndex, n.term, m.term);
    } else {
      RepliesToLeader(s, x);
      CommitsIsCommitted(t, i, m.commitIndex);
      assert Cover(t, m.log, m.commitIndex, m.term, m.term, m.commitIndex);
    }
  }

  // ----- a message -----

  /** What a peer has committed is in the log of every leader it hears from. */
  lemma CommittedIsThere(run: seq<Sys>, steps: seq<Step>, p: nat, log: seq<Entry>, c: nat, limit: nat, w: nat)
    requires Fair(run, steps) && p < |run| && Covered(run[p], log, c, limit) && limit <= w && w in run[p].hist
    requires c != 0
    ensures log[..c + 1] <= run[p].hist[w]
  {
    var term: nat, k: nat :| Cover(run[p], log, c, limit, term, k);
    if term < w {
      LeaderCompleteness(run, steps, p, term, k, w);
      assert run[p].hist[term][..c + 1] == run[p].hist[term][..k + 1][..c + 1];
    }
  }

  /** The commit index of an accepted message's receiver goes up at most to that of the sender. */
  lemma OnAppendCommit(n: Node, a: AppendArgs)
    requires AppendAnswer(n, a).success && n.commitIndex < |OnAppend(n, a).log|
    ensures var m := OnAppend(n, a);
            && m.term == a.term && n.commitIndex <= m.commitIndex < |m.log|
            && (m.commitIndex == n.commitIndex || m.commitIndex <= a.leaderCommit)
  {
  }

  /** A log that keeps what was committed and is the beginning of a leader's covers what is committed now. */
  lemma EitherCovers(s: Sys, t: Sys, log: seq<Entry>, c: nat, term: nat,
                     whole: seq<Entry>, leaderCommit: nat, w: nat, after: seq<Entry>, d: nat)
    requires Later(s, t) && Covered(s, log, c, term) && Covered(s, whole, leaderCommit, w) && term <= w
    requires c <= d < |after| && (d == c || d <= leaderCommit) && after <= whole
    requires c != 0 ==> after[..c + 1] == log[..c + 1]
    ensures Covered(t, after, d, w)
  {
    if d == c && c != 0 {
      CoveredLater(s, t, log, after, c, c, term, w);
    } else if d != c {
      assert whole[..d + 1] == after[..d + 1];
      CoveredLater(s, t, whole, after, leaderCommit, d, w, w);
    }
  }

  lemma AcceptedNode(s: Sys, m: Append)
    requires LogInv(s) && Enabled(s, Deliver(m)) && AppendAnswer(s.nodes[m.dest], m.args).success
    requires s.nodes[m.dest].commitIndex < |Next(s, Deliver(m)).nodes[m.dest].log|
    ensures m.args.term in s.hist && s.nodes[m.dest].term <= m.args.term
    ensures var n, after := s.nodes[m.dest], Next(s, Deliver(m)).nodes[m.dest];
            && after.term == m.args.term && after.log <= s.hist[m.args.term]
            && n.commitIndex <= after.commitIndex < |after.log|
            && (after.commitIndex == n.commitIndex || after.commitIndex <= m.args.leaderCommit)
  {
    AcceptedLog(s, m);
    OnAppendCommit(s.nodes[m.dest], m.args);
  }

  lemma AcceptedNodeAt(run: seq<Sys>, steps: seq<Step>, p: nat, m: Append)
    requires Proper(run, steps) && p < |steps| && steps[p] == Deliver(m) && m.dest < |run[p].nodes| == |run[p + 1].nodes|
    requires AppendAnswer(run[p].nodes[m.dest], m.args).success
    requires run[p].nodes[m.dest].commitIndex < |run[p + 1].nodes[m.dest].log|
    ensures m in run[p].appends && m.args.term in run[p].hist && run[p].nodes[m.dest].term <= m.args.term
    ensures var n, after := run[p].nodes[m.dest], run[p + 1].nodes[m.dest];
            && after.term == m.args.term && after.log <= run[p].hist[m.args.term]
            && n.commitIndex <= after.commitIndex < |after.log|
            && (after.commitIndex == n.commitIndex || after.commitIndex <= m.args.leaderCommit)
  {
    ProperStep(run, steps, p);
    AcceptedNode(run[p], m);
  }

  lemma AcceptKeepsCommitted(run: seq<Sys>, steps: seq<Step>, p: nat, m: Append)
    requires Fair(run, steps) && p < |steps| && steps[p] == Deliver(m) && CommitsTrue(run[p])
    requires m.dest < |run[p].nodes| && AppendAnswer(run[p].nodes[m.dest], m.args).success
    requires m.dest < |run[p + 1].nodes| && run[p + 1].nodes[m.dest].log != []
    ensures var n, l := run[p].nodes[m.dest], run[p + 1].nodes[m.dest].log;
            && n.commitIndex < |l| && n.commitIndex < |n.log|
            && (n.commitIndex != 0 ==> l[..n.commitIndex + 1] == n.log[..n.commitIndex + 1])
  {
    var n := run[p].nodes[m.dest];
    assert Covered(run[p], n.log, n.commitIndex, n.term);
    if n.commitIndex != 0 {
      var es := n.log[..n.commitIndex + 1];
      RecordsGrow(run, steps, p);
      AcceptedAt(run, steps, p, m.dest);
      TermsRise(run, steps, p, p + 1, m.dest);
      var w := run[p + 1].nodes[m.dest].term;
      CommittedIsThere(run, steps, p, n.log, n.commitIndex, n.term, w);
      KeptAt(run, steps, p, m.dest, es, run[p].hist[w]);
    }
  }

  lemma DeliverCovered(run: seq<Sys>, steps: seq<Step>, p: nat, m: Append)
    requires Fair(run, steps) && p < |steps| && steps[p] == Deliver(m) && CommitsTrue(run[p]) && MessagesTrue(run[p])
    requires m.dest < |run[p].nodes| && AppendAnswer(run[p].nodes[m.dest], m.args).success
    ensures m.dest < |run[p + 1].nodes|
    ensures var n := run[p + 1].nodes[m.dest]; Covered(run[p + 1], n.log, n.commitIndex, n.term)
  {
    ShapeAlong(run, steps, p);
    ShapeAlong(run, steps, p + 1);
    AcceptKeepsCommitted(run, steps, p, m);
    LaterAt(run, steps, p);
    AcceptedNodeAt(run, steps, p, m);
    var n := run[p].nodes[m.dest];
    assert Covered(run[p], n.log, n.commitIndex, n.term) && MessageTrue(run[p], m);
    var after, w := run[p + 1].nodes[m.dest], m.args.term;
    EitherCovers(run[p], run[p + 1], n.log, n.commitIndex, n.term,
                 run[p].hist[w], m.args.leaderCommit, w, after.log, after.commitIndex);
  }

  // ----- all steps -----

  lemma CommitKept(s: Sys, e: Step, i: nat)
    requires Shape(s) && Enabled(s, e) && i < |s.nodes|
    requires !(e.Deliver? && e.m.dest == i && AppendAnswer(s.nodes[i], e.m.args).success)
    requires !(e.Reply? && e.x.append.args.leader == i)
    ensures i < |Next(s, e).nodes| && Next(s, e).nodes[i].commitIndex == s.nodes[i].commitIndex
  {
  }

  lemma QuietCovered(run: seq<Sys>, steps: seq<Step>, p: nat, i: nat)
    requires Proper(run, steps) && p < |steps| && CommitsTrue(run[p]) && i < |run[p].nodes|
    requires var e := steps[p];
             && !(e.Deliver? && e.m.dest == i && AppendAnswer(run[p].nodes[i], e.m.args).success)
             && !(e.Reply? && e.x.append.args.leader == i)
    ensures i < |run[p + 1].nodes|
    ensures var n := run[p + 1].nodes[i]; Covered(run[p + 1], n.log, n.commitIndex, n.term)
  {
    LaterAt(run, steps, p);
    TermsRise(run, steps, p, p + 1, i);
    ProperStep(run, steps, p);
    KeptByOthers(run[p], steps[p], i);
    CommitKept(run[p], steps[p], i);
    var n, m := run[p].nodes[i], run[p + 1].nodes[i];
    assert Covered(run[p], n.log, n.commitIndex, n.term);
    CoveredLater(run[p], run[p + 1], n.log, m.log, n.commitIndex, n.commitIndex, n.term, m.term);
  }

  lemma ReplyCoveredAt(run: seq<Sys>, steps: seq<Step>, p: nat)
    requires Careful(run, steps) && p < |steps| && CommitsTrue(run[p]) && steps[p].Reply?
    ensures var i := steps[p].x.append.args.leader;
            i < |run[p + 1].nodes| && var n := run[p + 1].nodes[i]; Covered(run[p + 1], n.log, n.commitIndex, n.term)
  {
    MatchInv(run, steps, p);
    MatchInv(run, steps, p + 1);
    LaterAt(run, steps, p);
    ProperInv(run, steps, p + 1);
    ProperStep(run, steps, p);
    assert InTermAt(run, steps, p);
    ReplyCovered(run[p], steps[p].x, run[p + 1]);
  }

  lemma CommitsTrueAt(run: seq<Sys>, steps: seq<Step>, p: nat)
    requires Careful(run, steps) && p < |steps| && CommitsTrue(run[p]) && MessagesTrue(run[p])
    ensures CommitsTrue(run[p + 1])
  {
    RecordsGrow(run, steps, p);
    var t := run[p + 1];
    forall i: nat | i < |t.nodes| ensures Covered(t, t.nodes[i].log, t.nodes[i].commitIndex, t.nodes[i].term) {
      var e := steps[p];
      if e.Deliver? && e.m.dest == i && AppendAnswer(run[p].nodes[i], e.m.args).success {
        DeliverCovered(run, steps, p, e.m);
      } else if e.Reply? && e.x.append.args.leader == i {
        ReplyCoveredAt(run, steps, p);
      } else {
        QuietCovered(run, steps, p, i);
      }
    }
  }

  lemma SentCovered(s: Sys, t: Sys, e: Step, m: Append)
    requires LogInv(s) && Enabled(s, e) && StillLeads(s, e) && t == Next(s, e) && Later(s, t) && CommitsTrue(s)
    requires m in t.appends && m !in s.appends
    ensures MessageTrue(t, m)
  {
    var n := s.nodes[e.i];
    assert m.args.term == n.term && m.args.leaderCommit == n.commitIndex;
    assert Covered(s, n.log, n.commitIndex, n.term);
    CoveredLater(s, t, n.log, n.log, n.commitIndex, n.commitIndex, n.term, n.term);
  }

  lemma MessageLater(s: Sys, t: Sys, m: Append)
    requires Later(s, t) && MessageTrue(s, m)
    ensures MessageTrue(t, m)
  {
    var a := m.args;
    assert s.hist[a.term] <= t.hist[a.term];
    CoveredLater(s, t, s.hist[a.term], t.hist[a.term], a.leaderCommit, a.leaderCommit, a.term, a.term);
  }

  lemma MessagesTrueAt(run: seq<Sys>, steps: seq<Step>, p: nat)
    requires Proper(run, steps) && p < |steps| && CommitsTrue(run[p]) && MessagesTrue(run[p])
    ensures MessagesTrue(run[p + 1])
  {
    LaterAt(run, steps, p);
    ProperStep(run, steps, p);
    var t := run[p + 1];
    forall m | m in t.appends ensures MessageTrue(t, m) {
      if m in run[p].appends {
        MessageLater(run[p], t, m);
      } else {
        SentCovered(run[p], t, steps[p], m);
      }
    }
  }

  lemma {:induction false} CommitInv(run: seq<Sys>, steps: seq<Step>, p: nat)
    requires Careful(run, steps) && p < |run|
    ensures CommitsTrue(run[p]) && MessagesTrue(run[p])
  {
    if p > 0 {
      var k := p - 1;
      CommitInv(run, steps, k);
      CommitsTrueAt(run, steps, k);
      MessagesTrueAt(run, steps, k);
    }
  }

  // ----- State Machine Safety -----

  lemma CommittedPrefix(run: seq<Sys>, steps: seq<Step>, q: nat, a: seq<Entry>, c: nat, l: nat,
                        b: seq<Entry>, d: nat, m: nat, k: nat)
    requires Fair(run, steps) && q < |run| && 0 < k <= c && k <= d
    requires Covered(run[q], a, c, l) && Covered(run[q], b, d, m)
    ensures a[..k + 1] == b[..k + 1]
  {
    var term: nat, i: nat :| Cover(run[q], a, c, l, term, i);
    var later: nat, j: nat :| Cover(run[q], b, d, m, later, j);
    var hist := run[q].hist;
    assert a[..k + 1] == a[..c + 1][..k + 1] == hist[term][..c + 1][..k + 1] == hist[term][..k + 1];
    assert b[..k + 1] == b[..d + 1][..k + 1] == hist[later][..d + 1][..k + 1] == hist[later][..k + 1];
    if term < later {
      LeaderCompleteness(run, steps, q, term, i, later);
      assert hist[term][..i + 1][..k + 1] == hist[term][..k + 1];
    } else if later < term {
      LeaderCompleteness(run, steps, q, later, j, term);
      assert hist[later][..j + 1][..k + 1] == hist[later][..k + 1];
    }
  }

  /** Whatever any two peers have committed, at whatever times, is the same up to the last index both have. */
  lemma StateMachineSafety(run: seq<Sys>, steps: seq<Step>, p: nat, q: nat, i: nat, j: nat, k: nat)
    requires Careful(run, steps) && p <= q < |run| && i < |run[p].nodes| && j < |run[q].nodes|
    requires 0 < k <= run[p].nodes[i].commitIndex && k <= run[q].nodes[j].commitIndex
    ensures k < |run[p].nodes[i].log| && k < |run[q].nodes[j].log|
    ensures run[p].nodes[i].log[..k + 1] == run[q].nodes[j].log[..k + 1]
  {
    CommitInv(run, steps, p);
    CommitInv(run, steps, q);
    LaterAlong(run, steps, p, q);
    var n, m := run[p].nodes[i], run[q].nodes[j];
    assert Covered(run[p], n.log, n.commitIndex, n.term) && Covered(run[q], m.log, m.commitIndex, m.term);
    CoveredLater(run[p], run[q], n.log, n.log, n.commitIndex, n.commitIndex, n.term, n.term);
    CommittedPrefix(run, steps, q, n.log, n.commitIndex, n.term, m.log, m.commitIndex, m.term, k);
  }

  /** Leader `j`, in the term of peer `i` or a later one, does not have what peer `i` has committed up to index `k`. */
  ghost predicate Lacks(s: Sys, i: nat, t: Sys, j: nat, k: nat) {
    && i < |s.nodes| && j < |t.nodes| && t.nodes[j].role == Leader && s.nodes[i].term <= t.nodes[j].term
    && 0 < k <= s.nodes[i].commitIndex && k < |s.nodes[i].log| && !(s.nodes[i].log[..k + 1] <= t.nodes[j].log)
  }

  /** What anybody has committed, every leader has, from then on. */
  lemma LeadersHaveCommitted(run: seq<Sys>, steps: seq<Step>, p: nat, q: nat, i: nat, j: nat, k: nat)
    requires Careful(run, steps) && p <= q < |run|
    ensures !Lacks(run[p], i, run[q], j, k)
  {
    if Lacks(run[p], i, run[q], j, k) {
      CommitInv(run, steps, p);
      LaterAlong(run, steps, p, q);
      ProperInv(run, steps, q);
      var n, w := run[p].nodes[i], run[q].nodes[j].term;
      assert Covered(run[p], n.log, n.commitIndex, n.term);
      CoveredLater(run[p], run[q], n.log, n.log, n.commitIndex, n.commitIndex, n.term, n.term);
      assert n.log[..k + 1] == n.log[..n.commitIndex + 1][..k + 1];
      CommittedIsThere(run, steps, q, n.log, n.commitIndex, n.term, w);
    }
  }
}
