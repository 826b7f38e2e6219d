/**
 Log Matching (section 5.3 of the extended Raft paper): two logs with an entry of the same index and
 term are identical up to that index.
 */
module RaftLog {
  import opened RaftPeer
  import opened RaftSystem
  import opened RaftElection

  type History = map<nat, seq<Entry>>

  /** Up to each of its entries, `log` is the log that the leader of that entry's term had. */
  ghost predicate Traces(hist: History, log: seq<Entry>) {
    forall k: nat :: k < |log| ==> TracesAt(hist, log, k)
  }

  ghost predicate TracesAt(hist: History, log: seq<Entry>, k: nat) {
    && k < |log| && log[k].term in hist
    && k < |hist[log[k].term]| && log[..k + 1] == hist[log[k].term][..k + 1]
  }

  /** The message is a piece of the log of its term's leader, and it goes to somebody else. */
  ghost predicate Snapshot(s: Sys, m: Append) {
    var a := m.args;
    && a.term in s.hist && a.prevIndex + 1 + |a.entries| <= |s.hist[a.term]|
    && s.hist[a.term][a.prevIndex].term == a.prevTerm
    && a.entries == s.hist[a.term][a.prevIndex + 1..a.prevIndex + 1 + |a.entries|]
    && Campaign(a.leader, a.term) in s.leaders && m.dest != a.leader
  }

  ghost predicate Recorded(s: Sys) {
    && 0 in s.hist && s.hist[0] == [DUMMY]
    && (forall c :: c in s.leaders ==> c.term in s.hist)
    && (forall t :: t in s.hist && t != 0 ==> exists c :: c in s.leaders && c.term == t)
    && (forall c :: c in s.started ==> c.term >= 1)
  }

  ghost predicate LogsTraced(s: Sys) {
    && (forall i :: 0 <= i < |s.nodes| ==> Traces(s.hist, s.nodes[i].log))
    && (forall t :: t in s.hist ==> Traces(s.hist, s.hist[t]))
  }

  ghost predicate LeadersHold(s: Sys) {
    forall i :: 0 <= i < |s.nodes| && s.nodes[i].role == Leader ==>
      s.nodes[i].term in s.hist && s.hist[s.nodes[i].term] == s.nodes[i].log
  }

  /** Who took over leadership of its present term still leads. */
  ghost predicate StillInOffice(s: Sys) {
    forall c :: c in s.leaders && c.node < |s.nodes| && s.nodes[c.node].term == c.term ==> s.nodes[c.node].role == Leader
  }

  ghost predicate LogInv(s: Sys) {
    LogCore(s) && StillInOffice(s)
  }

  ghost predicate LogCore(s: Sys) {
    && ElectionInv(s) && Recorded(s) && LogsTraced(s) && LeadersHold(s)
    && (forall m :: m in s.appends ==> Snapshot(s, m))
    && (forall i :: 0 <= i < |s.nodes| ==> AfterDummy(s.nodes[i]))
  }

  /** No message would start before the first real entry. */
  ghost predicate AfterDummy(n: Node) {
    forall j :: 0 <= j < |n.nextIndex| ==> n.nextIndex[j] >= 1
  }

  /** History only grows: new terms, and longer logs for old ones. */
  ghost predicate Grows(h: History, g: History) {
    forall t :: t in h ==> t in g && h[t] <= g[t]
  }

  lemma TracesGrow(h: History, g: History, log: seq<Entry>)
    requires Grows(h, g) && Traces(h, log)
    ensures Traces(g, log)
  {
    forall k: nat | k < |log| ensures TracesAt(g, log, k) {
      assert TracesAt(h, log, k);
      var t := log[k].term;
      assert t in h && h[t] <= g[t];
      assert g[t][..|h[t]|][..k + 1] == g[t][..k + 1];
    }
  }

  lemma TracesPrefix(h: History, log: seq<Entry>, n: nat)
    requires Traces(h, log) && n <= |log|
    ensures Traces(h, log[..n])
  {
    var front := log[..n];
    forall k: nat | k < |front| ensures TracesAt(h, front, k) {
      assert TracesAt(h, log, k);
      assert front[..k + 1] == log[..k + 1];
      assert front[k] == log[k];
    }
  }

  /** Two traced logs that agree on the term at `k` agree up to there. */
  lemma SameTermSamePrefix(h: History, a: seq<Entry>, b: seq<Entry>, k: nat)
    requires Traces(h, a) && Traces(h, b) && k < |a| && k < |b| && a[k].term == b[k].term
    ensures a[..k + 1] == b[..k + 1]
  {
    assert TracesAt(h, a, k) && TracesAt(h, b, k);
  }

  /**
   The skip, truncate and append loop turns the follower's log into the sender's snapshot: `snap` is the
   sender's log when the message was built, and the follower's log fits the message.
   */
  lemma MergeYieldsSnapshot(h: History, log: seq<Entry>, snap: seq<Entry>, a: AppendArgs)
    requires Traces(h, log) && Traces(h, snap) && Fits(log, a)
    requires a.prevIndex + 1 + |a.entries| == |snap|
    requires snap[a.prevIndex].term == a.prevTerm && a.entries == snap[a.prevIndex + 1..]
    ensures Merge(log, a.prevIndex, a.entries) == snap
  {
    var k := AgreedEnd(log, snap, a.prevIndex, a.entries);
    assert log[..a.prevIndex + k + 1] == snap[..a.prevIndex + k + 1] by {
      SameTermSamePrefix(h, log, snap, a.prevIndex + k);
    }
    Spliced(log, snap, a.prevIndex + 1, k);
  }

  /** The last entry that the loop skips has the same term in both logs. */
  lemma AgreedEnd(log: seq<Entry>, snap: seq<Entry>, prev: nat, entries: seq<Entry>) returns (k: nat)
    requires prev < |log| && prev < |snap| && log[prev].term == snap[prev].term && entries == snap[prev + 1..]
    ensures prev + k < |log| && prev + k < |snap| && log[prev + k].term == snap[prev + k].term
    ensures Merge(log, prev, entries) == log[..prev + 1 + k] + entries[k..]
  {
    k := Agree(log[prev + 1..], entries);
    if k > 0 {
      assert log[prev + 1..][k - 1].term == entries[k - 1].term;
    }
  }

  lemma Spliced(log: seq<Entry>, snap: seq<Entry>, p: nat, k: nat)
    requires p + k <= |log| && p + k <= |snap| && log[..p + k] == snap[..p + k]
    ensures log[..p + k] + snap[p..][k..] == snap
  {
    assert snap[p..][k..] == snap[p + k..];
  }

  // ----- steps that leave the logs alone -----

  lemma SnapshotGrows(s: Sys, t: Sys, m: Append)
    requires Snapshot(s, m) && Grows(s.hist, t.hist) && s.leaders <= t.leaders
    ensures Snapshot(t, m)
  {
    var a := m.args;
    var h, g := s.hist[a.term], t.hist[a.term];
    assert h <= g;
    assert g[a.prevIndex] == h[a.prevIndex];
    assert g[a.prevIndex + 1..a.prevIndex + 1 + |a.entries|] == h[a.prevIndex + 1..a.prevIndex + 1 + |a.entries|];
  }

  /** Logs and history unchanged, and nobody becomes leader. */
  ghost predicate LogsKept(s: Sys, t: Sys) {
    && |t.nodes| == |s.nodes| && t.hist == s.hist && t.leaders == s.leaders && t.appends == s.appends
    && (forall i :: 0 <= i < |s.nodes| ==>
          && t.nodes[i].log == s.nodes[i].log
          && (t.nodes[i].role == Leader ==> s.nodes[i].role == Leader && t.nodes[i].term == s.nodes[i].term)
          && AfterDummy(t.nodes[i]))
  }

  lemma LogsKeptStep(s: Sys, t: Sys)
    requires LogInv(s) && ElectionInv(t) && Recorded(t) && LogsKept(s, t)
    ensures LogCore(t)
  {
    forall m | m in t.appends ensures Snapshot(t, m) {
      SnapshotGrows(s, t, m);
    }
  }

  lemma ElectRecorded(s: Sys, i: nat)
    requires LogInv(s) && i < |s.nodes|
    ensures Recorded(Next(s, Elect(i)))
  {
  }

  lemma ElectQuiet(s: Sys, i: nat)
    requires LogInv(s) && i < |s.nodes| && ElectionInv(Next(s, Elect(i)))
    ensures LogCore(Next(s, Elect(i)))
  {
    ElectRecorded(s, i);
    assert LogsKept(s, Next(s, Elect(i)));
    LogsKeptStep(s, Next(s, Elect(i)));
  }

  /** One peer changes, but neither its log nor what it would send, and it does not become leader. */
  lemma NodeQuiet(s: Sys, t: Sys, i: nat)
    requires LogInv(s) && ElectionInv(t) && i < |s.nodes| && |t.nodes| == |s.nodes| && t.nodes == s.nodes[i := t.nodes[i]]
    requires t.nodes[i].log == s.nodes[i].log && t.nodes[i].nextIndex == s.nodes[i].nextIndex
    requires t.nodes[i].role == Leader ==> s.nodes[i].role == Leader && t.nodes[i].term == s.nodes[i].term
    requires t.hist == s.hist && t.leaders == s.leaders && t.appends == s.appends && t.started == s.started
    ensures LogCore(t)
  {
    assert Recorded(t);
    assert LogsKept(s, t);
    LogsKeptStep(s, t);
  }

  /** Votes, higher terms in replies and heartbeats change no log and make nobody leader. */
  lemma QuietStep(s: Sys, e: Step)
    requires LogInv(s) && Enabled(s, e) && ElectionInv(Next(s, e))
    requires e.Vote? || e.HigherReply? || e.Notice?
    ensures LogCore(Next(s, e))
  {
    NodeQuiet(s, Next(s, e), e.i);
  }

  // ----- leadership -----

  /** The present term of peer `i` has no leader yet, or the peer leads it already. */
  ghost predicate FreshOrMine(s: Sys, i: nat)
    requires i < |s.nodes|
  {
    var n := s.nodes[i];
    n.term >= 1 && (n.term !in s.hist || (n.role == Leader && s.hist[n.term] == n.log))
  }

  lemma NewTerm(s: Sys, i: nat, term: nat)
    requires LogInv(s) && Enabled(s, HandOver(i, term)) && Backed(s, HandOver(i, term))
    requires ElectionInv(Next(s, HandOver(i, term)))
    ensures FreshOrMine(s, i)
  {
    var t, mine := Next(s, HandOver(i, term)), Campaign(i, s.nodes[i].term);
    assert mine in s.started;
    if mine.term in s.hist {
      var c :| c in s.leaders && c.term == mine.term;
      assert c in t.leaders && mine in t.leaders;
      OneLeaderPerTerm(t, c, mine);
    }
  }

  /** Recording the log of `term` keeps every trace, whether the term is new or its log only got longer. */
  lemma TracesAfter(hist: History, g: History, term: nat, log: seq<Entry>)
    requires g == hist[term := log] && Grows(hist, g) && Traces(g, log)
    requires forall t :: t in hist ==> Traces(hist, hist[t])
    ensures forall t :: t in g ==> Traces(g, g[t])
  {
    forall t | t in g ensures Traces(g, g[t]) {
      if t != term {
        TracesGrow(hist, g, hist[t]);
      }
    }
  }

  /** Peer `i`, whose log is recorded under `term`, and everybody else stay traced. */
  lemma RecordingTraces(s: Sys, t: Sys, i: nat, term: nat)
    requires LogsTraced(s) && i < |s.nodes| && |t.nodes| == |s.nodes|
    requires forall j :: 0 <= j < |s.nodes| && j != i ==> t.nodes[j] == s.nodes[j]
    requires t.hist == s.hist[term := t.nodes[i].log] && Grows(s.hist, t.hist) && Traces(t.hist, t.nodes[i].log)
    ensures LogsTraced(t)
  {
    TracesAfter(s.hist, t.hist, term, t.nodes[i].log);
    forall j | 0 <= j < |t.nodes| ensures Traces(t.hist, t.nodes[j].log) {
      if j != i {
        TracesGrow(s.hist, t.hist, s.nodes[j].log);
      }
    }
  }

  lemma RecordingMessages(s: Sys, t: Sys)
    requires (forall m :: m in s.appends ==> Snapshot(s, m)) && t.appends == s.appends
    requires Grows(s.hist, t.hist) && s.leaders <= t.leaders
    ensures forall m :: m in t.appends ==> Snapshot(t, m)
  {
    forall m | m in t.appends ensures Snapshot(t, m) {
      SnapshotGrows(s, t, m);
    }
  }

  /** Recording the log of a new term, or again that of a leader, changes nothing recorded before. */
  lemma HandOverGrows(s: Sys, i: nat, term: nat)
    requires LogInv(s) && Enabled(s, HandOver(i, term)) && FreshOrMine(s, i)
    ensures var t := Next(s, HandOver(i, term));
            && t.hist == s.hist[s.nodes[i].term := s.nodes[i].log] && Grows(s.hist, t.hist)
            && Traces(t.hist, s.nodes[i].log)
  {
    var t := Next(s, HandOver(i, term));
    assert Grows(s.hist, t.hist);
    TracesGrow(s.hist, t.hist, s.nodes[i].log);
  }

  lemma HandOverLeaders(s: Sys, i: nat, term: nat)
    requires LogInv(s) && Enabled(s, HandOver(i, term)) && FreshOrMine(s, i)
    ensures var t := Next(s, HandOver(i, term));
            LeadersHold(t) && forall j :: 0 <= j < |t.nodes| ==> AfterDummy(t.nodes[j])
  {
    var t := Next(s, HandOver(i, term));
    assert s.nodes[i].log != [];
    forall j | 0 <= j < |t.nodes| && t.nodes[j].role == Leader
      ensures t.nodes[j].term in t.hist && t.hist[t.nodes[j].term] == t.nodes[j].log
    {
      if j != i {
        SameTermLeader(s, i, j);
      }
    }
  }

  /** Another leader's term is not the one that is taken over. */
  lemma SameTermLeader(s: Sys, i: nat, j: nat)
    requires LogInv(s) && i < |s.nodes| && j < |s.nodes| && i != j && s.nodes[j].role == Leader && FreshOrMine(s, i)
    ensures s.nodes[j].term != s.nodes[i].term
  {
    if s.nodes[j].term == s.nodes[i].term && s.nodes[i].role == Leader {
      OneLeaderPerTerm(s, Campaign(i, s.nodes[i].term), Campaign(j, s.nodes[j].term));
    }
  }

  lemma HandOverStep(s: Sys, i: nat, term: nat)
    requires LogInv(s) && Enabled(s, HandOver(i, term)) && Backed(s, HandOver(i, term))
    requires ElectionInv(Next(s, HandOver(i, term)))
    ensures LogCore(Next(s, HandOver(i, term)))
  {
    var t := Next(s, HandOver(i, term));
    NewTerm(s, i, term);
    HandOverGrows(s, i, term);
    HandOverLeaders(s, i, term);
    RecordingTraces(s, t, i, s.nodes[i].term);
    RecordingMessages(s, t);
    HandOverRecorded(s, i, term);
  }

  lemma HandOverRecorded(s: Sys, i: nat, term: nat)
    requires LogInv(s) && Enabled(s, HandOver(i, term)) && FreshOrMine(s, i)
    ensures Recorded(Next(s, HandOver(i, term)))
  {
    var t, mine := Next(s, HandOver(i, term)), Campaign(i, s.nodes[i].term);
    assert mine in t.leaders;
    forall u | u in t.hist && u != 0 ensures exists c :: c in t.leaders && c.term == u {
      if u != mine.term {
        var c :| c in s.leaders && c.term == u;
        assert c in t.leaders;
      }
    }
  }

  // ----- the leader appends -----

  lemma TracesPut(hist: History, term: nat, log: seq<Entry>, c: Command)
    requires term in hist && hist[term] == log && Traces(hist, log)
    ensures Grows(hist, hist[term := log + [Entry(term, c)]])
    ensures Traces(hist[term := log + [Entry(term, c)]], log + [Entry(term, c)])
  {
    var more := log + [Entry(term, c)];
    var g := hist[term := more];
    assert Grows(hist, g);
    TracesGrow(hist, g, log);
    forall k: nat | k < |more| ensures TracesAt(g, more, k) {
      if k < |log| {
        assert TracesAt(g, log, k);
        assert more[..k + 1] == log[..k + 1];
        assert more[k] == log[k];
      }
    }
  }

  lemma PutStep(s: Sys, i: nat, c: Command)
    requires LogInv(s) && i < |s.nodes| && s.nodes[i].role == Leader && ElectionInv(Next(s, PutCmd(i, c)))
    ensures LogCore(Next(s, PutCmd(i, c)))
  {
    var t := Next(s, PutCmd(i, c));
    var n := s.nodes[i];
    TracesPut(s.hist, n.term, n.log, c);
    RecordingTraces(s, t, i, n.term);
    RecordingMessages(s, t);
    PutLeaders(s, i, c);
    PutRecorded(s, i, c);
  }

  lemma PutLeaders(s: Sys, i: nat, c: Command)
    requires ElectionInv(s) && LeadersHold(s) && i < |s.nodes| && s.nodes[i].role == Leader
    ensures LeadersHold(Next(s, PutCmd(i, c)))
  {
    var t := Next(s, PutCmd(i, c));
    forall j | 0 <= j < |t.nodes| && t.nodes[j].role == Leader
      ensures t.nodes[j].term in t.hist && t.hist[t.nodes[j].term] == t.nodes[j].log
    {
      if j != i && s.nodes[j].term == s.nodes[i].term {
        OneLeaderPerTerm(s, Campaign(i, s.nodes[i].term), Campaign(j, s.nodes[j].term));
      }
    }
  }

  lemma PutRecorded(s: Sys, i: nat, c: Command)
    requires LogInv(s) && i < |s.nodes| && s.nodes[i].role == Leader
    ensures Recorded(Next(s, PutCmd(i, c)))
  {
    var term := s.nodes[i].term;
    assert Campaign(i, term) in s.leaders && Campaign(i, term) in s.started;
    assert term >= 1;
  }

  // ----- messages -----

  lemma SendStep(s: Sys, i: nat, dest: nat)
    requires LogInv(s) && Enabled(s, Send(i, dest)) && StillLeads(s, Send(i, dest)) && ElectionInv(Next(s, Send(i, dest)))
    ensures LogCore(Next(s, Send(i, dest)))
  {
    var n, t := s.nodes[i], Next(s, Send(i, dest));
    var next := n.nextIndex[dest];
    assert next >= 1;
    assert n.log[next - 1 + 1..] == n.log[next..];
    assert n.log[next..|n.log|] == n.log[next..];
    assert Snapshot(s, Append(dest, BuildAppend(n, dest)));
    forall m | m in t.appends ensures Snapshot(t, m) {
      assert Snapshot(s, m);
      SnapshotGrows(s, t, m);
    }
  }

  /** A delivered message leaves the receiver's log as it was, or makes it the log its sender had. */
  lemma DeliveredLog(s: Sys, m: Append)
    requires LogInv(s) && Enabled(s, Deliver(m))
    ensures var n, a := s.nodes[m.dest], m.args;
            || OnAppend(n, a).log == n.log
            || OnAppend(n, a).log == s.hist[a.term][..a.prevIndex + 1 + |a.entries|]
    ensures Traces(s.hist, OnAppend(s.nodes[m.dest], m.args).log)
  {
    var n, a := s.nodes[m.dest], m.args;
    assert Snapshot(s, m);
    if n.term <= a.term && Fits(n.log, a) {
      var snap := s.hist[a.term][..a.prevIndex + 1 + |a.entries|];
      TracesPrefix(s.hist, s.hist[a.term], |snap|);
      assert a.entries == snap[a.prevIndex + 1..];
      MergeYieldsSnapshot(s.hist, n.log, snap, a);
    }
  }

  /** A leader gets no message of its own term. */
  lemma DeliveredToFollower(s: Sys, m: Append)
    requires LogInv(s) && Enabled(s, Deliver(m)) && m.args.term >= s.nodes[m.dest].term
    ensures OnAppend(s.nodes[m.dest], m.args).role != Leader
  {
    var n, a := s.nodes[m.dest], m.args;
    assert Snapshot(s, m);
    if n.role == Leader && n.term == a.term {
      OneLeaderPerTerm(s, Campaign(m.dest, n.term), Campaign(a.leader, a.term));
    }
  }

  /** Only peer `i` changes; its new log is traced, and it leads no more or has the log it had. */
  lemma OneLogChanges(s: Sys, t: Sys, i: nat)
    requires LogInv(s) && ElectionInv(t) && i < |s.nodes| && |t.nodes| == |s.nodes| && t.nodes == s.nodes[i := t.nodes[i]]
    requires t.hist == s.hist && t.leaders == s.leaders && t.appends == s.appends && Recorded(t)
    requires Traces(s.hist, t.nodes[i].log) && t.nodes[i].nextIndex == s.nodes[i].nextIndex
    requires t.nodes[i].role != Leader || t.nodes[i] == s.nodes[i]
    ensures LogCore(t)
  {
    assert AfterDummy(s.nodes[i]);
    forall x | x in t.appends ensures Snapshot(t, x) {
      SnapshotGrows(s, t, x);
    }
  }

  lemma DeliverStep(s: Sys, m: Append)
    requires LogInv(s) && Enabled(s, Deliver(m)) && ElectionInv(Next(s, Deliver(m)))
    ensures LogCore(Next(s, Deliver(m)))
  {
    var t := Next(s, Deliver(m));
    DeliveredLog(s, m);
    if m.args.term >= s.nodes[m.dest].term {
      DeliveredToFollower(s, m);
    }
    OneLogChanges(s, t, m.dest);
  }

  lemma ReplyNode(n: Node, server: nat, a: AppendArgs, reply: AppendReply, heartbeat: bool)
    requires server < |n.nextIndex| && server < |n.matchIndex| && AfterDummy(n)
    ensures var m := OnAppendReply(n, server, a, reply, heartbeat);
            AfterDummy(m) && m.log == n.log && m.role == n.role && m.term == n.term
  {
  }

  lemma ReplyStep(s: Sys, x: Answer)
    requires LogInv(s) && Enabled(s, Reply(x)) && ElectionInv(Next(s, Reply(x)))
    ensures LogCore(Next(s, Reply(x)))
  {
    var a := x.append.args;
    ReplyNode(s.nodes[a.leader], x.append.dest, a, x.reply, a.entries == []);
    assert LogsKept(s, Next(s, Reply(x)));
    LogsKeptStep(s, Next(s, Reply(x)));
  }

  // ----- office -----

  /** A peer keeps its office unless its term goes up. */
  ghost predicate KeepsOffice(n: Node, m: Node) {
    n.term < m.term || (n.term == m.term && (n.role == Leader ==> m.role == Leader))
  }

  lemma OfficeKept(s: Sys, e: Step, j: nat)
    requires Shape(s) && Enabled(s, e) && j < |s.nodes| && !(e.HigherReply? && e.i == j)
    ensures j < |Next(s, e).nodes| && KeepsOffice(s.nodes[j], Next(s, e).nodes[j])
  {
  }

  lemma OfficeStep(s: Sys, e: Step)
    requires ElectionInv(s) && StillInOffice(s) && Enabled(s, e) && Backed(s, e)
    ensures StillInOffice(Next(s, e))
  {
    var t := Next(s, e);
    ShapeStep(s, e);
    forall c | c in t.leaders && c.node < |t.nodes| && t.nodes[c.node].term == c.term
      ensures t.nodes[c.node].role == Leader
    {
      if c in s.leaders {
        assert Voted(s, c.node, c.term, c.node);
      }
      if !(e.HigherReply? && e.i == c.node) {
        OfficeKept(s, e, c.node);
      }
    }
  }

  lemma LogStep(s: Sys, e: Step)
    requires LogInv(s) && Enabled(s, e) && Backed(s, e) && StillLeads(s, e)
    ensures LogInv(Next(s, e))
  {
    ElectionStep(s, e);
    OfficeStep(s, e);
    match e
    case Elect(i) => ElectQuiet(s, i);
    case HandOver(i, term) => HandOverStep(s, i, term);
    case PutCmd(i, c) =>
      if s.nodes[i].role == Leader {
        PutStep(s, i, c);
      } else {
        assert Next(s, e) == s;
      }
    case Send(i, dest) => SendStep(s, i, dest);
    case Deliver(m) => DeliverStep(s, m);
    case Reply(x) => ReplyStep(s, x);
    case _ => QuietStep(s, e);
  }

  /** A step keeps the invariant of Log Matching if and only if it is backed and a message is built by a leader. */
  lemma LogSafeIff(s: Sys, e: Step)
    requires LogInv(s) && Enabled(s, e)
    ensures LogInv(Next(s, e)) <==> Backed(s, e) && StillLeads(s, e)
  {
    BackedIff(s, e);
    if Backed(s, e) && StillLeads(s, e) {
      LogStep(s, e);
    } else if !StillLeads(s, e) {
      UnledSend(s, e.i, e.dest);
    }
  }

  lemma UnledSend(s: Sys, i: nat, dest: nat)
    requires LogInv(s) && Enabled(s, Send(i, dest)) && s.nodes[i].role != Leader
    ensures !LogInv(Next(s, Send(i, dest)))
  {
    var t, m := Next(s, Send(i, dest)), Append(dest, BuildAppend(s.nodes[i], dest));
    assert m in t.appends && Campaign(i, s.nodes[i].term) !in s.leaders;
    assert !Snapshot(t, m);
  }

  lemma StartsLog(s: Sys)
    requires Starts(s)
    ensures LogInv(s)
  {
    assert Traces(s.hist, [DUMMY]);
  }

  lemma LogStepAt(run: seq<Sys>, steps: seq<Step>, i: nat)
    requires BackedAt(run, steps, i) && LeadsAt(run, steps, i) && LogInv(run[i])
    ensures LogInv(run[i + 1])
  {
    LogStep(run[i], steps[i]);
  }

  lemma {:induction false} LogAlong(run: seq<Sys>, steps: seq<Step>, i: nat)
    requires i < |run| && LogInv(run[0])
    requires forall k: nat :: k < i ==> BackedAt(run, steps, k) && LeadsAt(run, steps, k)
    ensures LogInv(run[i])
  {
    if i > 0 {
      var k := i - 1;
      LogAlong(run, steps, k);
      LogStepAt(run, steps, k);
    }
  }

  lemma LogInvariant(run: seq<Sys>, steps: seq<Step>, i: nat)
    requires IsRun(run, steps) && AllBacked(run, steps) && AlwaysLeads(run, steps) && i < |run|
    ensures LogInv(run[i])
  {
    StartsLog(run[0]);
    LogAlong(run, steps, i);
  }

  /** In every state of every run, entries of the same index and term head identical prefixes. */
  lemma LogMatching(run: seq<Sys>, steps: seq<Step>, p: nat, i: nat, j: nat, k: nat)
    requires IsRun(run, steps) && AllBacked(run, steps) && AlwaysLeads(run, steps) && p < |run|
    requires i < |run[p].nodes| && j < |run[p].nodes| && k < |run[p].nodes[i].log| && k < |run[p].nodes[j].log|
    requires run[p].nodes[i].log[k].term == run[p].nodes[j].log[k].term
    ensures run[p].nodes[i].log[..k + 1] == run[p].nodes[j].log[..k + 1]
  {
    LogInvariant(run, steps, p);
    SameTermSamePrefix(run[p].hist, run[p].nodes[i].log, run[p].nodes[j].log, k);
  }
}
