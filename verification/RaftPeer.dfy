/**
 One Raft peer: the state its mutex protects, and what each locked step does to it.
 */
module RaftPeer {

  datatype Command = Nil | Command(text: string)

  datatype Entry = Entry(term: nat, command: Command)

  datatype Role = Follower | Leader | Candidate

  datatype Node = Node(
    me: nat,
    peers: nat,            // how many peers there are, this one included
    term: nat,
    votedFor: int,         // -1: nobody
    role: Role,
    log: seq<Entry>,       // index 0 holds a dummy entry of term 0
    commitIndex: nat,
    nextIndex: seq<int>,   // per peer; empty until this peer leads for the first time
    matchIndex: seq<int>)

  datatype VoteArgs = VoteArgs(term: nat, candidate: nat, lastIndex: nat, lastTerm: nat)

  datatype VoteReply = VoteReply(term: nat, granted: bool)

  datatype AppendArgs = AppendArgs(
    term: nat, leader: nat, prevIndex: nat, prevTerm: nat, entries: seq<Entry>, leaderCommit: nat)

  datatype AppendReply = AppendReply(term: nat, success: bool)

  const DUMMY := Entry(0, Nil)

  function NewNode(me: nat, peers: nat): Node {
    Node(me, peers, 0, -1, Follower, [DUMMY], 0, [], [])
  }

  // ----- elections -----

  function StartElect(n: Node): Node {
    n.(role := Candidate, term := n.term + 1, votedFor := n.me)
  }

  function ElectArgs(n: Node): VoteArgs
    requires n.log != []
  {
    VoteArgs(n.term, n.me, |n.log|, n.log[|n.log| - 1].term)
  }

  /** The log test of the vote handler, which also admits a candidate one entry shorter. */
  predicate UpToDate(n: Node, a: VoteArgs)
    requires n.log != []
  {
    var last := n.log[|n.log| - 1].term;
    a.lastTerm > last || (a.lastTerm == last && a.lastIndex + 1 >= |n.log|)
  }

  /** A higher term is taken over; a vote of an older term does not count in it. */
  function SeenTerm(n: Node, term: nat): Node {
    if term > n.term then n.(term := term, votedFor := -1, role := Follower) else n
  }

  predicate Grants(n: Node, a: VoteArgs)
    requires n.log != []
  {
    && n.term <= a.term
    && (SeenTerm(n, a.term).votedFor == -1 || SeenTerm(n, a.term).votedFor == a.candidate)
    && UpToDate(n, a)
  }

  function OnRequestVote(n: Node, a: VoteArgs): Node
    requires n.log != []
  {
    if Grants(n, a) then SeenTerm(n, a.term).(votedFor := a.candidate) else SeenTerm(n, a.term)
  }

  /** What is reported back, for the candidate to take over a higher term. */
  function VoteAnswer(n: Node, a: VoteArgs): VoteReply
    requires n.log != []
  {
    if Grants(n, a) then VoteReply(a.term, true)
    else VoteReply(if a.term == n.term then 0 else n.term, false)
  }

  function StepDown(n: Node, term: nat): Node {
    n.(term := term, role := Follower, votedFor := -1)
  }

  function BecomeLeader(n: Node): Node {
    n.(role := Leader, nextIndex := seq(n.peers, _ => |n.log|), matchIndex := seq(n.peers, _ => 0))
  }

  function HeartbeatNotice(n: Node): Node {
    if n.role == Candidate then n.(role := Follower) else n
  }

  // ----- the log -----

  function Put(n: Node, c: Command): Node {
    if n.role == Leader then n.(log := n.log + [Entry(n.term, c)]) else n
  }

  /** How many leading entries of `a` and `b` have the same terms. */
  function Agree(a: seq<Entry>, b: seq<Entry>): (k: nat)
    ensures k <= |a| && k <= |b|
    ensures forall i :: 0 <= i < k ==> a[i].term == b[i].term
    ensures k < |a| && k < |b| ==> a[k].term != b[k].term
  {
    if a == [] || b == [] || a[0].term != b[0].term then 0 else 1 + Agree(a[1..], b[1..])
  }

  /** The follower's log: entries after `prev` that agree stay, everything else is replaced. */
  function Merge(log: seq<Entry>, prev: nat, entries: seq<Entry>): seq<Entry>
    requires prev < |log|
  {
    var k := Agree(log[prev + 1..], entries);
    log[..prev + 1 + k] + entries[k..]
  }

  predicate Fits(log: seq<Entry>, a: AppendArgs) {
    a.prevIndex < |log| && log[a.prevIndex].term == a.prevTerm
  }

  function OnAppend(n: Node, a: AppendArgs): Node {
    if a.term < n.term then n
    else
      var m := if a.term > n.term then n.(term := a.term, role := Follower) else n;
      if !Fits(n.log, a) then m
      else
        var log := Merge(n.log, a.prevIndex, a.entries);
        m.(log := log,
           commitIndex := if n.commitIndex < a.leaderCommit
                          then (if |log| - 1 < a.leaderCommit then |log| - 1 else a.leaderCommit)
                          else n.commitIndex)
  }

  function AppendAnswer(n: Node, a: AppendArgs): AppendReply {
    AppendReply(n.term, n.term <= a.term && Fits(n.log, a))
  }

  /** The message for peer `i`. It can be built only while `nextIndex` does not point past the log. */
  predicate CanBuild(n: Node, i: nat) {
    i < |n.nextIndex| && 0 <= n.nextIndex[i] <= |n.log|
  }

  function BuildAppend(n: Node, i: nat): AppendArgs
    requires CanBuild(n, i)
  {
    var next := n.nextIndex[i];
    AppendArgs(n.term, n.me,
               if next > 0 then next - 1 else 0,
               if next > 0 then n.log[next - 1].term else 0,
               n.log[next..],
               n.commitIndex)
  }

  /** How many peers, this one included, are known to hold index `k`. */
  function Holders(n: Node, k: nat, upTo: nat): nat {
    if upTo == 0 then 1
    else Holders(n, k, upTo - 1) +
         if upTo - 1 != n.me && upTo - 1 < |n.matchIndex| && n.matchIndex[upTo - 1] >= k then 1 else 0
  }

  predicate Commits(n: Node, k: nat)
    requires k < |n.log|
  {
    n.log[k].term == n.term && Holders(n, k, n.peers) > n.peers / 2
  }

  /** The first index from `k` on that may be committed, or the log's length. */
  function NextCommit(n: Node, k: nat): nat
    requires k <= |n.log|
    decreases |n.log| - k
  {
    if k == |n.log| || Commits(n, k) then k else NextCommit(n, k + 1)
  }

  function Replicated(n: Node, server: nat, a: AppendArgs, reply: AppendReply, heartbeat: bool): Node
    requires server < |n.nextIndex| && server < |n.matchIndex|
  {
    if reply.success then
      n.(nextIndex := n.nextIndex[server := a.prevIndex + |a.entries| + 1],
         matchIndex := n.matchIndex[server := a.prevIndex + |a.entries|])
    else if n.nextIndex[server] > 1 && !heartbeat then
      n.(nextIndex := n.nextIndex[server := n.nextIndex[server] - 1])
    else n
  }

  function OnAppendReply(n: Node, server: nat, a: AppendArgs, reply: AppendReply, heartbeat: bool): Node
    requires server < |n.nextIndex| && server < |n.matchIndex|
  {
    var m := Replicated(n, server, a, reply, heartbeat);
    if m.commitIndex + 1 >= |m.log| then m
    else
      var k := NextCommit(m, m.commitIndex + 1);
      if k < |m.log| then m.(commitIndex := k) else m
  }

  // ----- the peer as an object -----

  class Peer {
    const me: nat
    const peers: nat
    var term: nat
    var votedFor: int
    var role: Role
    var log: seq<Entry>
    var commitIndex: nat
    var nextIndex: seq<int>
    var matchIndex: seq<int>

    function State(): Node
      reads this
    {
      Node(me, peers, term, votedFor, role, log, commitIndex, nextIndex, matchIndex)
    }

    constructor (me: nat, peers: nat)
      ensures State() == NewNode(me, peers)
    {
      this.me, this.peers := me, peers;
      term, votedFor, role, log, commitIndex := 0, -1, Follower, [DUMMY], 0;
      nextIndex, matchIndex := [], [];
    }

    method Elect() returns (args: VoteArgs)
      requires log != []
      modifies this
      ensures State() == StartElect(old(State())) && args == ElectArgs(State())
    {
      role := Candidate;
      term := term + 1;
      votedFor := me;
      args := VoteArgs(term, me, |log|, log[|log| - 1].term);
    }

    method RequestVote(args: VoteArgs) returns (reply: VoteReply)
      requires log != []
      modifies this
      ensures State() == OnRequestVote(old(State()), args)
      ensures reply == VoteAnswer(old(State()), args)
    {
      reply := VoteReply(0, false);
      if args.term < term {
        return VoteReply(term, false);
      }
      if args.term > term {
        reply := VoteReply(term, false);
        term, votedFor, role := args.term, -1, Follower;
      }
      var last := log[|log| - 1].term;
      var case1 := args.lastTerm > last;
      var case2 := args.lastTerm == last && args.lastIndex + 1 >= |log|;
      if (votedFor == -1 || votedFor == args.candidate) && (case1 || case2) {
        reply := VoteReply(term, true);
        if votedFor == -1 {
          votedFor := args.candidate;
        }
      }
    }

    /** The hand-over to leader, which sets every `nextIndex` just past the log. */
    method Lead()
      modifies this
      ensures State() == BecomeLeader(old(State()))
    {
      nextIndex := seq(peers, _ => 0);
      var total := |log|;
      for i := 0 to peers
        invariant |nextIndex| == peers && State() == old(State()).(nextIndex := nextIndex)
        invariant forall j :: 0 <= j < i ==> nextIndex[j] == total
      {
        nextIndex := nextIndex[i := total];
      }
      assert nextIndex == seq(peers, _ => total);
      matchIndex := seq(peers, _ => 0);
      role := Leader;
    }

    method PutCommand(c: Command) returns (index: int, term': nat, isLeader: bool)
      modifies this`log
      ensures State() == Put(old(State()), c)
      ensures term' == term && isLeader == (role == Leader)
      ensures index == if isLeader then |old(log)| else -1
    {
      if role != Leader {
        return -1, term, false;
      }
      index, term', isLeader := |log|, term, true;
      log := log + [Entry(term, c)];
    }

    /** The skip, truncate and append of the log. */
    method MergeLog(prev: nat, entries: seq<Entry>)
      requires prev < |log|
      modifies this`log
      ensures log == Merge(old(log), prev, entries)
    {
      var idx, arg := prev + 1, 0;
      ghost var tail := log[prev + 1..];
      while arg < |entries| && idx < |log| && entries[arg].term == log[idx].term
        invariant log == old(log) && 0 <= arg <= |entries| && idx == prev + 1 + arg <= |log|
        invariant Agree(tail, entries) == arg + Agree(tail[arg..], entries[arg..])
      {
        assert tail[arg..][1..] == tail[arg + 1..] && entries[arg..][1..] == entries[arg + 1..];
        arg := arg + 1;
        idx := idx + 1;
      }
      assert Agree(tail[arg..], entries[arg..]) == 0;
      log := log[..idx];
      log := log + entries[arg..];
    }

    method AppendEntries(args: AppendArgs) returns (reply: AppendReply)
      modifies this
      ensures State() == OnAppend(old(State()), args)
      ensures reply == AppendAnswer(old(State()), args)
    {
      reply := AppendReply(term, false);
      if args.term < term {
        return;
      }
      if args.term > term {
        term, role := args.term, Follower;
      }
      if |log| <= args.prevIndex || log[args.prevIndex].term != args.prevTerm {
        return;
      }
      MergeLog(args.prevIndex, args.entries);
      if commitIndex < args.leaderCommit {
        var last := |log| - 1;
        commitIndex := if last < args.leaderCommit then last else args.leaderCommit;
      }
      reply := reply.(success := true);
    }

    method MakeAppend(i: nat) returns (args: AppendArgs)
      requires CanBuild(State(), i)
      ensures args == BuildAppend(State(), i)
    {
      var prevTerm, prevIndex := 0, 0;
      if |log| > 0 && nextIndex[i] > 0 {
        prevIndex := nextIndex[i] - 1;
        prevTerm := log[nextIndex[i] - 1].term;
      }
      args := AppendArgs(term, me, prevIndex, prevTerm, [], commitIndex);
      if |log| - 1 >= nextIndex[i] {
        args := args.(entries := log[nextIndex[i]..]);
      }
    }

    method CountHolders(k: nat) returns (vote: nat)
      requires |matchIndex| == peers
      ensures vote == Holders(State(), k, peers)
    {
      vote := 1;
      for p := 0 to peers
        invariant vote == Holders(State(), k, p)
      {
        if p != me && matchIndex[p] >= k {
          vote := vote + 1;
        }
      }
    }

    method ProcessReply(server: nat, args: AppendArgs, reply: AppendReply, heartbeat: bool)
      requires |nextIndex| == |matchIndex| == peers && server < peers
      modifies this`nextIndex, this`matchIndex, this`commitIndex
      ensures State() == OnAppendReply(old(State()), server, args, reply, heartbeat)
    {
      if reply.success {
        nextIndex := nextIndex[server := args.prevIndex + |args.entries| + 1];
        matchIndex := matchIndex[server := nextIndex[server] - 1];
      } else if nextIndex[server] > 1 && !heartbeat {
        nextIndex := nextIndex[server := nextIndex[server] - 1];
      }
      AdvanceCommit();
    }

    /** Commits the first entry of the present term past `commitIndex` that a majority holds. */
    method AdvanceCommit()
      requires |matchIndex| == peers
      modifies this`commitIndex
      ensures var n := old(State());
              commitIndex == if n.commitIndex + 1 < |log| && NextCommit(n, n.commitIndex + 1) < |log|
                             then NextCommit(n, n.commitIndex + 1) else n.commitIndex
    {
      ghost var n := State();
      var k := commitIndex + 1;
      while k < |log|
        invariant State() == n
        invariant k <= |log| || k == n.commitIndex + 1
        invariant k <= |log| ==> n.commitIndex + 1 <= k && NextCommit(n, n.commitIndex + 1) == NextCommit(n, k)
      {
        if log[k].term == term {
          var vote := CountHolders(k);
          if vote > peers / 2 {
            commitIndex := k;
            return;
          }
        }
        k := k + 1;
      }
      assert k == |log| ==> NextCommit(n, k) == k;
      assert k > |log| ==> n.commitIndex + 1 > |log|;
    }
  }
}
