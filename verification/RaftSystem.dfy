/**
 A group of Raft peers. A step is one critical section of one peer; messages are snapshots taken when
 they are built and stay deliverable for ever. `started`, `leaders` and `hist` are history.
 */
module RaftSystem {
  import opened RaftPeer

  datatype Campaign = Campaign(node: nat, term: nat)

  datatype Ballot = Ballot(voter: nat, candidate: nat, election: nat, reply: VoteReply)

  datatype Append = Append(dest: nat, args: AppendArgs)

  datatype Answer = Answer(append: Append, reply: AppendReply)

  datatype Sys = Sys(
    nodes: seq<Node>,
    asked: set<VoteArgs>,
    ballots: set<Ballot>,
    appends: set<Append>,
    answers: set<Answer>,
    active: set<Campaign>,          // campaigns that still count votes
    started: set<Campaign>,         // all campaigns so far
    leaders: set<Campaign>,         // who took over leadership, in which term of its own
    hist: map<nat, seq<Entry>>)     // per term, the log of its leader as last seen while it led

  datatype Step =
    | Elect(i: nat)
    | Vote(i: nat, a: VoteArgs)
    | HandOver(i: nat, term: nat)   // the votes of campaign `term` suffice, and the peer makes itself leader
    | HigherReply(i: nat, b: Ballot)
    | Notice(i: nat)
    | PutCmd(i: nat, c: Command)
    | Send(i: nat, dest: nat)
    | Deliver(m: Append)
    | Reply(x: Answer)

  /** The peers that granted their vote to campaign `term` of peer `i`. */
  function Voters(s: Sys, i: nat, term: nat): set<nat> {
    set b | b in s.ballots && b.candidate == i && b.election == term && b.reply.granted :: b.voter
  }

  predicate Majority(s: Sys, i: nat, term: nat) {
    1 + |Voters(s, i, term)| > |s.nodes| / 2
  }

  ghost predicate Shape(s: Sys) {
    forall i :: 0 <= i < |s.nodes| ==>
      s.nodes[i].me == i && s.nodes[i].peers == |s.nodes| && s.nodes[i].log != []
  }

  /** What the code itself checks, or panics without, before the step. */
  ghost predicate Enabled(s: Sys, e: Step) {
    match e
    case Elect(i) => i < |s.nodes|
    case Vote(i, a) => i < |s.nodes| && a in s.asked && a.candidate != i
    case HandOver(i, term) => i < |s.nodes| && Campaign(i, term) in s.active && Majority(s, i, term)
    case HigherReply(i, b) =>
      && i < |s.nodes| && b in s.ballots && b.candidate == i
      && Campaign(i, b.election) in s.active && b.reply.term > b.election
    case Notice(i) => i < |s.nodes|
    case PutCmd(i, _) => i < |s.nodes|
    case Send(i, dest) => i < |s.nodes| && dest < |s.nodes| && dest != i && CanBuild(s.nodes[i], dest)
    case Deliver(m) => m in s.appends && m.dest < |s.nodes|
    case Reply(x) =>
      && x in s.answers && x.append.args.leader < |s.nodes|
      && var n := s.nodes[x.append.args.leader];
         x.append.dest < |n.nextIndex| && x.append.dest < |n.matchIndex|
  }

  /**
   The three tests of the code that can be stale by the time they are acted on:
   the peer is still in the term whose votes it counted when it takes over leadership;
   a higher term in a reply is higher than its present term; it still leads when it builds a message.
   */
  ghost predicate NotStale(s: Sys, e: Step)
    requires Enabled(s, e)
  {
    && (e.HandOver? ==> s.nodes[e.i].term == e.term)
    && (e.HigherReply? ==> e.b.reply.term > s.nodes[e.i].term)
  }

  ghost predicate StillLeads(s: Sys, e: Step)
    requires Enabled(s, e)
  {
    e.Send? ==> s.nodes[e.i].role == Leader
  }

  function SetNode(s: Sys, i: nat, n: Node): Sys
    requires i < |s.nodes|
  {
    s.(nodes := s.nodes[i := n])
  }

  ghost function Next(s: Sys, e: Step): Sys
    requires Shape(s) && Enabled(s, e)
  {
    match e
    case Elect(i) =>
      var n := StartElect(s.nodes[i]);
      SetNode(s, i, n).(asked := s.asked + {ElectArgs(n)},
                        active := s.active + {Campaign(i, n.term)},
                        started := s.started + {Campaign(i, n.term)})
    case Vote(i, a) =>
      SetNode(s, i, OnRequestVote(s.nodes[i], a))
        .(ballots := s.ballots + {Ballot(i, a.candidate, a.term, VoteAnswer(s.nodes[i], a))})
    case HandOver(i, term) =>
      var n := s.nodes[i];
      SetNode(s, i, BecomeLeader(n)).(active := s.active - {Campaign(i, term)},
                                      leaders := s.leaders + {Campaign(i, n.term)},
                                      hist := s.hist[n.term := n.log])
    case HigherReply(i, b) =>
      SetNode(s, i, StepDown(s.nodes[i], b.reply.term)).(active := s.active - {Campaign(i, b.election)})
    case Notice(i) => SetNode(s, i, HeartbeatNotice(s.nodes[i]))
    case PutCmd(i, c) =>
      var n := Put(s.nodes[i], c);
      SetNode(s, i, n).(hist := if n.role == Leader then s.hist[n.term := n.log] else s.hist)
    case Send(i, dest) => s.(appends := s.appends + {Append(dest, BuildAppend(s.nodes[i], dest))})
    case Deliver(m) =>
      SetNode(s, m.dest, OnAppend(s.nodes[m.dest], m.args))
        .(answers := s.answers + {Answer(m, AppendAnswer(s.nodes[m.dest], m.args))})
    case Reply(x) =>
      var a := x.append.args;
      SetNode(s, a.leader, OnAppendReply(s.nodes[a.leader], x.append.dest, a, x.reply, a.entries == []))
  }

  ghost predicate Starts(s: Sys) {
    && s == Sys(s.nodes, {}, {}, {}, {}, {}, {}, {}, map[0 := [DUMMY]])
    && (forall i :: 0 <= i < |s.nodes| ==> s.nodes[i] == NewNode(i, |s.nodes|))
  }

  /** Step `i` leads from state `i` to the next one. */
  ghost predicate StepAt(run: seq<Sys>, steps: seq<Step>, i: nat) {
    && i < |steps| && i + 1 < |run|
    && Enabled(run[i], steps[i]) && (Shape(run[i]) ==> run[i + 1] == Next(run[i], steps[i]))
  }

  ghost predicate IsRun(run: seq<Sys>, steps: seq<Step>) {
    && |run| == |steps| + 1
    && Starts(run[0])
    && (forall i: nat :: i < |steps| ==> StepAt(run, steps, i))
  }

  ghost predicate TimelyAt(run: seq<Sys>, steps: seq<Step>, i: nat) {
    StepAt(run, steps, i) && NotStale(run[i], steps[i])
  }

  ghost predicate LeadsAt(run: seq<Sys>, steps: seq<Step>, i: nat) {
    StepAt(run, steps, i) && StillLeads(run[i], steps[i])
  }

  ghost predicate NeverStale(run: seq<Sys>, steps: seq<Step>) {
    forall i: nat :: i < |steps| ==> TimelyAt(run, steps, i)
  }

  ghost predicate AlwaysLeads(run: seq<Sys>, steps: seq<Step>) {
    forall i: nat :: i < |steps| ==> LeadsAt(run, steps, i)
  }
}
