/**
 The key-value store: servers of query actors, who knows whom, and the messages between them.
 */
module GossipSystem {
  import opened GossipActor

  // ----- who knows whom -----

  /** A server is started with a number of actors and with the descriptions of `known`, earlier servers. */
  datatype Server = Server(size: nat, known: seq<nat>)

  /** The first actor of a server represents it to the others. */
  function Rep(server: nat): Ref {
    Ref(server, 0)
  }

  function Locals(server: nat, size: nat): seq<Ref> {
    seq(size, i requires 0 <= i < size => Ref(server, i))
  }

  function Reps(known: seq<nat>): seq<Ref> {
    seq(|known|, i requires 0 <= i < |known| => Rep(known[i]))
  }

  /** An introduction for an actor of the new server, and one of the new server to an older one. */
  datatype Intro = Intro(dest: Ref, local: seq<Ref>, remote: seq<Ref>)

  datatype Link = Link(dest: Ref, sender: Ref)

  /** Starts the actors of a server and tells who there is to know. */
  method NewServer(server: nat, count: nat, remoteDescs: seq<nat>) returns (intros: seq<Intro>, links: seq<Link>, desc: Ref)
    requires count > 0
    ensures |intros| == count
    ensures forall i :: 0 <= i < count ==>
      intros[i] == Intro(Ref(server, i), Locals(server, count), Reps(remoteDescs))
    ensures |links| == |remoteDescs|
    ensures forall i :: 0 <= i < |links| ==> links[i] == Link(Rep(remoteDescs[i]), Rep(server))
    ensures desc == Rep(server)
  {
    var actorList: seq<Ref> := [];
    for i := 0 to count
      invariant actorList == Locals(server, i)
    {
      actorList := actorList + [Ref(server, i)];
    }
    var remoteServers: seq<Ref> := [];
    for i := 0 to |remoteDescs|
      invariant remoteServers == Reps(remoteDescs[..i])
    {
      remoteServers := remoteServers + [Rep(remoteDescs[i])];
    }
    assert remoteDescs[..|remoteDescs|] == remoteDescs;
    intros := [];
    for i := 0 to |actorList|
      invariant |intros| == i
      invariant forall j :: 0 <= j < i ==> intros[j] == Intro(Ref(server, j), actorList, remoteServers)
    {
      intros := intros + [Intro(actorList[i], actorList, remoteServers)];
    }
    desc := actorList[0];
    links := [];
    for i := 0 to |remoteServers|
      invariant |links| == i
      invariant forall j :: 0 <= j < i ==> links[j] == Link(Rep(remoteDescs[j]), Rep(server))
    {
      links := links + [Link(remoteServers[i], desc)];
    }
  }

  /** Every server has an actor, and every server but the first knows an earlier one. */
  ghost predicate ValidPlan(plan: seq<Server>) {
    && plan != []
    && (forall s :: 0 <= s < |plan| ==> plan[s].size > 0)
    && (forall s, j :: 0 <= s < |plan| && 0 <= j < |plan[s].known| ==> plan[s].known[j] < s)
    && (forall s :: 0 < s < |plan| ==> plan[s].known != [])
  }

  ghost predicate InPlan(plan: seq<Server>, r: Ref) {
    r.server < |plan| && r.counter < plan[r.server].size
  }

  // ----- the system -----

  datatype Written = Written(key: string, content: Content, at: Ref)

  datatype Sys = Sys(
    plan: seq<Server>,
    actors: map<Ref, Actor>,
    updates: multiset<Packet>,    // told and not yet handled
    waiting: set<Ref>,            // actors that have not handled their introduction
    links: multiset<Link>,        // introductions of newer servers not yet handled
    puts: set<Written>)           // history: everything written so far

  datatype Step =
    | Put(at: Ref, key: string, c: Content)
    | Introduce(at: Ref)
    | Join(l: Link)
    | Sync(at: Ref)
    | Deliver(p: Packet)

  /**
   Messages are handled in any order, except that an actor handles its own introduction before that of
   another server: it was in the mailbox before anybody else learnt of the actor. The sync timer starts
   with the introduction. Every Put comes from a channel of its own.
   */
  ghost predicate Enabled(s: Sys, e: Step) {
    match e
    case Put(at, key, c) => at in s.actors && forall w :: w in s.puts ==> w.content.uid != c.uid
    case Introduce(at) => at in s.waiting && at in s.actors && at.server < |s.plan|
    case Join(l) => l in s.links && l.dest in s.actors && l.dest !in s.waiting
    case Sync(at) => at in s.actors && at !in s.waiting
    case Deliver(p) => p in s.updates && p.dest in s.actors
  }

  ghost function Next(s: Sys, e: Step): Sys
    requires Enabled(s, e)
  {
    match e
    case Put(at, key, c) =>
      s.(actors := s.actors[at := OnPut(s.actors[at], key, c)], puts := s.puts + {Written(key, c, at)})
    case Introduce(at) =>
      var server := s.plan[at.server];
      var a := OnIntro(s.actors[at], Locals(at.server, server.size), Reps(server.known));
      s.(actors := s.actors[at := a],
         waiting := s.waiting - {at},
         updates := s.updates + multiset(ToAll(a.local, a.storage)))
    case Join(l) =>
      s.(actors := s.actors[l.dest := OnRIntro(s.actors[l.dest], l.sender)], links := s.links - multiset{l})
    case Sync(at) =>
      s.(actors := s.actors[at := OnSync(s.actors[at])], updates := s.updates + multiset(SyncPackets(s.actors[at])))
    case Deliver(p) =>
      s.(actors := s.actors[p.dest := OnUpdate(s.actors[p.dest], p.update)], updates := s.updates - multiset{p})
  }

  ghost predicate Starts(s: Sys) {
    && ValidPlan(s.plan)
    && (forall r :: r in s.actors <==> InPlan(s.plan, r))
    && (forall r :: r in s.actors ==> s.actors[r] == NewActor(r))
    && s.updates == multiset{} && s.waiting == s.actors.Keys && s.puts == {}
    && (forall l :: l in s.links ==> InPlan(s.plan, l.dest) && InPlan(s.plan, l.sender))
    && (forall v, j :: 0 <= v < |s.plan| && 0 <= j < |s.plan[v].known| ==>
          Link(Rep(s.plan[v].known[j]), Rep(v)) in s.links)
  }

  /** Step `i` leads from state `i` to the next one. */
  ghost predicate StepAt(run: seq<Sys>, steps: seq<Step>, i: nat) {
    && i < |steps| && i + 1 < |run|
    && Enabled(run[i], steps[i]) && run[i + 1] == Next(run[i], steps[i])
  }

  ghost predicate IsRun(run: seq<Sys>, steps: seq<Step>) {
    && |run| == |steps| + 1
    && Starts(run[0])
    && (forall i: nat :: i < |steps| ==> StepAt(run, steps, i))
  }

  // ----- what every step keeps -----

  ghost predicate Wrote(s: Sys, key: string, c: Content) {
    exists w :: w in s.puts && w.key == key && w.content == c
  }

  /** What is yet to be passed on is what is stored. */
  ghost predicate Listed(a: Actor) {
    forall k :: k in a.putList ==> k in a.storage && a.putList[k] == a.storage[k]
  }

  /** Before its introduction an actor has passed nothing on; afterwards it knows its neighbours. */
  ghost predicate Placed(s: Sys, r: Ref)
    requires r in s.actors && InPlan(s.plan, r)
  {
    var a, server := s.actors[r], s.plan[r.server];
    && a.self == r
    && (r in s.waiting ==> forall k :: k in a.storage ==> k in a.putList)
    && (r !in s.waiting ==>
          a.local == Locals(r.server, server.size) && forall d :: d in server.known ==> Rep(d) in a.remote)
    && (forall t :: t in a.remote || t in a.local ==> InPlan(s.plan, t))
  }

  ghost predicate Linked(s: Sys) {
    && (forall l :: l in s.links ==> InPlan(s.plan, l.sender))
    && (forall v, d :: 0 <= v < |s.plan| && d in s.plan[v].known ==>
          || Link(Rep(d), Rep(v)) in s.links
          || (Rep(d) in s.actors && Rep(d) !in s.waiting && Rep(v) in s.actors[Rep(d)].remote))
  }

  ghost predicate Genuine(s: Sys) {
    && (forall r, k :: r in s.actors && k in s.actors[r].storage ==> Wrote(s, k, s.actors[r].storage[k]))
    && (forall p, k :: p in s.updates && k in p.update ==> Wrote(s, k, p.update[k]))
  }

  ghost predicate Sane(s: Sys) {
    && ValidPlan(s.plan)
    && (forall r :: r in s.actors <==> InPlan(s.plan, r))
    && (forall r :: r in s.actors ==> Listed(s.actors[r]) && Placed(s, r))
    && (forall p :: p in s.updates ==> p.dest in s.actors)
    && Linked(s) && Genuine(s)
  }
}
