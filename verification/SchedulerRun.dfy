/**
 Runs of the scheduler over every order of joins, requests, results and lost connections.
 */
module SchedulerRun {
  import opened Mining
  import opened Scheduler

  datatype Piece = Piece(client: nat, range: Interval)

  /** The scheduler, and the history of its connections. */
  datatype World = World(
    s: Sched,
    seen: set<nat>,              // connections that have joined, asked or failed
    miners: set<nat>,            // joined and not failed
    asked: map<nat, Request>,    // client --> what it asked for
    done: set<Piece>,            // ranges whose results have come in
    gone: set<nat>,              // failed connections
    answered: set<nat>,          // clients that were sent a result
    part: set<Piece>)            // of `done`, what came in since the client's last result

  datatype Event =
    | Join(id: nat)
    | Ask(id: nat, data: string, lower: nat, upper: nat)
    | Result(id: nat, hash: nat, nonce: nat)
    | Fail(id: nat)

  function Live(w: World): set<nat> {
    w.asked.Keys - w.gone
  }

  /**
   Connections have ids of their own and are used by a miner or by a client with one request, whose range
   stays clear of 2^64. Results come from working miners. The server does not crash: the range of a lost
   miner is still in its client's task.
   */
  predicate Enabled(w: World, e: Event) {
    match e
    case Join(id) => id !in w.seen
    case Ask(id, data, lower, upper) => id !in w.seen && lower <= upper && upper + CHUNK < WORD
    case Result(id, _, _) => id in w.s.work
    case Fail(id) => id !in w.gone && CanReplace(w.s, id)
  }

  /** The range whose result comes in, if its client's task is still there. */
  function Finished(s: Sched, miner: nat): set<Piece> {
    var client := ClientOf(s, miner);
    if client in s.tasks && miner in s.tasks[client].info then {Piece(client, s.tasks[client].info[miner])} else {}
  }

  function Answers(s: Sched, t: Sched, miner: nat): set<nat> {
    if ClientOf(s, miner) in s.tasks && ClientOf(s, miner) !in t.tasks then {ClientOf(s, miner)} else {}
  }

  /** The ranges that a result would be about when `miner` reports: those of the present task. */
  function Given(w: World, miner: nat): set<Piece> {
    w.part + Finished(w.s, miner)
  }

  function Without(pieces: set<Piece>, clients: set<nat>): set<Piece> {
    set p | p in pieces && p.client !in clients
  }

  function Next(w: World, e: Event): World
    requires Enabled(w, e)
  {
    match e
    case Join(id) => w.(s := OnJoin(w.s, id), seen := w.seen + {id}, miners := w.miners + {id})
    case Ask(id, data, lower, upper) =>
      w.(s := OnRequest(w.s, id, data, lower, upper), seen := w.seen + {id},
         asked := w.asked[id := Request(id, data, lower, upper)])
    case Result(id, hash, nonce) =>
      var t := OnResult(w.s, id, hash, nonce);
      w.(s := t, done := w.done + Finished(w.s, id), answered := w.answered + Answers(w.s, t, id),
         part := Without(Given(w, id), Answers(w.s, t, id)))
    case Fail(id) =>
      w.(s := OnError(w.s, id), seen := w.seen + {id}, miners := w.miners - {id}, gone := w.gone + {id})
  }

  // ----- the crew: every miner is in exactly one place -----

  ghost predicate Crew(free: seq<nat>, working: set<nat>, miners: set<nat>) {
    && (forall i, j :: 0 <= i < j < |free| ==> free[i] != free[j])
    && (forall m :: m in free ==> m !in working)
    && (forall m :: m in miners <==> m in free || m in working)
  }

  predicate NoIdling(s: Sched) {
    s.free == [] || s.queue == []
  }

  lemma HireFirst(free: seq<nat>, working: set<nat>, miners: set<nat>)
    requires Crew(free, working, miners) && free != []
    ensures Crew(free[1..], working + {free[0]}, miners)
  {
    var rest := free[1..];
    assert forall i :: 0 <= i < |rest| ==> rest[i] == free[i + 1];
    forall m ensures m in miners <==> m in rest || m in working + {free[0]} {
      assert m in free <==> m == free[0] || m in rest;
    }
  }

  lemma AddFree(free: seq<nat>, working: set<nat>, miners: set<nat>, m: nat)
    requires Crew(free, working, miners) && m !in free
    ensures Crew(free + [m], working - {m}, miners + {m})
  {
  }

  lemma {:induction false} DropsId(ids: seq<nat>, id: nat)
    requires forall i, j :: 0 <= i < j < |ids| ==> ids[i] != ids[j]
    ensures var rest := WithoutId(ids, id);
            && (forall i, j :: 0 <= i < j < |rest| ==> rest[i] != rest[j])
            && (forall m :: m in rest <==> m in ids && m != id)
  {
    if ids != [] {
      assert forall i :: 0 <= i < |ids[1..]| ==> ids[1..][i] == ids[i + 1];
      DropsId(ids[1..], id);
      assert forall m :: m in ids <==> m == ids[0] || m in ids[1..];
      assert ids[0] !in ids[1..];
    }
  }

  lemma {:induction false} SpreadCrew(s: Sched, client: nat, data: string, lower: nat, upper: nat, miners: set<nat>)
    requires Crew(s.free, s.work.Keys, miners) && NoIdling(s)
    ensures var t := Spread(s, client, data, lower, upper);
            Crew(t.free, t.work.Keys, miners) && NoIdling(t)
    decreases |s.free|
  {
    if s.free != [] && lower < upper {
      var end := ChunkEnd(lower, upper);
      var t := Give(s.(free := s.free[1..]), s.free[0], client, data, Interval(lower, end));
      HireFirst(s.free, s.work.Keys, miners);
      assert t.work.Keys == s.work.Keys + {s.free[0]};
      SpreadCrew(t, client, data, end, upper, miners);
    }
  }

  lemma JoinCrew(s: Sched, m: nat, miners: set<nat>)
    requires Crew(s.free, s.work.Keys, miners) && NoIdling(s) && m !in miners
    ensures Crew(OnJoin(s, m).free, OnJoin(s, m).work.Keys, miners + {m}) && NoIdling(OnJoin(s, m))
  {
    var t := OnJoin(s, m);
    if s.queue == [] {
      AddFree(s.free, s.work.Keys, miners, m);
      assert s.work.Keys - {m} == s.work.Keys;
    } else {
      assert t.work.Keys == s.work.Keys + {m};
    }
  }

  lemma AskCrew(s: Sched, client: nat, data: string, lower: nat, upper: nat, miners: set<nat>)
    requires Crew(s.free, s.work.Keys, miners) && NoIdling(s)
    ensures var t := OnRequest(s, client, data, lower, upper);
            Crew(t.free, t.work.Keys, miners) && NoIdling(t)
  {
    if s.free != [] && Size(lower, upper) <= CHUNK {
      HireFirst(s.free, s.work.Keys, miners);
      assert OnRequest(s, client, data, lower, upper).work.Keys == s.work.Keys + {s.free[0]};
    } else if s.free != [] {
      SpreadCrew(s, client, data, lower, upper, miners);
    }
  }

  lemma ResultCrew(s: Sched, m: nat, hash: nat, nonce: nat, miners: set<nat>)
    requires Crew(s.free, s.work.Keys, miners) && NoIdling(s) && m in s.work
    ensures var t := OnResult(s, m, hash, nonce);
            Crew(t.free, t.work.Keys, miners) && NoIdling(t)
  {
    var t := OnResult(s, m, hash, nonce);
    if s.queue == [] {
      AddFree(s.free, s.work.Keys, miners, m);
      assert t.free == s.free + [m] && t.work.Keys == s.work.Keys - {m};
      assert miners + {m} == miners;
    } else {
      assert t.work.Keys == s.work.Keys + {m} && s.work.Keys + {m} == s.work.Keys;
      assert t.free == s.free;
    }
  }

  lemma FailCrew(s: Sched, id: nat, miners: set<nat>)
    requires Crew(s.free, s.work.Keys, miners) && NoIdling(s) && CanReplace(s, id)
    requires id in miners ==> id !in s.tasks && !Waits(s.queue, id)
    ensures var t := OnError(s, id);
            Crew(t.free, t.work.Keys, miners - {id}) && NoIdling(t)
  {
    var t := OnError(s, id);
    if id in s.tasks || Waits(s.queue, id) {
      assert miners - {id} == miners;
      assert s.queue == [] ==> t.queue == [];
    } else if id in s.free {
      DropsId(s.free, id);
    } else if id in s.work {
      ReplaceCrew(s, id, miners);
    } else {
      assert miners - {id} == miners;
    }
  }

  lemma ReplaceCrew(s: Sched, id: nat, miners: set<nat>)
    requires Crew(s.free, s.work.Keys, miners) && NoIdling(s)
    requires id in s.work && s.work[id] in s.tasks && id in s.tasks[s.work[id]].info
    ensures Crew(Replace(s, id).free, Replace(s, id).work.Keys, miners - {id}) && NoIdling(Replace(s, id))
  {
    var t := Replace(s, id);
    assert Crew(s.free, s.work.Keys - {id}, miners - {id});
    if s.free != [] {
      HireFirst(s.free, s.work.Keys - {id}, miners - {id});
      assert t.work.Keys == s.work.Keys - {id} + {s.free[0]};
    } else {
      assert t.work.Keys == s.work.Keys - {id};
    }
  }
}
