/**
 The bitcoin server's scheduler: free and working miners, the tasks they work on, and the queue of
 requests and remainders that wait for a miner.
 */
module Scheduler {
  import opened Mining

  datatype Interval = Interval(lower: nat, upper: nat)

  datatype Request = Request(client: nat, data: string, lower: nat, upper: nat)

  /** `value` is 0 until the first result. */
  datatype Task = Task(data: string, minerNum: int, info: map<nat, Interval>, value: nat, nonce: nat)

  datatype Message = Work(miner: nat, data: string, range: Interval) | Answer(client: nat, hash: nat, nonce: nat)

  datatype Sched = Sched(
    free: seq<nat>,
    work: map<nat, nat>,        // miner --> client
    tasks: map<nat, Task>,      // client --> task
    queue: seq<Request>,
    sent: seq<Message>)         // everything written to miners and clients

  const CHUNK := 10000

  /** 64-bit arithmetic wraps around. */
  function Plus(a: nat, b: nat): nat {
    (a + b) % WORD
  }

  function Size(lower: nat, upper: nat): nat {
    (upper - lower + 1) % WORD
  }

  // ----- handing out work -----

  function Give(s: Sched, miner: nat, client: nat, data: string, range: Interval): Sched {
    var task :=
      if client in s.tasks
      then s.tasks[client].(info := s.tasks[client].info[miner := range], minerNum := s.tasks[client].minerNum + 1)
      else Task(data, 1, map[miner := range], 0, 0);
    s.(work := s.work[miner := client], tasks := s.tasks[client := task], sent := s.sent + [Work(miner, data, range)])
  }

  /** The first waiting request, or its first chunk; the rest goes to the back and shares an end point. */
  function Assign(s: Sched, miner: nat): Sched
    requires s.queue != []
  {
    var r := s.queue[0];
    if Size(r.lower, r.upper) <= CHUNK
    then Give(s.(queue := s.queue[1..]), miner, r.client, r.data, Interval(r.lower, r.upper))
    else
      var cut := Plus(r.lower, CHUNK);
      Give(s.(queue := s.queue[1..] + [r.(lower := cut)]), miner, r.client, r.data, Interval(r.lower, cut))
  }

  function OnJoin(s: Sched, miner: nat): Sched {
    if s.queue == [] then s.(free := s.free + [miner]) else Assign(s, miner)
  }

  function ChunkEnd(lower: nat, upper: nat): nat {
    if Plus(lower, CHUNK) > upper then upper else Plus(lower, CHUNK)
  }

  /** A large request is spread over the free miners; what is left over waits. */
  function Spread(s: Sched, client: nat, data: string, lower: nat, upper: nat): Sched
    decreases |s.free|
  {
    if s.free != [] && lower < upper then
      var end := ChunkEnd(lower, upper);
      Spread(Give(s.(free := s.free[1..]), s.free[0], client, data, Interval(lower, end)), client, data, end, upper)
    else if s.free == [] && lower < upper then s.(queue := s.queue + [Request(client, data, lower, upper)])
    else s
  }

  function OnRequest(s: Sched, client: nat, data: string, lower: nat, upper: nat): Sched {
    if s.free == [] then s.(queue := s.queue + [Request(client, data, lower, upper)])
    else if Size(lower, upper) <= CHUNK then
      var miner, range := s.free[0], Interval(lower, upper);
      s.(free := s.free[1..], work := s.work[miner := client],
         tasks := s.tasks[client := Task(data, 1, map[miner := range], 0, 0)],
         sent := s.sent + [Work(miner, data, range)])
    else Spread(s, client, data, lower, upper)
  }

  // ----- results -----

  /** The client a miner works for; 0, which no connection has, for a miner that does not. */
  function ClientOf(s: Sched, miner: nat): nat {
    if miner in s.work then s.work[miner] else 0
  }

  function Release(s: Sched, client: nat, miner: nat): Sched {
    if client in s.tasks
    then s.(tasks := s.tasks[client := s.tasks[client].(info := s.tasks[client].info - {miner},
                                                        minerNum := s.tasks[client].minerNum - 1)])
    else s
  }

  function Reuse(s: Sched, miner: nat): Sched {
    if s.queue == [] then s.(free := s.free + [miner], work := s.work - {miner}) else Assign(s, miner)
  }

  function Better(t: Task, hash: nat, nonce: nat): Task {
    if t.value == 0 || hash < t.value then t.(value := hash, nonce := nonce) else t
  }

  function Conclude(s: Sched, client: nat, hash: nat, nonce: nat): Sched
    requires client in s.tasks
  {
    var t := Better(s.tasks[client], hash, nonce);
    if t.minerNum == 0
    then s.(sent := s.sent + [Answer(client, t.value, t.nonce)], tasks := s.tasks - {client})
    else s.(tasks := s.tasks[client := t])
  }

  /** The miner gets new work before the task is looked at again. */
  function OnResult(s: Sched, miner: nat, hash: nat, nonce: nat): Sched {
    var client := ClientOf(s, miner);
    var next := Reuse(Release(s, client, miner), miner);
    if client in s.tasks then Conclude(next, client, hash, nonce) else next
  }

  // ----- lost connections -----

  function WithoutFirst(queue: seq<Request>, client: nat): seq<Request> {
    if queue == [] then []
    else if queue[0].client == client then queue[1..]
    else [queue[0]] + WithoutFirst(queue[1..], client)
  }

  predicate Waits(queue: seq<Request>, client: nat) {
    exists i :: 0 <= i < |queue| && queue[i].client == client
  }

  function WithoutId(ids: seq<nat>, id: nat): seq<nat> {
    if ids == [] then [] else if ids[0] == id then ids[1..] else [ids[0]] + WithoutId(ids[1..], id)
  }

  /** The scheduler looks up the range of a lost miner in its client's task, which must still be there. */
  predicate CanReplace(s: Sched, id: nat) {
    (id in s.work && id !in s.tasks && !Waits(s.queue, id) && id !in s.free) ==>
      s.work[id] in s.tasks && id in s.tasks[s.work[id]].info
  }

  /** The range of a lost miner goes to a free miner, or to the front of the queue. */
  function Replace(s: Sched, id: nat): Sched
    requires id in s.work && s.work[id] in s.tasks && id in s.tasks[s.work[id]].info
  {
    var client := s.work[id];
    var task := s.tasks[client];
    var range := task.info[id];
    var t := Release(s, client, id).(work := s.work - {id});
    if t.free != [] then Give(t.(free := t.free[1..]), t.free[0], client, task.data, range)
    else t.(queue := [Request(client, task.data, range.lower, range.upper)] + t.queue)
  }

  /** A client that still has something here is forgotten; otherwise the lost connection was a miner's. */
  function OnError(s: Sched, id: nat): Sched
    requires CanReplace(s, id)
  {
    if id in s.tasks || Waits(s.queue, id) then s.(queue := WithoutFirst(s.queue, id), tasks := s.tasks - {id})
    else if id in s.free then s.(free := WithoutId(s.free, id))
    else if id in s.work then Replace(s, id)
    else s
  }

  // ----- the event loop -----

  lemma {:induction false} FirstAt(queue: seq<Request>, client: nat, i: nat)
    requires i < |queue| && queue[i].client == client && (forall j :: 0 <= j < i ==> queue[j].client != client)
    ensures WithoutFirst(queue, client) == queue[..i] + queue[i + 1..]
  {
    if i > 0 {
      FirstAt(queue[1..], client, i - 1);
      assert queue[..i] == [queue[0]] + queue[1..][..i - 1];
      assert queue[1..][i..] == queue[i + 1..];
    }
  }

  lemma {:induction false} NoneWaits(queue: seq<Request>, client: nat)
    requires !Waits(queue, client)
    ensures WithoutFirst(queue, client) == queue
  {
    if queue != [] {
      assert queue[0].client != client;
      assert forall i :: 0 <= i < |queue[1..]| ==> queue[1..][i] == queue[i + 1];
      NoneWaits(queue[1..], client);
    }
  }

  lemma {:induction false} FirstIdAt(ids: seq<nat>, id: nat, i: nat)
    requires i < |ids| && ids[i] == id && (forall j :: 0 <= j < i ==> ids[j] != id)
    ensures WithoutId(ids, id) == ids[..i] + ids[i + 1..]
  {
    if i > 0 {
      FirstIdAt(ids[1..], id, i - 1);
      assert ids[..i] == [ids[0]] + ids[1..][..i - 1];
      assert ids[1..][i..] == ids[i + 1..];
    }
  }

  class Server {
    var freeMiner: seq<nat>
    var workMiner: map<nat, nat>
    var taskMap: map<nat, Task>
    var requestQueue: seq<Request>
    var sent: seq<Message>

    ghost function State(): Sched
      reads this
    {
      Sched(freeMiner, workMiner, taskMap, requestQueue, sent)
    }

    constructor ()
      ensures State() == Sched([], map[], map[], [], [])
    {
      freeMiner, workMiner, taskMap, requestQueue, sent := [], map[], map[], [], [];
    }

    method GiveWork(miner: nat, client: nat, data: string, range: Interval)
      modifies this
      ensures State() == Give(old(State()), miner, client, data, range)
    {
      sent := sent + [Work(miner, data, range)];
      workMiner := workMiner[miner := client];
      if client in taskMap {
        var task := taskMap[client];
        taskMap := taskMap[client := task.(info := task.info[miner := range], minerNum := task.minerNum + 1)];
      } else {
        taskMap := taskMap[client := Task(data, 1, map[miner := range], 0, 0)];
      }
    }

    method AssignNext(miner: nat)
      requires requestQueue != []
      modifies this
      ensures State() == Assign(old(State()), miner)
    {
      var r := requestQueue[0];
      if Size(r.lower, r.upper) <= CHUNK {
        requestQueue := requestQueue[1..];
        GiveWork(miner, r.client, r.data, Interval(r.lower, r.upper));
      } else {
        var cut := Plus(r.lower, CHUNK);
        requestQueue := requestQueue[1..] + [r.(lower := cut)];
        GiveWork(miner, r.client, r.data, Interval(r.lower, cut));
      }
    }

    method Join(miner: nat)
      modifies this
      ensures State() == OnJoin(old(State()), miner)
    {
      if requestQueue == [] {
        freeMiner := freeMiner + [miner];
      } else {
        AssignNext(miner);
      }
    }

    method SpreadOut(client: nat, data: string, lower: nat, upper: nat)
      modifies this
      ensures State() == Spread(old(State()), client, data, lower, upper)
    {
      ghost var goal := Spread(State(), client, data, lower, upper);
      var lowerBound: nat := lower;
      while freeMiner != [] && lowerBound < upper
        invariant Spread(State(), client, data, lowerBound, upper) == goal
        decreases |freeMiner|
      {
        var miner := freeMiner[0];
        freeMiner := freeMiner[1..];
        var end := ChunkEnd(lowerBound, upper);
        GiveWork(miner, client, data, Interval(lowerBound, end));
        lowerBound := end;
      }
      if freeMiner == [] && lowerBound < upper {
        requestQueue := requestQueue + [Request(client, data, lowerBound, upper)];
      }
    }

    method Ask(client: nat, data: string, lower: nat, upper: nat)
      modifies this
      ensures State() == OnRequest(old(State()), client, data, lower, upper)
    {
      if freeMiner == [] {
        requestQueue := requestQueue + [Request(client, data, lower, upper)];
      } else if Size(lower, upper) <= CHUNK {
        var miner := freeMiner[0];
        freeMiner := freeMiner[1..];
        sent := sent + [Work(miner, data, Interval(lower, upper))];
        workMiner := workMiner[miner := client];
        taskMap := taskMap[client := Task(data, 1, map[miner := Interval(lower, upper)], 0, 0)];
      } else {
        SpreadOut(client, data, lower, upper);
      }
    }

    method ReleaseMiner(client: nat, miner: nat)
      modifies this`taskMap
      ensures State() == Release(old(State()), client, miner)
    {
      if client in taskMap {
        var task := taskMap[client];
        taskMap := taskMap[client := task.(info := task.info - {miner}, minerNum := task.minerNum - 1)];
      }
    }

    method ReuseMiner(miner: nat)
      modifies this
      ensures State() == Reuse(old(State()), miner)
    {
      if requestQueue == [] {
        freeMiner := freeMiner + [miner];
        workMiner := workMiner - {miner};
      } else {
        AssignNext(miner);
      }
    }

    method Settle(client: nat, hash: nat, nonce: nat)
      requires client in taskMap
      modifies this
      ensures State() == Conclude(old(State()), client, hash, nonce)
    {
      var task := taskMap[client];
      if task.value == 0 || hash < task.value {
        task := task.(value := hash, nonce := nonce);
        taskMap := taskMap[client := task];
      }
      if task.minerNum == 0 {
        sent := sent + [Answer(client, task.value, task.nonce)];
        taskMap := taskMap - {client};
      }
    }

    method Result(miner: nat, hash: nat, nonce: nat)
      modifies this
      ensures State() == OnResult(old(State()), miner, hash, nonce)
    {
      var client := if miner in workMiner then workMiner[miner] else 0;
      var known := client in taskMap;
      ReleaseMiner(client, miner);
      ReuseMiner(miner);
      if known {
        Settle(client, hash, nonce);
      }
    }

    method DropRequest(client: nat) returns (found: bool)
      modifies this`requestQueue
      ensures requestQueue == WithoutFirst(old(requestQueue), client) && found == Waits(old(requestQueue), client)
    {
      for i := 0 to |requestQueue|
        invariant requestQueue == old(requestQueue)
        invariant forall j :: 0 <= j < i ==> requestQueue[j].client != client
      {
        if requestQueue[i].client == client {
          FirstAt(requestQueue, client, i);
          requestQueue := requestQueue[..i] + requestQueue[i + 1..];
          return true;
        }
      }
      NoneWaits(requestQueue, client);
      return false;
    }

    method DropFree(id: nat) returns (found: bool)
      modifies this`freeMiner
      ensures found == (id in old(freeMiner))
      ensures freeMiner == if found then WithoutId(old(freeMiner), id) else old(freeMiner)
    {
      for i := 0 to |freeMiner|
        invariant freeMiner == old(freeMiner)
        invariant id !in freeMiner[..i]
      {
        if freeMiner[i] == id {
          FirstIdAt(freeMiner, id, i);
          freeMiner := freeMiner[..i] + freeMiner[i + 1..];
          return true;
        }
      }
      return false;
    }

    method ReplaceMiner(id: nat)
      requires id in workMiner && workMiner[id] in taskMap && id in taskMap[workMiner[id]].info
      modifies this
      ensures State() == Replace(old(State()), id)
    {
      var client := workMiner[id];
      var task := taskMap[client];
      var range := task.info[id];
      taskMap := taskMap[client := task.(info := task.info - {id}, minerNum := task.minerNum - 1)];
      workMiner := workMiner - {id};
      if freeMiner != [] {
        var miner := freeMiner[0];
        freeMiner := freeMiner[1..];
        GiveWork(miner, client, task.data, range);
      } else {
        requestQueue := [Request(client, task.data, range.lower, range.upper)] + requestQueue;
      }
    }

    /** Following the missing task of a lost miner stops the server, which has changed nothing by then. */
    method Fail(id: nat) returns (panicked: bool)
      modifies this
      ensures panicked <==> !CanReplace(old(State()), id)
      ensures panicked ==> State() == old(State())
      ensures !panicked ==> State() == OnError(old(State()), id)
    {
      ghost var queue := requestQueue;
      var waiting := DropRequest(id);
      var working := id in taskMap;
      if working {
        taskMap := taskMap - {id};
      }
      if !(working || waiting) {
        NoneWaits(queue, id);
        var free := DropFree(id);
        if !free && id in workMiner {
          if !(workMiner[id] in taskMap && id in taskMap[workMiner[id]].info) {
            return true;
          }
          ReplaceMiner(id);
        }
      }
      return false;
    }
  }
}
