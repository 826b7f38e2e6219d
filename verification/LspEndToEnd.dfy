/**
 Client and server in every run: what the server's Read returns for the client's connection is what the client
 wrote, and the other way round.
 */
module LspEndToEnd {
  import opened LspEndpoint
  import opened LspChannel
  import opened LspServer
  import opened LspJoint
  import Loop = LspServerRun

  datatype Step = Client(move: Move) | Server(t: Loop.Turn)

  ghost predicate StepAt(run: seq<Joint>, steps: seq<Step>, id: nat, addr: string, i: nat) {
    && i < |steps| && i + 1 < |run|
    && match steps[i]
       case Client(move) => ClientMoves(run[i], move, run[i + 1])
       case Server(t) => ServerTurns(run[i], id, addr, t, run[i + 1])
  }

  /** The server has just accepted the client, among whatever other connections it has. */
  ghost predicate Accepted(j: Joint, id: nat, addr: string) {
    && Loop.Between(j.s, j.h) && Connected(Net(j.a, j.b)) && Serves(j.s, id, addr, j.b)
    && id in j.h.log && j.h.log[id] == []
  }

  ghost predicate JointRun(run: seq<Joint>, steps: seq<Step>, id: nat, addr: string) {
    && |run| == |steps| + 1
    && Accepted(run[0], id, addr)
    && (forall i: nat :: i < |steps| ==> StepAt(run, steps, id, addr, i))
  }

  lemma AcceptedJoined(j: Joint, id: nat, addr: string)
    requires Accepted(j, id, addr)
    ensures Joined(j, id, addr)
  {
    ConnectedInv(Net(j.a, j.b));
  }

  lemma JoinedStep(run: seq<Joint>, steps: seq<Step>, id: nat, addr: string, i: nat)
    requires StepAt(run, steps, id, addr, i) && Joined(run[i], id, addr)
    ensures Joined(run[i + 1], id, addr)
  {
    match steps[i]
    case Client(move) => ClientKeeps(run[i], id, addr, move, run[i + 1]);
    case Server(t) => ServerKeeps(run[i], id, addr, t, run[i + 1]);
  }

  lemma {:induction false} JoinedAlong(run: seq<Joint>, steps: seq<Step>, id: nat, addr: string, i: nat)
    requires i < |run| && Joined(run[0], id, addr) && forall k: nat :: k < i ==> StepAt(run, steps, id, addr, k)
    ensures Joined(run[i], id, addr)
  {
    if i > 0 {
      var k := i - 1;
      JoinedAlong(run, steps, id, addr, k);
      JoinedStep(run, steps, id, addr, k);
    }
  }

  /**
   End to end: whatever else the server serves, what its Read has returned and will return for the client's
   connection are the first payloads the client wrote, in order, then one error if the connection was lost.
   When the client's Close has returned success, they are all it wrote.
   */
  lemma EndToEnd(run: seq<Joint>, steps: seq<Step>, id: nat, addr: string, i: nat)
    requires JointRun(run, steps, id, addr) && i < |run|
    ensures var j := run[i];
            exists n :: 0 <= n <= |j.a.written| &&
              For(j.h.handed + j.s.results, id) ==
              Items(id, j.a.written[..n]) + (if Loop.Failure(j.h, id) then [Failed(id)] else [])
    ensures var j := run[i];
            j.a.close == Closed(true) ==>
              For(j.h.handed + j.s.results, id) ==
              Items(id, j.a.written) + (if Loop.Failure(j.h, id) then [Failed(id)] else [])
  {
    var j := run[i];
    AcceptedJoined(run[0], id, addr);
    JoinedAlong(run, steps, id, addr, i);
    JoinedReads(j, id, addr);
    assert j.b.read == j.a.written[..|j.b.read|];
  }

  lemma JoinedReads(j: Joint, id: nat, addr: string)
    requires Joined(j, id, addr)
    ensures j.b.read <= j.a.written && (j.a.close == Closed(true) ==> j.b.read == j.a.written)
    ensures For(j.h.handed + j.s.results, id) ==
            Items(id, j.b.read) + (if Loop.Failure(j.h, id) then [Failed(id)] else [])
  {
    ReadIsDelivered(j.b);
    assert j.b.Delivered() == j.b.read;
    if j.a.close == Closed(true) {
      AllAckedDelivered(j.a, j.b);
    }
    assert Loop.ReadsInOrder(j.s, j.h, id);
    assert Loop.Inbox(j.s, id) == [];
    assert Items(id, []) == [];
  }

  /**
   The other direction: what the client has delivered and read are the first payloads written to its connection
   at the server. When the server's Close has returned nil and found the connection, the client has delivered
   all of them.
   */
  lemma BackToClient(run: seq<Joint>, steps: seq<Step>, id: nat, addr: string, i: nat)
    requires JointRun(run, steps, id, addr) && i < |run|
    ensures run[i].a.Delivered() <= run[i].b.written && run[i].a.read <= run[i].b.written
    ensures run[i].h.outcome == Some(true) && id in run[i].h.openAtClose ==> run[i].a.Delivered() == run[i].b.written
  {
    AcceptedJoined(run[0], id, addr);
    JoinedAlong(run, steps, id, addr, i);
    JoinedBack(run[i], id, addr);
  }

  lemma JoinedBack(j: Joint, id: nat, addr: string)
    requires Joined(j, id, addr)
    ensures j.a.Delivered() <= j.b.written && j.a.read <= j.b.written
    ensures j.h.outcome == Some(true) && id in j.h.openAtClose ==> j.a.Delivered() == j.b.written
  {
    ReadIsDelivered(j.a);
    if j.h.outcome == Some(true) && id in j.h.openAtClose {
      assert j.h.gone[id].AllAcked();
      AllAckedDelivered(j.b, j.a);
    }
  }
}
