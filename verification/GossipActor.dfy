/**
 One query actor of the key-value store: last-writer-wins storage, and the puts it has yet to pass on.
 */
module GossipActor {
  import opened Collections

  /** What is stored under a key; `uid` names the channel the Put came from, a new one for every Put. */
  datatype Content = Content(uid: string, value: string, time: int)

  type Store = map<string, Content>

  /** An actor's address: its server, and its number among the actors of that server. */
  datatype Ref = Ref(server: nat, counter: nat)

  datatype Packet = Packet(dest: Ref, update: Store)

  datatype Actor = Actor(self: Ref, storage: Store, putList: Store, local: seq<Ref>, remote: seq<Ref>)

  function NewActor(self: Ref): Actor {
    Actor(self, map[], map[], [], [])
  }

  // ----- the order of writes -----

  /** Bytewise comparison of uids. */
  predicate Less(a: string, b: string) {
    b != [] && (a == [] || a[0] < b[0] || (a[0] == b[0] && Less(a[1..], b[1..])))
  }

  lemma {:induction false} LessIrreflexive(a: string)
    ensures !Less(a, a)
  {
    if a != [] {
      LessIrreflexive(a[1..]);
    }
  }

  lemma {:induction false} LessTransitive(a: string, b: string, c: string)
    requires Less(a, b) && Less(b, c)
    ensures Less(a, c)
  {
    if a != [] && a[0] == b[0] && b[0] == c[0] {
      LessTransitive(a[1..], b[1..], c[1..]);
    }
  }

  lemma {:induction false} LessTotal(a: string, b: string)
    ensures a == b || Less(a, b) || Less(b, a)
  {
    if a != [] && b != [] && a[0] == b[0] {
      LessTotal(a[1..], b[1..]);
      assert a == [a[0]] + a[1..] && b == [b[0]] + b[1..];
    }
  }

  predicate Newer(a: Content, b: Content) {
    a.time > b.time || (a.time == b.time && Less(b.uid, a.uid))
  }

  predicate AtLeast(a: Content, b: Content) {
    a == b || Newer(a, b)
  }

  lemma AtLeastTransitive(a: Content, b: Content, c: Content)
    requires AtLeast(a, b) && AtLeast(b, c)
    ensures AtLeast(a, c)
  {
    if Newer(a, b) && Newer(b, c) && a.time == b.time == c.time {
      LessTransitive(c.uid, b.uid, a.uid);
    }
  }

  lemma AtLeastAntisymmetric(a: Content, b: Content)
    requires AtLeast(a, b) && AtLeast(b, a)
    ensures a == b
  {
    if a != b {
      LessTransitive(a.uid, b.uid, a.uid);
      LessIrreflexive(a.uid);
    }
  }

  /** Writes from different channels are never tied. */
  lemma NewerTotal(a: Content, b: Content)
    requires a.uid != b.uid
    ensures Newer(a, b) != Newer(b, a)
  {
    LessTotal(a.uid, b.uid);
    if Less(a.uid, b.uid) && Less(b.uid, a.uid) {
      LessTransitive(a.uid, b.uid, a.uid);
      LessIrreflexive(a.uid);
    }
  }

  // ----- the same order on times and uids -----

  /** At `p` the strings differ for the first time, and `a` ends there or has the smaller byte. */
  predicate DiffersAt(a: string, b: string, p: nat) {
    p <= |a| && p < |b| && a[..p] == b[..p] && (p == |a| || a[p] < b[p])
  }

  ghost predicate Precedes(a: string, b: string) {
    exists p: nat :: DiffersAt(a, b, p)
  }

  lemma {:induction false} LessDiffers(a: string, b: string) returns (p: nat)
    requires Less(a, b)
    ensures DiffersAt(a, b, p)
  {
    if a == [] || a[0] < b[0] {
      p := 0;
    } else {
      var q := LessDiffers(a[1..], b[1..]);
      p := q + 1;
      assert a[..p] == [a[0]] + a[1..][..q] && b[..p] == [b[0]] + b[1..][..q];
    }
  }

  lemma {:induction false} DiffersLess(a: string, b: string, p: nat)
    requires DiffersAt(a, b, p)
    ensures Less(a, b)
  {
    if p > 0 {
      assert a[0] == a[..p][0] && b[0] == b[..p][0];
      assert a[1..][..p - 1] == a[..p][1..] && b[1..][..p - 1] == b[..p][1..];
      DiffersLess(a[1..], b[1..], p - 1);
    }
  }

  /** The later time wins whatever the uids; of equal times, the greater uid at the first byte that differs. */
  lemma NewerOnFields(a: Content, b: Content)
    ensures a.time > b.time ==> Newer(a, b) && !Newer(b, a)
    ensures a.time == b.time ==> (Newer(a, b) <==> Precedes(b.uid, a.uid))
  {
    if Less(b.uid, a.uid) {
      var p := LessDiffers(b.uid, a.uid);
    }
    if Precedes(b.uid, a.uid) {
      var p: nat :| DiffersAt(b.uid, a.uid, p);
      DiffersLess(b.uid, a.uid, p);
    }
  }

  /** `held` is of a later time than `c`, or of the same time and of the same or a greater uid. */
  ghost predicate Outranks(held: Content, c: Content) {
    held.time > c.time || (held.time == c.time && (held.uid == c.uid || Precedes(c.uid, held.uid)))
  }

  lemma AtLeastOutranks(held: Content, c: Content)
    requires AtLeast(held, c)
    ensures Outranks(held, c)
  {
    NewerOnFields(held, c);
    NewerOnFields(c, held);
  }

  // ----- message handlers -----

  /** A Put overwrites whatever is there. */
  function OnPut(a: Actor, key: string, c: Content): Actor {
    a.(storage := a.storage[key := c], putList := a.putList[key := c])
  }

  predicate Accepts(storage: Store, key: string, c: Content) {
    key !in storage || Newer(c, storage[key])
  }

  function Merged(storage: Store, update: Store): (m: Store)
    ensures m.Keys == storage.Keys + update.Keys
  {
    map k | k in storage.Keys + update.Keys ::
      if k in update && Accepts(storage, k, update[k]) then update[k] else storage[k]
  }

  function Forwarded(storage: Store, putList: Store, update: Store): (m: Store) {
    map k | k in putList.Keys + update.Keys && (k in putList || Accepts(storage, k, update[k])) ::
      if k in update && Accepts(storage, k, update[k]) then update[k] else putList[k]
  }

  /** Every entry that wins is stored and also listed to be passed on. */
  function OnUpdate(a: Actor, update: Store): Actor {
    a.(storage := Merged(a.storage, update), putList := Forwarded(a.storage, a.putList, update))
  }

  /** Which of two entries a merge keeps, on times and uids: the update's if it is later, or has the greater uid. */
  lemma MergeOnFields(a: Actor, update: Store, key: string)
    ensures var m := OnUpdate(a, update).storage;
            && (key in m <==> key in a.storage || key in update)
            && (key in update && key !in a.storage ==> m[key] == update[key])
            && (key in a.storage && key !in update ==> m[key] == a.storage[key])
            && (key in a.storage && key in update ==>
                  var mine, its := a.storage[key], update[key];
                  m[key] == if its.time > mine.time || (its.time == mine.time && Precedes(mine.uid, its.uid))
                            then its else mine)
  {
    if key in a.storage && key in update {
      NewerOnFields(update[key], a.storage[key]);
      NewerOnFields(a.storage[key], update[key]);
    }
  }

  function OnIntro(a: Actor, local: seq<Ref>, remote: seq<Ref>): Actor {
    a.(local := local, remote := remote)
  }

  function OnRIntro(a: Actor, sender: Ref): Actor {
    a.(remote := a.remote + [sender])
  }

  function OnSync(a: Actor): Actor {
    a.(putList := map[])
  }

  function ToAll(refs: seq<Ref>, update: Store): (ps: seq<Packet>)
    ensures |ps| == |refs|
  {
    seq(|refs|, i requires 0 <= i < |refs| => Packet(refs[i], update))
  }

  /** The other actors of the same server: only the counters are compared. */
  function Others(refs: seq<Ref>, counter: nat): (rs: seq<Ref>)
    ensures forall r :: r in rs <==> r in refs && r.counter != counter
  {
    if refs == [] then []
    else
      var rest := Others(refs[..|refs| - 1], counter);
      var last := refs[|refs| - 1];
      assert refs == refs[..|refs| - 1] + [last];
      if last.counter != counter then rest + [last] else rest
  }

  function Targets(a: Actor): seq<Ref> {
    Others(a.local, a.self.counter) + a.remote
  }

  function SyncPackets(a: Actor): seq<Packet> {
    if |a.putList| > 0 then ToAll(Targets(a), a.putList) else []
  }

  lemma SentToAll(refs: seq<Ref>, update: Store, r: Ref)
    ensures Packet(r, update) in ToAll(refs, update) <==> r in refs
    ensures forall p :: p in ToAll(refs, update) ==> p.dest in refs && p.update == update
  {
    var ps := ToAll(refs, update);
    assert forall i :: 0 <= i < |refs| ==> ps[i] == Packet(refs[i], update);
  }

  // ----- the merge loop -----

  lemma StorageTurn(storage: Store, done: Store, more: Store, key: string, c: Content)
    requires key !in done && more == done[key := c]
    ensures Merged(storage, more) ==
            if Accepts(storage, key, c) then Merged(storage, done)[key := c] else Merged(storage, done)
  {
    var m, n := Merged(storage, done), Merged(storage, more);
    assert forall k :: k != key ==> (k in n <==> k in m) && (k in m ==> n[k] == m[k]);
    if Accepts(storage, key, c) {
      IsUpdate(m, n, key, c);
    } else {
      SameMap(m, n);
    }
  }

  lemma PutListTurn(storage: Store, putList: Store, done: Store, more: Store, key: string, c: Content)
    requires key !in done && more == done[key := c]
    ensures var f := Forwarded(storage, putList, done);
            Forwarded(storage, putList, more) == if Accepts(storage, key, c) then f[key := c] else f
  {
    var m, n := Forwarded(storage, putList, done), Forwarded(storage, putList, more);
    assert forall k :: k != key ==> (k in n <==> k in m) && (k in m ==> n[k] == m[k]);
    if Accepts(storage, key, c) {
      IsUpdate(m, n, key, c);
    } else {
      SameMap(m, n);
    }
  }

  lemma MergeTurn(a: Actor, done: Store, more: Store, key: string, c: Content)
    requires key !in done && more == done[key := c]
    ensures Accepts(OnUpdate(a, done).storage, key, c) == Accepts(a.storage, key, c)
    ensures OnUpdate(a, more) ==
            if Accepts(a.storage, key, c) then OnPut(OnUpdate(a, done), key, c) else OnUpdate(a, done)
  {
    StorageTurn(a.storage, done, more, key, c);
    PutListTurn(a.storage, a.putList, done, more, key, c);
  }

  lemma NothingMerged(a: Actor)
    ensures OnUpdate(a, map[]) == a
  {
    assert Merged(a.storage, map[]) == a.storage;
    assert Forwarded(a.storage, a.putList, map[]) == a.putList;
  }

  class QueryActor {
    const self: Ref
    var storage: Store
    var actorList: seq<Ref>
    var putList: Store
    var remoteActorList: seq<Ref>

    ghost function State(): Actor
      reads this
    {
      Actor(self, storage, putList, actorList, remoteActorList)
    }

    constructor (me: Ref)
      ensures State() == NewActor(me)
    {
      self := me;
      storage, putList, actorList, remoteActorList := map[], map[], [], [];
    }

    method Put(key: string, value: string, uid: string, now: int)
      modifies this
      ensures State() == OnPut(old(State()), key, Content(uid, value, now))
    {
      storage := storage[key := Content(uid, value, now)];
      putList := putList[key := Content(uid, value, now)];
    }

    method Tell(refs: seq<Ref>, update: Store, sent: seq<Packet>) returns (outbox: seq<Packet>)
      ensures outbox == sent + ToAll(refs, update)
    {
      outbox := sent;
      for i := 0 to |refs|
        invariant outbox == sent + ToAll(refs[..i], update)
      {
        outbox := outbox + [Packet(refs[i], update)];
        assert ToAll(refs[..i + 1], update) == ToAll(refs[..i], update) + [Packet(refs[i], update)];
      }
      assert refs[..|refs|] == refs;
    }

    method Intro(local: seq<Ref>, remote: seq<Ref>) returns (outbox: seq<Packet>)
      modifies this
      ensures State() == OnIntro(old(State()), local, remote)
      ensures outbox == ToAll(local, storage)
    {
      actorList, remoteActorList := local, remote;
      outbox := Tell(local, storage, []);
    }

    method RIntro(sender: Ref)
      modifies this
      ensures State() == OnRIntro(old(State()), sender)
    {
      remoteActorList := remoteActorList + [sender];
    }

    method Sync() returns (outbox: seq<Packet>)
      modifies this
      ensures State() == OnSync(old(State()))
      ensures outbox == SyncPackets(old(State()))
    {
      outbox := [];
      if |putList| > 0 {
        for i := 0 to |actorList|
          invariant unchanged(this)
          invariant outbox == ToAll(Others(actorList[..i], self.counter), putList)
        {
          var rest := Others(actorList[..i], self.counter);
          assert actorList[..i + 1][..i] == actorList[..i];
          if actorList[i].counter != self.counter {
            outbox := outbox + [Packet(actorList[i], putList)];
            assert ToAll(rest + [actorList[i]], putList) == ToAll(rest, putList) + [Packet(actorList[i], putList)];
          }
        }
        assert actorList[..|actorList|] == actorList;
        var others := Others(actorList, self.counter);
        assert ToAll(others, putList) + ToAll(remoteActorList, putList) == ToAll(others + remoteActorList, putList);
        outbox := Tell(remoteActorList, putList, outbox);
      }
      putList := map[];
    }

    method Take(key: string, content: Content)
      modifies this
      ensures State() == if Accepts(old(storage), key, content) then OnPut(old(State()), key, content) else old(State())
    {
      if key !in storage {
        storage, putList := storage[key := content], putList[key := content];
      } else if storage[key].time < content.time {
        storage, putList := storage[key := content], putList[key := content];
      } else if storage[key].time == content.time && Less(storage[key].uid, content.uid) {
        storage, putList := storage[key := content], putList[key := content];
      }
    }

    /** The map of a received update is walked in no particular order. */
    method Update(update: Store)
      modifies this
      ensures State() == OnUpdate(old(State()), update)
    {
      ghost var was := State();
      ghost var done: Store := map[];
      var todo := update.Keys;
      NothingMerged(was);
      while todo != {}
        invariant todo <= update.Keys && done.Keys == update.Keys - todo
        invariant forall k :: k in done ==> done[k] == update[k]
        invariant State() == OnUpdate(was, done)
      {
        var key :| key in todo;
        ghost var more := done[key := update[key]];
        MergeTurn(was, done, more, key, update[key]);
        Take(key, update[key]);
        todo := todo - {key};
        done := more;
      }
      assert done == update;
    }
  }
}
