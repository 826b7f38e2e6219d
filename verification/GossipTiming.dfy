/**
 Neither hypothesis of convergence can be dropped: two servers of one actor each that come to rest with
 different contents, once because of a slow clock and once because the second server joined late.
 */
module GossipTiming {
  import opened GossipActor
  import opened GossipSystem
  import opened GossipConverge

  const A := Ref(0, 0)
  const B := Ref(1, 0)
  const PLAN := [Server(1, []), Server(1, [0])]
  const NEWS := Link(A, B)
  const KEY := "k"
  const EARLY := Content("y", "early", 5)
  const LATE := Content("x", "late", 10)
  const HELLO_A := Packet(A, map[])
  const HELLO_B := Packet(B, map[])

  function At(a: Actor, b: Actor, updates: multiset<Packet>, waiting: set<Ref>, links: multiset<Link>, puts: set<Written>): Sys {
    Sys(PLAN, map[A := a, B := b], updates, waiting, links, puts)
  }

  /** The two actors once they know each other. */
  function KnowsB(storage: Store, putList: Store): Actor {
    Actor(A, storage, putList, [A], [B])
  }

  function KnowsA(storage: Store, putList: Store): Actor {
    Actor(B, storage, putList, [B], [A])
  }

  ghost predicate Then(s: Sys, e: Step, t: Sys) {
    Enabled(s, e) && t == Next(s, e)
  }

  lemma Film(n: nat, states: nat -> Sys, steps: nat -> Step) returns (run: seq<Sys>, es: seq<Step>)
    ensures |run| == n + 1 && (forall i :: 0 <= i <= n ==> run[i] == states(i))
    ensures |es| == n && (forall i :: 0 <= i < n ==> es[i] == steps(i))
    ensures Starts(states(0)) && (forall i: nat :: i < n ==> Then(states(i), steps(i), states(i + 1))) ==> IsRun(run, es)
  {
    run, es := seq(n + 1, i requires 0 <= i <= n => states(i)), seq(n, i requires 0 <= i < n => steps(i));
    if Starts(states(0)) && forall i: nat :: i < n ==> Then(states(i), steps(i), states(i + 1)) {
      forall i: nat | i < n ensures StepAt(run, es, i) {
        assert Then(states(i), steps(i), states(i + 1));
      }
    }
  }

  function Start(): Sys {
    At(NewActor(A), NewActor(B), multiset{}, {A, B}, multiset{NEWS}, {})
  }

  lemma StartIsStart()
    ensures Starts(Start())
  {
    var s := Start();
    forall r ensures r in s.actors <==> InPlan(PLAN, r) {}
    assert s.waiting == s.actors.Keys;
    assert PLAN[1].known[0] == 0;
  }

  // ----- single steps -----

  lemma IntroducesA(b: Actor)
    ensures var a := Actor(A, map[], map[], [A], []);
            && Then(At(NewActor(A), b, multiset{}, {A, B}, multiset{NEWS}, {}), Introduce(A),
                    At(a, b, multiset{HELLO_A}, {B}, multiset{NEWS}, {}))
            && Then(At(a, b, multiset{HELLO_A}, {B}, multiset{NEWS}, {}), Deliver(HELLO_A),
                    At(a, b, multiset{}, {B}, multiset{NEWS}, {}))
  {
    var a := Actor(A, map[], map[], [A], []);
    assert Locals(0, 1) == [A] && Reps([]) == [] && ToAll([A], map[]) == [HELLO_A];
    NothingMerged(a);
  }

  lemma IntroducesB(a: Actor, puts: set<Written>)
    ensures && Then(At(a, NewActor(B), multiset{}, {B}, multiset{NEWS}, puts), Introduce(B),
                    At(a, KnowsA(map[], map[]), multiset{HELLO_B}, {}, multiset{NEWS}, puts))
            && Then(At(a, KnowsA(map[], map[]), multiset{HELLO_B}, {}, multiset{NEWS}, puts), Deliver(HELLO_B),
                    At(a, KnowsA(map[], map[]), multiset{}, {}, multiset{NEWS}, puts))
  {
    assert Locals(1, 1) == [B] && Reps([0]) == [A] && ToAll([B], map[]) == [HELLO_B];
    NothingMerged(KnowsA(map[], map[]));
  }

  lemma JoinsA(storage: Store, b: Actor, puts: set<Written>)
    ensures Then(At(Actor(A, storage, map[], [A], []), b, multiset{}, {}, multiset{NEWS}, puts), Join(NEWS),
                 At(KnowsB(storage, map[]), b, multiset{}, {}, multiset{}, puts))
  {
    var s := At(Actor(A, storage, map[], [A], []), b, multiset{}, {}, multiset{NEWS}, puts);
    assert s.links - multiset{NEWS} == multiset{};
    assert OnRIntro(s.actors[A], B) == KnowsB(storage, map[]);
    assert s.actors[A := KnowsB(storage, map[])] == map[A := KnowsB(storage, map[]), B := b];
  }

  // ----- the second server joins late -----

  const STORE: Store := map[KEY := LATE]
  const PUTS := {Written(KEY, LATE, A)}

  function Alone(storage: Store, putList: Store): Actor {
    Actor(A, storage, putList, [A], [])
  }

  function LateState(i: nat): Sys {
    match i
    case 0 => Start()
    case 1 => At(Alone(map[], map[]), NewActor(B), multiset{HELLO_A}, {B}, multiset{NEWS}, {})
    case 2 => At(Alone(map[], map[]), NewActor(B), multiset{}, {B}, multiset{NEWS}, {})
    case 3 => At(Alone(STORE, STORE), NewActor(B), multiset{}, {B}, multiset{NEWS}, PUTS)
    case 4 => At(Alone(STORE, map[]), NewActor(B), multiset{}, {B}, multiset{NEWS}, PUTS)
    case 5 => At(Alone(STORE, map[]), KnowsA(map[], map[]), multiset{HELLO_B}, {}, multiset{NEWS}, PUTS)
    case 6 => At(Alone(STORE, map[]), KnowsA(map[], map[]), multiset{}, {}, multiset{NEWS}, PUTS)
    case _ => At(KnowsB(STORE, map[]), KnowsA(map[], map[]), multiset{}, {}, multiset{}, PUTS)
  }

  function LateStep(i: nat): Step {
    match i
    case 0 => Introduce(A)
    case 1 => Deliver(HELLO_A)
    case 2 => Put(A, KEY, LATE)
    case 3 => Sync(A)
    case 4 => Introduce(B)
    case 5 => Deliver(HELLO_B)
    case _ => Join(NEWS)
  }

  lemma PutAlone()
    ensures Then(LateState(2), LateStep(2), LateState(3))
  {
    var s := LateState(2);
    assert s.actors[A := Alone(STORE, STORE)] == map[A := Alone(STORE, STORE), B := NewActor(B)];
  }

  lemma SyncAlone()
    ensures Then(LateState(3), LateStep(3), LateState(4))
  {
    var s := LateState(3);
    assert Others([A][..0], 0) == [];
    assert [A][..0] == [];
    assert Targets(s.actors[A]) == [];
    assert s.actors[A := Alone(STORE, map[])] == map[A := Alone(STORE, map[]), B := NewActor(B)];
  }

  lemma LateLink(i: nat)
    requires i < 7
    ensures Then(LateState(i), LateStep(i), LateState(i + 1))
  {
    if i < 2 {
      IntroducesA(NewActor(B));
    } else if i == 2 {
      PutAlone();
    } else if i == 3 {
      SyncAlone();
    } else if i < 6 {
      IntroducesB(Alone(STORE, map[]), PUTS);
    } else {
      JoinsA(STORE, KnowsA(map[], map[]), PUTS);
    }
  }

  lemma LateTiming(i: nat)
    requires i < 7 && Enabled(LateState(i), LateStep(i))
    ensures Harmless(LateState(i), LateStep(i), KEY) <==> i < 6
  {
  }

  lemma LateRest()
    ensures var s := LateState(7);
            && Quiet(s) && A in s.actors && B in s.actors
            && KEY in s.actors[A].storage && KEY !in s.actors[B].storage
  {
  }

  /** What the first server wrote and passed on, to nobody, before the second joined never gets there. */
  lemma LateJoiner() returns (run: seq<Sys>, steps: seq<Step>)
    ensures IsRun(run, steps) && |steps| == 7 && Quiet(run[7])
    ensures forall i: nat :: i < 7 ==> (HarmlessAt(run, steps, KEY, i) <==> i < 6)
    ensures A in run[7].actors && B in run[7].actors
    ensures KEY in run[7].actors[A].storage && KEY !in run[7].actors[B].storage
  {
    run, steps := Film(7, LateState, LateStep);
    StartIsStart();
    forall i: nat | i < 7 ensures Then(LateState(i), LateStep(i), LateState(i + 1)) {
      LateLink(i);
    }
    forall i: nat | i < 7 ensures HarmlessAt(run, steps, KEY, i) <==> i < 6 {
      assert StepAt(run, steps, i);
      LateTiming(i);
    }
    LateRest();
  }

  // ----- a slow clock -----

  const SLOW: Store := map[KEY := EARLY]
  const BOTH := {Written(KEY, LATE, A), Written(KEY, EARLY, B)}

  /** Both actors after the introductions; the rest of the run is between them. */
  function Pair(aStore: Store, aList: Store, bStore: Store, bList: Store, updates: multiset<Packet>, puts: set<Written>): Sys {
    At(KnowsB(aStore, aList), KnowsA(bStore, bList), updates, {}, multiset{}, puts)
  }

  function SlowState(i: nat): Sys {
    match i
    case 0 => Start()
    case 1 => LateState(1)
    case 2 => LateState(2)
    case 3 => At(Alone(map[], map[]), KnowsA(map[], map[]), multiset{HELLO_B}, {}, multiset{NEWS}, {})
    case 4 => At(Alone(map[], map[]), KnowsA(map[], map[]), multiset{}, {}, multiset{NEWS}, {})
    case 5 => Pair(map[], map[], map[], map[], multiset{}, {})
    case 6 => Pair(STORE, STORE, map[], map[], multiset{}, PUTS)
    case 7 => Pair(STORE, map[], map[], map[], multiset{Packet(B, STORE)}, PUTS)
    case 8 => Pair(STORE, map[], STORE, STORE, multiset{}, PUTS)
    case 9 => Pair(STORE, map[], SLOW, SLOW, multiset{}, BOTH)
    case 10 => Pair(STORE, map[], SLOW, map[], multiset{Packet(A, SLOW)}, BOTH)
    case _ => Pair(STORE, map[], SLOW, map[], multiset{}, BOTH)
  }

  function SlowStep(i: nat): Step {
    match i
    case 0 => Introduce(A)
    case 1 => Deliver(HELLO_A)
    case 2 => Introduce(B)
    case 3 => Deliver(HELLO_B)
    case 4 => Join(NEWS)
    case 5 => Put(A, KEY, LATE)
    case 6 => Sync(A)
    case 7 => Deliver(Packet(B, STORE))
    case 8 => Put(B, KEY, EARLY)
    case 9 => Sync(B)
    case _ => Deliver(Packet(A, SLOW))
  }

  lemma PutsA(bs: Store, bl: Store)
    ensures Then(Pair(map[], map[], bs, bl, multiset{}, {}), Put(A, KEY, LATE), Pair(STORE, STORE, bs, bl, multiset{}, PUTS))
  {
    var s := Pair(map[], map[], bs, bl, multiset{}, {});
    assert s.actors[A := KnowsB(STORE, STORE)] == map[A := KnowsB(STORE, STORE), B := KnowsA(bs, bl)];
  }

  lemma PutsB(al: Store)
    ensures Then(Pair(STORE, al, STORE, STORE, multiset{}, PUTS), Put(B, KEY, EARLY),
                 Pair(STORE, al, SLOW, SLOW, multiset{}, BOTH))
  {
    var s := Pair(STORE, al, STORE, STORE, multiset{}, PUTS);
    assert OnPut(s.actors[B], KEY, EARLY) == KnowsA(SLOW, SLOW);
    assert s.actors[B := KnowsA(SLOW, SLOW)] == map[A := KnowsB(STORE, al), B := KnowsA(SLOW, SLOW)];
    assert PUTS + {Written(KEY, EARLY, B)} == BOTH;
  }

  lemma OnlyRemote(self: Ref, other: Ref)
    requires self.counter == 0
    ensures Others([self], self.counter) + [other] == [other]
  {
    assert [self][..0] == [];
    assert Others([self][..0], self.counter) == [];
  }

  lemma SyncsA(store: Store, b: Actor, puts: set<Written>)
    requires |store| > 0
    ensures Then(At(KnowsB(store, store), b, multiset{}, {}, multiset{}, puts), Sync(A),
                 At(KnowsB(store, map[]), b, multiset{Packet(B, store)}, {}, multiset{}, puts))
  {
    var s := At(KnowsB(store, store), b, multiset{}, {}, multiset{}, puts);
    OnlyRemote(A, B);
    assert SyncPackets(s.actors[A]) == [Packet(B, store)];
    assert s.actors[A := KnowsB(store, map[])] == map[A := KnowsB(store, map[]), B := b];
  }

  lemma SyncsB(a: Actor, store: Store, puts: set<Written>)
    requires |store| > 0
    ensures Then(At(a, KnowsA(store, store), multiset{}, {}, multiset{}, puts), Sync(B),
                 At(a, KnowsA(store, map[]), multiset{Packet(A, store)}, {}, multiset{}, puts))
  {
    var s := At(a, KnowsA(store, store), multiset{}, {}, multiset{}, puts);
    OnlyRemote(B, A);
    assert SyncPackets(s.actors[B]) == [Packet(A, store)];
    assert s.actors[B := KnowsA(store, map[])] == map[A := a, B := KnowsA(store, map[])];
  }

  lemma TakesNews(a: Actor, puts: set<Written>)
    ensures Then(At(a, KnowsA(map[], map[]), multiset{Packet(B, STORE)}, {}, multiset{}, puts), Deliver(Packet(B, STORE)),
                 At(a, KnowsA(STORE, STORE), multiset{}, {}, multiset{}, puts))
  {
    assert Merged(map[], STORE) == STORE;
    assert Forwarded(map[], map[], STORE) == STORE;
    assert OnUpdate(KnowsA(map[], map[]), STORE) == KnowsA(STORE, STORE);
    var s := At(a, KnowsA(map[], map[]), multiset{Packet(B, STORE)}, {}, multiset{}, puts);
    assert s.actors[B := KnowsA(STORE, STORE)] == map[A := a, B := KnowsA(STORE, STORE)];
  }

  lemma RefusesOld(b: Actor, puts: set<Written>)
    ensures Then(At(KnowsB(STORE, map[]), b, multiset{Packet(A, SLOW)}, {}, multiset{}, puts), Deliver(Packet(A, SLOW)),
                 At(KnowsB(STORE, map[]), b, multiset{}, {}, multiset{}, puts))
  {
    assert Merged(STORE, SLOW) == STORE;
    assert Forwarded(STORE, map[], SLOW) == map[];
    assert OnUpdate(KnowsB(STORE, map[]), SLOW) == KnowsB(STORE, map[]);
  }

  lemma SlowLink(i: nat)
    requires i < 11
    ensures Then(SlowState(i), SlowStep(i), SlowState(i + 1))
  {
    if i < 2 {
      IntroducesA(NewActor(B));
    } else if i < 4 {
      IntroducesB(Alone(map[], map[]), {});
    } else if i == 4 {
      JoinsA(map[], KnowsA(map[], map[]), {});
    } else {
      SlowTalk(i);
    }
  }

  lemma SlowTalk(i: nat)
    requires 5 <= i < 11
    ensures Then(SlowState(i), SlowStep(i), SlowState(i + 1))
  {
    match i
    case 5 => PutsA(map[], map[]);
    case 6 => SyncsA(STORE, KnowsA(map[], map[]), PUTS);
    case 7 => TakesNews(KnowsB(STORE, map[]), PUTS);
    case 8 => PutsB(map[]);
    case 9 => SyncsB(KnowsB(STORE, map[]), SLOW, BOTH);
    case _ => RefusesOld(KnowsA(SLOW, map[]), BOTH);
  }

  lemma SlowTiming(i: nat)
    requires i < 11 && Enabled(SlowState(i), SlowStep(i))
    ensures Harmless(SlowState(i), SlowStep(i), KEY) <==> i != 8
  {
    if i == 8 {
      TooSlow();
    }
  }

  /** The first actor relies on the second to have what it passed on to it. */
  lemma TooSlow()
    ensures !PutHarmless(SlowState(8), B, KEY, EARLY)
  {
    var s := SlowState(8);
    OnlyRemote(A, B);
    assert B in Targets(s.actors[A]) && KEY in s.actors[A].storage && KEY !in s.actors[A].putList;
    assert !OnItsWay(s, B, KEY, LATE) && !AtLeast(EARLY, LATE);
  }

  lemma SlowRest()
    ensures var s := SlowState(11);
            && Quiet(s) && A in s.actors && B in s.actors && KEY in s.actors[A].storage && KEY in s.actors[B].storage
            && s.actors[A].storage[KEY].time == 10 && s.actors[B].storage[KEY].time == 5
  {
  }

  /** A Put whose stamp is behind the entry it overwrites is never corrected: the actors stay apart. */
  lemma SlowClock() returns (run: seq<Sys>, steps: seq<Step>)
    ensures IsRun(run, steps) && |steps| == 11 && Quiet(run[11])
    ensures forall i: nat :: i < 11 ==> (HarmlessAt(run, steps, KEY, i) <==> i != 8)
    ensures A in run[11].actors && B in run[11].actors
    ensures KEY in run[11].actors[A].storage && KEY in run[11].actors[B].storage
    ensures run[11].actors[A].storage[KEY].time == 10 && run[11].actors[B].storage[KEY].time == 5
  {
    run, steps := Film(11, SlowState, SlowStep);
    StartIsStart();
    forall i: nat | i < 11 ensures Then(SlowState(i), SlowStep(i), SlowState(i + 1)) {
      SlowLink(i);
    }
    forall i: nat | i < 11 ensures HarmlessAt(run, steps, KEY, i) <==> i != 8 {
      assert StepAt(run, steps, i);
      SlowTiming(i);
    }
    SlowRest();
  }
}
