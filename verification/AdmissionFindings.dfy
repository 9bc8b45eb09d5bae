// Two runs that show why the hypotheses of the protocol's guarantees are needed.

module AdmissionFindings {
  import opened SizeT
  import opened AdmissionQueue
  import opened AdmissionProtocol
  import opened AdmissionProperties
  import opened AdmissionSerial

  function Steps(w: World, es: seq<Event>): (r: World)
    ensures r == Run(w, es)
    decreases |es|
  {
    if es == [] then w
    else
      RunFirst(w, es);
      Steps(Next(w, es[0]), es[1..])
  }

  lemma {:induction false} RunFirst(w: World, es: seq<Event>)
    requires es != []
    ensures Run(w, es) == Run(Next(w, es[0]), es[1..])
  {
    assert es == [es[0]] + es[1..] && [es[0]][..0] == [];
    RunAppend(w, [es[0]], es[1..]);
  }

  // ---------------------------------------------------------------- one token for two submissions

  function Idle(capacity: nat, next: nat, pumping: bool, nodes: map<nat, Node>, fifo: seq<nat>, credits: nat): Queue {
    Queue(next, 0, {}, map[], map[], nodes, fifo, credits, capacity, pumping, false)
  }

  // Thread 0 pumps on after its own submission was rejected and its sequence 1 given back.
  function Stale(next: nat, nodes: map<nat, Node>, fifo: seq<nat>, table: map<Sub, Submission>, subs: nat, published: nat, log: seq<nat>): World {
    World(Idle(1, next, true, nodes, fifo, 0), map[0 := Pumping(Submitter(0, 1, true), Scanning)], table, subs, {}, published, log, false)
  }

  const FIRST := Submission(1, Released, 1, 0)

  // The first submitter, entered on its pump.
  function Entered(): World {
    World(Idle(1, 2, true, map[1 := Node(false, 0, true, true)], [1], 0),
          map[0 := Pumping(Submitter(0, 1, false), Scanning)],
          map[0 := Submission(1, Accepted, 0, 0)], 1, {}, 1, [], false)
  }

  lemma RejectEnters()
    ensures Steps(InitialWorld(1), [ReserveBy(0), PublishBy(0), EnterBy(0)]) == Entered()
  {
    var w0 := InitialWorld(1);
    var w1 := Next(w0, ReserveBy(0));
    assert w1 == World(Idle(1, 2, false, map[], [], 0), map[0 := Preparing(0)], map[0 := Submission(1, Held, 0, 0)], 1, {}, 0, [], false);
    var w2 := Next(w1, PublishBy(0));
    assert w2 == World(Idle(1, 2, false, map[1 := Node(false, 0, true, true)], [1], 0), map[0 := Pumping(Submitter(0, 1, false), Entering)],
                       map[0 := Submission(1, Accepted, 0, 0)], 1, {}, 1, [], false);
    assert Next(w2, EnterBy(0)) == Entered();
    ThreeSteps(w0, ReserveBy(0), PublishBy(0), EnterBy(0));
  }

  lemma RejectThrows()
    ensures Steps(Entered(), [PickBy(0), DispatchThrows(0, 7), AbandonBy(0)]) == Stale(1, map[], [], map[0 := FIRST], 1, 1, [0])
  {
    var w3 := Entered();
    var w4 := Next(w3, PickBy(0));
    assert w4 == World(Idle(1, 2, true, map[1 := Node(true, 0, false, true)], [1], 1),
                       map[0 := Pumping(Submitter(0, 1, false), Dispatching(1))],
                       map[0 := Submission(1, Accepted, 0, 0)], 1, {}, 1, [0], false);
    var w5 := Next(w4, DispatchThrows(0, 7));
    assert w5.q == Idle(1, 2, true, map[], [], 0);
    assert Next(w5, AbandonBy(0)) == Stale(1, map[], [], map[0 := FIRST], 1, 1, [0]);
    ThreeSteps(w3, PickBy(0), DispatchThrows(0, 7), AbandonBy(0));
  }

  lemma RejectFirst()
    ensures Steps(InitialWorld(1), [ReserveBy(0), PublishBy(0), EnterBy(0), PickBy(0), DispatchThrows(0, 7), AbandonBy(0)])
         == Stale(1, map[], [], map[0 := FIRST], 1, 1, [0])
  {
    RejectEnters();
    RejectThrows();
    var a, b := [ReserveBy(0), PublishBy(0), EnterBy(0)], [PickBy(0), DispatchThrows(0, 7), AbandonBy(0)];
    assert a + b == [ReserveBy(0), PublishBy(0), EnterBy(0), PickBy(0), DispatchThrows(0, 7), AbandonBy(0)];
    hide Next, InitialWorld, Steps;
    RunAppend(InitialWorld(1), a, b);
  }

  lemma ThreeSteps(w: World, a: Event, b: Event, c: Event)
    ensures Steps(w, [a, b, c]) == Next(Next(Next(w, a), b), c)
  {
    hide Next;
    var w1 := Next(w, a);
    assert [a, b, c][1..] == [b, c] && [b, c][1..] == [c];
    assert Steps(w1, [b, c]) == Steps(Next(w1, b), [c]);
  }

  // Another thread submits meanwhile: it is handed sequence 1 again and returns its token at once.
  lemma SubmitAgain(tid: Tid, table: map<Sub, Submission>, subs: nat, published: nat, log: seq<nat>)
    requires tid != 0
    ensures Steps(Stale(1, map[], [], table, subs, published, log), [ReserveBy(tid), PublishBy(tid), EnterBy(tid)])
         == Stale(2, map[1 := Node(false, subs, true, true)], [1], table[subs := Submission(1, Returned, 0, published)],
                  subs + 1, published + 1, log)
  {
    var w0 := Stale(1, map[], [], table, subs, published, log);
    var w1 := Next(w0, ReserveBy(tid));
    assert w1.threads[tid] == Preparing(subs) && w1.table[subs] == Submission(1, Held, 0, 0);
    var w2 := Next(w1, PublishBy(tid));
    assert w2.threads[tid] == Pumping(Submitter(subs, 1, false), Entering) && w2.q.nodes == map[1 := Node(false, subs, true, true)];
    var w3 := Next(w2, EnterBy(tid));
    assert w3.threads == map[0 := Pumping(Submitter(0, 1, true), Scanning)];
    assert w3.table == table[subs := Submission(1, Returned, 0, published)];
    ThreeSteps(w0, ReserveBy(tid), PublishBy(tid), EnterBy(tid));
  }

  // The stale pump dispatches the new node, which throws: it takes the failure for its own again.
  lemma StealPicks(table: map<Sub, Submission>, subs: nat, x: Sub, published: nat, log: seq<nat>)
    requires x in table && 0 in table && x != 0 && table[x] == Submission(1, Returned, 0, published) && table[0] == FIRST
    ensures var w1 := Next(Stale(2, map[1 := Node(false, x, true, true)], [1], table, subs, published + 1, log), PickBy(0));
      w1 == Stale(2, map[1 := Node(true, x, false, true)], [1], table, subs, published + 1, log + [published])
              .(q := Idle(1, 2, true, map[1 := Node(true, x, false, true)], [1], 1), threads := map[0 := Pumping(Submitter(0, 1, true), Dispatching(1))])
  {
    var w0 := Stale(2, map[1 := Node(false, x, true, true)], [1], table, subs, published + 1, log);
    var w1 := Next(w0, PickBy(0));
    assert w1.q == Idle(1, 2, true, map[1 := Node(true, x, false, true)], [1], 1);
    assert w1.threads == map[0 := Pumping(Submitter(0, 1, true), Dispatching(1))] && w1.log == log + [published];
  }

  lemma StealThrows(w: World, x: Sub, published: nat)
    requires w.q == Idle(1, 2, true, map[1 := Node(true, x, false, true)], [1], 1)
    requires w.threads == map[0 := Pumping(Submitter(0, 1, true), Dispatching(1))] && x in w.table && w.table[x] == Submission(1, Returned, 0, published)
    ensures Next(w, DispatchThrows(0, 7)) == w.(q := Idle(1, 2, true, map[], [], 0), table := w.table[x := Submission(1, Returned, 1, published)],
                                                threads := map[0 := Pumping(Submitter(0, 1, true), RolledBack)])
  {
    var w' := Next(w, DispatchThrows(0, 7));
    assert w'.q == Idle(1, 2, true, map[], [], 0) && w'.table == w.table[x := Submission(1, Returned, 1, published)];
    assert w'.threads == map[0 := Pumping(Submitter(0, 1, true), RolledBack)];
  }

  lemma StealAbandons(w: World)
    requires w.q == Idle(1, 2, true, map[], [], 0) && 0 in w.table && w.table[0] == FIRST
    requires w.threads == map[0 := Pumping(Submitter(0, 1, true), RolledBack)]
    ensures Next(w, AbandonBy(0)) == w.(q := Idle(1, 1, true, map[], [], 0), threads := map[0 := Pumping(Submitter(0, 1, true), Scanning)])
  {
    var w' := Next(w, AbandonBy(0));
    assert w'.table == w.table;
    assert w'.threads == map[0 := Pumping(Submitter(0, 1, true), Scanning)];
  }

  lemma Steal(table: map<Sub, Submission>, subs: nat, x: Sub, published: nat, log: seq<nat>)
    requires x in table && 0 in table && x != 0 && table[x] == Submission(1, Returned, 0, published) && table[0] == FIRST
    ensures Steps(Stale(2, map[1 := Node(false, x, true, true)], [1], table, subs, published + 1, log),
                  [PickBy(0), DispatchThrows(0, 7), AbandonBy(0)])
         == Stale(1, map[], [], table[x := Submission(1, Returned, 1, published)], subs, published + 1, log + [published])
  {
    hide Next;
    var w0 := Stale(2, map[1 := Node(false, x, true, true)], [1], table, subs, published + 1, log);
    StealPicks(table, subs, x, published, log);
    StealThrows(Next(w0, PickBy(0)), x, published);
    StealAbandons(Next(Next(w0, PickBy(0)), DispatchThrows(0, 7)));
  }

  function TwiceIssued(): seq<Event> {
    [ReserveBy(0), PublishBy(0), EnterBy(0), PickBy(0), DispatchThrows(0, 7), AbandonBy(0)]
    + [ReserveBy(1), PublishBy(1), EnterBy(1)] + [PickBy(0), DispatchThrows(0, 7), AbandonBy(0)]
    + [ReserveBy(2), PublishBy(2), EnterBy(2)]
  }

  // Submissions 1 and 2 both return the token of sequence 1, and the first of them is lost.
  lemma TokenIssuedTwice()
    ensures var w := Run(InitialWorld(1), TwiceIssued());
      && 1 in w.table && 2 in w.table && w.table[1].stage.Returned? && w.table[2].stage.Returned?
      && w.table[1].sequence == 1 && w.table[2].sequence == 1
      && w.q.nodes == map[1 := Node(false, 2, true, true)] && w.done == {}
  {
    var w0 := InitialWorld(1);
    var a := [ReserveBy(0), PublishBy(0), EnterBy(0), PickBy(0), DispatchThrows(0, 7), AbandonBy(0)];
    var b, c, d := [ReserveBy(1), PublishBy(1), EnterBy(1)], [PickBy(0), DispatchThrows(0, 7), AbandonBy(0)],
                   [ReserveBy(2), PublishBy(2), EnterBy(2)];
    assert TwiceIssued() == a + b + c + d;
    hide Next, InitialWorld, TwiceIssued;
    RunAppend(w0, a + b + c, d);
    RunAppend(w0, a + b, c);
    RunAppend(w0, a, b);
    RejectFirst();
    SubmitAgain(1, map[0 := FIRST], 1, 1, [0]);
    var t1 := map[0 := FIRST][1 := Submission(1, Returned, 0, 1)];
    Steal(t1, 2, 1, 1, [0]);
    SubmitAgain(2, t1[1 := Submission(1, Returned, 1, 1)], 2, 2, [0] + [1]);
  }

  // ---------------------------------------------------------------- wait returns too early

  // A submission on an idle thread that is dispatched at once, leaving the pump with nothing to do.
  function SubmitAndRun(): seq<Event> {
    [ReserveBy(0), PublishBy(0), EnterBy(0), PickBy(0), DispatchReturns(0), PickBy(0)]
  }

  // The same with every credit taken.
  function SubmitAndWait(): seq<Event> {
    [ReserveBy(0), PublishBy(0), EnterBy(0), PickBy(0)]
  }

  // The oldest sequence completes; the pump it starts dispatches the waiting node, which throws.
  function CompleteAndFail(): seq<Event> {
    [CompleteBy(0, 1, None), EnterBy(0), PickBy(0), DispatchThrows(0, 7), CompleteFailed(0)]
  }

  function Early(): seq<Event> {
    SubmitAndRun() + SubmitAndRun() + SubmitAndWait() + CompleteAndFail()
  }

  const RUNNING1: map<nat, Node> := map[1 := Node(true, 0, false, true)]
  const RUNNING2: map<nat, Node> := map[1 := Node(true, 0, false, true), 2 := Node(true, 1, false, true)]
  const WAITING3: map<nat, Node> := map[1 := Node(true, 0, false, true), 2 := Node(true, 1, false, true), 3 := Node(false, 2, true, true)]

  function Returned3(s: nat, stamp: nat): Submission {
    Submission(s, Returned, 0, stamp)
  }

  function RanOne(): World {
    World(Idle(2, 2, false, RUNNING1, [1], 1), map[], map[0 := Returned3(1, 0)], 1, {}, 1, [0], false)
  }

  function RanTwo(): World {
    World(Idle(2, 3, false, RUNNING2, [1, 2], 2), map[], map[0 := Returned3(1, 0), 1 := Returned3(2, 1)], 2, {}, 2, [0, 1], false)
  }

  function Waiting(): World {
    World(Idle(2, 4, false, WAITING3, [1, 2, 3], 2), map[],
          map[0 := Returned3(1, 0), 1 := Returned3(2, 1), 2 := Returned3(3, 2)], 3, {}, 3, [0, 1], false)
  }

  lemma FirstRuns()
    ensures Steps(InitialWorld(2), SubmitAndRun()) == RanOne()
  {
    FirstEnters();
    FirstLeaves();
    var a, b := [ReserveBy(0), PublishBy(0), EnterBy(0)], [PickBy(0), DispatchReturns(0), PickBy(0)];
    assert SubmitAndRun() == a + b;
    hide Next, InitialWorld, SubmitAndRun, Steps;
    RunAppend(InitialWorld(2), a, b);
  }

  function Entered1(): World {
    World(Idle(2, 2, true, map[1 := Node(false, 0, true, true)], [1], 0), map[0 := Pumping(Submitter(0, 1, false), Scanning)],
          map[0 := Submission(1, Accepted, 0, 0)], 1, {}, 1, [], false)
  }

  lemma FirstEnters()
    ensures Steps(InitialWorld(2), [ReserveBy(0), PublishBy(0), EnterBy(0)]) == Entered1()
  {
    var w1 := Next(InitialWorld(2), ReserveBy(0));
    var w2 := Next(w1, PublishBy(0));
    var w3 := Next(w2, EnterBy(0));
    assert w3 == Entered1();
  }

  lemma FirstLeaves()
    ensures Steps(Entered1(), [PickBy(0), DispatchReturns(0), PickBy(0)]) == RanOne()
  {
    var w4 := Next(Entered1(), PickBy(0));
    assert w4.q == Idle(2, 2, true, RUNNING1, [1], 1);
    var w5 := Next(w4, DispatchReturns(0));
    var w6 := Next(w5, PickBy(0));
    assert w6 == RanOne();
  }

  lemma SecondRuns()
    ensures Steps(RanOne(), SubmitAndRun()) == RanTwo()
  {
    var w1 := Next(RanOne(), ReserveBy(0));
    var w2 := Next(w1, PublishBy(0));
    var w3 := Next(w2, EnterBy(0));
    assert w3.q == Idle(2, 3, true, RUNNING1[2 := Node(false, 1, true, true)], [1, 2], 1);
    var w4 := Next(w3, PickBy(0));
    assert w4.q == Idle(2, 3, true, RUNNING2, [1, 2], 2);
    var w5 := Next(w4, DispatchReturns(0));
    var w6 := Next(w5, PickBy(0));
    assert w6 == RanTwo();
  }

  lemma ThirdWaits()
    ensures Steps(RanTwo(), SubmitAndWait()) == Waiting()
  {
    var w1 := Next(RanTwo(), ReserveBy(0));
    var w2 := Next(w1, PublishBy(0));
    var w3 := Next(w2, EnterBy(0));
    assert w3.q == Idle(2, 4, true, WAITING3, [1, 2, 3], 2);
    var w4 := Next(w3, PickBy(0));
    assert w4 == Waiting();
  }

  // Sequence 1 completes, and its pump dispatches the parked sequence 3.
  lemma ThirdStarts()
    ensures var w := Next(Next(Next(Waiting(), CompleteBy(0, 1, None)), EnterBy(0)), PickBy(0));
      && w.q == Queue(4, 1, {}, map[], map[], map[2 := RUNNING2[2], 3 := Node(true, 2, false, true)], [2, 3], 2, 2, true, false)
      && w.threads == map[0 := Pumping(Completer, Dispatching(3))]
  {
    var w1 := Next(Waiting(), CompleteBy(0, 1, None));
    assert w1.q == Queue(4, 1, {}, map[], map[], map[2 := RUNNING2[2], 3 := WAITING3[3]], [2, 3], 1, 2, false, false);
    var w2 := Next(w1, EnterBy(0));
    var w3 := Next(w2, PickBy(0));
    assert w3.q == Queue(4, 1, {}, map[], map[], map[2 := RUNNING2[2], 3 := Node(true, 2, false, true)], [2, 3], 2, 2, true, false);
  }

  // Its dispatch throws there, which completes it past sequence 2.
  lemma ThirdPasses(w3: World)
    requires w3.q == Queue(4, 1, {}, map[], map[], map[2 := RUNNING2[2], 3 := Node(true, 2, false, true)], [2, 3], 2, 2, true, false)
    requires w3.threads == map[0 := Pumping(Completer, Dispatching(3))]
    ensures var w := Next(Next(w3, DispatchThrows(0, 7)), CompleteFailed(0));
      w.q.completed == 3 && w.q.next == 4 && w.q.skipped == {} && w.q.failures == map[3 := 7] && w.q.nodes == map[2 := RUNNING2[2]]
  {
    var w4 := Next(w3, DispatchThrows(0, 7));
    assert w4.q.nodes == map[2 := RUNNING2[2], 3 := Node(true, 2, false, false)];
    var w5 := Next(w4, CompleteFailed(0));
    assert w5.q.nodes == map[2 := RUNNING2[2]];
  }

  lemma ThirdFails()
    ensures var w := Steps(Waiting(), CompleteAndFail());
      w.q.completed == 3 && w.q.next == 4 && w.q.skipped == {} && w.q.failures == map[3 := 7] && w.q.nodes == map[2 := RUNNING2[2]]
  {
    hide Next, Waiting;
    ThirdStarts();
    ThirdPasses(Next(Next(Next(Waiting(), CompleteBy(0, 1, None)), EnterBy(0)), PickBy(0)));
  }

  // The world after each part of the run.
  lemma EarlyParts()
    ensures Run(InitialWorld(2), Early()[..6]) == RanOne() && Run(InitialWorld(2), Early()[..12]) == RanTwo()
    ensures Run(InitialWorld(2), Early()[..16]) == Waiting()
    ensures Run(InitialWorld(2), Early()) == Steps(Waiting(), CompleteAndFail())
  {
    var w0 := InitialWorld(2);
    var a, c, d := SubmitAndRun(), SubmitAndWait(), CompleteAndFail();
    assert Early()[..6] == a && Early()[..12] == a + a && Early()[..16] == a + a + c && Early() == a + a + c + d;
    hide Next, InitialWorld, Early, SubmitAndRun, SubmitAndWait, CompleteAndFail, RanOne, RanTwo, Waiting;
    FirstRuns();
    SecondRuns();
    ThirdWaits();
    RunAppend(w0, a, a);
    RunAppend(w0, a + a, c);
    RunAppend(w0, a + a + c, d);
  }

  lemma EarlyEvents(k: nat)
    requires k < |Early()|
    ensures Early()[k].ReserveBy? ==> k == 0 || k == 6 || k == 12
    ensures Early()[k].CompleteBy? ==> k == 16
  {
  }

  // Submitters are serial and the environment completes the oldest sequence only; still wait for
  // sequence 2 returns while its node executes, because a later sequence failed and completed in the pump.
  lemma WaitReturnsEarly()
    ensures forall k: nat :: k < |Early()| ==>
      Serial(Run(InitialWorld(2), Early()[..k]), Early()[k])
      && (Early()[k].CompleteBy? ==> InOrder(Run(InitialWorld(2), Early()[..k]), Early()[k]))
    ensures var q := Run(InitialWorld(2), Early()).q;
      WaitLook(q, 2) == Finished && 2 in q.nodes && q.nodes[2].executing
  {
    EarlyParts();
    ThirdFails();
    assert InitialWorld(2).threads == map[] && RanOne().threads == map[] && RanTwo().threads == map[] && Waiting().q.fifo == [1, 2, 3];
    assert Early()[16] == CompleteBy(0, 1, None);
    hide Next, Early, RanOne, RanTwo, Waiting;
    forall k: nat | k < |Early()|
      ensures Serial(Run(InitialWorld(2), Early()[..k]), Early()[k])
      ensures Early()[k].CompleteBy? ==> InOrder(Run(InitialWorld(2), Early()[..k]), Early()[k])
    {
      EarlyEvents(k);
    }
  }
}
