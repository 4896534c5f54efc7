/** The multicore start-up handshake of `init.S`: four cores over a shared counter and one release slot
    a core, in every interleaving of their steps.  Memory is sequentially consistent, and the secondary
    cores are parked by the firmware until their slot is written. */
module Handshake {

  const SECONDARIES := 3

  /** The number of a core, 0 to 3. */
  type CoreId = c: nat | c <= SECONDARIES

  /** Where core 0 is.  `Release(j)` writes secondary `j`'s slot; `Await(j)` polls the counter. */
  datatype Boot0 = Init | Release(j: nat) | Await(j: nat) | Crt0

  /** Where a secondary is: parked; at the load, the add and the store of the counter; clearing its
      slot; or idle.  An idle core that finds its slot written clears it and starts over. */
  datatype Core = Parked | Load | Add(seen: nat) | Store(value: nat) | ClearSlot | Idle

  datatype State = State(main: Boot0, cores: seq<Core>, ready: nat, slots: seq<bool>)

  /** Power-on: the counter holds anything. */
  predicate Initial(s: State) {
    s.main == Init && s.cores == seq(SECONDARIES, _ => Parked) && s.slots == seq(SECONDARIES, _ => false)
  }

  predicate Shape(s: State) {
    |s.cores| == SECONDARIES && |s.slots| == SECONDARIES
    && (s.main.Release? ==> s.main.j < SECONDARIES) && (s.main.Await? ==> s.main.j < SECONDARIES)
  }

  /** One step of core 0. */
  function Step0(s: State): State
    requires Shape(s)
  {
    match s.main
    case Init => s.(ready := 1, main := Release(0))
    case Release(j) => s.(slots := s.slots[j := true], main := Await(j))
    case Await(j) =>
      if s.ready != j + 2 then s
      else s.(main := if j + 1 < SECONDARIES then Release(j + 1) else Crt0)
    case Crt0 => s
  }

  /** One step of secondary `j`. */
  function Step(s: State, j: nat): State
    requires Shape(s) && j < SECONDARIES
  {
    match s.cores[j]
    case Parked => if s.slots[j] then s.(cores := s.cores[j := Load]) else s
    case Load => s.(cores := s.cores[j := Add(s.ready)])
    case Add(seen) => s.(cores := s.cores[j := Store(seen + 1)])
    case Store(value) => s.(ready := value, cores := s.cores[j := ClearSlot])
    case ClearSlot => s.(slots := s.slots[j := false], cores := s.cores[j := Idle])
    case Idle => if s.slots[j] then s.(slots := s.slots[j := false], cores := s.cores[j := Load]) else s
  }

  /** One step of any core. */
  function Move(s: State, c: CoreId): (t: State)
    requires Shape(s)
    ensures Shape(t)
  {
    if c == 0 then Step0(s) else Step(s, c - 1)
  }

  /** The state after a schedule: each entry names the core that moves, 0 for core 0. */
  function Run(s: State, schedule: seq<CoreId>): (r: State)
    requires Shape(s)
    ensures Shape(r)
    decreases |schedule|
  {
    if schedule == [] then s
    else
      var last := schedule[|schedule| - 1];
      Move(Run(s, schedule[..|schedule| - 1]), last)
  }

  // ----- Safety -----

  /** The core is between its load and its store, with the load still to come or just done. */
  predicate Inside(c: Core) {
    c.Load? || c.Add? || c.Store?
  }

  predicate Stored(c: Core) {
    c.ClearSlot? || c.Idle?
  }

  /** Secondaries released so far. */
  function Released(m: Boot0): nat {
    match m
    case Init => 0
    case Release(j) => j
    case Await(j) => j + 1
    case Crt0 => SECONDARIES
  }

  function Bit(b: bool): nat {
    if b then 1 else 0
  }

  function CountStored(cores: seq<Core>): nat
    requires |cores| == SECONDARIES
  {
    Bit(Stored(cores[0])) + Bit(Stored(cores[1])) + Bit(Stored(cores[2]))
  }

  /** The invariant but for core 0's own place: the facts about secondary `i` alone. */
  ghost predicate CoreOk(s: State, i: nat)
    requires Shape(s) && i < SECONDARIES
  {
    var n, c := Released(s.main), s.cores[i];
    && (i >= n ==> c.Parked? && !s.slots[i])
    && (i < n && (i + 1 < n || !s.main.Await?) ==> Stored(c))
    && (i < n && c.Idle? ==> !s.slots[i])
    && (i < n && c.Parked? ==> s.slots[i])
    && (c.Add? ==> c.seen == s.ready)
    && (c.Store? ==> c.value == s.ready + 1)
  }

  ghost predicate Inv(s: State) {
    && Shape(s)
    && CoreOk(s, 0) && CoreOk(s, 1) && CoreOk(s, 2)
    && (s.main != Init ==> s.ready == 1 + CountStored(s.cores))
  }

  lemma Step0KeepsInv(s: State)
    requires Inv(s)
    ensures Inv(Step0(s))
  {
  }

  /** A secondary that is not the last one released is parked or has stored, and its steps leave the counter
      alone. */
  lemma StepKeepsInv(s: State, j: nat)
    requires Inv(s) && j < SECONDARIES
    ensures Inv(Step(s, j))
  {
    if s.cores[j].Store? {
      StoreKeepsInv(s, j);
    } else if s.cores[j].Parked? || s.cores[j].ClearSlot? || s.cores[j].Idle? {
      SlotStepKeepsInv(s, j);
    } else {
      LoadStepKeepsInv(s, j);
    }
  }

  lemma SlotStepKeepsInv(s: State, j: nat)
    requires Inv(s) && j < SECONDARIES && (s.cores[j].Parked? || s.cores[j].ClearSlot? || s.cores[j].Idle?)
    ensures Inv(Step(s, j))
  {
    assert CoreOk(s, j);
  }

  lemma LoadStepKeepsInv(s: State, j: nat)
    requires Inv(s) && j < SECONDARIES && (s.cores[j].Load? || s.cores[j].Add?)
    ensures Inv(Step(s, j))
  {
    assert CoreOk(s, j);
  }

  lemma StoreKeepsInv(s: State, j: nat)
    requires Inv(s) && j < SECONDARIES && s.cores[j].Store?
    ensures Inv(Step(s, j))
  {
    assert CoreOk(s, j);
  }

  lemma {:induction false} RunKeepsInv(s: State, schedule: seq<CoreId>)
    requires Initial(s)
    ensures Inv(Run(s, schedule))
    decreases |schedule|
  {
    if schedule != [] {
      var front, last := schedule[..|schedule| - 1], schedule[|schedule| - 1];
      RunKeepsInv(s, front);
      if last == 0 {
        Step0KeepsInv(Run(s, front));
      } else {
        StepKeepsInv(Run(s, front), last - 1);
      }
    }
  }

  /** In every interleaving at most one secondary is between load and store of the counter, so no
      increment is lost: the counter is one more than the number of completed stores; and core 0 enters
      the C code only when all three secondaries have stored and the counter is four. */
  lemma HandshakeIsSafe(s: State, schedule: seq<CoreId>)
    requires Initial(s)
    ensures var r := Run(s, schedule);
      && (forall i, j :: 0 <= i < j < SECONDARIES ==> !(Inside(r.cores[i]) && Inside(r.cores[j])))
      && (r.main != Init ==> r.ready == 1 + CountStored(r.cores))
      && (r.main == Crt0 ==> r.ready == 4 && forall j :: 0 <= j < SECONDARIES ==> Stored(r.cores[j]))
  {
    RunKeepsInv(s, schedule);
  }

  // ----- Progress -----

  /** Work left before the handshake is over. */
  function Left0(m: Boot0): nat {
    match m
    case Init => 7
    case Release(j) => if j <= 3 then 6 - 2 * j else 0
    case Await(j) => if j <= 2 then 5 - 2 * j else 0
    case Crt0 => 0
  }

  function LeftOf(c: Core): nat {
    match c
    case Parked => 5
    case Load => 4
    case Add(_) => 3
    case Store(_) => 2
    case ClearSlot => 1
    case Idle => 0
  }

  function Left(s: State): nat
    requires Shape(s)
  {
    Left0(s.main) + LeftOf(s.cores[0]) + LeftOf(s.cores[1]) + LeftOf(s.cores[2])
  }

  /** A step moves the handshake on or changes nothing. */
  lemma StepsGoOn(s: State, c: CoreId)
    requires Inv(s)
    ensures var t := Move(s, c); Inv(t) && (t == s || Left(t) < Left(s))
  {
    if c == 0 {
      Step0KeepsInv(s);
    } else {
      StepKeepsInv(s, c - 1);
      SecondaryGoesOn(s, c - 1);
      hide Inv, Step, Left;
    }
  }

  lemma SecondaryGoesOn(s: State, j: nat)
    requires Inv(s) && j < SECONDARIES
    ensures Step(s, j) == s || Left(Step(s, j)) < Left(s)
  {
    assert CoreOk(s, j);
    hide CoreOk;
  }

  /** Until core 0 enters the C code, some core can move. */
  lemma SomeCoreMoves(s: State) returns (c: CoreId)
    requires Inv(s) && s.main != Crt0
    ensures Move(s, c) != s
  {
    c := 0;
    if s.main.Await? && s.ready != s.main.j + 2 {
      c := s.main.j + 1;
      assert CoreOk(s, 0) && CoreOk(s, 1) && CoreOk(s, 2);
    }
  }

  /** The handshake cannot get stuck: until core 0 enters the C code some core has a step that brings the
      end nearer, and no step of any core takes it further away. */
  lemma HandshakeProgresses(s: State)
    requires Inv(s)
    ensures forall c: CoreId :: Left(Move(s, c)) <= Left(s)
    ensures s.main != Crt0 ==> exists c: CoreId :: Left(Move(s, c)) < Left(s)
  {
    forall c: CoreId
      ensures Left(Move(s, c)) <= Left(s)
    {
      StepsGoOn(s, c);
    }
    if s.main != Crt0 {
      var c := SomeCoreMoves(s);
      StepsGoOn(s, c);
    }
  }

  // ----- Arrival -----

  /** Every core moves at least once. */
  predicate Round(r: seq<CoreId>) {
    forall c: CoreId :: c in r
  }

  predicate Rounds(rounds: seq<seq<CoreId>>) {
    forall r :: r in rounds ==> Round(r)
  }

  function Flatten(rounds: seq<seq<CoreId>>): seq<CoreId> {
    if rounds == [] then [] else Flatten(rounds[..|rounds| - 1]) + rounds[|rounds| - 1]
  }

  lemma {:induction false} RunOn(s: State, a: seq<CoreId>, b: seq<CoreId>)
    requires Shape(s)
    ensures Run(s, a + b) == Run(Run(s, a), b)
    decreases |b|
  {
    if b == [] {
      assert a + b == a;
    } else {
      RunOn(s, a, b[..|b| - 1]);
      assert (a + b)[..|a + b| - 1] == a + b[..|b| - 1];
      hide Step, Step0;
    }
  }

  lemma {:induction false} RunsGoOn(s: State, schedule: seq<CoreId>)
    requires Inv(s)
    ensures var t := Run(s, schedule);
      && Inv(t) && (t == s || Left(t) < Left(s)) && (s.main == Crt0 ==> t.main == Crt0)
    ensures Run(s, schedule) == s ==> forall c :: c in schedule ==> Move(s, c) == s
    decreases |schedule|
  {
    if schedule != [] {
      var front, last := schedule[..|schedule| - 1], schedule[|schedule| - 1];
      assert schedule == front + [last];
      RunsGoOn(s, front);
      StepsGoOn(Run(s, front), last);
      hide Inv, Left;
    }
  }

  /** A round in which every core moves brings the end nearer. */
  lemma RoundGoesOn(s: State, r: seq<CoreId>)
    requires Inv(s) && Round(r)
    ensures var t := Run(s, r); Inv(t) && (t.main == Crt0 || Left(t) < Left(s))
  {
    hide Inv, Left, Run, Move;
    RunsGoOn(s, r);
    if s.main != Crt0 {
      var c := SomeCoreMoves(s);
      assert c in r;
    }
  }

  lemma {:induction false} RoundsArrive(s: State, rounds: seq<seq<CoreId>>)
    requires Inv(s) && Rounds(rounds)
    ensures var t := Run(s, Flatten(rounds)); Inv(t) && (t.main == Crt0 || Left(t) + |rounds| <= Left(s))
    decreases |rounds|
  {
    if rounds != [] {
      var front, last := rounds[..|rounds| - 1], rounds[|rounds| - 1];
      RoundsArrive(s, front);
      RunOn(s, Flatten(front), last);
      hide Inv, Left, Run;
      var t := Run(s, Flatten(front));
      RunsGoOn(t, last);
      RoundGoesOn(t, last);
    }
  }

  /** Under every fair schedule core 0 arrives in the C code: from power-on, 22 rounds in which every core
      moves are enough. */
  lemma HandshakeArrives(s: State, rounds: seq<seq<CoreId>>)
    requires Initial(s) && Rounds(rounds) && |rounds| >= 22
    ensures Run(s, Flatten(rounds)).main == Crt0
  {
    assert Inv(s) && Left(s) == 22;
    RoundsArrive(s, rounds);
    if Run(s, Flatten(rounds)).main != Crt0 {
      NotThere(Run(s, Flatten(rounds)));
    }
  }

  lemma NotThere(s: State)
    requires Inv(s) && s.main != Crt0
    ensures Left(s) > 0
  {
  }

  // ----- Work for a secondary -----

  /** `CoreExecute`: core 0 writes a task's address to a secondary's slot, provided the core counts as ready. */
  function CoreExecute(s: State, j: nat): State
    requires Shape(s) && j < SECONDARIES
  {
    if j + 1 < s.ready then s.(slots := s.slots[j := true]) else s
  }

  /** The secondary's next step takes the task up: it clears the slot and branches to the address. */
  predicate TakenUp(s: State, j: nat)
    requires Shape(s) && j < SECONDARIES
  {
    s.cores[j].Idle? && s.slots[j]
  }

  /** A task handed out from the C code is taken up if and only if the secondary is not still about to clear
      its slot from the start-up; if it is, it erases the task and idles. */
  lemma TaskTakenUpIff(s: State, schedule: seq<CoreId>, j: nat)
    requires Initial(s) && Run(s, schedule).main == Crt0 && j < SECONDARIES
    ensures var t := CoreExecute(Run(s, schedule), j);
      && t.slots[j]
      && (TakenUp(t, j) <==> !t.cores[j].ClearSlot?)
      && (t.cores[j].ClearSlot? ==> Step(t, j).cores[j].Idle? && !Step(t, j).slots[j])
  {
    HandshakeIsSafe(s, schedule);
  }

  /** There is such a schedule: core 0 is in the C code when the last secondary has stored and not yet
      cleared its slot. */
  lemma TaskCanBeErased(s: State) returns (schedule: seq<CoreId>)
    requires Initial(s)
    ensures var t := Run(s, schedule); t.main == Crt0 && t.cores[2].ClearSlot?
  {
    schedule := [0] + ReleaseOne(0) + ReleaseOne(1) + ReleaseOne(2);
    var s0, s1, s2 := Step0(s), AfterRelease(Step0(s), 0), AfterRelease(AfterRelease(Step0(s), 0), 1);
    RunOne(s, 0);
    RunOn(s, [0], ReleaseOne(0));
    ReleaseRuns(s0, 0);
    RunOn(s, [0] + ReleaseOne(0), ReleaseOne(1));
    ReleaseRuns(s1, 1);
    RunOn(s, [0] + ReleaseOne(0) + ReleaseOne(1), ReleaseOne(2));
    ReleaseRuns(s2, 2);
    hide Run;
  }

  /** Core 0 releases secondary `j`, which runs up to its store, and core 0 sees it. */
  function ReleaseOne(j: nat): seq<CoreId>
    requires j < SECONDARIES
  {
    [0, j + 1, j + 1, j + 1, j + 1, 0]
  }

  function AfterRelease(s: State, j: nat): State
    requires Shape(s) && j < SECONDARIES
  {
    s.(slots := s.slots[j := true], cores := s.cores[j := ClearSlot], ready := s.ready + 1,
       main := if j + 1 < SECONDARIES then Release(j + 1) else Crt0)
  }

  lemma RunOne(s: State, c: CoreId)
    requires Shape(s)
    ensures Run(s, [c]) == Move(s, c)
  {
    assert [c][..0] == [];
  }

  lemma ReleaseRuns(s: State, j: nat)
    requires Shape(s) && j < SECONDARIES && s.main == Release(j) && s.cores[j].Parked? && s.ready == j + 1
    ensures Run(s, ReleaseOne(j)) == AfterRelease(s, j)
  {
    var c: CoreId := j + 1;
    hide Run, Move, AfterRelease;
    assert ReleaseOne(j) == [0, c] + [c, c] + [c, 0];
    RunTwo(s, 0, c);
    RunOn(s, [0, c], [c, c]);
    RunTwo(Run(s, [0, c]), c, c);
    RunOn(s, [0, c] + [c, c], [c, 0]);
    RunTwo(Run(s, [0, c] + [c, c]), c, 0);
    ReleaseSteps(s, j);
  }

  lemma RunTwo(s: State, a: CoreId, b: CoreId)
    requires Shape(s)
    ensures Run(s, [a, b]) == Move(Move(s, a), b)
  {
    assert [a, b] == [a] + [b];
    RunOne(s, a);
    RunSnoc(s, [a], b);
  }

  lemma ReleaseSteps(s: State, j: nat)
    requires Shape(s) && j < SECONDARIES && s.main == Release(j) && s.cores[j].Parked? && s.ready == j + 1
    ensures Move(Move(Move(Move(Move(Move(s, 0), j + 1), j + 1), j + 1), j + 1), 0) == AfterRelease(s, j)
  {
    var s1 := s.(slots := s.slots[j := true], main := Await(j));
    assert Move(s, 0) == s1;
    assert Move(s1, j + 1) == s1.(cores := s.cores[j := Load]);
    assert Move(s1.(cores := s.cores[j := Load]), j + 1) == s1.(cores := s.cores[j := Add(s.ready)]);
    assert Move(s1.(cores := s.cores[j := Add(s.ready)]), j + 1) == s1.(cores := s.cores[j := Store(s.ready + 1)]);
    var s5 := s1.(ready := s.ready + 1, cores := s.cores[j := ClearSlot]);
    assert Move(s1.(cores := s.cores[j := Store(s.ready + 1)]), j + 1) == s5;
    assert Move(s5, 0) == AfterRelease(s, j);
  }

  lemma RunSnoc(s: State, schedule: seq<CoreId>, c: CoreId)
    requires Shape(s)
    ensures Run(s, schedule + [c]) == Move(Run(s, schedule), c)
  {
    assert (schedule + [c])[..|schedule + [c]| - 1] == schedule;
  }
}
