/**
 * What Stop and Done promise. JetStream: a callback takes a semaphore slot, joins
 * the wait group and starts a goroutine; Done closes after the last callback and
 * an empty wait group. Worker pools: Done closes once every worker has returned.
 */
module Shutdown {
  import opened Wrappers

  // ---------- JetStream ----------

  /** How far the callback of the message being dispatched has come, if one runs. */
  datatype Callback = NoCallback | Called | HasSlot | Joined

  datatype Phase = Spawned | InHandler | Handled | SlotFreed

  /** What the goroutine started by the first Stop waits for. */
  datatype Closer = Unstarted | AwaitsClosed | AwaitsGroup | ClosedDone

  datatype Dispatcher = Dispatcher(
    concurrency: nat,
    stopping: bool,
    callback: Callback,
    slots: int,   // taken in the semaphore
    group: int,   // the wait group's counter
    goroutines: map<nat, Phase>,
    consumerClosed: bool,
    closer: Closer)

  datatype Move =
    | Call | TakeSlot | Refuse | Join | Spawn(g: nat)
    | EnterHandler(g: nat) | LeaveEarly(g: nat) | LeaveHandler(g: nat) | FreeSlot(g: nat) | LeaveGroup(g: nat)
    | Stop | CloseConsumer | SeeClosed | SeeEmptyGroup

  predicate At(d: Dispatcher, g: nat, phase: Phase) {
    g in d.goroutines && d.goroutines[g] == phase
  }

  /** consumerClosed follows the last callback, and no callback follows it. */
  predicate Possible(d: Dispatcher, move: Move) {
    match move
    case Call => d.callback == NoCallback && !d.consumerClosed
    case TakeSlot => d.callback == Called && d.slots < d.concurrency
    case Refuse => d.callback == Called && d.stopping
    case Join => d.callback == HasSlot
    case Spawn(g) => d.callback == Joined && g !in d.goroutines
    case EnterHandler(g) => At(d, g, Spawned)
    case LeaveEarly(g) => At(d, g, Spawned)
    case LeaveHandler(g) => At(d, g, InHandler)
    case FreeSlot(g) => At(d, g, Handled)
    case LeaveGroup(g) => At(d, g, SlotFreed)
    case Stop => true
    case CloseConsumer => d.stopping && d.callback == NoCallback
    case SeeClosed => d.closer == AwaitsClosed && d.consumerClosed
    case SeeEmptyGroup => d.closer == AwaitsGroup && d.group == 0
  }

  function Moved(d: Dispatcher, move: Move): Dispatcher
    requires Possible(d, move)
  {
    match move
    case Call => d.(callback := Called)
    case TakeSlot => d.(callback := HasSlot, slots := d.slots + 1)
    case Refuse => d.(callback := NoCallback)
    case Join => d.(callback := Joined, group := d.group + 1)
    case Spawn(g) => d.(callback := NoCallback, goroutines := d.goroutines[g := Spawned])
    case EnterHandler(g) => d.(goroutines := d.goroutines[g := InHandler])
    case LeaveEarly(g) => d.(goroutines := d.goroutines[g := Handled])
    case LeaveHandler(g) => d.(goroutines := d.goroutines[g := Handled])
    case FreeSlot(g) => d.(goroutines := d.goroutines[g := SlotFreed], slots := d.slots - 1)
    case LeaveGroup(g) => d.(goroutines := d.goroutines - {g}, group := d.group - 1)
    case Stop => d.(stopping := true, closer := if d.stopping then d.closer else AwaitsClosed)
    case CloseConsumer => d.(consumerClosed := true)
    case SeeClosed => d.(closer := AwaitsGroup)
    case SeeEmptyGroup => d.(closer := ClosedDone)
  }

  function Fresh(concurrency: nat): Dispatcher {
    Dispatcher(concurrency, false, NoCallback, 0, 0, map[], false, Unstarted)
  }

  ghost function MoveAll(d: Dispatcher, moves: seq<Move>): Option<Dispatcher> {
    if moves == [] then Some(d)
    else
      var r := MoveAll(d, moves[..|moves| - 1]);
      var last := moves[|moves| - 1];
      if r.Some? && Possible(r.value, last) then Some(Moved(r.value, last)) else None
  }

  function Running(d: Dispatcher): set<nat> {
    set g | g in d.goroutines && d.goroutines[g] == InHandler
  }

  function SlotHolders(d: Dispatcher): set<nat> {
    set g | g in d.goroutines && d.goroutines[g] != SlotFreed
  }

  /** Slots and the wait group count exactly the callback and the goroutines that hold them. */
  ghost predicate Balanced(d: Dispatcher) {
    && d.slots == |SlotHolders(d)| + (if d.callback == HasSlot || d.callback == Joined then 1 else 0)
    && d.slots <= d.concurrency
    && d.group == |d.goroutines.Keys| + (if d.callback == Joined then 1 else 0)
    && (d.consumerClosed ==> d.callback == NoCallback)
    && (d.closer != Unstarted ==> d.stopping)
    && (d.closer == AwaitsGroup ==> d.consumerClosed)
    && (d.closer == ClosedDone ==> d.consumerClosed && d.goroutines == map[])
  }

  /** A goroutine's change of phase moves it out of the slot holders only when it frees its slot. */
  lemma HoldersAfter(d: Dispatcher, g: nat, phase: Phase)
    ensures SlotHolders(d.(goroutines := d.goroutines[g := phase]))
            == if phase == SlotFreed then SlotHolders(d) - {g} else SlotHolders(d) + {g}
  {
  }

  lemma PhaseKeepsBalance(d: Dispatcher, move: Move)
    requires Balanced(d) && Possible(d, move)
    requires move.EnterHandler? || move.LeaveEarly? || move.LeaveHandler? || move.FreeSlot?
    ensures Balanced(Moved(d, move))
  {
    var g, d' := move.g, Moved(d, move);
    HoldersAfter(d, g, d'.goroutines[g]);
    assert g in SlotHolders(d);
    assert SlotHolders(d') == SlotHolders(d.(goroutines := d'.goroutines));
    assert SlotHolders(d) + {g} == SlotHolders(d);
    assert d'.goroutines.Keys == d.goroutines.Keys;
  }

  lemma GoroutineKeepsBalance(d: Dispatcher, move: Move)
    requires Balanced(d) && Possible(d, move) && (move.Spawn? || move.LeaveGroup?)
    ensures Balanced(Moved(d, move))
  {
    var g, d' := move.g, Moved(d, move);
    if move.Spawn? {
      HoldersAfter(d, g, Spawned);
      assert SlotHolders(d') == SlotHolders(d) + {g};
      assert d'.goroutines.Keys == d.goroutines.Keys + {g};
    } else {
      assert SlotHolders(d') == SlotHolders(d);
      assert d'.goroutines.Keys == d.goroutines.Keys - {g};
    }
  }

  lemma MoveKeepsBalance(d: Dispatcher, move: Move)
    requires Balanced(d) && Possible(d, move)
    ensures Balanced(Moved(d, move))
  {
    if move.Spawn? || move.LeaveGroup? {
      GoroutineKeepsBalance(d, move);
    } else if move.EnterHandler? || move.LeaveEarly? || move.LeaveHandler? || move.FreeSlot? {
      PhaseKeepsBalance(d, move);
    } else {
      assert SlotHolders(Moved(d, move)) == SlotHolders(d);
      assert move.SeeEmptyGroup? ==> d.goroutines.Keys == {};
    }
  }

  lemma {:induction false} MovesKeepBalance(d: Dispatcher, moves: seq<Move>)
    requires Balanced(d) && MoveAll(d, moves).Some?
    ensures Balanced(MoveAll(d, moves).value) && MoveAll(d, moves).value.concurrency == d.concurrency
    ensures d.closer == ClosedDone ==> MoveAll(d, moves).value.closer == ClosedDone
  {
    if moves != [] {
      MovesKeepBalance(d, moves[..|moves| - 1]);
      MoveKeepsBalance(MoveAll(d, moves[..|moves| - 1]).value, moves[|moves| - 1]);
    }
  }

  lemma Fewer(a: set<nat>, b: set<nat>)
    requires a <= b
    ensures |a| <= |b|
  {
    assert b == a + (b - a);
  }

  /** Never more handlers at once than the concurrency, in every run. */
  lemma ConcurrencyIsBounded(concurrency: nat, moves: seq<Move>)
    requires MoveAll(Fresh(concurrency), moves).Some?
    ensures |Running(MoveAll(Fresh(concurrency), moves).value)| <= concurrency
  {
    MovesKeepBalance(Fresh(concurrency), moves);
    var d := MoveAll(Fresh(concurrency), moves).value;
    Fewer(Running(d), SlotHolders(d));
  }

  /** Once Done is closed, no handler runs, and no continuation of the run starts one. */
  lemma DoneIsFinal(concurrency: nat, moves: seq<Move>, more: seq<Move>)
    requires MoveAll(Fresh(concurrency), moves).Some? && MoveAll(Fresh(concurrency), moves).value.closer == ClosedDone
    requires MoveAll(MoveAll(Fresh(concurrency), moves).value, more).Some?
    ensures Running(MoveAll(MoveAll(Fresh(concurrency), moves).value, more).value) == {}
  {
    MovesKeepBalance(Fresh(concurrency), moves);
    MovesKeepBalance(MoveAll(Fresh(concurrency), moves).value, more);
  }

  // ---------- Worker pools ----------

  datatype Place = AtCheck | Claiming | Handling | Waiting | Returned

  /** startedLate counts the handlers a worker started after the stop signal. */
  datatype Pool = Pool(workers: seq<Place>, stopping: bool, startedLate: seq<nat>, done: bool)

  datatype Act =
    | PassCheck(w: nat) | LeaveAtCheck(w: nat) | StartHandler(w: nat) | Complete(w: nat)
    | FindNothing(w: nat) | WakeUp(w: nat) | LeaveWaiting(w: nat) | StopPool | CloseDone

  predicate Is(p: Pool, w: nat, place: Place) {
    w < |p.workers| == |p.startedLate| && p.workers[w] == place
  }

  predicate CanAct(p: Pool, act: Act) {
    match act
    case PassCheck(w) => Is(p, w, AtCheck) && !p.stopping
    case LeaveAtCheck(w) => Is(p, w, AtCheck) && p.stopping
    case StartHandler(w) => Is(p, w, Claiming)
    case Complete(w) => Is(p, w, Handling)
    case FindNothing(w) => Is(p, w, Claiming)
    case WakeUp(w) => Is(p, w, Waiting)
    case LeaveWaiting(w) => Is(p, w, Waiting) && p.stopping
    case StopPool => true
    case CloseDone => forall w :: 0 <= w < |p.workers| ==> p.workers[w] == Returned
  }

  function Acted(p: Pool, act: Act): Pool
    requires CanAct(p, act)
  {
    match act
    case PassCheck(w) => p.(workers := p.workers[w := Claiming])
    case LeaveAtCheck(w) => p.(workers := p.workers[w := Returned])
    case StartHandler(w) =>
      p.(workers := p.workers[w := Handling],
         startedLate := if p.stopping then p.startedLate[w := p.startedLate[w] + 1] else p.startedLate)
    case Complete(w) => p.(workers := p.workers[w := AtCheck])
    case FindNothing(w) => p.(workers := p.workers[w := Waiting])
    case WakeUp(w) => p.(workers := p.workers[w := AtCheck])
    case LeaveWaiting(w) => p.(workers := p.workers[w := Returned])
    case StopPool => p.(stopping := true)
    case CloseDone => p.(done := true)
  }

  function FreshPool(concurrency: nat): Pool {
    Pool(seq(concurrency, i => AtCheck), false, seq(concurrency, i => 0), false)
  }

  ghost function ActAll(p: Pool, acts: seq<Act>): Option<Pool> {
    if acts == [] then Some(p)
    else
      var r := ActAll(p, acts[..|acts| - 1]);
      var last := acts[|acts| - 1];
      if r.Some? && CanAct(r.value, last) then Some(Acted(r.value, last)) else None
  }

  ghost predicate PoolOk(p: Pool) {
    && |p.startedLate| == |p.workers|
    && (forall w :: 0 <= w < |p.workers| ==>
          p.startedLate[w] <= 1 && (p.workers[w] == Claiming || !p.stopping ==> p.startedLate[w] == 0))
    && (p.done ==> forall w :: 0 <= w < |p.workers| ==> p.workers[w] == Returned)
  }

  lemma {:induction false} ActsKeepPool(p: Pool, acts: seq<Act>)
    requires PoolOk(p) && ActAll(p, acts).Some?
    ensures PoolOk(ActAll(p, acts).value) && |ActAll(p, acts).value.workers| == |p.workers|
    ensures p.done ==> ActAll(p, acts).value.done
  {
    if acts != [] {
      ActsKeepPool(p, acts[..|acts| - 1]);
    }
  }

  /** Each worker starts at most one handler after the stop signal. */
  lemma OneMoreHandlerEach(concurrency: nat, acts: seq<Act>, w: nat)
    requires ActAll(FreshPool(concurrency), acts).Some? && w < concurrency
    ensures var p := ActAll(FreshPool(concurrency), acts).value;
            w < |p.startedLate| && p.startedLate[w] <= 1
  {
    ActsKeepPool(FreshPool(concurrency), acts);
  }

  /** Once Done is closed every worker has returned, for good. */
  lemma PoolDoneIsFinal(concurrency: nat, acts: seq<Act>, more: seq<Act>, w: nat)
    requires ActAll(FreshPool(concurrency), acts).Some? && ActAll(FreshPool(concurrency), acts).value.done
    requires ActAll(ActAll(FreshPool(concurrency), acts).value, more).Some? && w < concurrency
    ensures var p := ActAll(ActAll(FreshPool(concurrency), acts).value, more).value;
            w < |p.workers| && p.workers[w] == Returned
  {
    ActsKeepPool(FreshPool(concurrency), acts);
    ActsKeepPool(ActAll(FreshPool(concurrency), acts).value, more);
  }
}
