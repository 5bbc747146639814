/** Blocking in src/platform/linux/task.rs: a generation counter, an interrupt flag and a count of waiters per task. */
module Waiting {
  const M64 := 0x1_0000_0000_0000_0000

  type u64 = n: nat | n < M64

  datatype WaitResult = Notified | Interrupted

  datatype TaskState = TaskState(generation: u64, interrupted: bool, wc: nat)

  const NEW_TASK := TaskState(0, false, 0)

  /** What `wait_after` does next: block on the condition variable, or return. */
  datatype Outcome = Sleep | Return(result: WaitResult)

  function Bump(g: u64): u64 {
    if g + 1 == M64 then 0 else g + 1
  }

  /** The last one out lowers the flag. */
  function Lowered(ts: TaskState): TaskState {
    if ts.wc == 0 then ts.(interrupted := false) else ts
  }

  /** The `wait_while` test of a counted waiter that holds the lock, and what follows if it does not block. */
  function Settle(ts: TaskState, snapshot: u64): (TaskState, Outcome)
    requires ts.wc > 0
  {
    if ts.generation == snapshot && !ts.interrupted then (ts, Sleep)
    else
      var u := ts.(wc := ts.wc - 1);
      if u.interrupted then (Lowered(u), Return(Interrupted)) else (u, Return(Notified))
  }

  function EnterWait(ts: TaskState, snapshot: u64): (TaskState, Outcome) {
    if ts.interrupted then (Lowered(ts), Return(Interrupted)) else Settle(ts.(wc := ts.wc + 1), snapshot)
  }

  /** A task as the program holds it. `asleep` stands for the condition variable: who is blocked on it, with which
      snapshot, and whether a signal reached it since. */
  class Task {
    var generation: u64
    var interrupted: bool
    var wc: nat
    var asleep: map<nat, (u64, bool)>

    ghost function View(): TaskState
      reads this
    {
      TaskState(generation, interrupted, wc)
    }

    ghost predicate Valid()
      reads this
    {
      wc == |asleep.Keys|
    }

    constructor ()
      ensures Valid() && View() == NEW_TASK && asleep == map[]
    {
      generation, interrupted, wc, asleep := 0, false, 0, map[];
    }

    method Snapshot() returns (snapshot: u64)
      ensures snapshot == View().generation
    {
      return generation;
    }

    /** `wait_after` up to the point where thread `me` blocks or returns. */
    method WaitAfter(me: nat, snapshot: u64) returns (out: Outcome)
      requires Valid() && me !in asleep
      modifies this
      ensures Valid() && (View(), out) == EnterWait(old(View()), snapshot)
      ensures asleep == if out == Sleep then old(asleep)[me := (snapshot, false)] else old(asleep)
    {
      if interrupted {
        if wc == 0 {
          interrupted := false;
        }
        return Return(Interrupted);
      }
      wc := wc + 1;
      if generation == snapshot && !interrupted {
        asleep := asleep[me := (snapshot, false)];
        assert asleep.Keys == old(asleep).Keys + {me};
        return Sleep;
      }
      wc := wc - 1;
      return Return(Notified);
    }

    /** Thread `me` wakes, for whatever reason, and holds the lock again. */
    method Resume(me: nat) returns (out: Outcome)
      requires Valid() && me in asleep
      modifies this
      ensures wc + (if out == Sleep then 0 else 1) == old(wc) && old(wc) > 0
      ensures Valid() && (View(), out) == Settle(old(View()), old(asleep)[me].0)
      ensures asleep == if out == Sleep then old(asleep)[me := (old(asleep)[me].0, false)] else old(asleep) - {me}
    {
      assert asleep.Keys == (asleep.Keys - {me}) + {me};
      var snapshot := asleep[me].0;
      if generation == snapshot && !interrupted {
        asleep := asleep[me := (snapshot, false)];
        assert asleep.Keys == old(asleep).Keys;
        return Sleep;
      }
      asleep := asleep - {me};
      assert asleep.Keys == old(asleep).Keys - {me};
      wc := wc - 1;
      if interrupted {
        if wc == 0 {
          interrupted := false;
        }
        return Return(Interrupted);
      }
      return Return(Notified);
    }

    method Notify()
      requires Valid()
      modifies this
      ensures Valid() && View() == old(View()).(generation := Bump(old(generation)))
      ensures asleep == map me | me in old(asleep) :: (old(asleep)[me].0, true)
    {
      generation := Bump(generation);
      asleep := map me | me in asleep :: (asleep[me].0, true);
      assert asleep.Keys == old(asleep).Keys;
    }

    method Interrupt()
      requires Valid()
      modifies this
      ensures Valid() && View() == old(View()).(interrupted := true)
      ensures asleep == if old(interrupted) then old(asleep)
                        else map me | me in old(asleep) :: (old(asleep)[me].0, true)
    {
      if !interrupted {
        interrupted := true;
        asleep := map me | me in asleep :: (asleep[me].0, true);
        assert asleep.Keys == old(asleep).Keys;
      }
    }
  }

  // ---------------------------------------------------------------- many tasks, many threads

  /** The blocking call a thread is in: the open or connect, the accept, the receive and the send of TCP, or the
      recvfrom of UDP, which counts as receiving too. */
  datatype Call = Opening(desc: nat) | Accepting(desc: nat) | Receiving(desc: nat) | Sending(desc: nat)

  /** A thread is elsewhere, has looked under the lock of the table and taken a snapshot, is blocked, or is back from
      its wait. `seen` is how often its task had been notified at the snapshot, and `doomed` records that `interrupt`
      fired while it was blocked. */
  datatype Thread =
    | Away
    | Looked(call: Call, task: nat, seen: nat)
    | Asleep(call: Call, task: nat, seen: nat, signaled: bool, doomed: bool)
    | Back(result: WaitResult)

  /** `counts` is how often each task was notified in all. */
  datatype Hall = Hall(counts: seq<nat>, tasks: seq<TaskState>, threads: seq<Thread>)

  datatype Act =
    | Notices(counts: seq<nat>)
    | Look(th: nat, call: Call, task: nat)
    | Enter(th: nat)
    | Wake(th: nat)
    | Strike(task: nat)

  function Generation(count: nat): u64 {
    count % M64
  }

  lemma SameGeneration(seen: nat, count: nat)
    requires Generation(seen) == Generation(count) && seen <= count < seen + M64
    ensures seen == count
  {
  }

  function Sleepers(threads: seq<Thread>, t: nat): set<nat> {
    set i | 0 <= i < |threads| && threads[i].Asleep? && threads[i].task == t
  }

  predicate Can(h: Hall, act: Act) {
    match act
    case Notices(counts) => |h.counts| <= |counts| && forall t :: 0 <= t < |h.counts| ==> h.counts[t] <= counts[t]
    case Look(th, _, t) =>
      th < |h.threads| && (h.threads[th].Away? || h.threads[th].Back?) && t < |h.tasks| && t < |h.counts|
    case Enter(th) => th < |h.threads| && h.threads[th].Looked? && h.threads[th].task < |h.tasks|
    case Wake(th) =>
      && th < |h.threads| && h.threads[th].Asleep?
      && h.threads[th].task < |h.tasks| && h.tasks[h.threads[th].task].wc > 0
    case Strike(t) => t < |h.tasks|
  }

  /** The task after some notifications, or a new one. */
  function Renewed(tasks: seq<TaskState>, t: nat, count: nat): TaskState {
    if t < |tasks| then tasks[t].(generation := Generation(count)) else NEW_TASK.(generation := Generation(count))
  }

  function Signal(x: Thread, was: seq<nat>, now: seq<nat>): Thread {
    if x.Asleep? && x.task < |was| && x.task < |now| && was[x.task] < now[x.task] then x.(signaled := true) else x
  }

  /** The hall once each task has been notified as often as `counts` says. */
  function Noticed(h: Hall, counts: seq<nat>): Hall {
    Hall(counts, seq(|counts|, t requires 0 <= t < |counts| => Renewed(h.tasks, t, counts[t])),
         seq(|h.threads|, i requires 0 <= i < |h.threads| => Signal(h.threads[i], h.counts, counts)))
  }

  /** `interrupt` signals only if it raises the flag. */
  function Struck(x: Thread, t: nat, fire: bool): Thread {
    if x.Asleep? && x.task == t then x.(signaled := x.signaled || fire, doomed := true) else x
  }

  /** How a thread goes on from the outcome of its wait test. */
  function Proceed(x: Thread, out: Outcome): Thread
    requires x.Looked? || x.Asleep?
  {
    match out
    case Sleep => Asleep(x.call, x.task, x.seen, false, false)
    case Return(result) => Back(result)
  }

  function Moved(h: Hall, th: nat, next: (TaskState, Outcome)): Hall
    requires th < |h.threads| && (h.threads[th].Looked? || h.threads[th].Asleep?) && h.threads[th].task < |h.tasks|
  {
    var x := h.threads[th];
    h.(tasks := h.tasks[x.task := next.0], threads := h.threads[th := Proceed(x, next.1)])
  }

  function Perform(h: Hall, act: Act): Hall
    requires Can(h, act)
  {
    match act
    case Notices(counts) => Noticed(h, counts)
    case Look(th, call, t) => h.(threads := h.threads[th := Looked(call, t, h.counts[t])])
    case Enter(th) =>
      var x := h.threads[th];
      Moved(h, th, EnterWait(h.tasks[x.task], Generation(x.seen)))
    case Wake(th) =>
      var x := h.threads[th];
      Moved(h, th, Settle(h.tasks[x.task], Generation(x.seen)))
    case Strike(t) =>
      var fire := !h.tasks[t].interrupted;
      Hall(h.counts, h.tasks[t := h.tasks[t].(interrupted := true)],
           seq(|h.threads|, i requires 0 <= i < |h.threads| => Struck(h.threads[i], t, fire)))
  }

  // ---------------------------------------------------------------- the invariant

  predicate ThreadOk(x: Thread, counts: seq<nat>, tasks: seq<TaskState>) {
    match x
    case Looked(_, t, seen) => t < |counts| && t < |tasks| && seen <= counts[t]
    case Asleep(_, t, seen, signaled, doomed) =>
      && t < |counts| && t < |tasks| && seen <= counts[t]
      && (!signaled ==> tasks[t].generation == Generation(seen) && !tasks[t].interrupted)
      && (doomed ==> tasks[t].interrupted)
    case _ => true
  }

  ghost predicate HallInv(h: Hall) {
    && |h.tasks| == |h.counts|
    && (forall t :: 0 <= t < |h.tasks| ==> h.tasks[t].generation == Generation(h.counts[t]))
    && (forall t :: 0 <= t < |h.tasks| ==> h.tasks[t].wc == |Sleepers(h.threads, t)|)
    && (forall i :: 0 <= i < |h.threads| ==> ThreadOk(h.threads[i], h.counts, h.tasks))
  }

  lemma NoticesKeep(h: Hall, act: Act)
    requires HallInv(h) && Can(h, act) && act.Notices?
    ensures HallInv(Perform(h, act))
  {
    var g := Perform(h, act);
    forall t | 0 <= t < |g.tasks|
      ensures g.tasks[t].wc == |Sleepers(g.threads, t)|
    {
      assert Sleepers(g.threads, t) == Sleepers(h.threads, t);
      if t >= |h.tasks| {
        assert Sleepers(h.threads, t) == {} by {
          assert forall i :: 0 <= i < |h.threads| ==> ThreadOk(h.threads[i], h.counts, h.tasks);
        }
      }
    }
    forall i | 0 <= i < |g.threads|
      ensures ThreadOk(g.threads[i], g.counts, g.tasks)
    {
      assert ThreadOk(h.threads[i], h.counts, h.tasks);
    }
  }

  lemma StrikeKeeps(h: Hall, t: nat)
    requires HallInv(h) && t < |h.tasks|
    ensures HallInv(Perform(h, Strike(t)))
  {
    var g := Perform(h, Strike(t));
    assert forall u :: 0 <= u < |g.tasks| ==> Sleepers(g.threads, u) == Sleepers(h.threads, u);
    forall i | 0 <= i < |g.threads|
      ensures ThreadOk(g.threads[i], g.counts, g.tasks)
    {
      assert ThreadOk(h.threads[i], h.counts, h.tasks);
    }
  }

  /** One thread changes: the sleepers of its task gain it, lose it or stay. */
  lemma SleepersChange(threads: seq<Thread>, th: nat, x: Thread, t: nat)
    requires th < |threads|
    ensures
      var was, now := Sleepers(threads, t), Sleepers(threads[th := x], t);
      var wasIn, nowIn := threads[th].Asleep? && threads[th].task == t, x.Asleep? && x.task == t;
      |now| == |was| + (if nowIn && !wasIn then 1 else if wasIn && !nowIn then -1 else 0)
  {
    var was, now := Sleepers(threads, t), Sleepers(threads[th := x], t);
    assert was - {th} == now - {th};
    assert th in was ==> was == (was - {th}) + {th};
    assert th in now ==> now == (now - {th}) + {th};
  }

  /** A thread that is asleep is counted, so the flag is not lowered under it. */
  lemma SleeperCounted(h: Hall, i: nat)
    requires HallInv(h) && i < |h.threads| && h.threads[i].Asleep?
    ensures h.threads[i].task < |h.tasks| && h.tasks[h.threads[i].task].wc > 0
  {
    assert ThreadOk(h.threads[i], h.counts, h.tasks);
    assert i in Sleepers(h.threads, h.threads[i].task);
  }

  /** Two sleepers on one task are counted as two. */
  lemma TwoSleepers(h: Hall, i: nat, j: nat)
    requires HallInv(h) && i < |h.threads| && j < |h.threads| && i != j
    requires h.threads[i].Asleep? && h.threads[j].Asleep? && h.threads[i].task == h.threads[j].task
    ensures h.threads[i].task < |h.tasks| && h.tasks[h.threads[i].task].wc > 1
  {
    SleeperCounted(h, i);
    var S := Sleepers(h.threads, h.threads[i].task);
    assert {i, j} <= S;
    assert S == (S - {i, j}) + {i, j};
  }

  lemma EnterKeeps(h: Hall, th: nat)
    requires HallInv(h) && Can(h, Enter(th))
    ensures HallInv(Perform(h, Enter(th)))
  {
    var g, x := Perform(h, Enter(th)), h.threads[th];
    assert ThreadOk(x, h.counts, h.tasks);
    forall t | 0 <= t < |g.tasks|
      ensures g.tasks[t].wc == |Sleepers(g.threads, t)|
    {
      SleepersChange(h.threads, th, g.threads[th], t);
    }
    forall i | 0 <= i < |g.threads|
      ensures ThreadOk(g.threads[i], g.counts, g.tasks)
    {
      assert ThreadOk(h.threads[i], h.counts, h.tasks);
      if i != th && h.threads[i].Asleep? {
        SleeperCounted(h, i);
      }
    }
  }

  lemma WakeKeeps(h: Hall, th: nat)
    requires HallInv(h) && Can(h, Wake(th))
    ensures HallInv(Perform(h, Wake(th)))
  {
    var g, x := Perform(h, Wake(th)), h.threads[th];
    assert ThreadOk(x, h.counts, h.tasks);
    forall t | 0 <= t < |g.tasks|
      ensures g.tasks[t].wc == |Sleepers(g.threads, t)|
    {
      SleepersChange(h.threads, th, g.threads[th], t);
    }
    forall i | 0 <= i < |g.threads|
      ensures ThreadOk(g.threads[i], g.counts, g.tasks)
    {
      assert ThreadOk(h.threads[i], h.counts, h.tasks);
      if i != th && h.threads[i].Asleep? && h.threads[i].task == x.task {
        TwoSleepers(h, i, th);
      }
    }
  }

  lemma LookKeeps(h: Hall, act: Act)
    requires HallInv(h) && Can(h, act) && act.Look?
    ensures HallInv(Perform(h, act))
  {
    var g := Perform(h, act);
    assert forall t :: 0 <= t < |g.tasks| ==> Sleepers(g.threads, t) == Sleepers(h.threads, t);
  }

  lemma ActKeeps(h: Hall, act: Act)
    requires HallInv(h) && Can(h, act)
    ensures HallInv(Perform(h, act))
  {
    match act
    case Notices(_) => NoticesKeep(h, act);
    case Look(_, _, _) => LookKeeps(h, act);
    case Enter(th) => EnterKeeps(h, th);
    case Wake(th) => WakeKeeps(h, th);
    case Strike(t) => StrikeKeeps(h, t);
  }

  // ---------------------------------------------------------------- over whole runs

  /** Any interleaving of any number of threads, starting with no task and every thread elsewhere. */
  ghost predicate IsHallRun(t: seq<Hall>, acts: seq<Act>) {
    && |t| == |acts| + 1
    && t[0].counts == [] && t[0].tasks == [] && (forall i :: 0 <= i < |t[0].threads| ==> t[0].threads[i].Away?)
    && forall i {:trigger acts[i]} :: 0 <= i < |acts| ==> Can(t[i], acts[i]) && t[i + 1] == Perform(t[i], acts[i])
  }

  lemma {:induction false} HallRunKeeps(t: seq<Hall>, acts: seq<Act>, i: nat)
    requires IsHallRun(t, acts) && i < |t|
    ensures HallInv(t[i]) && |t[i].threads| == |t[0].threads|
  {
    if i > 0 {
      HallRunKeeps(t, acts, i - 1);
      ActKeeps(t[i - 1], acts[i - 1]);
    }
  }

  /** A thread that is blocked and has no signal on its way missed nothing: the number of notifications since its
      snapshot is a multiple of 2^64, hence zero if and only if there were fewer than 2^64. */
  lemma BlockedMissedNothing(t: seq<Hall>, acts: seq<Act>, i: nat, th: nat)
    requires IsHallRun(t, acts) && i < |t| && th < |t[i].threads|
    requires t[i].threads[th].Asleep? && !t[i].threads[th].signaled
    ensures var x := t[i].threads[th];
      && x.task < |t[i].counts| == |t[i].tasks| && x.seen <= t[i].counts[x.task] && !t[i].tasks[x.task].interrupted
      && (t[i].counts[x.task] - x.seen) % M64 == 0
      && (t[i].counts[x.task] == x.seen <==> t[i].counts[x.task] - x.seen < M64)
  {
    HallRunKeeps(t, acts, i);
    assert ThreadOk(t[i].threads[th], t[i].counts, t[i].tasks);
  }

  /** A blocked thread can always run again once it is signaled, and a blocked thread that `interrupt` hit is. */
  lemma DoomedIsSignaled(t: seq<Hall>, acts: seq<Act>, i: nat, th: nat)
    requires IsHallRun(t, acts) && i < |t| && th < |t[i].threads| && t[i].threads[th].Asleep?
    ensures Can(t[i], Wake(th))
    ensures t[i].threads[th].doomed ==> t[i].threads[th].signaled
  {
    HallRunKeeps(t, acts, i);
    SleeperCounted(t[i], th);
    assert ThreadOk(t[i].threads[th], t[i].counts, t[i].tasks);
  }

  /** One step of a doomed thread: it stays doomed, or returns Interrupted. */
  lemma DoomedStep(h: Hall, act: Act, th: nat)
    requires HallInv(h) && Can(h, act) && th < |h.threads| && h.threads[th].Asleep? && h.threads[th].doomed
    ensures var x := Perform(h, act).threads[th]; x == Back(Interrupted) || (x.Asleep? && x.doomed)
  {
    assert ThreadOk(h.threads[th], h.counts, h.tasks);
  }

  /** Every thread that is blocked on a task when `interrupt` fires returns Interrupted: however the run goes on, when
      it is first seen to be blocked no longer, that is its result. */
  lemma {:induction false} InterruptReachesAll(t: seq<Hall>, acts: seq<Act>, i: nat, j: nat, th: nat)
    requires IsHallRun(t, acts) && i < j < |t| && th < |t[0].threads|
    requires |t[i].threads| == |t[0].threads|
    requires t[i].threads[th].Asleep? && acts[i] == Strike(t[i].threads[th].task)
    requires forall k :: i <= k < j ==> th < |t[k].threads| && t[k].threads[th].Asleep?
    ensures th < |t[j].threads|
    ensures t[j].threads[th] == Back(Interrupted) || (t[j].threads[th].Asleep? && t[j].threads[th].doomed)
  {
    HallRunKeeps(t, acts, j);
    HallRunKeeps(t, acts, j - 1);
    var _ := acts[j - 1];
    if j > i + 1 {
      InterruptReachesAll(t, acts, i, j - 1, th);
      DoomedStep(t[j - 1], acts[j - 1], th);
    }
  }

  lemma LoweringStep(h: Hall, act: Act, u: nat)
    requires HallInv(h) && Can(h, act) && u < |h.tasks| && u < |Perform(h, act).tasks|
    requires h.tasks[u].interrupted && !Perform(h, act).tasks[u].interrupted
    ensures (act.Enter? || act.Wake?) && Perform(h, act).threads[act.th] == Back(Interrupted)
    ensures Perform(h, act).tasks[u].wc == 0
  {
  }

  /** Only the last one lowers the flag: when it goes down, a thread just returned Interrupted and nobody is blocked. */
  lemma LastLowersFlag(t: seq<Hall>, acts: seq<Act>, i: nat, u: nat)
    requires IsHallRun(t, acts) && i < |acts| && u < |t[i].tasks| && u < |t[i + 1].tasks|
    requires t[i].tasks[u].interrupted && !t[i + 1].tasks[u].interrupted
    ensures Sleepers(t[i + 1].threads, u) == {}
    ensures (acts[i].Enter? || acts[i].Wake?) && acts[i].th < |t[i + 1].threads|
    ensures t[i + 1].threads[acts[i].th] == Back(Interrupted)
  {
    HallRunKeeps(t, acts, i);
    HallRunKeeps(t, acts, i + 1);
    LoweringStep(t[i], acts[i], u);
  }

  /** The outcome of a wait test: Interrupted exactly if the flag is up, Notified exactly if it is down and the
      notifications since the snapshot are not a multiple of 2^64, and otherwise the thread blocks, with the snapshot it
      had. The flag stays up exactly as long as others are still blocked. */
  lemma WaitTestIff(t: seq<Hall>, acts: seq<Act>, i: nat)
    requires IsHallRun(t, acts) && i < |acts| && (acts[i].Enter? || acts[i].Wake?)
    ensures acts[i].th < |t[i].threads| == |t[i + 1].threads|
    ensures var x, y := t[i].threads[acts[i].th], t[i + 1].threads[acts[i].th];
      && (x.Looked? || x.Asleep?) && x.task < |t[i].tasks| == |t[i].counts| == |t[i + 1].tasks|
      && var flag, missed := t[i].tasks[x.task].interrupted, t[i].counts[x.task] - x.seen;
         && (y == Back(Interrupted) <==> flag)
         && (y == Back(Notified) <==> !flag && missed % M64 != 0)
         && (y.Asleep? <==> !flag && missed % M64 == 0)
         && (y.Asleep? ==> y.task == x.task && y.seen == x.seen && y.call == x.call)
         && (t[i + 1].tasks[x.task].interrupted <==> flag && t[i + 1].tasks[x.task].wc > 0)
  {
    HallRunKeeps(t, acts, i);
    var x := t[i].threads[acts[i].th];
    assert ThreadOk(x, t[i].counts, t[i].tasks);
    SameResidue(x.seen, t[i].counts[x.task]);
  }

  lemma SameResidue(seen: nat, count: nat)
    requires seen <= count
    ensures Generation(seen) == Generation(count) <==> (count - seen) % M64 == 0
  {
  }
}
