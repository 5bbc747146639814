/** No lost wake-ups: the stack, its tasks and any number of threads that block in `open`, `connect`, `accept`,
    `receive` and `send`, in every interleaving. */
module TcpBlocking {
  import opened Wrappers
  import opened Inet
  import opened TcpPcb
  import opened TcpTable
  import opened TcpOps
  import opened TcpWake
  import opened Waiting

  /** The stack and the threads; each task has been notified as often as the stack says. `disturbed` records which
      threads had a `connect` start, or give up, on their descriptor since they looked at their block. */
  datatype World = World(sys: Sys, hall: Hall, disturbed: set<nat>)

  /** One atomic step: a section under the lock of the table, a thread's look at its block under that lock, which takes
      the snapshot, or a step of a thread or of the interrupt handler under the lock of a task. */
  datatype Event =
    | Section(op: Op)
    | LookAt(th: nat, call: Call)
    | TaskStep(act: Act)

  /** The condition under which a call goes on to wait, for the block in its descriptor. */
  predicate Waitable(s: Sys, call: Call) {
    Live(s.pcbs, call.desc) &&
    var p := s.pcbs[call.desc].value;
    match call
    case Opening(_) => Waits(p.state)
    case Accepting(_) => IdleListener(p)
    case Receiving(_) => ReceiveWaits(p)
    case Sending(_) => CanSend(p.state) && Capacity(p) == 0
  }

  /** What is left of it as long as nobody is notified. */
  predicate Held(s: Sys, call: Call) {
    Live(s.pcbs, call.desc) &&
    var p := s.pcbs[call.desc].value;
    match call
    case Opening(_) => Waits(p.state)
    case Accepting(_) => IdleListener(p)
    case Receiving(_) => ReaderHeld(p)
    case Sending(_) => CanSend(p.state)
  }

  /** A thread is between its look and the end of its wait, on descriptor `d`. */
  predicate WaitsOn(x: Thread, d: nat) {
    (x.Looked? || x.Asleep?) && x.call.desc == d
  }

  predicate Enabled(w: World, ev: Event) {
    match ev
    case Section(_) => true
    case LookAt(th, call) => Waitable(w.sys, call) && Can(w.hall, Look(th, call, w.sys.pcbs[call.desc].value.task))
    case TaskStep(act) => (act.Enter? || act.Wake? || act.Strike?) && Can(w.hall, act)
  }

  /** The threads that a section of `connect` works around. */
  function Disturbs(threads: seq<Thread>, op: Op): set<nat> {
    if Exempt(op).None? then {} else set i | 0 <= i < |threads| && WaitsOn(threads[i], Exempt(op).value)
  }

  ghost function Step(w: World, ev: Event): World
    requires Enabled(w, ev)
  {
    match ev
    case Section(op) =>
      var s := Do(w.sys, op);
      World(s, Noticed(w.hall, s.gens), w.disturbed + Disturbs(w.hall.threads, op))
    case LookAt(th, call) =>
      World(w.sys, Perform(w.hall, Look(th, call, w.sys.pcbs[call.desc].value.task)), w.disturbed - {th})
    case TaskStep(act) => w.(hall := Perform(w.hall, act))
  }

  /** A thread whose task has not been notified since its snapshot waits for good reason. */
  predicate Justified(s: Sys, x: Thread) {
    x.Looked? || x.Asleep? ==>
      x.task < |s.gens| && (s.gens[x.task] == x.seen ==> Held(s, x.call) && s.pcbs[x.call.desc].value.task == x.task)
  }

  ghost predicate WorldInv(w: World) {
    && ValidSys(w.sys) && HallInv(w.hall) && w.hall.counts == w.sys.gens
    && forall i :: 0 <= i < |w.hall.threads| && i !in w.disturbed ==> Justified(w.sys, w.hall.threads[i])
  }

  /** A locked section of the table disturbs no justified waiter without a notification. */
  lemma SectionKeeps(w: World, op: Op)
    requires WorldInv(w)
    ensures WorldInv(Step(w, Section(op)))
  {
    var s, v := Do(w.sys, op), Step(w, Section(op));
    OpWakes(w.sys, op);
    assert Can(w.hall, Notices(s.gens));
    ActKeeps(w.hall, Notices(s.gens));
    forall i | 0 <= i < |v.hall.threads| && i !in v.disturbed
      ensures Justified(s, v.hall.threads[i])
    {
      assert ThreadOk(w.hall.threads[i], w.hall.counts, w.hall.tasks);
      assert Justified(w.sys, w.hall.threads[i]);
      StillJustified(w.sys, s, Exempt(op), w.hall.threads[i]);
    }
  }

  lemma StillJustified(s: Sys, t: Sys, exempt: Option<nat>, x: Thread)
    requires ValidSys(s) && Wakes(s, t, exempt) && Justified(s, x)
    requires x.Looked? || x.Asleep? ==> x.task < |s.gens| && x.seen <= s.gens[x.task]
    requires exempt.Some? ==> !WaitsOn(x, exempt.value)
    ensures Justified(t, x)
  {
    if (x.Looked? || x.Asleep?) && t.gens[x.task] == x.seen {
      assert Kept(s, t, x.call.desc);
    }
  }

  lemma TaskStepKeeps(w: World, act: Act)
    requires WorldInv(w) && Enabled(w, TaskStep(act))
    ensures WorldInv(Step(w, TaskStep(act)))
  {
    ActKeeps(w.hall, act);
    var h := Perform(w.hall, act);
    forall i | 0 <= i < |h.threads| && i !in w.disturbed
      ensures Justified(w.sys, h.threads[i])
    {
      assert Justified(w.sys, w.hall.threads[i]);
    }
  }

  lemma LookKeeps(w: World, th: nat, call: Call)
    requires WorldInv(w) && Enabled(w, LookAt(th, call))
    ensures WorldInv(Step(w, LookAt(th, call)))
  {
    ActKeeps(w.hall, Look(th, call, w.sys.pcbs[call.desc].value.task));
    var v := Step(w, LookAt(th, call));
    forall i | 0 <= i < |v.hall.threads| && i !in v.disturbed
      ensures Justified(w.sys, v.hall.threads[i])
    {
      if i != th {
        assert Justified(w.sys, w.hall.threads[i]);
      }
    }
  }

  lemma StepKeeps(w: World, ev: Event)
    requires WorldInv(w) && Enabled(w, ev)
    ensures WorldInv(Step(w, ev))
  {
    match ev
    case Section(op) => SectionKeeps(w, op);
    case LookAt(th, call) => LookKeeps(w, th, call);
    case TaskStep(act) => TaskStepKeeps(w, act);
  }

  // ---------------------------------------------------------------- over whole runs

  ghost predicate IsWorldRun(t: seq<World>, evs: seq<Event>) {
    && |t| == |evs| + 1
    && t[0].sys == Sys([], [], {}) && t[0].hall.counts == [] && t[0].hall.tasks == [] && t[0].disturbed == {}
    && (forall i :: 0 <= i < |t[0].hall.threads| ==> t[0].hall.threads[i].Away?)
    && forall i {:trigger evs[i]} :: 0 <= i < |evs| ==> Enabled(t[i], evs[i]) && t[i + 1] == Step(t[i], evs[i])
  }

  lemma {:induction false} WorldRunKeeps(t: seq<World>, evs: seq<Event>, i: nat)
    requires IsWorldRun(t, evs) && i < |t|
    ensures WorldInv(t[i])
  {
    if i > 0 {
      WorldRunKeeps(t, evs, i - 1);
      StepKeeps(t[i - 1], evs[i - 1]);
    }
  }

  /** No lost wake-ups: in every interleaving whatever, a thread that is blocked with no signal on its way, on whose
      descriptor no `connect` was started or given up meanwhile, and whose task was not notified 2^64 times or more
      since its snapshot, has this reason to be: in `open` or `connect` its block is live in LISTEN, SYN_SENT or
      SYN_RECEIVED; in `accept` on a socket-mode listener the backlog is empty; in `receive` there is nothing to read,
      and the stream is open, or it was ended by a FIN that notified nobody, in CLOSING or TIME_WAIT; in `send` the
      connection is in ESTABLISHED or CLOSE_WAIT. */
  lemma NoLostWakeup(t: seq<World>, evs: seq<Event>, i: nat, th: nat)
    requires IsWorldRun(t, evs) && i < |t| && th < |t[i].hall.threads| && th !in t[i].disturbed
    requires t[i].hall.threads[th].Asleep? && !t[i].hall.threads[th].signaled
    ensures var x, s := t[i].hall.threads[th], t[i].sys;
      && x.task < |s.gens| && x.seen <= s.gens[x.task]
      && (s.gens[x.task] - x.seen < M64 ==>
            && Live(s.pcbs, x.call.desc) && s.pcbs[x.call.desc].value.task == x.task
            && Reason(s.pcbs[x.call.desc].value, x.call))
  {
    WorldRunKeeps(t, evs, i);
    var x := t[i].hall.threads[th];
    assert ThreadOk(x, t[i].hall.counts, t[i].hall.tasks);
    assert Justified(t[i].sys, x);
    if t[i].sys.gens[x.task] - x.seen < M64 {
      SameGeneration(x.seen, t[i].sys.gens[x.task]);
    }
  }

  /** Why a thread is blocked. */
  predicate Reason(p: Pcb, call: Call) {
    match call
    case Opening(_) => p.state in {Listen, SynSent, SynReceived}
    case Accepting(_) => p.state == Listen && p.backlog == []
    case Receiving(_) => p.buf == [] && p.state in {Established, FinWait1, FinWait2, Closing, TimeWait}
    case Sending(_) => p.state in {Established, CloseWait}
  }

  // ---------------------------------------------------------------- interrupts

  /** What an event means for tasks and threads. */
  ghost function ActOf(w: World, ev: Event): Act
    requires Enabled(w, ev)
  {
    match ev
    case Section(op) => Notices(Do(w.sys, op).gens)
    case LookAt(th, call) => Look(th, call, w.sys.pcbs[call.desc].value.task)
    case TaskStep(act) => act
  }

  /** The threads of the stack are an instance of the threads at large, so what holds of every interleaving of these,
      that an interrupt reaches everyone blocked and that the last one lowers the flag, holds of them. */
  lemma ThreadsOfStack(t: seq<World>, evs: seq<Event>)
    requires IsWorldRun(t, evs)
    ensures IsHallRun(seq(|t|, i requires 0 <= i < |t| => t[i].hall),
                      seq(|evs|, i requires 0 <= i < |evs| => ActOf(t[i], evs[i])))
  {
    forall i | 0 <= i < |evs|
      ensures Can(t[i].hall, ActOf(t[i], evs[i])) && t[i + 1].hall == Perform(t[i].hall, ActOf(t[i], evs[i]))
    {
      WorldRunKeeps(t, evs, i);
      if evs[i].Section? {
        OpWakes(t[i].sys, evs[i].op);
      }
    }
  }
}
