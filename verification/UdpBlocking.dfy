/** No lost wake-ups in the `recvfrom` of src/udp.rs, whose input notifies only after it has released the table. */
module UdpBlocking {
  import opened Wrappers
  import opened Inet
  import opened Udp
  import opened Waiting

  /** `pending` holds each task that an input is about to notify. */
  datatype World = World(sys: UdpSys, hall: Hall, pending: multiset<nat>)

  /** One atomic step; `Late` is the notification that follows an input. */
  datatype Event =
    | Section(op: Op)
    | Late(task: nat)
    | LookAt(th: nat, desc: nat)
    | TaskStep(act: Act)

  predicate Enabled(w: World, ev: Event) {
    match ev
    case Section(op) => !op.NotifyOp?
    case Late(task) => task in w.pending
    case LookAt(th, d) =>
      Receive(w.sys, d).1 == Blocks && Can(w.hall, Look(th, Receiving(d), w.sys.pcbs[d].value.task))
    case TaskStep(act) => (act.Enter? || act.Wake? || act.Strike?) && Can(w.hall, act)
  }

  /** The task that a section leaves to be notified. */
  function Owed(s: UdpSys, op: Op): multiset<nat> {
    if op.InputOp? && Deliver(s, op.dst, op.g).1.Some? then multiset{Deliver(s, op.dst, op.g).1.value} else multiset{}
  }

  function Step(w: World, ev: Event): World
    requires Enabled(w, ev)
  {
    match ev
    case Section(op) =>
      var s := Do(w.sys, op);
      World(s, Noticed(w.hall, s.gens), w.pending + Owed(w.sys, op))
    case Late(task) =>
      var s := Noted(w.sys, task);
      World(s, Noticed(w.hall, s.gens), w.pending - multiset{task})
    case LookAt(th, d) => w.(hall := Perform(w.hall, Look(th, Receiving(d), w.sys.pcbs[d].value.task)))
    case TaskStep(act) => w.(hall := Perform(w.hall, act))
  }

  /** The block a `recvfrom` waits on is live, and its queue is empty or a notification is on its way. */
  predicate Waitable(s: UdpSys, pending: multiset<nat>, d: nat, task: nat) {
    Live(s.pcbs, d) && s.pcbs[d].value.task == task && (s.pcbs[d].value.queue == [] || task in pending)
  }

  predicate Justified(s: UdpSys, pending: multiset<nat>, x: Thread) {
    x.Looked? || x.Asleep? ==>
      x.task < |s.gens| && (s.gens[x.task] == x.seen ==> Waitable(s, pending, x.call.desc, x.task))
  }

  ghost predicate WorldInv(w: World) {
    && Valid(w.sys) && HallInv(w.hall) && w.hall.counts == w.sys.gens
    && forall i :: 0 <= i < |w.hall.threads| ==> Justified(w.sys, w.pending, w.hall.threads[i])
  }

  /** A section either leaves a waitable block waitable or notifies its task. */
  lemma SectionServes(s: UdpSys, op: Op, pending: multiset<nat>, d: nat, task: nat)
    requires Valid(s) && Waitable(s, pending, d, task)
    ensures var t := Do(s, op);
      |s.gens| <= |t.gens| && (s.gens[task] < t.gens[task] || Waitable(t, pending + Owed(s, op), d, task))
  {
  }

  lemma GensGrow(s: UdpSys, op: Op)
    ensures |s.gens| <= |Do(s, op).gens|
    ensures forall k :: 0 <= k < |s.gens| ==> s.gens[k] <= Do(s, op).gens[k]
  {
  }

  lemma SectionKeeps(w: World, op: Op)
    requires WorldInv(w) && Enabled(w, Section(op))
    ensures WorldInv(Step(w, Section(op)))
  {
    var s := Do(w.sys, op);
    OpKeeps(w.sys, op);
    GensGrow(w.sys, op);
    ActKeeps(w.hall, Notices(s.gens));
    var v := Step(w, Section(op));
    forall i | 0 <= i < |v.hall.threads|
      ensures Justified(s, v.pending, v.hall.threads[i])
    {
      var x := w.hall.threads[i];
      assert ThreadOk(x, w.hall.counts, w.hall.tasks) && Justified(w.sys, w.pending, x);
      if (x.Looked? || x.Asleep?) && w.sys.gens[x.task] == x.seen {
        SectionServes(w.sys, op, w.pending, x.call.desc, x.task);
      }
    }
  }

  lemma LateKeeps(w: World, task: nat)
    requires WorldInv(w) && Enabled(w, Late(task))
    ensures WorldInv(Step(w, Late(task)))
  {
    var s := Noted(w.sys, task);
    OpKeeps(w.sys, NotifyOp(task));
    GensGrow(w.sys, NotifyOp(task));
    ActKeeps(w.hall, Notices(s.gens));
    var v := Step(w, Late(task));
    forall i | 0 <= i < |v.hall.threads|
      ensures Justified(s, v.pending, v.hall.threads[i])
    {
      var x := w.hall.threads[i];
      assert ThreadOk(x, w.hall.counts, w.hall.tasks) && Justified(w.sys, w.pending, x);
    }
  }

  lemma StepKeeps(w: World, ev: Event)
    requires WorldInv(w) && Enabled(w, ev)
    ensures WorldInv(Step(w, ev))
  {
    match ev
    case Section(op) => SectionKeeps(w, op);
    case Late(task) => LateKeeps(w, task);
    case LookAt(th, d) => ActKeeps(w.hall, Look(th, Receiving(d), w.sys.pcbs[d].value.task));
    case TaskStep(act) =>
      ActKeeps(w.hall, act);
      var h := Perform(w.hall, act);
      forall i | 0 <= i < |h.threads|
        ensures Justified(w.sys, w.pending, h.threads[i])
      {
        assert Justified(w.sys, w.pending, w.hall.threads[i]);
      }
  }

  ghost predicate IsWorldRun(t: seq<World>, evs: seq<Event>) {
    && |t| == |evs| + 1
    && t[0].sys == UdpSys([], []) && t[0].hall.counts == [] && t[0].hall.tasks == [] && t[0].pending == multiset{}
    && (forall i :: 0 <= i < |t[0].hall.threads| ==> t[0].hall.threads[i].Away?)
    && forall i {:trigger evs[i]} :: 0 <= i < |evs| ==> Enabled(t[i], evs[i]) && t[i + 1] == Step(t[i], evs[i])
  }

  lemma {:induction false} WorldRunKeeps(t: seq<World>, evs: seq<Event>, i: nat)
    requires IsWorldRun(t, evs) && i < |t|
    ensures WorldInv(t[i])
  {
    if i > 0 {
      WorldRunKeeps(t, evs, i - 1);
      StepKeeps(t[i - 1], evs[i - 1]);
    }
  }

  /** No lost wake-ups: in every interleaving, a thread blocked in `recvfrom` with no signal on its way, whose task was
      not notified 2^64 times or more since its snapshot, waits on a live block whose queue is empty or whose
      notification is still pending. */
  lemma NoLostWakeup(t: seq<World>, evs: seq<Event>, i: nat, th: nat)
    requires IsWorldRun(t, evs) && i < |t| && th < |t[i].hall.threads|
    requires t[i].hall.threads[th].Asleep? && !t[i].hall.threads[th].signaled
    ensures var x, s := t[i].hall.threads[th], t[i].sys;
      && x.task < |s.gens| && x.seen <= s.gens[x.task]
      && (s.gens[x.task] - x.seen < M64 ==>
            && Live(s.pcbs, x.call.desc) && s.pcbs[x.call.desc].value.task == x.task
            && (s.pcbs[x.call.desc].value.queue == [] || x.task in t[i].pending))
  {
    WorldRunKeeps(t, evs, i);
    var x := t[i].hall.threads[th];
    assert ThreadOk(x, t[i].hall.counts, t[i].hall.tasks) && Justified(t[i].sys, t[i].pending, x);
    if t[i].sys.gens[x.task] - x.seen < M64 {
      SameGeneration(x.seen, t[i].sys.gens[x.task]);
    }
  }

  /** In every interleaving, the input of a datagram to a nonzero port and a specific address puts it behind what the
      block bound there has queued, and makes a notification of that block's task pending. */
  lemma InputIsOwed(t: seq<World>, evs: seq<Event>, i: nat, dst: Endpoint, g: Dgram, d: nat)
    requires IsWorldRun(t, evs) && i < |evs| && evs[i] == Section(InputOp(dst, g)) && dst.port != 0 && dst.addr != ANY
    requires Live(t[i].sys.pcbs, d) && Means(t[i].sys.pcbs[d].value.local, dst)
    ensures t[i + 1].pending == t[i].pending + multiset{t[i].sys.pcbs[d].value.task}
    ensures t[i + 1].sys.gens == t[i].sys.gens
    ensures t[i + 1].sys.pcbs == t[i].sys.pcbs[d := Some(t[i].sys.pcbs[d].value.(
                                                      queue := t[i].sys.pcbs[d].value.queue + [g]))]
  {
    WorldRunKeeps(t, evs, i);
    assert Select(t[i].sys.pcbs, dst) == Some(d);
  }
}
