/** The UDP port table of src/udp.rs: who is bound where, and which block a datagram reaches. */
module Udp {
  import opened Wrappers
  import opened Words
  import opened Inet

  const PCB_SIZE_MAX := 16
  const DYNAMIC_PORT_MIN := 49152
  const DYNAMIC_PORT_MAX := 65535

  datatype Dgram = Dgram(remote: Endpoint, data: seq<u8>)

  datatype UdpPcb = UdpPcb(local: Endpoint, queue: seq<Dgram>, task: nat)

  type Slots = seq<Option<UdpPcb>>

  /** The table, and how often each task was notified. */
  datatype UdpSys = UdpSys(pcbs: Slots, gens: seq<nat>)

  predicate Live(pcbs: Slots, i: nat) {
    i < |pcbs| && pcbs[i].Some?
  }

  // ---------------------------------------------------------------- selection

  predicate Matches(p: UdpPcb, key: Endpoint) {
    p.local.port == key.port && (p.local.addr == key.addr || p.local.addr == ANY || key.addr == ANY)
  }

  /** pcb_select: the first live block from slot `i` on that matches. */
  function SelectFrom(pcbs: Slots, i: nat, key: Endpoint): (r: Option<nat>)
    ensures r.None? ==> forall j: nat :: i <= j && Live(pcbs, j) ==> !Matches(pcbs[j].value, key)
    ensures r.Some? ==> i <= r.value && Live(pcbs, r.value) && Matches(pcbs[r.value].value, key)
    ensures r.Some? ==> forall j: nat :: i <= j < r.value && Live(pcbs, j) ==> !Matches(pcbs[j].value, key)
    decreases |pcbs| - i
  {
    if i >= |pcbs| then None
    else if pcbs[i].Some? && Matches(pcbs[i].value, key) then Some(i)
    else SelectFrom(pcbs, i + 1, key)
  }

  function Select(pcbs: Slots, key: Endpoint): Option<nat> {
    SelectFrom(pcbs, 0, key)
  }

  // ---------------------------------------------------------------- operations

  function FirstFree(pcbs: Slots, i: nat): (k: nat)
    requires i <= |pcbs|
    ensures i <= k <= |pcbs| && (forall j :: i <= j < k ==> pcbs[j].Some?) && (k < |pcbs| ==> pcbs[k].None?)
    decreases |pcbs| - i
  {
    if i == |pcbs| || pcbs[i].None? then i else FirstFree(pcbs, i + 1)
  }

  function Open(s: UdpSys): (UdpSys, Option<nat>) {
    var d := FirstFree(s.pcbs, 0);
    var p := Some(UdpPcb(WILDCARD, [], |s.gens|));
    if d < |s.pcbs| then (UdpSys(s.pcbs[d := p], s.gens + [0]), Some(d))
    else if |s.pcbs| >= PCB_SIZE_MAX then (s, None)
    else (UdpSys(s.pcbs + [p], s.gens + [0]), Some(d))
  }

  function Noted(s: UdpSys, task: nat): UdpSys {
    if task < |s.gens| then s.(gens := s.gens[task := s.gens[task] + 1]) else s
  }

  function Close(s: UdpSys, d: nat): (UdpSys, bool) {
    if !Live(s.pcbs, d) then (s, false)
    else (Noted(s.(pcbs := s.pcbs[d := None]), s.pcbs[d].value.task), true)
  }

  function Bind(s: UdpSys, d: nat, local: Endpoint): (UdpSys, bool) {
    if !Live(s.pcbs, d) || Select(s.pcbs, local).Some? then (s, false)
    else (s.(pcbs := s.pcbs[d := Some(s.pcbs[d].value.(local := local))]), true)
  }

  function FreePort(pcbs: Slots, addr: IpAddr, port: nat): (r: Option<u16>)
    requires DYNAMIC_PORT_MIN <= port <= DYNAMIC_PORT_MAX + 1
    ensures r.Some? ==> port <= r.value && Select(pcbs, Endpoint(addr, r.value)).None?
    ensures r.None? ==> forall q: u16 :: port <= q ==> Select(pcbs, Endpoint(addr, q)).Some?
    decreases DYNAMIC_PORT_MAX + 1 - port
  {
    if port > DYNAMIC_PORT_MAX then None
    else if Select(pcbs, Endpoint(addr, port)).None? then Some(port)
    else FreePort(pcbs, addr, port + 1)
  }

  /** The locked section of `sendto`: an unbound block gets a dynamic port. The result is the local endpoint. */
  function SendPort(s: UdpSys, d: nat): (UdpSys, Option<Endpoint>) {
    if !Live(s.pcbs, d) then (s, None)
    else
      var p := s.pcbs[d].value;
      if p.local.port != 0 then (s, Some(p.local))
      else
        var port := FreePort(s.pcbs, p.local.addr, DYNAMIC_PORT_MIN);
        if port.None? then (s, None)
        else
          var local := p.local.(port := port.value);
          (s.(pcbs := s.pcbs[d := Some(p.(local := local))]), Some(local))
  }

  /** The locked section of `input`: the datagram joins the queue of the block it selects. The result names whom
      it notifies once the lock is released. */
  function Deliver(s: UdpSys, dst: Endpoint, g: Dgram): (UdpSys, Option<nat>) {
    match Select(s.pcbs, dst)
    case None => (s, None)
    case Some(d) =>
      var p := s.pcbs[d].value;
      (s.(pcbs := s.pcbs[d := Some(p.(queue := p.queue + [g]))]), Some(p.task))
  }

  datatype Received = NotBound | Blocks | Got(g: Dgram)

  /** One locked pass of `recvfrom`. */
  function Receive(s: UdpSys, d: nat): (UdpSys, Received) {
    if !Live(s.pcbs, d) then (s, NotBound)
    else
      var p := s.pcbs[d].value;
      if p.queue == [] then (s, Blocks)
      else (s.(pcbs := s.pcbs[d := Some(p.(queue := p.queue[1..]))]), Got(p.queue[0]))
  }

  // ---------------------------------------------------------------- the table in place

  class Table {
    var pcbs: Slots
    var gens: seq<nat>

    ghost function View(): UdpSys
      reads this
    {
      UdpSys(pcbs, gens)
    }

    constructor ()
      ensures View() == UdpSys([], [])
    {
      pcbs, gens := [], [];
    }

    method PcbAlloc() returns (desc: Option<nat>)
      modifies this
      ensures (View(), desc) == Open(old(View()))
    {
      var i := 0;
      while i < |pcbs|
        invariant 0 <= i <= |pcbs| && FirstFree(pcbs, 0) == FirstFree(pcbs, i) && unchanged(this)
      {
        if pcbs[i].None? {
          pcbs := pcbs[i := Some(UdpPcb(WILDCARD, [], |gens|))];
          gens := gens + [0];
          return Some(i);
        }
        i := i + 1;
      }
      if |pcbs| >= PCB_SIZE_MAX {
        return None;
      }
      desc := Some(|pcbs|);
      pcbs := pcbs + [Some(UdpPcb(WILDCARD, [], |gens|))];
      gens := gens + [0];
    }

    method PcbSelect(key: Endpoint) returns (desc: Option<nat>)
      ensures desc == Select(pcbs, key)
    {
      var i := 0;
      while i < |pcbs|
        invariant 0 <= i <= |pcbs| && Select(pcbs, key) == SelectFrom(pcbs, i, key)
      {
        if pcbs[i].Some? && Matches(pcbs[i].value, key) {
          return Some(i);
        }
        i := i + 1;
      }
      return None;
    }

    method Notify(task: nat)
      modifies this`gens
      ensures View() == Noted(old(View()), task)
    {
      if task < |gens| {
        gens := gens[task := gens[task] + 1];
      }
    }

    method CloseBlock(desc: nat) returns (ok: bool)
      modifies this
      ensures (View(), ok) == Close(old(View()), desc)
    {
      if !Live(pcbs, desc) {
        return false;
      }
      var task := pcbs[desc].value.task;
      pcbs := pcbs[desc := None];
      Notify(task);
      return true;
    }

    method BindTo(desc: nat, local: Endpoint) returns (ok: bool)
      modifies this
      ensures (View(), ok) == Bind(old(View()), desc, local)
    {
      if !Live(pcbs, desc) {
        return false;
      }
      var exist := PcbSelect(local);
      if exist.Some? {
        return false;
      }
      pcbs := pcbs[desc := Some(pcbs[desc].value.(local := local))];
      return true;
    }

    /** assign_dynamic_port */
    method AssignPort(desc: nat, addr: IpAddr) returns (port: Option<u16>)
      requires Live(pcbs, desc)
      modifies this
      ensures port == FreePort(old(pcbs), addr, DYNAMIC_PORT_MIN) && gens == old(gens)
      ensures pcbs == if port.None? then old(pcbs)
                      else old(pcbs)[desc := Some(old(pcbs)[desc].value.(
                                               local := old(pcbs)[desc].value.local.(port := port.value)))]
    {
      var p := DYNAMIC_PORT_MIN;
      while p <= DYNAMIC_PORT_MAX
        invariant DYNAMIC_PORT_MIN <= p <= DYNAMIC_PORT_MAX + 1 && unchanged(this)
        invariant FreePort(pcbs, addr, DYNAMIC_PORT_MIN) == FreePort(pcbs, addr, p)
      {
        var exist := PcbSelect(Endpoint(addr, p));
        if exist.None? {
          var pcb := pcbs[desc].value;
          pcbs := pcbs[desc := Some(pcb.(local := pcb.local.(port := p)))];
          return Some(p);
        }
        p := p + 1;
      }
      return None;
    }

    /** `sendto` up to the end of its locked section. */
    method PrepareSend(desc: nat) returns (local: Option<Endpoint>)
      modifies this
      ensures (View(), local) == SendPort(old(View()), desc)
    {
      if !Live(pcbs, desc) {
        return None;
      }
      var addr, port := pcbs[desc].value.local.addr, pcbs[desc].value.local.port;
      if port == 0 {
        var chosen := AssignPort(desc, addr);
        if chosen.None? {
          return None;
        }
        port := chosen.value;
      }
      return Some(Endpoint(addr, port));
    }

    method Enqueue(dst: Endpoint, g: Dgram) returns (task: Option<nat>)
      modifies this
      ensures (View(), task) == Deliver(old(View()), dst, g)
    {
      var desc := PcbSelect(dst);
      if desc.None? {
        return None;
      }
      var pcb := pcbs[desc.value].value;
      pcbs := pcbs[desc.value := Some(pcb.(queue := pcb.queue + [g]))];
      return Some(pcb.task);
    }

    method ReceivePass(desc: nat) returns (r: Received)
      modifies this
      ensures (View(), r) == Receive(old(View()), desc)
    {
      if !Live(pcbs, desc) {
        return NotBound;
      }
      var pcb := pcbs[desc].value;
      if pcb.queue == [] {
        return Blocks;
      }
      pcbs := pcbs[desc := Some(pcb.(queue := pcb.queue[1..]))];
      return Got(pcb.queue[0]);
    }
  }

  // ---------------------------------------------------------------- every run

  datatype Op =
    | OpenOp
    | CloseOp(d: nat)
    | BindOp(d: nat, local: Endpoint)
    | SendOp(d: nat)
    | InputOp(dst: Endpoint, g: Dgram)
    | ReceiveOp(d: nat)
    | NotifyOp(task: nat)

  function Do(s: UdpSys, op: Op): UdpSys {
    match op
    case OpenOp => Open(s).0
    case CloseOp(d) => Close(s, d).0
    case BindOp(d, local) => Bind(s, d, local).0
    case SendOp(d) => SendPort(s, d).0
    case InputOp(dst, g) => Deliver(s, dst, g).0
    case ReceiveOp(d) => Receive(s, d).0
    case NotifyOp(task) => Noted(s, task)
  }

  predicate Apart(a: Endpoint, b: Endpoint) {
    a.port == b.port != 0 ==> a.addr != b.addr && a.addr != ANY && b.addr != ANY
  }

  /** Two live blocks on one nonzero port have different addresses, neither of them the wildcard. */
  ghost predicate Distinct(pcbs: Slots) {
    forall i: nat, j: nat :: Live(pcbs, i) && Live(pcbs, j) && i != j ==>
      Apart(pcbs[i].value.local, pcbs[j].value.local)
  }

  ghost predicate Valid(s: UdpSys) {
    && |s.pcbs| <= PCB_SIZE_MAX
    && (forall i: nat :: Live(s.pcbs, i) ==> s.pcbs[i].value.task < |s.gens|)
    && (forall i: nat, j: nat :: Live(s.pcbs, i) && Live(s.pcbs, j) && i != j ==>
          s.pcbs[i].value.task != s.pcbs[j].value.task)
    && Distinct(s.pcbs)
  }

  /** A block moves to an endpoint that no live block matches. */
  lemma RebindKeeps(s: UdpSys, d: nat, local: Endpoint)
    requires Valid(s) && Live(s.pcbs, d) && Select(s.pcbs, local).None?
    ensures Valid(s.(pcbs := s.pcbs[d := Some(s.pcbs[d].value.(local := local))]))
  {
  }

  /** A block keeps its endpoint and its task. */
  lemma QueueKeeps(s: UdpSys, d: nat, q: seq<Dgram>)
    requires Valid(s) && Live(s.pcbs, d)
    ensures Valid(s.(pcbs := s.pcbs[d := Some(s.pcbs[d].value.(queue := q))]))
  {
  }

  lemma OpenKeeps(s: UdpSys)
    requires Valid(s)
    ensures Valid(Open(s).0)
  {
    var t := Open(s).0;
    forall i: nat, j: nat | Live(t.pcbs, i) && Live(t.pcbs, j) && i != j
      ensures Apart(t.pcbs[i].value.local, t.pcbs[j].value.local)
    {
    }
  }

  lemma CloseKeeps(s: UdpSys, d: nat)
    requires Valid(s)
    ensures Valid(Close(s, d).0)
  {
  }

  lemma SendKeeps(s: UdpSys, d: nat)
    requires Valid(s)
    ensures Valid(SendPort(s, d).0)
  {
    if Live(s.pcbs, d) {
      var p := s.pcbs[d].value;
      var port := FreePort(s.pcbs, p.local.addr, DYNAMIC_PORT_MIN);
      if p.local.port == 0 && port.Some? {
        RebindKeeps(s, d, p.local.(port := port.value));
      }
    }
  }

  lemma OpKeeps(s: UdpSys, op: Op)
    requires Valid(s)
    ensures Valid(Do(s, op))
  {
    match op
    case OpenOp => OpenKeeps(s);
    case CloseOp(d) => CloseKeeps(s, d);
    case BindOp(d, local) =>
      if Live(s.pcbs, d) && Select(s.pcbs, local).None? {
        RebindKeeps(s, d, local);
      }
    case SendOp(d) => SendKeeps(s, d);
    case InputOp(dst, g) =>
      var sel := Select(s.pcbs, dst);
      if sel.Some? {
        QueueKeeps(s, sel.value, s.pcbs[sel.value].value.queue + [g]);
      }
    case ReceiveOp(d) =>
      if Live(s.pcbs, d) && s.pcbs[d].value.queue != [] {
        QueueKeeps(s, d, s.pcbs[d].value.queue[1..]);
      }
    case NotifyOp(_) =>
  }

  ghost predicate IsUdpRun(t: seq<UdpSys>, ops: seq<Op>) {
    && |t| == |ops| + 1
    && t[0] == UdpSys([], [])
    && forall i {:trigger ops[i]} :: 0 <= i < |ops| ==> t[i + 1] == Do(t[i], ops[i])
  }

  lemma {:induction false} RunKeeps(t: seq<UdpSys>, ops: seq<Op>, i: nat)
    requires IsUdpRun(t, ops) && i < |t|
    ensures Valid(t[i])
  {
    if i > 0 {
      RunKeeps(t, ops, i - 1);
      OpKeeps(t[i - 1], ops[i - 1]);
    }
  }

  /** Demultiplexing over all runs: a datagram to a nonzero port and a specific address reaches the one block that
      matches it, whatever slot that is in, and reaches none only if none matches. */
  lemma OneMatch(t: seq<UdpSys>, ops: seq<Op>, i: nat, key: Endpoint, d: nat)
    requires IsUdpRun(t, ops) && i < |t| && key.port != 0 && key.addr != ANY
    ensures Select(t[i].pcbs, key) == Some(d) <==> Live(t[i].pcbs, d) && Matches(t[i].pcbs[d].value, key)
  {
    RunKeeps(t, ops, i);
  }

  /** So the order of the table does not matter: a table with the same blocks in other slots selects the same block. */
  lemma OrderIrrelevant(t: seq<UdpSys>, ops: seq<Op>, i: nat, other: Slots, key: Endpoint)
    requires IsUdpRun(t, ops) && i < |t| && key.port != 0 && key.addr != ANY
    requires forall p :: Some(p) in t[i].pcbs <==> Some(p) in other
    ensures Select(t[i].pcbs, key).Some? <==> Select(other, key).Some?
    ensures Select(t[i].pcbs, key).Some? ==>
      t[i].pcbs[Select(t[i].pcbs, key).value] == other[Select(other, key).value]
  {
    RunKeeps(t, ops, i);
    var a, b := Select(t[i].pcbs, key), Select(other, key);
    if a.Some? {
      assert t[i].pcbs[a.value] in other;
    }
    if b.Some? {
      assert other[b.value] == Some(other[b.value].value);
      assert other[b.value] in t[i].pcbs;
    }
  }

  // ---------------------------------------------------------------- what a datagram and a call do

  /** A block bound to `local` is meant by a datagram to `dst`. */
  predicate Means(local: Endpoint, dst: Endpoint) {
    local.port == dst.port && (local.addr == dst.addr || local.addr == ANY)
  }

  /** In every run a datagram to a nonzero port and a specific address joins the queue of the block bound there, behind
      what is queued already, and leaves every other block and every counter as it was; that block's task is to be
      notified. */
  lemma InputReaches(t: seq<UdpSys>, ops: seq<Op>, i: nat, dst: Endpoint, g: Dgram, d: nat)
    requires IsUdpRun(t, ops) && i < |ops| && ops[i] == InputOp(dst, g) && dst.port != 0 && dst.addr != ANY
    requires Live(t[i].pcbs, d) && Means(t[i].pcbs[d].value.local, dst)
    ensures Live(t[i + 1].pcbs, d) && t[i + 1].pcbs[d].value.queue == t[i].pcbs[d].value.queue + [g]
    ensures t[i + 1].pcbs[d].value.(queue := []) == t[i].pcbs[d].value.(queue := [])
    ensures |t[i + 1].pcbs| == |t[i].pcbs| && t[i + 1].gens == t[i].gens
    ensures forall j: nat :: j < |t[i].pcbs| && j != d ==> t[i + 1].pcbs[j] == t[i].pcbs[j]
    ensures Deliver(t[i], dst, g).1 == Some(t[i].pcbs[d].value.task)
  {
    OneMatch(t, ops, i, dst, d);
  }

  /** A datagram that no block is bound for changes nothing and notifies nobody. */
  lemma InputWithoutBlock(s: UdpSys, dst: Endpoint, g: Dgram)
    requires dst.addr != ANY && forall d: nat :: Live(s.pcbs, d) ==> !Means(s.pcbs[d].value.local, dst)
    ensures Do(s, InputOp(dst, g)) == s && Deliver(s, dst, g).1 == None
  {
  }

  /** `recvfrom` waits exactly on a live block without datagrams, and otherwise takes the first one. */
  lemma ReceiveIff(s: UdpSys, d: nat)
    ensures Receive(s, d).1 == NotBound <==> !Live(s.pcbs, d)
    ensures Receive(s, d).1 == Blocks <==> Live(s.pcbs, d) && s.pcbs[d].value.queue == []
    ensures Receive(s, d).1.Got? ==>
      && Live(s.pcbs, d) && Live(Receive(s, d).0.pcbs, d)
      && [Receive(s, d).1.g] + Receive(s, d).0.pcbs[d].value.queue == s.pcbs[d].value.queue
    ensures !Receive(s, d).1.Got? ==> Receive(s, d).0 == s
  {
  }

  /** `open` returns a fresh, unbound block exactly if one of the 16 slots is free. */
  lemma OpenReturns(s: UdpSys)
    requires Valid(s)
    ensures var r, t := Open(s).1, Open(s).0;
      && (r.Some? <==> exists j: nat :: j < 16 && !Live(s.pcbs, j))
      && (r.None? ==> t == s)
      && (r.Some? ==>
            && !Live(s.pcbs, r.value) && Live(t.pcbs, r.value)
            && t.pcbs[r.value].value == UdpPcb(WILDCARD, [], |s.gens|) && t.gens == s.gens + [0]
            && forall j: nat :: Live(s.pcbs, j) ==> Live(t.pcbs, j) && t.pcbs[j] == s.pcbs[j])
  {
    var d := FirstFree(s.pcbs, 0);
    if d == |s.pcbs| {
      assert forall j: nat :: j < |s.pcbs| ==> Live(s.pcbs, j);
    }
    assert !Live(s.pcbs, d);
  }

  /** `bind` succeeds exactly if the block is live and no live block, itself included, holds the port with this address
      or with the wildcard on either side; only then it changes anything. */
  lemma BindIff(s: UdpSys, d: nat, local: Endpoint)
    ensures Bind(s, d, local).1 <==> Live(s.pcbs, d) && forall j: nat :: Live(s.pcbs, j) ==>
      var other := s.pcbs[j].value.local;
      other.port != local.port || (other.addr != local.addr && other.addr != ANY && local.addr != ANY)
    ensures Bind(s, d, local).1 ==>
      Live(Bind(s, d, local).0.pcbs, d) && Bind(s, d, local).0.pcbs[d].value.local == local
    ensures !Bind(s, d, local).1 ==> Bind(s, d, local).0 == s
  {
  }

  /** What `sendto` names as the source is the block's endpoint from then on: the one it had, or its address with a
      dynamic port on which no live block was. It fails exactly without a block, or without such a port. */
  lemma SendFrom(s: UdpSys, d: nat)
    ensures SendPort(s, d).1.None? <==>
      || !Live(s.pcbs, d)
      || (&& s.pcbs[d].value.local.port == 0
          && forall q: u16 :: DYNAMIC_PORT_MIN <= q ==>
               Select(s.pcbs, Endpoint(s.pcbs[d].value.local.addr, q)).Some?)
    ensures SendPort(s, d).1.Some? ==>
      var e, before, after := SendPort(s, d).1.value, s.pcbs[d].value, SendPort(s, d).0.pcbs;
      && after == s.pcbs[d := Some(before.(local := e))] && e.addr == before.local.addr
      && (before.local.port != 0 ==> e == before.local)
      && (before.local.port == 0 ==> DYNAMIC_PORT_MIN <= e.port && Select(s.pcbs, e).None?)
  {
  }

  // ---------------------------------------------------------------- queues against history

  /** What was delivered to, and handed out by, the block of each task. */
  datatype Traffic = Traffic(delivered: seq<seq<Dgram>>, taken: seq<seq<Dgram>>)

  function Appended(h: seq<seq<Dgram>>, task: nat, g: Dgram): seq<seq<Dgram>> {
    if task < |h| then h[task := h[task] + [g]] else h
  }

  /** The block in slot `d` is the first one bound where the datagram is sent to. */
  ghost predicate Recipient(pcbs: Slots, dst: Endpoint, d: nat) {
    && Live(pcbs, d) && Matches(pcbs[d].value, dst)
    && forall j: nat :: j < d && Live(pcbs, j) ==> !Matches(pcbs[j].value, dst)
  }

  /** What is delivered is read off the datagram and the bound endpoints, what is taken off the result of `recvfrom`. */
  ghost function Watched(s: UdpSys, h: Traffic, op: Op): Traffic {
    match op
    case OpenOp => if Open(s).1.Some? then Traffic(h.delivered + [[]], h.taken + [[]]) else h
    case InputOp(dst, g) =>
      if exists d: nat :: Recipient(s.pcbs, dst, d) then
        var d: nat :| Recipient(s.pcbs, dst, d);
        h.(delivered := Appended(h.delivered, s.pcbs[d].value.task, g))
      else h
    case ReceiveOp(d) =>
      var r := Receive(s, d).1;
      if r.Got? && Live(s.pcbs, d) then h.(taken := Appended(h.taken, s.pcbs[d].value.task, r.g)) else h
    case _ => h
  }

  /** Queues are first in, first out: what a live block was given is what it handed out, then its queue. */
  ghost predicate Fifo(s: UdpSys, h: Traffic) {
    && |h.delivered| == |h.taken| == |s.gens|
    && (forall i: nat :: Live(s.pcbs, i) && s.pcbs[i].value.task < |h.taken| ==>
          h.delivered[s.pcbs[i].value.task] == h.taken[s.pcbs[i].value.task] + s.pcbs[i].value.queue)
    && (forall k :: 0 <= k < |h.taken| ==> h.taken[k] <= h.delivered[k])
  }

  lemma ReceiveFifo(s: UdpSys, h: Traffic, d: nat)
    requires Valid(s) && Fifo(s, h)
    ensures Fifo(Do(s, ReceiveOp(d)), Watched(s, h, ReceiveOp(d)))
  {
    if Live(s.pcbs, d) && s.pcbs[d].value.queue != [] {
      var p := s.pcbs[d].value;
      assert h.taken[p.task] + p.queue == h.taken[p.task] + [p.queue[0]] + p.queue[1..];
    }
  }

  lemma InputFifo(s: UdpSys, h: Traffic, dst: Endpoint, g: Dgram)
    requires Valid(s) && Fifo(s, h)
    ensures Fifo(Do(s, InputOp(dst, g)), Watched(s, h, InputOp(dst, g)))
  {
    var sel := Select(s.pcbs, dst);
    if sel.Some? {
      assert Recipient(s.pcbs, dst, sel.value);
      var p := s.pcbs[sel.value].value;
      assert h.taken[p.task] + (p.queue + [g]) == h.taken[p.task] + p.queue + [g];
    }
  }

  lemma OpenFifo(s: UdpSys, h: Traffic)
    requires Valid(s) && Fifo(s, h)
    ensures Fifo(Open(s).0, Watched(s, h, OpenOp))
  {
  }

  /** Live blocks keep their queues and tasks. */
  ghost predicate SameQueues(p: Slots, q: Slots) {
    forall i: nat :: Live(q, i) ==>
      Live(p, i) && q[i].value.task == p[i].value.task && q[i].value.queue == p[i].value.queue
  }

  lemma SameQueuesFifo(s: UdpSys, h: Traffic, t: UdpSys)
    requires Fifo(s, h) && SameQueues(s.pcbs, t.pcbs) && |t.gens| == |s.gens|
    ensures Fifo(t, h)
  {
  }

  lemma OtherFifo(s: UdpSys, h: Traffic, op: Op)
    requires Valid(s) && Fifo(s, h) && !op.ReceiveOp? && !op.InputOp?
    ensures Fifo(Do(s, op), Watched(s, h, op))
  {
    if op.OpenOp? {
      OpenFifo(s, h);
    } else {
      SameQueuesFifo(s, h, Do(s, op));
    }
  }

  ghost predicate IsWatchedRun(t: seq<UdpSys>, hs: seq<Traffic>, ops: seq<Op>) {
    && IsUdpRun(t, ops) && |hs| == |t| && hs[0] == Traffic([], [])
    && forall i {:trigger ops[i]} :: 0 <= i < |ops| ==> hs[i + 1] == Watched(t[i], hs[i], ops[i])
  }

  /** In every run each block hands out a prefix of what was delivered to it: in order, nothing twice, nothing left
      out. */
  lemma {:induction false} DatagramsInOrder(t: seq<UdpSys>, hs: seq<Traffic>, ops: seq<Op>, i: nat)
    requires IsWatchedRun(t, hs, ops) && i < |t|
    ensures Fifo(t[i], hs[i])
  {
    if i > 0 {
      DatagramsInOrder(t, hs, ops, i - 1);
      RunKeeps(t, ops, i - 1);
      var op := ops[i - 1];
      match op
      case ReceiveOp(d) => ReceiveFifo(t[i - 1], hs[i - 1], d);
      case InputOp(dst, g) => InputFifo(t[i - 1], hs[i - 1], dst, g);
      case _ => OtherFifo(t[i - 1], hs[i - 1], op);
    }
  }
}
