/** The table of connection blocks: what is live, what a release frees, and which block a segment selects. */
module TcpTable {
  import opened Wrappers
  import opened Words
  import opened Inet
  import opened TcpPcb

  const PCB_SIZE_MAX := 16

  type Slots = seq<Option<Pcb>>

  predicate Live(pcbs: Slots, i: nat) {
    i < |pcbs| && pcbs[i].Some?
  }

  /** The stack as one value: the table, how often each task was notified, and every packet ever handed down. */
  datatype Sys = Sys(pcbs: Slots, gens: seq<nat>, wire: set<Packet>)

  /** Every live block owns a task of its own and is not its own parent, and the table is bounded. */
  ghost predicate ValidSys(s: Sys) {
    && |s.pcbs| <= PCB_SIZE_MAX
    && (forall i: nat :: Live(s.pcbs, i) ==> s.pcbs[i].value.parent != Some(i))
    && (forall i: nat :: Live(s.pcbs, i) ==> s.pcbs[i].value.task < |s.gens|)
    && (forall i: nat, j: nat :: Live(s.pcbs, i) && Live(s.pcbs, j) && i != j ==>
          s.pcbs[i].value.task != s.pcbs[j].value.task)
  }

  // ---------------------------------------------------------------- release

  /** `S` contains every live block that a live block of `S` has in its backlog. */
  ghost predicate ClosedUnder(pcbs: Slots, S: set<nat>) {
    forall i, j :: i in S && Live(pcbs, i) && j in pcbs[i].value.backlog && Live(pcbs, j) ==> j in S
  }

  /** The live blocks reachable from `d` through backlog links: the least closed set that contains `d`. */
  ghost function Reach(pcbs: Slots, d: nat): set<nat> {
    set i: nat | i < |pcbs| && Live(pcbs, i) && forall S :: d in S && ClosedUnder(pcbs, S) ==> i in S
  }

  /** Those of them that some reachable block has in its backlog. */
  ghost function ReachPlus(pcbs: Slots, d: nat): set<nat> {
    set j: nat | j < |pcbs| && Live(pcbs, j) && exists i :: i in Reach(pcbs, d) && j in pcbs[i].value.backlog
  }

  /** The table without the blocks of `F`. */
  ghost function Freed(pcbs: Slots, F: set<nat>): Slots {
    seq(|pcbs|, i requires 0 <= i < |pcbs| => if i in F then None else pcbs[i])
  }

  ghost function TasksOf(pcbs: Slots, F: set<nat>): set<nat> {
    set i | i in F && Live(pcbs, i) :: pcbs[i].value.task
  }

  ghost function Bumped(gens: seq<nat>, T: set<nat>): seq<nat> {
    seq(|gens|, t requires 0 <= t < |gens| => if t in T then gens[t] + 1 else gens[t])
  }

  /** The resets sent to the peers of blocks that were not closed. */
  ghost function Resets(pcbs: Slots, F: set<nat>): set<Packet> {
    set i | i in F && Live(pcbs, i) && pcbs[i].value.state != Closed :: Transmit(pcbs[i].value, RST, [])
  }

  /** `pcb_release`: free what is reachable, notify its tasks, reset what was reached through a backlog. */
  ghost function Released(s: Sys, d: nat): Sys {
    if !Live(s.pcbs, d) then s
    else Sys(Freed(s.pcbs, Reach(s.pcbs, d)), Bumped(s.gens, TasksOf(s.pcbs, Reach(s.pcbs, d))),
             s.wire + Resets(s.pcbs, ReachPlus(s.pcbs, d)))
  }

  lemma ReachCloses(pcbs: Slots, d: nat)
    ensures ClosedUnder(pcbs, Reach(pcbs, d))
    ensures Live(pcbs, d) ==> d in Reach(pcbs, d)
  {
  }

  /** Reachability is by links: whatever is reached, other than the start, is in the backlog of something reached. */
  lemma ReachedByLink(pcbs: Slots, d: nat, j: nat)
    requires j in Reach(pcbs, d) && j != d
    ensures j in ReachPlus(pcbs, d)
  {
    ReachCloses(pcbs, d);
    assert ClosedUnder(pcbs, ReachPlus(pcbs, d) + {d});
  }

  /** The same liveness and the same backlogs. */
  ghost predicate SameLinks(p: Slots, q: Slots) {
    && |p| == |q|
    && (forall i :: 0 <= i < |p| ==> (p[i].Some? <==> q[i].Some?))
    && (forall i :: 0 <= i < |p| && p[i].Some? ==> p[i].value.backlog == q[i].value.backlog)
  }

  lemma SameLinksSameReach(p: Slots, q: Slots, d: nat)
    requires SameLinks(p, q)
    ensures Reach(p, d) == Reach(q, d) && ReachPlus(p, d) == ReachPlus(q, d)
  {
    forall S | true
      ensures ClosedUnder(p, S) == ClosedUnder(q, S)
    {
    }
  }

  // ---------------------------------------------------------------- one child of a release

  function Emptied(pcbs: Slots, d: nat): Slots
    requires Live(pcbs, d)
  {
    pcbs[d := Some(pcbs[d].value.(backlog := []))]
  }

  /** Halfway through releasing `d`: `F` was freed, all of it reachable through a backlog, and nothing live is linked
      from `F` any more, apart from what `d` itself still has to release. */
  ghost predicate Halfway(g: Slots, d: nat, F: set<nat>) {
    && F <= ReachPlus(g, d)
    && forall i, j :: i in F && i != d && Live(g, i) && j in g[i].value.backlog && Live(g, j) ==> j in F
  }

  /** Releasing one more backlog entry `b` keeps it so. */
  lemma ChildAbsorbed(g: Slots, d: nat, F: set<nat>, b: nat)
    requires Live(g, d) && Halfway(g, d, F) && b in g[d].value.backlog
    requires Live(Freed(Emptied(g, d), F), b)
    ensures var R := Reach(Freed(Emptied(g, d), F), b); Halfway(g, d, F + R) && b in R && R !! F
  {
    var c := Freed(Emptied(g, d), F);
    var R := Reach(c, b);
    ReachCloses(c, b);
    ReachCloses(g, d);
    forall S | d in S && ClosedUnder(g, S)
      ensures b in S && ClosedUnder(c, S)
    {
    }
    assert R <= Reach(g, d);
    forall j | j in R
      ensures j in ReachPlus(g, d)
    {
      if j != b {
        ReachedByLink(c, b, j);
        var i :| i in Reach(c, b) && j in c[i].value.backlog;
        assert i in Reach(g, d) && j in g[i].value.backlog;
      }
    }
    forall i, j | i in F + R && i != d && Live(g, i) && j in g[i].value.backlog && Live(g, j)
      ensures j in F + R
    {
    }
  }

  /** Once every backlog entry of `d` was handled, what was freed is exactly what is reachable. */
  lemma AllAbsorbed(g: Slots, d: nat, F: set<nat>)
    requires Live(g, d) && Halfway(g, d, F)
    requires forall j :: j in g[d].value.backlog && Live(g, j) ==> j in F
    ensures Reach(g, d) == F + {d} && ReachPlus(g, d) == F
  {
    ReachCloses(g, d);
    var S := F + {d};
    assert ClosedUnder(g, S);
    forall i | i in F
      ensures i in Reach(g, d)
    {
      var k :| k in Reach(g, d) && i in g[k].value.backlog;
    }
  }

  /** The stack halfway through releasing `d`, with `F` freed. */
  ghost function Partial(s: Sys, d: nat, F: set<nat>): Sys
    requires Live(s.pcbs, d)
  {
    Sys(Freed(Emptied(s.pcbs, d), F), Bumped(s.gens, TasksOf(s.pcbs, F)), s.wire + Resets(s.pcbs, F))
  }

  /** A backlog entry about to be released: reset and closed, unless it is closed already. */
  function Doomed(s: Sys, b: nat): Sys
    requires Live(s.pcbs, b)
  {
    var p := s.pcbs[b].value;
    if p.state == Closed then s
    else Sys(s.pcbs[b := Some(p.(state := Closed))], s.gens, s.wire + {Transmit(p, RST, [])})
  }

  lemma PartialStarts(s: Sys, d: nat)
    requires Live(s.pcbs, d)
    ensures Partial(s, d, {}) == Sys(Emptied(s.pcbs, d), s.gens, s.wire)
  {
    assert Freed(Emptied(s.pcbs, d), {}) == Emptied(s.pcbs, d);
    assert Bumped(s.gens, TasksOf(s.pcbs, {})) == s.gens;
  }

  lemma PartialValid(s: Sys, d: nat, F: set<nat>)
    requires ValidSys(s) && Live(s.pcbs, d)
    ensures ValidSys(Partial(s, d, F))
  {
    var c := Freed(Emptied(s.pcbs, d), F);
    assert forall i: nat :: Live(c, i) ==>
      Live(s.pcbs, i) && c[i].value.task == s.pcbs[i].value.task && c[i].value.parent == s.pcbs[i].value.parent;
  }

  lemma FreedTwice(g: Slots, F: set<nat>, b: nat, p: Pcb, R: set<nat>)
    requires b < |g| && b in R
    ensures Freed(Freed(g, F)[b := Some(p)], R) == Freed(g, F + R)
    ensures Freed(Freed(g, F), R) == Freed(g, F + R)
  {
  }

  lemma BumpedTwice(gens: seq<nat>, T: set<nat>, U: set<nat>)
    requires T !! U
    ensures Bumped(Bumped(gens, T), U) == Bumped(gens, T + U)
  {
  }

  /** Blocks that differ in backlog or state alone. */
  predicate SameBlock(p: Pcb, q: Pcb) {
    p.task == q.task && p.(backlog := q.backlog, state := q.state) == q
  }

  lemma DoomedBlocks(s: Sys, d: nat, F: set<nat>, b: nat)
    requires Live(s.pcbs, d) && Live(Partial(s, d, F).pcbs, b)
    ensures var c, e := Partial(s, d, F).pcbs, Doomed(Partial(s, d, F), b).pcbs;
      && SameLinks(c, e)
      && (forall i: nat :: Live(e, i) <==> Live(s.pcbs, i) && i !in F)
      && (forall i: nat :: Live(e, i) ==> SameBlock(e[i].value, s.pcbs[i].value))
      && (forall i: nat :: Live(e, i) && i != b ==> e[i].value.state == s.pcbs[i].value.state)
      && e[b].value.state == Closed
  {
  }

  /** The child's release, after it was reset, takes the stack to the next halfway state. */
  lemma PartialChild(s: Sys, d: nat, F: set<nat>, b: nat)
    requires ValidSys(s) && Live(s.pcbs, d) && Live(Partial(s, d, F).pcbs, b)
    requires Reach(Partial(s, d, F).pcbs, b) !! F
    ensures Released(Doomed(Partial(s, d, F), b), b) == Partial(s, d, F + Reach(Partial(s, d, F).pcbs, b))
  {
    var c, e := Partial(s, d, F), Doomed(Partial(s, d, F), b);
    var R := Reach(c.pcbs, b);
    DoomedBlocks(s, d, F, b);
    SameLinksSameReach(c.pcbs, e.pcbs, b);
    ReachCloses(c.pcbs, b);
    FreedTwice(Emptied(s.pcbs, d), F, b, e.pcbs[b].value, R);
    assert e.pcbs == Freed(Emptied(s.pcbs, d), F)[b := Some(e.pcbs[b].value)];
    assert TasksOf(e.pcbs, R) == TasksOf(s.pcbs, R);
    assert TasksOf(s.pcbs, F + R) == TasksOf(s.pcbs, F) + TasksOf(s.pcbs, R);
    BumpedTwice(s.gens, TasksOf(s.pcbs, F), TasksOf(s.pcbs, R));
    ResetsSplit(s, d, F, b);
  }

  lemma ResetsSplit(s: Sys, d: nat, F: set<nat>, b: nat)
    requires Live(s.pcbs, d) && Live(Partial(s, d, F).pcbs, b)
    ensures var c, e := Partial(s, d, F), Doomed(Partial(s, d, F), b);
      e.wire + Resets(e.pcbs, ReachPlus(e.pcbs, b)) == s.wire + Resets(s.pcbs, F + Reach(c.pcbs, b))
  {
    var c, e := Partial(s, d, F), Doomed(Partial(s, d, F), b);
    var R := Reach(c.pcbs, b);
    DoomedBlocks(s, d, F, b);
    SameLinksSameReach(c.pcbs, e.pcbs, b);
    ReachCloses(c.pcbs, b);
    forall j | j in R && j != b
      ensures j in ReachPlus(e.pcbs, b)
    {
      ReachedByLink(c.pcbs, b, j);
    }
    PlusWithin(c.pcbs, b);
    assert c.pcbs[b].value.state == s.pcbs[b].value.state;
    assert R - {b} <= ReachPlus(e.pcbs, b) <= R;
    SameResets(s.pcbs, e.pcbs, R, ReachPlus(e.pcbs, b), b);
    assert e.wire == c.wire + Resets(s.pcbs, {b});
    ResetsJoin(s.pcbs, F, R, b);
  }

  /** Past block `b`, which is closed already, both tables reset the same peers. */
  lemma SameResets(p: Slots, e: Slots, R: set<nat>, P: set<nat>, b: nat)
    requires R - {b} <= P <= R && b in R && Live(e, b) && e[b].value.state == Closed
    requires forall i: nat :: i in R ==>
      Live(e, i) && Live(p, i) && SameBlock(e[i].value, p[i].value) && (i != b ==> e[i].value.state == p[i].value.state)
    ensures Resets(e, P) == Resets(p, R - {b})
  {
    assert forall i: nat :: i in R ==> Transmit(e[i].value, RST, []) == Transmit(p[i].value, RST, []);
  }

  lemma ResetsJoin(p: Slots, F: set<nat>, R: set<nat>, b: nat)
    requires b in R
    ensures Resets(p, F + R) == Resets(p, F) + Resets(p, {b}) + Resets(p, R - {b})
  {
  }

  lemma PlusWithin(pcbs: Slots, d: nat)
    ensures ReachPlus(pcbs, d) <= Reach(pcbs, d)
  {
    ReachCloses(pcbs, d);
  }

  /** Freeing the block itself, last. */
  lemma LastFreed(g: Slots, d: nat, F: set<nat>)
    requires Live(g, d)
    ensures Freed(Emptied(g, d), F)[d := None] == Freed(g, F + {d})
    ensures d in F ==> Freed(Emptied(g, d), F) == Freed(g, F + {d})
  {
  }

  lemma LastBumped(s: Sys, d: nat, F: set<nat>)
    requires ValidSys(s) && Live(s.pcbs, d)
    ensures d in F ==> Bumped(s.gens, TasksOf(s.pcbs, F)) == Bumped(s.gens, TasksOf(s.pcbs, F + {d}))
    ensures d !in F ==>
      var gens, t := Bumped(s.gens, TasksOf(s.pcbs, F)), s.pcbs[d].value.task;
      gens[t := gens[t] + 1] == Bumped(s.gens, TasksOf(s.pcbs, F + {d}))
  {
    var t := s.pcbs[d].value.task;
    assert TasksOf(s.pcbs, F + {d}) == TasksOf(s.pcbs, F) + {t};
    if d in F {
      assert F + {d} == F;
    } else {
      assert t !in TasksOf(s.pcbs, F);
    }
  }

  /** The release of `d` has handled the first `k` backlog entries and freed `F`. */
  ghost predicate Progress(s: Sys, d: nat, k: nat, F: set<nat>)
    requires Live(s.pcbs, d)
  {
    var backlog := s.pcbs[d].value.backlog;
    && k <= |backlog|
    && Halfway(s.pcbs, d, F)
    && forall m :: 0 <= m < k && Live(s.pcbs, backlog[m]) ==> backlog[m] in F
  }

  lemma PartialLinks(s: Sys, d: nat, F: set<nat>)
    requires Live(s.pcbs, d) && s.pcbs[d].value.backlog != []
    ensures Links(Partial(s, d, F).pcbs) < Links(s.pcbs)
  {
    LinksDrop(Partial(s, d, F).pcbs, s.pcbs, d);
  }

  /** The stack after one round of the release loop, for the backlog entry `b`. */
  ghost function AfterRound(s: Sys, b: nat): Sys {
    if Live(s.pcbs, b) then Released(Doomed(s, b), b) else s
  }

  /** One round of the release loop: skip what is not live any more, release the rest. */
  lemma ReleaseRound(s: Sys, d: nat, k: nat, F: set<nat>) returns (R: set<nat>)
    requires ValidSys(s) && Live(s.pcbs, d) && k < |s.pcbs[d].value.backlog| && Progress(s, d, k, F)
    ensures Progress(s, d, k + 1, F + R)
    ensures Partial(s, d, F + R) == AfterRound(Partial(s, d, F), s.pcbs[d].value.backlog[k])
  {
    var b := s.pcbs[d].value.backlog[k];
    if Live(Partial(s, d, F).pcbs, b) {
      R := Reach(Partial(s, d, F).pcbs, b);
      ChildAbsorbed(s.pcbs, d, F, b);
      PartialChild(s, d, F, b);
    } else {
      R := {};
      assert F + R == F;
    }
  }

  /** Resetting a backlog entry keeps the links and the table's validity. */
  lemma DoomedKeeps(s: Sys, b: nat)
    requires ValidSys(s) && Live(s.pcbs, b)
    ensures ValidSys(Doomed(s, b)) && Links(Doomed(s, b).pcbs) <= Links(s.pcbs)
  {
    LinksShrink(Doomed(s, b).pcbs, s.pcbs);
  }

  /** The last act of a release: the slot is emptied and its task notified, if it is still live. */
  function Vacated(s: Sys, d: nat): Sys {
    if !Live(s.pcbs, d) then s
    else
      var t := s.pcbs[d].value.task;
      Sys(s.pcbs[d := None], if t < |s.gens| then s.gens[t := s.gens[t] + 1] else s.gens, s.wire)
  }

  lemma PartialVacated(s: Sys, d: nat, F: set<nat>)
    requires ValidSys(s) && Live(s.pcbs, d)
    ensures Vacated(Partial(s, d, F), d)
            == Sys(Freed(s.pcbs, F + {d}), Bumped(s.gens, TasksOf(s.pcbs, F + {d})), s.wire + Resets(s.pcbs, F))
    ensures Live(Partial(s, d, F).pcbs, d) <==> d !in F
  {
    LastFreed(s.pcbs, d, F);
    LastBumped(s, d, F);
  }

  /** When the backlog is done, only `d` itself is left, unless it was freed on the way. */
  lemma ReleaseEnds(s: Sys, d: nat, F: set<nat>)
    requires ValidSys(s) && Live(s.pcbs, d) && Progress(s, d, |s.pcbs[d].value.backlog|, F)
    ensures Vacated(Partial(s, d, F), d) == Released(s, d)
    ensures Live(Partial(s, d, F).pcbs, d) <==> d !in ReachPlus(s.pcbs, d)
  {
    PartialVacated(s, d, F);
    assert forall j :: j in s.pcbs[d].value.backlog && Live(s.pcbs, j) ==> j in F;
    AllAbsorbed(s.pcbs, d, F);
  }

  lemma ReleasedValid(s: Sys, d: nat)
    requires ValidSys(s)
    ensures ValidSys(Released(s, d))
  {
    if Live(s.pcbs, d) {
      assert forall i: nat :: Live(Released(s, d).pcbs, i) ==> Live(s.pcbs, i) && Released(s, d).pcbs[i] == s.pcbs[i];
    }
  }

  // ---------------------------------------------------------------- why a release terminates

  /** How many backlog links there are in the table. */
  function Links(pcbs: Slots): nat {
    if pcbs == [] then 0 else Links(pcbs[1..]) + (if pcbs[0].Some? then |pcbs[0].value.backlog| else 0)
  }

  /** No slot of `p` has more links than the same slot of `q`. */
  predicate FewerLinks(p: Slots, q: Slots) {
    && |p| == |q|
    && forall i :: 0 <= i < |p| && p[i].Some? ==> q[i].Some? && |p[i].value.backlog| <= |q[i].value.backlog|
  }

  lemma {:induction false} LinksShrink(p: Slots, q: Slots)
    requires FewerLinks(p, q)
    ensures Links(p) <= Links(q)
  {
    if p != [] {
      LinksShrink(p[1..], q[1..]);
    }
  }

  lemma {:induction false} LinksDrop(p: Slots, q: Slots, d: nat)
    requires FewerLinks(p, q) && Live(q, d) && q[d].value.backlog != []
    requires p[d].None? || p[d].value.backlog == []
    ensures Links(p) < Links(q)
  {
    if d == 0 {
      LinksShrink(p[1..], q[1..]);
    } else {
      LinksDrop(p[1..], q[1..], d - 1);
    }
  }
}
