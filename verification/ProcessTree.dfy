/**
 * CPU time of a process tree over changing process tables: which processes
 * belong to the tree, how much time they have used in all, and how that is read
 * off between samples.
 */
module ProcessTree {
  import opened Basics

  /** One row of a process table, under its process id. */
  datatype Process = Process(parent: nat, rssMb: real, cpuSeconds: real, elapsedSeconds: real)

  type Table = map<nat, Process>

  // --------------------------------------------------------------- descendants

  /** A chain of running processes, each the parent of the next. */
  predicate IsPath(table: Table, path: seq<nat>) {
    && path != []
    && (forall i | 0 <= i < |path| :: path[i] in table)
    && (forall i | 0 < i < |path| :: table[path[i]].parent == path[i - 1])
  }

  ghost predicate Reachable(table: Table, roots: set<nat>, pid: nat) {
    exists path :: IsPath(table, path) && path[0] in roots && path[|path| - 1] == pid
  }

  lemma RootIsReachable(table: Table, roots: set<nat>, pid: nat)
    requires pid in roots && pid in table
    ensures Reachable(table, roots, pid)
  {
    assert IsPath(table, [pid]);
  }

  lemma ChildIsReachable(table: Table, roots: set<nat>, pid: nat)
    requires pid in table && Reachable(table, roots, table[pid].parent)
    ensures Reachable(table, roots, pid)
  {
    var path :| IsPath(table, path) && path[0] in roots && path[|path| - 1] == table[pid].parent;
    assert IsPath(table, path + [pid]);
  }

  /** Nothing reachable lies outside a set that has the roots and, with each process, its children. */
  lemma {:induction false} ClosedHasPath(table: Table, roots: set<nat>, found: set<nat>, path: seq<nat>)
    requires forall p | p in roots && p in table :: p in found
    requires forall p | p in table && table[p].parent in found :: p in found
    requires IsPath(table, path) && path[0] in roots
    ensures path[|path| - 1] in found
  {
    if |path| > 1 {
      var shorter := path[..|path| - 1];
      ClosedHasPath(table, roots, found, shorter);
      assert table[path[|path| - 1]].parent == shorter[|shorter| - 1];
    }
  }

  lemma ClosedIsAll(table: Table, roots: set<nat>, found: set<nat>)
    requires forall p | p in roots && p in table :: p in found
    requires forall p | p in table && table[p].parent in found :: p in found
    ensures forall p | Reachable(table, roots, p) :: p in found
  {
    forall p | Reachable(table, roots, p)
      ensures p in found
    {
      var path :| IsPath(table, path) && path[0] in roots && path[|path| - 1] == p;
      ClosedHasPath(table, roots, found, path);
    }
  }

  function PidSet(pids: seq<nat>): set<nat> {
    set p | p in pids
  }

  /** The children of each process, in any order. */
  method ChildrenOf(table: Table) returns (children: map<nat, seq<nat>>)
    ensures forall p, c :: p in children && c in children[p] ==> c in table && table[c].parent == p
    ensures forall c | c in table :: table[c].parent in children && c in children[table[c].parent]
  {
    children := map[];
    var todo := table.Keys;
    while todo != {}
      invariant todo <= table.Keys
      invariant forall p, c :: p in children && c in children[p] ==> c in table && table[c].parent == p
      invariant forall c | c in table.Keys - todo :: table[c].parent in children && c in children[table[c].parent]
      decreases |todo|
    {
      var c :| c in todo;
      var p := table[c].parent;
      children := children[p := (if p in children then children[p] else []) + [c]];
      todo := todo - {c};
    }
  }

  /** Found processes are reachable; what is missing is behind a pending one. */
  ghost predicate Searching(table: Table, roots: set<nat>, found: set<nat>, pending: seq<nat>) {
    && found <= table.Keys
    && (forall p | p in table && (p in found || p in pending) :: Reachable(table, roots, p))
    && (forall p | p in table && (p in roots || table[p].parent in found) :: p in found || p in pending)
  }

  lemma SearchStarts(table: Table, roots: seq<nat>)
    ensures Searching(table, PidSet(roots), {}, roots)
  {
    forall p | p in table && p in roots
      ensures Reachable(table, PidSet(roots), p)
    {
      RootIsReachable(table, PidSet(roots), p);
    }
  }

  lemma SearchSkips(table: Table, roots: set<nat>, found: set<nat>, pending: seq<nat>, pid: nat)
    requires Searching(table, roots, found, pending + [pid]) && (pid in found || pid !in table)
    ensures Searching(table, roots, found, pending)
  {
    hide Reachable;
  }

  lemma SearchVisits(table: Table, roots: set<nat>, found: set<nat>, pending: seq<nat>, pid: nat, kids: seq<nat>)
    requires Searching(table, roots, found, pending + [pid]) && pid in table
    requires forall c :: c in kids <==> c in table && table[c].parent == pid
    ensures Searching(table, roots, found + {pid}, pending + kids)
  {
    hide Reachable;
    assert pid in pending + [pid];
    forall c | c in kids
      ensures Reachable(table, roots, c)
    {
      ChildIsReachable(table, roots, c);
    }
    forall p | p in table && (p in roots || table[p].parent in found + {pid})
      ensures p in found + {pid} || p in pending + kids
    {
      if p != pid && p !in kids { assert p in found || p in pending + [pid]; }
    }
  }

  lemma SearchEnds(table: Table, roots: set<nat>, found: set<nat>)
    requires Searching(table, roots, found, [])
    ensures forall p :: p in found <==> Reachable(table, roots, p)
  {
    ClosedIsAll(table, roots, found);
  }

  /** A worklist over parents and children; cycles of parents do no harm. */
  method DescendantPids(table: Table, roots: seq<nat>) returns (found: set<nat>)
    ensures forall p :: p in found <==> Reachable(table, PidSet(roots), p)
  {
    hide Reachable, Searching, PidSet;
    var children := ChildrenOf(table);
    found := {};
    var pending := roots;
    SearchStarts(table, roots);
    while pending != []
      invariant Searching(table, PidSet(roots), found, pending)
      decreases table.Keys - found, |pending|
    {
      var pid := pending[|pending| - 1];
      assert pending == pending[..|pending| - 1] + [pid];
      pending := pending[..|pending| - 1];
      if pid in found || pid !in table {
        SearchSkips(table, PidSet(roots), found, pending, pid);
      } else {
        var kids := if pid in children then children[pid] else [];
        SearchVisits(table, PidSet(roots), found, pending, pid, kids);
        assert pid in table.Keys - found;
        found := found + {pid};
        pending := pending + kids;
      }
    }
    SearchEnds(table, PidSet(roots), found);
  }

  // ------------------------------------------------------------------ CPU totals

  datatype Tracked = Tracked(startedAtMs: real, lastCpuSeconds: real)

  type Active = map<nat, Tracked>

  /** The CPU time of all tracked processes. */
  ghost function SumCpu(active: Active): real
  {
    if active == map[] then 0.0
    else
      var p :| p in active;
      active[p].lastCpuSeconds + SumCpu(active - {p})
  }

  lemma {:induction false} SumCpuRemove(active: Active, p: nat)
    requires p in active
    ensures SumCpu(active) == active[p].lastCpuSeconds + SumCpu(active - {p})
    decreases |active|
  {
    var q :| q in active && SumCpu(active) == active[q].lastCpuSeconds + SumCpu(active - {q});
    if q != p {
      SumCpuRemove(active - {q}, p);
      SumCpuRemove(active - {p}, q);
      assert active - {q} - {p} == active - {p} - {q};
    }
  }

  lemma SumCpuSet(active: Active, p: nat, t: Tracked)
    ensures SumCpu(active[p := t]) ==
            SumCpu(active) + t.lastCpuSeconds - (if p in active then active[p].lastCpuSeconds else 0.0)
  {
    SumCpuRemove(active[p := t], p);
    if p in active {
      SumCpuRemove(active, p);
      assert active[p := t] - {p} == active - {p};
    } else {
      assert active[p := t] - {p} == active;
    }
  }

  const START_TOLERANCE_MS := 2_000.0

  function Abs(x: real): real { if x < 0.0 then -x else x }

  function StartOf(process: Process, nowMs: real): real {
    nowMs - process.elapsedSeconds * 1000.0
  }

  /** Whether a table row is the process tracked under that id, and not a later one that reuses it. */
  predicate SameProcess(tracked: Tracked, process: Process, nowMs: real) {
    && Abs(StartOf(process, nowMs) - tracked.startedAtMs) <= START_TOLERANCE_MS
    && process.cpuSeconds >= tracked.lastCpuSeconds
  }

  predicate Survives(active: Active, table: Table, nowMs: real, p: nat) {
    p in active && p in table && SameProcess(active[p], table[p], nowMs)
  }

  function Survivors(active: Active, table: Table, nowMs: real): Active {
    map p | p in active && Survives(active, table, nowMs, p) :: active[p]
  }

  /** The record of a process seen alive: it never loses CPU time. */
  function Seen(active: Active, table: Table, nowMs: real, p: nat): Tracked
    requires p in table
  {
    if p in active then
      active[p].(lastCpuSeconds := if active[p].lastCpuSeconds < table[p].cpuSeconds then table[p].cpuSeconds
                                   else active[p].lastCpuSeconds)
    else Tracked(StartOf(table[p], nowMs), table[p].cpuSeconds)
  }

  /** The root is running, and is the process the monitor began with. */
  predicate RootAlive(root: nat, startedAtMs: Option<real>, table: Table, nowMs: real) {
    root in table && startedAtMs.Some? && Abs(StartOf(table[root], nowMs) - startedAtMs.value) <= START_TOLERANCE_MS
  }

  /** The tree grows from its root and from every process that was in it before. */
  function TreeRoots(root: nat, startedAtMs: Option<real>, active: Active, table: Table, nowMs: real): set<nat> {
    (if RootAlive(root, startedAtMs, table, nowMs) then {root} else {})
    + (set p | p in active && Survives(active, table, nowMs, p))
  }

  lemma LiveOnes(table: Table, roots: set<nat>, live: set<nat>, tracked: set<nat>)
    requires (forall p :: p in live <==> Reachable(table, roots, p)) && tracked <= roots && tracked <= table.Keys
    ensures tracked <= live <= table.Keys
  {
    forall p | p in tracked
      ensures p in live
    {
      RootIsReachable(table, roots, p);
    }
  }

  datatype Sample = Sample(timestampMs: real, cumulativeCpuSeconds: real, processCount: nat)

  predicate NeverFalls(samples: seq<Sample>) {
    forall i, j | 0 <= i < j < |samples| :: samples[i].cumulativeCpuSeconds <= samples[j].cumulativeCpuSeconds
  }

  predicate Measured(table: Table) {
    forall p | p in table :: table[p].cpuSeconds >= 0.0
  }

  /** The tracked processes once some of the live ones have been seen. */
  function Followed(active: Active, table: Table, done: set<nat>, nowMs: real): Active
    requires done <= table.Keys
  {
    map p | p in active.Keys + done :: if p in done then Seen(active, table, nowMs, p) else active[p]
  }

  lemma FollowedNone(active: Active, table: Table, nowMs: real)
    ensures Followed(active, table, {}, nowMs) == active
  {
  }

  lemma FollowedAll(active: Active, table: Table, live: set<nat>, nowMs: real)
    requires active.Keys <= live <= table.Keys
    ensures Followed(active, table, live, nowMs).Keys == live
  {
  }

  lemma NotYetSeen(active: Active, table: Table, done: set<nat>, nowMs: real, p: nat)
    requires done <= table.Keys && p in table && p !in done
    ensures var half := Followed(active, table, done, nowMs);
            && (p in half <==> p in active) && (p in active ==> half[p] == active[p])
            && Seen(half, table, nowMs, p) == Seen(active, table, nowMs, p)
  {
  }

  lemma FollowedMore(active: Active, table: Table, done: set<nat>, nowMs: real, p: nat)
    requires done <= table.Keys && p in table && p !in done
    ensures var half := Followed(active, table, done, nowMs);
            Followed(active, table, done + {p}, nowMs) == half[p := Seen(half, table, nowMs, p)]
  {
    var half := Followed(active, table, done, nowMs);
    assert Seen(half, table, nowMs, p) == Seen(active, table, nowMs, p);
    assert Followed(active, table, done + {p}, nowMs).Keys == half[p := Seen(half, table, nowMs, p)].Keys;
  }

  /** No tracked process has lost time. */
  predicate Ahead(active: Active, table: Table) {
    forall p | p in active :: p in table && active[p].lastCpuSeconds <= table[p].cpuSeconds
  }

  /** What one process has used since it was last seen, if it was. */
  function UsedBy(active: Active, table: Table, p: nat): real
    requires p in table
  {
    table[p].cpuSeconds - if p in active then active[p].lastCpuSeconds else 0.0
  }

  /** What some processes have used since. */
  ghost function Used(active: Active, table: Table, pids: set<nat>): real
    requires pids <= table.Keys
  {
    if pids == {} then 0.0
    else
      var p :| p in pids;
      UsedBy(active, table, p) + Used(active, table, pids - {p})
  }

  lemma {:induction false} UsedRemove(active: Active, table: Table, pids: set<nat>, p: nat)
    requires pids <= table.Keys && p in pids
    ensures Used(active, table, pids) == UsedBy(active, table, p) + Used(active, table, pids - {p})
  {
    hide UsedBy;
    var q :| q in pids && Used(active, table, pids) == UsedBy(active, table, q) + Used(active, table, pids - {q});
    if q != p {
      UsedRemove(active, table, pids - {q}, p);
      UsedRemove(active, table, pids - {p}, q);
      assert pids - {q} - {p} == pids - {p} - {q};
    }
  }

  lemma UsedMore(active: Active, table: Table, pids: set<nat>, p: nat)
    requires pids <= table.Keys && p in table && p !in pids
    ensures Used(active, table, pids + {p}) == Used(active, table, pids) + UsedBy(active, table, p)
  {
    UsedRemove(active, table, pids + {p}, p);
    assert pids + {p} - {p} == pids;
  }

  lemma {:induction false} UsedIsNotNegative(active: Active, table: Table, pids: set<nat>)
    requires pids <= table.Keys && Ahead(active, table) && Measured(table)
    ensures Used(active, table, pids) >= 0.0
  {
    if pids != {} {
      var p :| p in pids;
      UsedRemove(active, table, pids, p);
      UsedIsNotNegative(active, table, pids - {p});
    }
  }

  /** A process seen again has the time the table gives, and the start it was first seen with. */
  lemma SeenIsExact(active: Active, table: Table, nowMs: real, p: nat)
    requires p in table && Ahead(active, table)
    ensures var t := Seen(active, table, nowMs, p);
            && t.lastCpuSeconds == table[p].cpuSeconds
            && t.startedAtMs == if p in active then active[p].startedAtMs else StartOf(table[p], nowMs)
  {
  }

  method ListOf(pids: set<nat>) returns (list: seq<nat>)
    ensures PidSet(list) == pids
  {
    list := [];
    var todo := pids;
    while todo != {}
      invariant todo <= pids && PidSet(list) == pids - todo
      decreases |todo|
    {
      var p :| p in todo;
      assert PidSet(list + [p]) == PidSet(list) + {p};
      list := list + [p];
      todo := todo - {p};
    }
  }

  class ProcessTreeMonitor {
    const rootPid: nat
    var rootStartedAtMs: Option<real>
    var retiredCpuSeconds: real
    var active: Active
    var samples: seq<Sample>

    /** The time used so far by every process that is or was in the tree. */
    ghost function Cumulative(): real
      reads this
    {
      retiredCpuSeconds + SumCpu(active)
    }

    ghost predicate Valid()
      reads this
    {
      && NeverFalls(samples)
      && (samples != [] ==> samples[|samples| - 1].cumulativeCpuSeconds == Cumulative())
    }

    constructor (root: nat)
      ensures Valid() && samples == [] && rootPid == root && Cumulative() == 0.0
    {
      rootPid, rootStartedAtMs, retiredCpuSeconds, active, samples := root, Option.None, 0.0, map[], [];
    }

    /** Processes that are gone, or whose id now names another, keep their last time. */
    method RetireLost(table: Table, nowMs: real)
      modifies this`active, this`retiredCpuSeconds
      ensures Cumulative() == old(Cumulative())
      ensures active == Survivors(old(active), table, nowMs)
    {
      hide SameProcess;
      var todo := active.Keys;
      while todo != {}
        invariant todo <= active.Keys <= old(active).Keys
        invariant Cumulative() == old(Cumulative())
        invariant forall p | p in active :: active[p] == old(active)[p]
        invariant forall p | p in old(active) :: p in active <==> p in todo || Survives(old(active), table, nowMs, p)
        decreases |todo|
      {
        var p :| p in todo;
        if p !in table || !SameProcess(active[p], table[p], nowMs) {
          SumCpuRemove(active, p);
          retiredCpuSeconds := retiredCpuSeconds + active[p].lastCpuSeconds;
          active := active - {p};
        }
        todo := todo - {p};
      }
    }

    /** Every live process is tracked, with the most CPU time seen of it. */
    method Track(table: Table, live: set<nat>, nowMs: real)
      requires active.Keys <= live <= table.Keys && Ahead(active, table)
      modifies this`active
      ensures active == Followed(old(active), table, live, nowMs) && active.Keys == live
      ensures Cumulative() == old(Cumulative()) + Used(old(active), table, live)
    {
      hide Seen, Ahead, Followed;
      ghost var before := active;
      FollowedNone(before, table, nowMs);
      var todo := live;
      assert live - todo == {};
      while todo != {}
        invariant todo <= live && active == Followed(before, table, live - todo, nowMs)
        invariant Cumulative() == old(Cumulative()) + Used(before, table, live - todo)
        decreases |todo|
      {
        var p :| p in todo;
        FollowedMore(before, table, live - todo, nowMs, p);
        SumCpuSet(active, p, Seen(active, table, nowMs, p));
        NotYetSeen(before, table, live - todo, nowMs, p);
        SeenIsExact(before, table, nowMs, p);
        UsedMore(before, table, live - todo, p);
        active := active[p := Seen(active, table, nowMs, p)];
        assert live - (todo - {p}) == live - todo + {p};
        todo := todo - {p};
      }
      assert live - todo == live;
      FollowedAll(before, table, live, nowMs);
    }

    method RootList(table: Table, nowMs: real) returns (roots: seq<nat>)
      ensures PidSet(roots) ==
                (if RootAlive(rootPid, rootStartedAtMs, table, nowMs) then {rootPid} else {}) + active.Keys
    {
      hide RootAlive;
      var keys := ListOf(active.Keys);
      roots := (if RootAlive(rootPid, rootStartedAtMs, table, nowMs) then [rootPid] else []) + keys;
    }

    method AddUp() returns (total: real)
      ensures total == Cumulative()
    {
      total := retiredCpuSeconds;
      var rest := active;
      while rest != map[]
        invariant total + SumCpu(rest) == Cumulative()
        decreases |rest|
      {
        var p :| p in rest;
        SumCpuRemove(rest, p);
        total := total + rest[p].lastCpuSeconds;
        rest := rest - {p};
      }
    }

    /** Bring the tracked processes up to date with a table. */
    method Update(table: Table, nowMs: real)
      requires rootStartedAtMs.Some? && Measured(table)
      modifies this`active, this`retiredCpuSeconds
      ensures active.Keys <= table.Keys
      ensures Cumulative() == old(Cumulative()) + Used(Survivors(old(active), table, nowMs), table, active.Keys)
      ensures Cumulative() >= old(Cumulative())
      ensures forall p :: p in active <==>
                            Reachable(table, TreeRoots(rootPid, rootStartedAtMs, old(active), table, nowMs), p)
      ensures forall p | p in active ::
                && active[p].lastCpuSeconds == table[p].cpuSeconds
                && active[p].startedAtMs == (if Survives(old(active), table, nowMs, p) then old(active)[p].startedAtMs
                                             else StartOf(table[p], nowMs))
    {
      hide Reachable, Survives, RootAlive, Seen, Measured, Ahead;
      RetireLost(table, nowMs);
      ghost var survivors := active;
      var roots := RootList(table, nowMs);
      ghost var rootSet := TreeRoots(rootPid, rootStartedAtMs, old(active), table, nowMs);
      assert PidSet(roots) == rootSet;
      var live := DescendantPids(table, roots);
      SurvivorsRun(old(active), table, nowMs);
      LiveOnes(table, rootSet, live, active.Keys);
      Track(table, live, nowMs);
      UsedIsNotNegative(survivors, table, live);
      forall p | p in live
        ensures active[p].lastCpuSeconds == table[p].cpuSeconds
        ensures Survives(old(active), table, nowMs, p) ==>
                  p in old(active) && active[p].startedAtMs == old(active)[p].startedAtMs
        ensures !Survives(old(active), table, nowMs, p) ==> active[p].startedAtMs == StartOf(table[p], nowMs)
      {
        SurvivorIs(old(active), table, nowMs, p);
        assert active[p] == Seen(survivors, table, nowMs, p);
        SeenIsExact(survivors, table, nowMs, p);
      }
    }

    /** One sample; an error while the root has never been seen. */
    method SampleNow(table: Table, nowMs: real) returns (sample: Option<Sample>)
      requires Valid() && Measured(table)
      modifies this
      ensures Valid() && Cumulative() >= old(Cumulative())
      ensures match sample
              case None =>
                && old(rootStartedAtMs).None? && rootPid !in table
                && samples == old(samples) && active == old(active)
              case Some(s) =>
                && samples == old(samples) + [s] && s.timestampMs == nowMs
                && s.cumulativeCpuSeconds == Cumulative() && s.processCount == |active|
                && (forall p :: p in active <==>
                                  Reachable(table, TreeRoots(rootPid, rootStartedAtMs, old(active), table, nowMs), p))
                && active.Keys <= table.Keys
                && Cumulative() == old(Cumulative()) + Used(Survivors(old(active), table, nowMs), table, active.Keys)
    {
      hide Reachable, TreeRoots, StartOf, Seen, Survivors, Used;
      if rootStartedAtMs.None? {
        if rootPid !in table { return Option.None; }
        rootStartedAtMs := Option.Some(StartOf(table[rootPid], nowMs));
      }
      Update(table, nowMs);
      var total := AddUp();
      var s := Sample(nowMs, total, |active|);
      samples := samples + [s];
      return Option.Some(s);
    }

    /** The CPU time of a window: what the readings at its ends differ by, never negative. */
    method SummarizeCpu(startMs: real, endMs: real) returns (cpu: Option<real>)
      requires Valid()
      ensures cpu == WindowCpu(samples, startMs, endMs)
      ensures cpu.Some? ==> samples != [] && cpu.value == CpuAt(samples, endMs) - CpuAt(samples, startMs) >= 0.0
    {
      hide CpuAt;
      cpu := WindowCpu(samples, startMs, endMs);
      if cpu.Some? { ClampNeverActs(samples, startMs, endMs); }
    }
  }

  lemma SurvivorIs(active: Active, table: Table, nowMs: real, p: nat)
    ensures var survivors := Survivors(active, table, nowMs);
            && (p in survivors <==> Survives(active, table, nowMs, p))
            && (p in survivors ==> p in active && survivors[p] == active[p])
  {
  }

  lemma SurvivorsRun(active: Active, table: Table, nowMs: real)
    ensures Survivors(active, table, nowMs).Keys <= table.Keys
    ensures Ahead(Survivors(active, table, nowMs), table)
  {
  }

  // -------------------------------------------------------------------- windows

  /** The first sample at or after a time; past the last one there is none. */
  function UpperIndex(samples: seq<Sample>, t: real): (i: nat)
    ensures i <= |samples|
    ensures i < |samples| ==> samples[i].timestampMs >= t
    ensures forall j | 0 <= j < i :: samples[j].timestampMs < t
  {
    if samples == [] || samples[0].timestampMs >= t then 0
    else
      var i := 1 + UpperIndex(samples[1..], t);
      assert forall j | 0 < j < i :: samples[j] == samples[1..][j - 1];
      i
  }

  /** The point on the way from one sample to the next. */
  function Between(lower: Sample, upper: Sample, t: real): real
    requires lower.timestampMs < upper.timestampMs
  {
    var position := (t - lower.timestampMs) / (upper.timestampMs - lower.timestampMs);
    lower.cumulativeCpuSeconds + (upper.cumulativeCpuSeconds - lower.cumulativeCpuSeconds) * position
  }

  /** CPU time read off at a time between samples. */
  function CpuAt(samples: seq<Sample>, t: real): real
    requires samples != []
  {
    var i := UpperIndex(samples, t);
    if i == 0 || i == |samples| then samples[0].cumulativeCpuSeconds
    else if samples[i].timestampMs == t then samples[i].cumulativeCpuSeconds
    else Between(samples[i - 1], samples[i], t)
  }

  lemma Scaled(rise: real, p: real, q: real)
    requires rise >= 0.0 && p <= q
    ensures rise * p <= rise * q
  {
  }

  lemma Divided(a: real, b: real, d: real)
    requires a <= b && d > 0.0
    ensures a / d <= b / d && 0.0 / d == 0.0 && d / d == 1.0
  {
  }

  /** Between two samples the reading rises with time and stays between them. */
  lemma BetweenRises(lower: Sample, upper: Sample, s: real, t: real)
    requires lower.timestampMs < upper.timestampMs && lower.cumulativeCpuSeconds <= upper.cumulativeCpuSeconds
    requires lower.timestampMs <= s <= t <= upper.timestampMs
    ensures lower.cumulativeCpuSeconds <= Between(lower, upper, s)
    ensures Between(lower, upper, s) <= Between(lower, upper, t) <= upper.cumulativeCpuSeconds
  {
    var d := upper.timestampMs - lower.timestampMs;
    var rise := upper.cumulativeCpuSeconds - lower.cumulativeCpuSeconds;
    var x, y := s - lower.timestampMs, t - lower.timestampMs;
    Divided(0.0, x, d);
    Divided(x, y, d);
    Divided(y, d, d);
    Scaled(rise, 0.0, x / d);
    Scaled(rise, x / d, y / d);
    Scaled(rise, y / d, 1.0);
  }

  /** A reading lies between the samples around it. */
  lemma ReadingIsBounded(samples: seq<Sample>, t: real)
    requires samples != [] && NeverFalls(samples)
    requires samples[0].timestampMs <= t <= samples[|samples| - 1].timestampMs
    ensures var i := UpperIndex(samples, t);
            && i < |samples| && CpuAt(samples, t) <= samples[i].cumulativeCpuSeconds
            && (i > 0 ==> samples[i - 1].cumulativeCpuSeconds <= CpuAt(samples, t))
  {
    hide Between;
    var i := UpperIndex(samples, t);
    assert i < |samples|;
    if i > 0 && samples[i].timestampMs != t {
      BetweenRises(samples[i - 1], samples[i], t, t);
    }
  }

  /**
   * A reading lies on the line through the samples around it, and at a sample's own
   * time is that sample's.
   */
  lemma ReadingIsLinear(samples: seq<Sample>, t: real)
    requires samples != [] && samples[0].timestampMs <= t <= samples[|samples| - 1].timestampMs
    ensures var i := UpperIndex(samples, t);
            && i < |samples|
            && (samples[i].timestampMs == t ==> CpuAt(samples, t) == samples[i].cumulativeCpuSeconds)
            && (samples[i].timestampMs > t ==>
                  && i > 0
                  && var lower, upper := samples[i - 1], samples[i];
                     (CpuAt(samples, t) - lower.cumulativeCpuSeconds) * (upper.timestampMs - lower.timestampMs)
                     == (upper.cumulativeCpuSeconds - lower.cumulativeCpuSeconds) * (t - lower.timestampMs))
  {
    hide Between;
    var i := UpperIndex(samples, t);
    assert i < |samples|;
    if samples[i].timestampMs > t { OnTheLine(samples[i - 1], samples[i], t); }
  }

  lemma OnTheLine(lower: Sample, upper: Sample, t: real)
    requires lower.timestampMs < upper.timestampMs
    ensures (Between(lower, upper, t) - lower.cumulativeCpuSeconds) * (upper.timestampMs - lower.timestampMs)
         == (upper.cumulativeCpuSeconds - lower.cumulativeCpuSeconds) * (t - lower.timestampMs)
  {
    var d, x := upper.timestampMs - lower.timestampMs, t - lower.timestampMs;
    var rise := upper.cumulativeCpuSeconds - lower.cumulativeCpuSeconds;
    assert x / d * d == x;
    assert rise * (x / d) * d == rise * (x / d * d);
  }

  lemma UpperIndexRises(samples: seq<Sample>, s: real, t: real)
    requires s <= t
    ensures UpperIndex(samples, s) <= UpperIndex(samples, t)
  {
  }

  /** Readings never fall with time. */
  lemma ReadingsRise(samples: seq<Sample>, s: real, t: real)
    requires samples != [] && NeverFalls(samples) && s <= t
    requires samples[0].timestampMs <= s && t <= samples[|samples| - 1].timestampMs
    ensures CpuAt(samples, s) <= CpuAt(samples, t)
  {
    hide Between;
    var i, j := UpperIndex(samples, s), UpperIndex(samples, t);
    UpperIndexRises(samples, s, t);
    ReadingIsBounded(samples, s);
    ReadingIsBounded(samples, t);
    if i == j {
      if i > 0 && samples[i].timestampMs != t {
        BetweenRises(samples[i - 1], samples[i], s, t);
      }
    } else {
      assert samples[i].cumulativeCpuSeconds <= samples[j - 1].cumulativeCpuSeconds || i == j - 1;
    }
  }

  /** CPU time of a window, clamped at zero; an error where the samples do not cover it. */
  function WindowCpu(samples: seq<Sample>, startMs: real, endMs: real): Option<real> {
    if endMs <= startMs || samples == [] then None
    else if startMs < samples[0].timestampMs || endMs > samples[|samples| - 1].timestampMs then None
    else if !exists i :: 0 <= i < |samples| && startMs <= samples[i].timestampMs <= endMs then None
    else
      var cpu := CpuAt(samples, endMs) - CpuAt(samples, startMs);
      Some(if cpu < 0.0 then 0.0 else cpu)
  }

  /** The clamp never acts. */
  lemma ClampNeverActs(samples: seq<Sample>, startMs: real, endMs: real)
    requires NeverFalls(samples) && WindowCpu(samples, startMs, endMs).Some?
    ensures samples != [] && WindowCpu(samples, startMs, endMs) == Some(CpuAt(samples, endMs) - CpuAt(samples, startMs))
  {
    hide CpuAt;
    ReadingsRise(samples, startMs, endMs);
  }

  /** Adjacent windows' CPU times add up to that of the window they make. */
  lemma WindowsAddUp(samples: seq<Sample>, a: real, b: real, c: real)
    requires NeverFalls(samples)
    requires WindowCpu(samples, a, b).Some? && WindowCpu(samples, b, c).Some?
    ensures WindowCpu(samples, a, c).Some?
    ensures WindowCpu(samples, a, c).value == WindowCpu(samples, a, b).value + WindowCpu(samples, b, c).value
  {
    hide CpuAt;
    ClampNeverActs(samples, a, b);
    ClampNeverActs(samples, b, c);
    var i :| 0 <= i < |samples| && a <= samples[i].timestampMs <= b;
    assert a <= samples[i].timestampMs <= c;
    ClampNeverActs(samples, a, c);
  }
}
