/**
 * The benchmark ledger: runs are folded in one at a time, a later attempt of a
 * run replaces an earlier one, and the order of arrival must not matter.
 */
module Ledger {
  import opened Basics

  datatype Row = Row(
    run: string, attempt: nat, recordedAt: string,
    profile: string, unit: string, metric: string, verdict: string)

  /** A total order of strings, as a rank that tells all strings apart. */
  type Order = string -> real

  ghost predicate TellsApart(rank: Order) {
    forall a, b :: rank(a) == rank(b) ==> a == b
  }

  predicate SameKey(a: Row, b: Row) {
    && a.recordedAt == b.recordedAt && a.run == b.run && a.attempt == b.attempt
    && a.profile == b.profile && a.unit == b.unit && a.metric == b.metric
  }

  /** The comparison of rows: time, run, attempt, profile, unit, metric. */
  predicate Precedes(rank: Order, a: Row, b: Row) {
    if a.recordedAt != b.recordedAt then rank(a.recordedAt) < rank(b.recordedAt)
    else if a.run != b.run then rank(a.run) < rank(b.run)
    else if a.attempt != b.attempt then a.attempt < b.attempt
    else if a.profile != b.profile then rank(a.profile) < rank(b.profile)
    else if a.unit != b.unit then rank(a.unit) < rank(b.unit)
    else rank(a.metric) < rank(b.metric)
  }

  lemma PrecedesIsTotal(rank: Order, a: Row, b: Row)
    requires TellsApart(rank)
    ensures SameKey(a, b) || Precedes(rank, a, b) || Precedes(rank, b, a)
    ensures !(Precedes(rank, a, b) && Precedes(rank, b, a))
  {
  }

  lemma PrecedesIsTransitive(rank: Order, a: Row, b: Row, c: Row)
    requires TellsApart(rank) && Precedes(rank, a, b) && Precedes(rank, b, c)
    ensures Precedes(rank, a, c)
  {
  }

  // ------------------------------------------------------------------- sorting

  predicate InOrder(rank: Order, rows: seq<Row>) {
    forall i, j | 0 <= i < j < |rows| :: Precedes(rank, rows[i], rows[j])
  }

  predicate KeysDiffer(rows: seq<Row>) {
    forall i, j | 0 <= i < j < |rows| :: !SameKey(rows[i], rows[j])
  }

  function Rows(rows: seq<Row>): set<Row> {
    set r | r in rows
  }

  function Insert(rank: Order, row: Row, rows: seq<Row>): seq<Row> {
    if rows == [] || Precedes(rank, row, rows[0]) then [row] + rows
    else [rows[0]] + Insert(rank, row, rows[1..])
  }

  function Sort(rank: Order, rows: seq<Row>): seq<Row> {
    if rows == [] then [] else Insert(rank, rows[0], Sort(rank, rows[1..]))
  }

  lemma {:induction false} InsertRow(rank: Order, row: Row, rows: seq<Row>)
    requires TellsApart(rank) && InOrder(rank, rows) && forall r | r in rows :: !SameKey(row, r)
    ensures InOrder(rank, Insert(rank, row, rows))
    ensures Rows(Insert(rank, row, rows)) == Rows(rows) + {row}
  {
    hide Precedes, TellsApart, SameKey;
    if rows != [] {
      PrecedesIsTotal(rank, row, rows[0]);
      if Precedes(rank, row, rows[0]) {
        forall j | 0 < j < |rows|
          ensures Precedes(rank, row, rows[j])
        {
          PrecedesIsTransitive(rank, row, rows[0], rows[j]);
        }
        assert Rows([row] + rows) == Rows(rows) + {row};
      } else {
        var rest := Insert(rank, row, rows[1..]);
        InsertRow(rank, row, rows[1..]);
        FirstStays(rank, row, rows);
        assert Rows([rows[0]] + rest) == {rows[0]} + Rows(rest);
        assert Rows(rows) == {rows[0]} + Rows(rows[1..]);
      }
    }
  }

  lemma FirstStays(rank: Order, row: Row, rows: seq<Row>)
    requires rows != [] && InOrder(rank, rows) && Precedes(rank, rows[0], row)
    requires InOrder(rank, Insert(rank, row, rows[1..]))
    requires Rows(Insert(rank, row, rows[1..])) == Rows(rows[1..]) + {row}
    ensures InOrder(rank, [rows[0]] + Insert(rank, row, rows[1..]))
  {
    hide Precedes;
    var rest := Insert(rank, row, rows[1..]);
    forall j | 0 <= j < |rest|
      ensures Precedes(rank, rows[0], rest[j])
    {
      assert rest[j] in Rows(rest);
      if rest[j] != row {
        var i :| 0 <= i < |rows| - 1 && rows[1..][i] == rest[j];
        assert rows[i + 1] == rest[j];
      }
    }
  }

  lemma {:induction false} SortRows(rank: Order, rows: seq<Row>)
    requires TellsApart(rank) && KeysDiffer(rows)
    ensures InOrder(rank, Sort(rank, rows)) && Rows(Sort(rank, rows)) == Rows(rows)
  {
    hide Precedes, TellsApart, SameKey;
    if rows != [] {
      SortRows(rank, rows[1..]);
      forall r | r in Sort(rank, rows[1..])
        ensures !SameKey(rows[0], r)
      {
        assert r in Rows(Sort(rank, rows[1..]));
        var i :| 0 <= i < |rows| - 1 && rows[1..][i] == r;
        assert rows[i + 1] == r;
      }
      InsertRow(rank, rows[0], Sort(rank, rows[1..]));
      assert Rows(rows) == {rows[0]} + Rows(rows[1..]);
    }
  }

  /** A ledger in order is determined by the rows it holds. */
  lemma {:induction false} OrderIsUnique(rank: Order, a: seq<Row>, b: seq<Row>)
    requires TellsApart(rank) && InOrder(rank, a) && InOrder(rank, b) && Rows(a) == Rows(b)
    ensures a == b
  {
    hide Precedes, TellsApart, SameKey;
    if a == [] || b == [] {
      EmptyRows(a);
      EmptyRows(b);
    } else {
      assert a[0] in Rows(b) && b[0] in Rows(a);
      var i :| 0 <= i < |b| && b[i] == a[0];
      var j :| 0 <= j < |a| && a[j] == b[0];
      PrecedesIsTotal(rank, a[0], b[0]);
      RestRows(rank, a);
      RestRows(rank, b);
      OrderIsUnique(rank, a[1..], b[1..]);
      assert a == [a[0]] + a[1..] && b == [b[0]] + b[1..];
    }
  }

  lemma EmptyRows(a: seq<Row>)
    ensures a == [] <==> Rows(a) == {}
  {
    if a != [] { assert a[0] in Rows(a); }
  }

  lemma RestRows(rank: Order, a: seq<Row>)
    requires TellsApart(rank) && a != [] && InOrder(rank, a)
    ensures InOrder(rank, a[1..]) && Rows(a[1..]) == Rows(a) - {a[0]}
  {
    hide Precedes, TellsApart;
    forall r | r in a[1..]
      ensures r != a[0]
    {
      var i :| 0 <= i < |a| - 1 && a[1..][i] == r;
      assert a[i + 1] == r;
      PrecedesIsTotal(rank, a[0], r);
    }
    assert a == [a[0]] + a[1..];
  }

  // ------------------------------------------------------------------- merging

  /** The highest attempt of a run among some rows. */
  function Latest(rows: seq<Row>, run: string): Option<nat> {
    if rows == [] then None
    else
      var earlier, row := Latest(rows[..|rows| - 1], run), rows[|rows| - 1];
      if row.run != run then earlier
      else if earlier.Some? && earlier.value > row.attempt then earlier
      else Some(row.attempt)
  }

  predicate Superseded(incoming: seq<Row>, row: Row) {
    var latest := Latest(incoming, row.run);
    latest.Some? && latest.value >= row.attempt
  }

  /** The ledger already holds a later attempt of the run. */
  predicate Stale(existing: seq<Row>, incoming: seq<Row>, run: string) {
    Latest(incoming, run).Some? && exists r :: r in existing && r.run == run && !Superseded(incoming, r)
  }

  function Keep(existing: seq<Row>, incoming: seq<Row>): seq<Row> {
    if existing == [] then []
    else
      Keep(existing[..|existing| - 1], incoming)
      + (if Superseded(incoming, existing[|existing| - 1]) then [] else [existing[|existing| - 1]])
  }

  function Admit(rows: seq<Row>, existing: seq<Row>, incoming: seq<Row>): seq<Row> {
    if rows == [] then []
    else
      Admit(rows[..|rows| - 1], existing, incoming)
      + (if Stale(existing, incoming, rows[|rows| - 1].run) then [] else [rows[|rows| - 1]])
  }

  function Merge(rank: Order, existing: seq<Row>, incoming: seq<Row>): seq<Row> {
    Sort(rank, Keep(existing, incoming) + Admit(incoming, existing, incoming))
  }

  method MergeLedger(rank: Order, existing: seq<Row>, incoming: seq<Row>) returns (merged: seq<Row>)
    ensures merged == Merge(rank, existing, incoming)
  {
    var attempts: map<string, nat> := map[];
    var i := 0;
    while i < |incoming|
      invariant i <= |incoming|
      invariant forall run :: Latest(incoming[..i], run) == if run in attempts then Some(attempts[run]) else None
    {
      var row := incoming[i];
      assert incoming[..i + 1][..i] == incoming[..i];
      var before := if row.run in attempts then attempts[row.run] else 0;
      attempts := attempts[row.run := if before > row.attempt then before else row.attempt];
      i := i + 1;
    }
    assert incoming[..i] == incoming;
    var kept: seq<Row>, stale: set<string> := [], {};
    i := 0;
    while i < |existing|
      invariant i <= |existing| && kept == Keep(existing[..i], incoming)
      invariant forall run :: run in stale <==> Stale(existing[..i], incoming, run)
    {
      var row := existing[i];
      assert existing[..i + 1] == existing[..i] + [row];
      StaleGrows(existing[..i], row, incoming);
      if row.run in attempts && attempts[row.run] >= row.attempt {
      } else {
        kept := kept + [row];
        if row.run in attempts { stale := stale + {row.run}; }
      }
      i := i + 1;
    }
    assert existing[..i] == existing;
    var admitted: seq<Row> := [];
    i := 0;
    while i < |incoming|
      invariant i <= |incoming| && admitted == Admit(incoming[..i], existing, incoming)
    {
      assert incoming[..i + 1][..i] == incoming[..i];
      if incoming[i].run !in stale { admitted := admitted + [incoming[i]]; }
      i := i + 1;
    }
    assert incoming[..i] == incoming;
    return Sort(rank, kept + admitted);
  }

  lemma StaleGrows(existing: seq<Row>, row: Row, incoming: seq<Row>)
    ensures forall run :: Stale(existing + [row], incoming, run) <==>
              || Stale(existing, incoming, run)
              || (run == row.run && Latest(incoming, run).Some? && !Superseded(incoming, row))
  {
    forall run
      ensures Stale(existing + [row], incoming, run) <==>
                || Stale(existing, incoming, run)
                || (run == row.run && Latest(incoming, run).Some? && !Superseded(incoming, row))
    {
      assert row in existing + [row];
      if Stale(existing, incoming, run) {
        var r :| r in existing && r.run == run && !Superseded(incoming, r);
        assert r in existing + [row];
      }
    }
  }

  lemma {:induction false} KeptRows(existing: seq<Row>, incoming: seq<Row>)
    ensures Rows(Keep(existing, incoming)) == set r | r in existing && !Superseded(incoming, r)
    ensures KeysDiffer(existing) ==> KeysDiffer(Keep(existing, incoming))
  {
    hide Superseded, SameKey;
    if existing != [] {
      var rest, last := existing[..|existing| - 1], existing[|existing| - 1];
      KeptRows(rest, incoming);
      assert existing == rest + [last];
      var kept := Keep(rest, incoming);
      assert forall r | r in kept :: r in Rows(kept);
      assert Rows(kept + [last]) == Rows(kept) + {last} && kept + [] == kept;
      if KeysDiffer(existing) { AppendDiffers(kept, existing); }
    }
  }

  lemma AppendDiffers(some: seq<Row>, rows: seq<Row>)
    requires rows != [] && KeysDiffer(rows) && (KeysDiffer(rows[..|rows| - 1]) ==> KeysDiffer(some))
    requires Rows(some) <= Rows(rows[..|rows| - 1])
    ensures KeysDiffer(some) && KeysDiffer(some + [rows[|rows| - 1]])
  {
    hide SameKey;
    var rest, last := rows[..|rows| - 1], rows[|rows| - 1];
    forall x | x in some
      ensures !SameKey(x, last)
    {
      assert x in Rows(some);
      var i :| 0 <= i < |rest| && rest[i] == x;
      assert rows[i] == x;
    }
    JoinDiffers(some, [last]);
  }

  lemma {:induction false} AdmittedRows(rows: seq<Row>, existing: seq<Row>, incoming: seq<Row>)
    ensures Rows(Admit(rows, existing, incoming)) == set r | r in rows && !Stale(existing, incoming, r.run)
    ensures KeysDiffer(rows) ==> KeysDiffer(Admit(rows, existing, incoming))
  {
    hide Stale, SameKey;
    if rows != [] {
      var rest, last := rows[..|rows| - 1], rows[|rows| - 1];
      AdmittedRows(rest, existing, incoming);
      assert rows == rest + [last];
      var admitted := Admit(rest, existing, incoming);
      assert forall r | r in admitted :: r in Rows(admitted);
      assert Rows(admitted + [last]) == Rows(admitted) + {last} && admitted + [] == admitted;
      if KeysDiffer(rows) { AppendDiffers(admitted, rows); }
    }
  }

  // ------------------------------------------------------------------- batches

  /** What one run files: rows of one run and attempt, each metric once. */
  datatype Batch = Batch(run: string, attempt: nat, rows: seq<Row>)

  predicate IsBatch(b: Batch) {
    (forall r | r in b.rows :: r.run == b.run && r.attempt == b.attempt) && KeysDiffer(b.rows)
  }

  lemma {:induction false} LatestOfBatch(rows: seq<Row>, b: Batch, run: string)
    requires forall r | r in rows :: r.run == b.run && r.attempt == b.attempt
    ensures Latest(rows, run) == if rows != [] && run == b.run then Some(b.attempt) else None
  {
    if rows != [] { LatestOfBatch(rows[..|rows| - 1], b, run); }
  }

  const MAXIMUM_ROWS_PER_RUN := 2_000

  /** One measured series of a run, with this branch's verdict on it if it has a policy for the metric. */
  datatype Series = Series(profile: string, unit: string, metric: string, verdict: Option<string>)

  datatype Provenance = Provenance(run: string, attempt: nat, recordedAt: string)

  function Name(s: Series): string {
    s.profile + " " + s.unit + " " + s.metric
  }

  predicate NamesDiffer(all: seq<Series>) {
    forall i, j | 0 <= i < j < |all| :: Name(all[i]) != Name(all[j])
  }

  /** One row for each series this branch can judge. */
  function Filed(all: seq<Series>, p: Provenance): seq<Row> {
    if all == [] then []
    else
      var earlier, s := Filed(all[..|all| - 1], p), all[|all| - 1];
      if s.verdict.None? then earlier
      else earlier + [Row(p.run, p.attempt, p.recordedAt, s.profile, s.unit, s.metric, s.verdict.value)]
  }

  predicate SameSeries(row: Row, s: Series) {
    row.profile == s.profile && row.unit == s.unit && row.metric == s.metric
  }

  lemma {:induction false} FiledIsBatch(all: seq<Series>, p: Provenance)
    requires NamesDiffer(all)
    ensures IsBatch(Batch(p.run, p.attempt, Filed(all, p)))
    ensures forall r | r in Filed(all, p) :: exists i :: 0 <= i < |all| && SameSeries(r, all[i])
  {
    if all != [] {
      var rest, s := all[..|all| - 1], all[|all| - 1];
      FiledIsBatch(rest, p);
      forall r | r in Filed(rest, p)
        ensures !(r.profile == s.profile && r.unit == s.unit && r.metric == s.metric)
        ensures exists i :: 0 <= i < |all| && SameSeries(r, all[i])
      {
        var i :| 0 <= i < |rest| && SameSeries(r, rest[i]);
        assert all[i] == rest[i] && Name(all[i]) != Name(s);
      }
      forall r | r in Filed(all, p) && r !in Filed(rest, p)
        ensures exists i :: 0 <= i < |all| && SameSeries(r, all[i])
      {
        assert SameSeries(r, all[|all| - 1]);
      }
    }
  }

  /** The row filed for a series: its verdict, under the run's own time, name and attempt. */
  predicate FiledFor(row: Row, s: Series, p: Provenance) {
    && SameSeries(row, s) && s.verdict == Some(row.verdict)
    && row.run == p.run && row.attempt == p.attempt && row.recordedAt == p.recordedAt
  }

  /** Which series this branch can judge. */
  function Judged(all: seq<Series>): set<nat> {
    set i: nat | i < |all| && all[i].verdict.Some?
  }

  /** Every judged series has its row. */
  lemma {:induction false} JudgedIsFiled(all: seq<Series>, p: Provenance, i: nat) returns (r: Row)
    requires i in Judged(all)
    ensures r in Filed(all, p) && FiledFor(r, all[i], p)
  {
    var n := |all| - 1;
    if i < n {
      r := JudgedIsFiled(all[..n], p, i);
    } else {
      var rows := Filed(all, p);
      r := rows[|rows| - 1];
    }
  }

  /** Every row has its series. */
  lemma {:induction false} FiledIsJudged(all: seq<Series>, p: Provenance, r: Row) returns (i: nat)
    requires r in Filed(all, p)
    ensures i in Judged(all) && FiledFor(r, all[i], p)
  {
    var n := |all| - 1;
    if r in Filed(all[..n], p) { i := FiledIsJudged(all[..n], p, r); } else { i := n; }
  }

  /** There are no more of one than of the other. */
  lemma {:induction false} AsManyFiledAsJudged(all: seq<Series>, p: Provenance)
    ensures |Filed(all, p)| == |Judged(all)|
  {
    if all != [] {
      var n := |all| - 1;
      AsManyFiledAsJudged(all[..n], p);
      assert Judged(all) == Judged(all[..n]) + if all[n].verdict.Some? then {n} else {};
    }
  }

  /** The rows of one run; an error if it reports a series twice or files too many rows. */
  method LedgerRows(all: seq<Series>, p: Provenance) returns (rows: Option<seq<Row>>)
    ensures rows.Some? <==> NamesDiffer(all) && |Judged(all)| <= MAXIMUM_ROWS_PER_RUN
    ensures rows.Some? ==> rows.value == Filed(all, p) && IsBatch(Batch(p.run, p.attempt, rows.value))
  {
    hide Name, Judged;
    var out: seq<Row>, seen: set<string> := [], {};
    var i := 0;
    while i < |all|
      invariant i <= |all| && out == Filed(all[..i], p) && NamesDiffer(all[..i])
      invariant forall n :: n in seen <==> exists j :: 0 <= j < i && Name(all[j]) == n
    {
      var s := all[i];
      if Name(s) in seen { return None; }
      seen := seen + {Name(s)};
      assert all[..i + 1][..i] == all[..i];
      if s.verdict.Some? {
        out := out + [Row(p.run, p.attempt, p.recordedAt, s.profile, s.unit, s.metric, s.verdict.value)];
      }
      i := i + 1;
    }
    assert all[..i] == all;
    FiledIsBatch(all, p);
    AsManyFiledAsJudged(all, p);
    if |out| > MAXIMUM_ROWS_PER_RUN { return None; }
    return Some(out);
  }

  predicate Later(existing: seq<Row>, b: Batch) {
    exists r :: r in existing && r.run == b.run && r.attempt > b.attempt
  }

  /** What folding one batch into an ordered ledger leaves. */
  lemma MergeBatch(rank: Order, existing: seq<Row>, b: Batch)
    requires TellsApart(rank) && InOrder(rank, existing) && IsBatch(b) && b.rows != []
    ensures InOrder(rank, Merge(rank, existing, b.rows))
    ensures Rows(Merge(rank, existing, b.rows)) ==
            (set r | r in existing && (r.run != b.run || r.attempt > b.attempt))
            + (if Later(existing, b) then {} else Rows(b.rows))
  {
    hide Precedes, SameKey, TellsApart, Sort;
    var kept, admitted := Keep(existing, b.rows), Admit(b.rows, existing, b.rows);
    BatchSupersedes(existing, b);
    InOrderDiffers(rank, existing);
    KeptRows(existing, b.rows);
    AdmittedRows(b.rows, existing, b.rows);
    forall x, y | x in kept && y in admitted
      ensures !SameKey(x, y)
    {
      assert x in Rows(kept) && y in Rows(admitted);
      OtherAttempt(x, y, b);
    }
    JoinDiffers(kept, admitted);
    SortRows(rank, kept + admitted);
    assert Rows(kept + admitted) == Rows(kept) + Rows(admitted);
  }

  lemma BatchSupersedes(existing: seq<Row>, b: Batch)
    requires IsBatch(b) && b.rows != []
    ensures forall r :: Superseded(b.rows, r) <==> r.run == b.run && r.attempt <= b.attempt
    ensures Stale(existing, b.rows, b.run) <==> Later(existing, b)
  {
    forall run
      ensures Latest(b.rows, run) == if run == b.run then Some(b.attempt) else None
    {
      LatestOfBatch(b.rows, b, run);
    }
  }

  lemma OtherAttempt(x: Row, y: Row, b: Batch)
    requires y.run == b.run && y.attempt == b.attempt && (x.run != b.run || x.attempt > b.attempt)
    ensures !SameKey(x, y)
  {
  }

  lemma JoinDiffers(a: seq<Row>, b: seq<Row>)
    requires KeysDiffer(a) && KeysDiffer(b) && forall x, y | x in a && y in b :: !SameKey(x, y)
    ensures KeysDiffer(a + b)
  {
    hide SameKey;
  }

  lemma InOrderDiffers(rank: Order, rows: seq<Row>)
    requires TellsApart(rank) && InOrder(rank, rows)
    ensures KeysDiffer(rows)
  {
    forall i, j | 0 <= i < j < |rows|
      ensures !SameKey(rows[i], rows[j])
    {
      assert Precedes(rank, rows[i], rows[j]);
    }
  }

  // ------------------------------------------------------------------- folding

  predicate Batches(bs: seq<Batch>) {
    && (forall b | b in bs :: IsBatch(b))
    && (forall i, j | 0 <= i < j < |bs| :: bs[i].run != bs[j].run || bs[i].attempt != bs[j].attempt)
  }

  /** The ledger after folding batches in the order they arrive. */
  function Fold(rank: Order, bs: seq<Batch>): seq<Row> {
    if bs == [] then [] else Merge(rank, Fold(rank, bs[..|bs| - 1]), bs[|bs| - 1].rows)
  }

  /** No batch of the same run with rows has a higher attempt. */
  predicate Wins(bs: set<Batch>, b: Batch) {
    forall c | c in bs && c.run == b.run && c.rows != [] :: c.attempt <= b.attempt
  }

  /** The rows that should be in the ledger: for each run, those of its highest attempt that has any. */
  ghost function Winners(bs: set<Batch>): set<Row> {
    set b, r | b in bs && Wins(bs, b) && r in b.rows :: r
  }

  function All(bs: seq<Batch>): set<Batch> {
    set b | b in bs
  }

  /** Every run with rows has a winning attempt. */
  lemma {:induction false} SomeoneWins(bs: set<Batch>, c: Batch) returns (w: Batch)
    requires c in bs && c.rows != []
    ensures w in bs && w.run == c.run && w.rows != [] && w.attempt >= c.attempt && Wins(bs, w)
    decreases |bs|
  {
    if Wins(bs, c) { return c; }
    var d :| d in bs && d.run == c.run && d.rows != [] && d.attempt > c.attempt;
    w := SomeoneWins(bs - {c}, d);
  }

  lemma NewBatch(bs: set<Batch>, b: Batch)
    requires b.rows != [] && IsBatch(b) && (forall c | c in bs :: IsBatch(c))
    requires forall c | c in bs :: c.run != b.run || c.attempt != b.attempt
    ensures Winners(bs + {b}) ==
            (set r | r in Winners(bs) && (r.run != b.run || r.attempt > b.attempt))
            + (if exists r :: r in Winners(bs) && r.run == b.run && r.attempt > b.attempt then {} else Rows(b.rows))
  {
    var later := exists r :: r in Winners(bs) && r.run == b.run && r.attempt > b.attempt;
    WinsIffNoneLater(bs, b);
    forall r
      ensures r in Winners(bs + {b}) <==>
        (r in Winners(bs) && (r.run != b.run || r.attempt > b.attempt)) || (!later && r in b.rows)
    {
      if r in Winners(bs + {b}) {
        var c :| c in bs + {b} && Wins(bs + {b}, c) && r in c.rows;
        if c in bs { assert Wins(bs, c); }
      }
      if r in Winners(bs) && (r.run != b.run || r.attempt > b.attempt) {
        var c :| c in bs && Wins(bs, c) && r in c.rows;
        assert Wins(bs + {b}, c);
      }
      if !later && r in b.rows { assert b in bs + {b} && Wins(bs + {b}, b); }
    }
  }

  lemma WinsIffNoneLater(bs: set<Batch>, b: Batch)
    requires b.rows != [] && forall c | c in bs :: IsBatch(c)
    ensures Wins(bs + {b}, b) <==> !exists r :: r in Winners(bs) && r.run == b.run && r.attempt > b.attempt
  {
    if !Wins(bs + {b}, b) {
      var c :| c in bs && c.run == b.run && c.rows != [] && c.attempt > b.attempt;
      var w := SomeoneWins(bs, c);
      var r := w.rows[0];
      assert w in bs && Wins(bs, w) && r in w.rows;
      assert r in Winners(bs) && IsBatch(w);
    }
    if r :| r in Winners(bs) && r.run == b.run && r.attempt > b.attempt {
      var c :| c in bs && Wins(bs, c) && r in c.rows;
      assert c in bs + {b};
    }
  }

  /** However batches arrive, the ledger is the winners' rows in order. */
  lemma {:induction false} FoldIsWinners(rank: Order, bs: seq<Batch>)
    requires TellsApart(rank) && Batches(bs)
    ensures InOrder(rank, Fold(rank, bs)) && Rows(Fold(rank, bs)) == Winners(All(bs))
  {
    hide TellsApart, IsBatch, Winners, Merge, InOrder;
    if bs == [] {
      NoWinners(rank);
    } else {
      var before, b := bs[..|bs| - 1], bs[|bs| - 1];
      FoldIsWinners(rank, before);
      assert bs == before + [b];
      assert All(bs) == All(before) + {b};
      FoldStep(rank, Fold(rank, before), All(before), b);
    }
  }

  lemma NoWinners(rank: Order)
    ensures InOrder(rank, []) && Rows([]) == Winners({}) && All([]) == {}
  {
  }

  /** Folding one more batch: also when it was folded before. */
  lemma FoldStep(rank: Order, ledger: seq<Row>, bs: set<Batch>, b: Batch)
    requires TellsApart(rank) && InOrder(rank, ledger) && Rows(ledger) == Winners(bs)
    requires IsBatch(b) && (forall c | c in bs :: IsBatch(c))
    requires forall c | c in bs && c != b :: c.run != b.run || c.attempt != b.attempt
    ensures InOrder(rank, Merge(rank, ledger, b.rows))
    ensures Rows(Merge(rank, ledger, b.rows)) == Winners(bs + {b})
  {
    hide TellsApart, IsBatch, Winners, Merge, InOrder;
    if b.rows == [] {
      MergeNothing(rank, ledger);
      EmptyBatch(bs, b);
    } else {
      MergeBatch(rank, ledger, b);
      assert forall r :: r in ledger <==> r in Winners(bs);
      if b in bs {
        OldBatch(bs, b);
        assert bs + {b} == bs;
      } else {
        NewBatch(bs, b);
      }
    }
  }

  lemma EmptyBatch(bs: set<Batch>, b: Batch)
    requires b.rows == []
    ensures Winners(bs + {b}) == Winners(bs)
  {
    forall c
      ensures Wins(bs + {b}, c) <==> Wins(bs, c)
    {
    }
  }

  lemma OldBatch(bs: set<Batch>, b: Batch)
    requires b in bs && b.rows != [] && (forall c | c in bs :: IsBatch(c))
    requires forall c | c in bs && c != b :: c.run != b.run || c.attempt != b.attempt
    ensures Winners(bs) ==
            (set r | r in Winners(bs) && (r.run != b.run || r.attempt > b.attempt))
            + (if exists r :: r in Winners(bs) && r.run == b.run && r.attempt > b.attempt then {} else Rows(b.rows))
  {
    var later := exists r :: r in Winners(bs) && r.run == b.run && r.attempt > b.attempt;
    WinsIffNoneLater(bs, b);
    assert bs + {b} == bs;
    forall r | r in Winners(bs) && r.run == b.run && r.attempt <= b.attempt
      ensures r in b.rows && !later
    {
      var c :| c in bs && Wins(bs, c) && r in c.rows;
      assert c.attempt == r.attempt && c.run == b.run;
    }
  }

  lemma MergeNothing(rank: Order, ledger: seq<Row>)
    requires TellsApart(rank) && InOrder(rank, ledger)
    ensures Merge(rank, ledger, []) == ledger
  {
    hide TellsApart, SameKey, Precedes, InOrder, Sort;
    KeepAll(ledger);
    InOrderDiffers(rank, ledger);
    SortRows(rank, ledger);
    OrderIsUnique(rank, Sort(rank, ledger), ledger);
    assert ledger + [] == ledger;
  }

  lemma {:induction false} KeepAll(ledger: seq<Row>)
    ensures Keep(ledger, []) == ledger
  {
    if ledger != [] {
      KeepAll(ledger[..|ledger| - 1]);
      assert ledger == ledger[..|ledger| - 1] + [ledger[|ledger| - 1]];
    }
  }

  /** Any two orders of arrival give the same ledger. */
  lemma ArrivalDoesNotMatter(rank: Order, a: seq<Batch>, b: seq<Batch>)
    requires TellsApart(rank) && Batches(a) && Batches(b) && All(a) == All(b)
    ensures Fold(rank, a) == Fold(rank, b)
  {
    hide TellsApart, Winners, InOrder;
    FoldIsWinners(rank, a);
    FoldIsWinners(rank, b);
    OrderIsUnique(rank, Fold(rank, a), Fold(rank, b));
  }

  /** Folding a batch again changes nothing. */
  lemma FoldingAgainChangesNothing(rank: Order, bs: seq<Batch>, b: Batch)
    requires TellsApart(rank) && Batches(bs) && b in bs
    ensures Merge(rank, Fold(rank, bs), b.rows) == Fold(rank, bs)
  {
    hide TellsApart, Winners, InOrder, Merge;
    FoldIsWinners(rank, bs);
    FoldStep(rank, Fold(rank, bs), All(bs), b);
    assert All(bs) + {b} == All(bs);
    OrderIsUnique(rank, Merge(rank, Fold(rank, bs), b.rows), Fold(rank, bs));
  }
}
