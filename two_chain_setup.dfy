/** The shared harness of the swap scripts, common/two-chain-setup.ts: the
    `Actor` with its gas counter, the total over all actors, and the gas
    report that `parseTransaction` prints for a transaction trace. */
module TwoChainSetup {
  import opened Bytes
  import opened Results

  /** A party of the swap. Only what the protocol reads or updates is kept:
      the signing address and the gas spent so far. */
  class Actor {
    const signingAddress: Address
    var gasSpent: int

    constructor (signingAddress: Address)
      ensures this.signingAddress == signingAddress
      ensures gasSpent == 0
    {
      this.signingAddress := signingAddress;
      gasSpent := 0;
    }

    /** `actor.gasSpent += Number(gasUsed)` for a receipt's `gasUsed`. */
    method SpendGas(gasUsed: nat)
      modifies this
      ensures gasSpent == old(gasSpent) + gasUsed
    {
      gasSpent := gasSpent + gasUsed;
    }
  }

  /** The gas spent by all the given actors, an actor listed twice counting
      twice. */
  ghost function TotalGasSpent(actors: seq<Actor>): int
    reads set a | a in actors
  {
    if actors == [] then 0
    else TotalGasSpent(actors[..|actors| - 1]) + actors[|actors| - 1].gasSpent
  }

  lemma {:induction false} TotalGasSpentConcat(a: seq<Actor>, b: seq<Actor>)
    ensures TotalGasSpent(a + b) == TotalGasSpent(a) + TotalGasSpent(b)
  {
    if b != [] {
      assert (a + b)[..|a + b| - 1] == a + b[..|b| - 1];
      TotalGasSpentConcat(a, b[..|b| - 1]);
    } else {
      assert a + b == a;
    }
  }

  /** `logTotalGasSpentByAll`: the total it prints. */
  method LogTotalGasSpentByAll(actors: seq<Actor>) returns (total: int)
    ensures total == TotalGasSpent(actors)
  {
    total := 0;
    for i := 0 to |actors|
      invariant total == TotalGasSpent(actors[..i])
    {
      assert actors[..i + 1][..i] == actors[..i];
      total := total + actors[i].gasSpent;
    }
    assert actors[..|actors|] == actors;
  }

  // ---------------------------------------------------------------------
  // Gas report of one transaction
  // ---------------------------------------------------------------------

  /** One step of `debug_traceTransaction`'s `structLogs`. */
  datatype StructLog = StructLog(op: string, gasCost: int)

  /** One row of `aggregatedCostPerOpcode`. */
  datatype OpcodeCost = OpcodeCost(count: nat, gas: int, op: string)

  /** Reference definitions: how many steps run `op`, and their gas. */
  function CountOf(steps: seq<StructLog>, op: string): nat
  {
    if steps == [] then 0
    else CountOf(steps[..|steps| - 1], op) + (if steps[|steps| - 1].op == op then 1 else 0)
  }

  function GasOf(steps: seq<StructLog>, op: string): int
  {
    if steps == [] then 0
    else GasOf(steps[..|steps| - 1], op) + (if steps[|steps| - 1].op == op then steps[|steps| - 1].gasCost else 0)
  }

  function TotalGasCost(steps: seq<StructLog>): int
  {
    if steps == [] then 0 else TotalGasCost(steps[..|steps| - 1]) + steps[|steps| - 1].gasCost
  }

  function StepOps(steps: seq<StructLog>): set<string>
  {
    set s | s in steps :: s.op
  }

  function RowOps(rows: seq<OpcodeCost>): set<string>
  {
    set r | r in rows :: r.op
  }

  function TotalCount(rows: seq<OpcodeCost>): nat
  {
    if rows == [] then 0 else rows[0].count + TotalCount(rows[1..])
  }

  function TotalGas(rows: seq<OpcodeCost>): int
  {
    if rows == [] then 0 else rows[0].gas + TotalGas(rows[1..])
  }

  predicate DistinctOps(rows: seq<OpcodeCost>)
  {
    forall i, j :: 0 <= i < j < |rows| ==> rows[i].op != rows[j].op
  }

  predicate SortedByGasDescending(rows: seq<OpcodeCost>)
  {
    forall i, j :: 0 <= i < j < |rows| ==> rows[i].gas >= rows[j].gas
  }

  /** The rows describe `steps` exactly: one per distinct op, each with that
      op's count and gas. */
  predicate Describes(rows: seq<OpcodeCost>, steps: seq<StructLog>)
  {
    && DistinctOps(rows)
    && RowOps(rows) == StepOps(steps)
    && forall r :: r in rows ==> r.count == CountOf(steps, r.op) && r.gas == GasOf(steps, r.op)
  }

  /** One step of `_.groupBy` followed by `_.mapValues`: the step joins the
      row of its op, or opens a new row at the end (keys keep the order of
      their first occurrence). */
  function AddStep(rows: seq<OpcodeCost>, s: StructLog): seq<OpcodeCost>
  {
    if rows == [] then [OpcodeCost(1, s.gasCost, s.op)]
    else if rows[0].op == s.op then [rows[0].(count := rows[0].count + 1, gas := rows[0].gas + s.gasCost)] + rows[1..]
    else [rows[0]] + AddStep(rows[1..], s)
  }

  /** `_.values(_.mapValues(_.groupBy(structLogs, op), ...))`. */
  function GroupByOp(steps: seq<StructLog>): seq<OpcodeCost>
  {
    if steps == [] then [] else AddStep(GroupByOp(steps[..|steps| - 1]), steps[|steps| - 1])
  }

  /** Inserts `x` before the first row with no more gas, so rows of equal gas
      keep their order. */
  function InsertByGas(x: OpcodeCost, rows: seq<OpcodeCost>): seq<OpcodeCost>
  {
    if rows == [] then [x]
    else if x.gas >= rows[0].gas then [x] + rows
    else [rows[0]] + InsertByGas(x, rows[1..])
  }

  /** `_.sortBy(rows, row => -row.gas)`: a stable sort by descending gas.
      Stability holds by construction (`>=` in `InsertByGas`); the lemmas
      below prove the permutation and the gas order, not the tie order. */
  function SortByGasDescending(rows: seq<OpcodeCost>): seq<OpcodeCost>
  {
    if rows == [] then [] else InsertByGas(rows[0], SortByGasDescending(rows[1..]))
  }

  /** `aggregatedCostPerOpcode` on the trace's `structLogs`. */
  function AggregatedCostPerOpcode(steps: seq<StructLog>): seq<OpcodeCost>
  {
    SortByGasDescending(GroupByOp(steps))
  }

  lemma StepOpsSnoc(steps: seq<StructLog>, s: StructLog)
    ensures StepOps(steps + [s]) == StepOps(steps) + {s.op}
  {
    assert forall t :: t in steps + [s] <==> t in steps || t == s;
  }

  lemma CountGasSnoc(init: seq<StructLog>, s: StructLog, op: string)
    ensures CountOf(init + [s], op) == CountOf(init, op) + (if s.op == op then 1 else 0)
    ensures GasOf(init + [s], op) == GasOf(init, op) + (if s.op == op then s.gasCost else 0)
  {
    assert (init + [s])[..|init + [s]| - 1] == init;
  }

  lemma {:induction false} AbsentOpCountsNothing(steps: seq<StructLog>, op: string)
    requires op !in StepOps(steps)
    ensures CountOf(steps, op) == 0 && GasOf(steps, op) == 0
  {
    if steps != [] {
      var init := steps[..|steps| - 1];
      assert steps == init + [steps[|steps| - 1]];
      StepOpsSnoc(init, steps[|steps| - 1]);
      AbsentOpCountsNothing(init, op);
    }
  }

  lemma {:induction false} CountZeroMeansAbsent(steps: seq<StructLog>, op: string)
    requires CountOf(steps, op) == 0
    ensures op !in StepOps(steps)
  {
    if steps != [] {
      var init := steps[..|steps| - 1];
      assert steps == init + [steps[|steps| - 1]];
      StepOpsSnoc(init, steps[|steps| - 1]);
      CountZeroMeansAbsent(init, op);
    }
  }

  /** The tail of a row list with distinct ops has distinct ops, none of
      them the head's. */
  lemma DistinctTail(rows: seq<OpcodeCost>)
    requires rows != [] && DistinctOps(rows)
    ensures DistinctOps(rows[1..]) && rows[0].op !in RowOps(rows[1..])
  {
    var rest := rows[1..];
    forall i, j | 0 <= i < j < |rest| ensures rest[i].op != rest[j].op {
      assert rest[i] == rows[i + 1] && rest[j] == rows[j + 1];
    }
    forall r | r in rest ensures r.op != rows[0].op {
      var k :| 0 <= k < |rest| && rest[k] == r;
      assert rows[k + 1] == r;
    }
  }

  lemma ConsDistinct(a: OpcodeCost, t: seq<OpcodeCost>)
    requires DistinctOps(t) && a.op !in RowOps(t)
    ensures DistinctOps([a] + t)
  {
    var l := [a] + t;
    forall i, j | 0 <= i < j < |l| ensures l[i].op != l[j].op {
      assert l[j] == t[j - 1];
      if i > 0 { assert l[i] == t[i - 1]; } else { assert t[j - 1] in t; }
    }
  }

  /** The tail of a sorted row list is sorted and no row in it has more gas
      than the head. */
  lemma SortedTail(rows: seq<OpcodeCost>)
    requires rows != [] && SortedByGasDescending(rows)
    ensures SortedByGasDescending(rows[1..])
    ensures forall r :: r in rows[1..] ==> rows[0].gas >= r.gas
  {
    var rest := rows[1..];
    forall i, j | 0 <= i < j < |rest| ensures rest[i].gas >= rest[j].gas {
      assert rest[i] == rows[i + 1] && rest[j] == rows[j + 1];
    }
    forall r | r in rest ensures rows[0].gas >= r.gas {
      var k :| 0 <= k < |rest| && rest[k] == r;
      assert rows[k + 1] == r;
    }
  }

  lemma ConsSorted(a: OpcodeCost, t: seq<OpcodeCost>)
    requires SortedByGasDescending(t)
    requires forall r :: r in t ==> a.gas >= r.gas
    ensures SortedByGasDescending([a] + t)
  {
    var l := [a] + t;
    forall i, j | 0 <= i < j < |l| ensures l[i].gas >= l[j].gas {
      assert l[j] == t[j - 1];
      if i > 0 { assert l[i] == t[i - 1]; } else { assert t[j - 1] in t; }
    }
  }

  lemma {:induction false} AddStepTotals(rows: seq<OpcodeCost>, s: StructLog)
    ensures TotalCount(AddStep(rows, s)) == TotalCount(rows) + 1
    ensures TotalGas(AddStep(rows, s)) == TotalGas(rows) + s.gasCost
  {
    if rows != [] && rows[0].op != s.op {
      AddStepTotals(rows[1..], s);
    }
  }

  /** A step of an op already present updates exactly that row; a new op
      appends a row with count 1. */
  lemma {:induction false} AddStepShape(rows: seq<OpcodeCost>, s: StructLog)
    requires DistinctOps(rows)
    ensures s.op !in RowOps(rows) ==> AddStep(rows, s) == rows + [OpcodeCost(1, s.gasCost, s.op)]
    ensures s.op in RowOps(rows) ==>
      && |AddStep(rows, s)| == |rows|
      && forall i :: 0 <= i < |rows| ==>
           AddStep(rows, s)[i] ==
             if rows[i].op == s.op then rows[i].(count := rows[i].count + 1, gas := rows[i].gas + s.gasCost)
             else rows[i]
  {
    if rows != [] {
      var rest := rows[1..];
      DistinctTail(rows);
      assert forall r :: r in rows <==> r == rows[0] || r in rest;
      if rows[0].op == s.op {
        assert forall i :: 1 <= i < |rows| ==> rows[i].op != s.op by {
          forall i | 1 <= i < |rows| ensures rows[i].op != s.op {
            assert rows[i] == rest[i - 1];
          }
        }
      } else {
        AddStepShape(rest, s);
      }
    }
  }

  lemma SnocDistinct(rows: seq<OpcodeCost>, a: OpcodeCost)
    requires DistinctOps(rows) && a.op !in RowOps(rows)
    ensures DistinctOps(rows + [a])
    ensures RowOps(rows + [a]) == RowOps(rows) + {a.op}
  {
    var l := rows + [a];
    forall i, j | 0 <= i < j < |l| ensures l[i].op != l[j].op {
      assert l[i] == rows[i];
      if j == |rows| { assert rows[i] in rows; } else { assert l[j] == rows[j]; }
    }
    assert forall r :: r in l <==> r in rows || r == a;
  }

  lemma AddStepNewOp(rows: seq<OpcodeCost>, init: seq<StructLog>, s: StructLog)
    requires Describes(rows, init) && s.op !in RowOps(rows)
    ensures Describes(AddStep(rows, s), init + [s])
  {
    AddStepShape(rows, s);
    AbsentOpCountsNothing(init, s.op);
    StepOpsSnoc(init, s);
    var newRow := OpcodeCost(1, s.gasCost, s.op);
    var next := AddStep(rows, s);
    SnocDistinct(rows, newRow);
    forall r | r in next ensures r.count == CountOf(init + [s], r.op) && r.gas == GasOf(init + [s], r.op) {
      CountGasSnoc(init, s, r.op);
      if r != newRow {
        assert r in rows;
        assert r.op in RowOps(rows);
      }
    }
  }

  lemma AddStepKnownOp(rows: seq<OpcodeCost>, init: seq<StructLog>, s: StructLog)
    requires Describes(rows, init) && s.op in RowOps(rows)
    ensures Describes(AddStep(rows, s), init + [s])
  {
    StepOpsSnoc(init, s);
    AddStepKnownOpKeepsOps(rows, s);
    AddStepKnownOpCounts(rows, init, s);
  }

  /** Joining an existing row changes no op. */
  lemma AddStepKnownOpKeepsOps(rows: seq<OpcodeCost>, s: StructLog)
    requires DistinctOps(rows) && s.op in RowOps(rows)
    ensures DistinctOps(AddStep(rows, s)) && RowOps(AddStep(rows, s)) == RowOps(rows)
  {
    AddStepShape(rows, s);
    var next := AddStep(rows, s);
    forall i, j | 0 <= i < j < |next| ensures next[i].op != next[j].op {
      assert next[i].op == rows[i].op && next[j].op == rows[j].op;
    }
    forall op | op in RowOps(rows) ensures op in RowOps(next) {
      var i :| 0 <= i < |rows| && rows[i].op == op;
      assert next[i].op == op;
    }
    forall op | op in RowOps(next) ensures op in RowOps(rows) {
      var i :| 0 <= i < |next| && next[i].op == op;
      assert rows[i].op == op;
    }
  }

  /** Joining an existing row keeps every row's count and gas in step with
      the steps. */
  lemma AddStepKnownOpCounts(rows: seq<OpcodeCost>, init: seq<StructLog>, s: StructLog)
    requires Describes(rows, init) && s.op in RowOps(rows)
    ensures forall r :: r in AddStep(rows, s) ==> r.count == CountOf(init + [s], r.op) && r.gas == GasOf(init + [s], r.op)
  {
    AddStepShape(rows, s);
    var next := AddStep(rows, s);
    forall r | r in next ensures r.count == CountOf(init + [s], r.op) && r.gas == GasOf(init + [s], r.op) {
      var i :| 0 <= i < |next| && next[i] == r;
      assert rows[i] in rows;
      CountGasSnoc(init, s, r.op);
    }
  }

  lemma {:induction false} GroupByOpDescribes(steps: seq<StructLog>)
    ensures Describes(GroupByOp(steps), steps)
    ensures TotalCount(GroupByOp(steps)) == |steps|
    ensures TotalGas(GroupByOp(steps)) == TotalGasCost(steps)
  {
    if steps != [] {
      var init, s := steps[..|steps| - 1], steps[|steps| - 1];
      var rows := GroupByOp(init);
      GroupByOpDescribes(init);
      AddStepTotals(rows, s);
      assert steps == init + [s];
      if s.op in RowOps(rows) {
        AddStepKnownOp(rows, init, s);
      } else {
        AddStepNewOp(rows, init, s);
      }
    }
  }

  lemma {:induction false} InsertByGasContents(x: OpcodeCost, rows: seq<OpcodeCost>)
    ensures multiset(InsertByGas(x, rows)) == multiset(rows) + multiset{x}
    ensures forall r :: r in InsertByGas(x, rows) <==> r == x || r in rows
    ensures TotalCount(InsertByGas(x, rows)) == TotalCount(rows) + x.count
    ensures TotalGas(InsertByGas(x, rows)) == TotalGas(rows) + x.gas
  {
    if rows != [] && x.gas < rows[0].gas {
      InsertByGasContents(x, rows[1..]);
      assert rows == [rows[0]] + rows[1..];
    }
  }

  lemma {:induction false} InsertByGasSorted(x: OpcodeCost, rows: seq<OpcodeCost>)
    requires SortedByGasDescending(rows)
    ensures SortedByGasDescending(InsertByGas(x, rows))
  {
    if rows == [] {
    } else if x.gas >= rows[0].gas {
      SortedTail(rows);
      assert rows == [rows[0]] + rows[1..];
      ConsSorted(x, rows);
    } else {
      SortedTail(rows);
      InsertByGasSorted(x, rows[1..]);
      InsertByGasContents(x, rows[1..]);
      ConsSorted(rows[0], InsertByGas(x, rows[1..]));
    }
  }

  lemma {:induction false} InsertByGasDistinct(x: OpcodeCost, rows: seq<OpcodeCost>)
    requires DistinctOps(rows) && x.op !in RowOps(rows)
    ensures DistinctOps(InsertByGas(x, rows))
  {
    if rows == [] {
    } else if x.gas >= rows[0].gas {
      ConsDistinct(x, rows);
    } else {
      DistinctTail(rows);
      assert rows[0] in rows;
      assert x.op !in RowOps(rows[1..]) by {
        forall r | r in rows[1..] ensures r.op != x.op { assert r in rows; }
      }
      InsertByGasDistinct(x, rows[1..]);
      InsertByGasContents(x, rows[1..]);
      ConsDistinct(rows[0], InsertByGas(x, rows[1..]));
    }
  }

  lemma {:induction false} SortByGasDescendingFacts(rows: seq<OpcodeCost>)
    ensures multiset(SortByGasDescending(rows)) == multiset(rows)
    ensures SortedByGasDescending(SortByGasDescending(rows))
    ensures TotalCount(SortByGasDescending(rows)) == TotalCount(rows)
    ensures TotalGas(SortByGasDescending(rows)) == TotalGas(rows)
  {
    if rows != [] {
      var rest := rows[1..];
      assert rows == [rows[0]] + rest;
      SortByGasDescendingFacts(rest);
      var sorted := SortByGasDescending(rest);
      InsertByGasContents(rows[0], sorted);
      InsertByGasSorted(rows[0], sorted);
    }
  }

  /** Sorting keeps the ops distinct. */
  lemma {:induction false} SortByGasDescendingKeepsDistinct(rows: seq<OpcodeCost>)
    requires DistinctOps(rows)
    ensures DistinctOps(SortByGasDescending(rows))
  {
    if rows != [] {
      var rest := rows[1..];
      DistinctTail(rows);
      SortByGasDescendingKeepsDistinct(rest);
      SortByGasDescendingFacts(rest);
      var sorted := SortByGasDescending(rest);
      assert rows[0].op !in RowOps(sorted) by {
        forall r | r in sorted ensures r.op != rows[0].op {
          assert multiset(sorted)[r] > 0;
          assert r in rest;
        }
      }
      InsertByGasDistinct(rows[0], sorted);
    }
  }

  /** What `aggregatedCostPerOpcode` returns: exactly one row per distinct op,
      each with the number of steps of that op and the sum of their gas,
      ordered by non-increasing gas; the counts add up to the number of steps
      and the gas to the trace's total. */
  lemma AggregatedCostPerOpcodeCorrect(steps: seq<StructLog>)
    ensures var rows := AggregatedCostPerOpcode(steps);
      && DistinctOps(rows)
      && RowOps(rows) == StepOps(steps)
      && (forall r :: r in rows ==> r.count == CountOf(steps, r.op) >= 1 && r.gas == GasOf(steps, r.op))
      && SortedByGasDescending(rows)
      && multiset(rows) == multiset(GroupByOp(steps))
      && TotalCount(rows) == |steps|
      && TotalGas(rows) == TotalGasCost(steps)
  {
    var grouped := GroupByOp(steps);
    GroupByOpDescribes(steps);
    SortByGasDescendingFacts(grouped);
    SortByGasDescendingKeepsDistinct(grouped);
    var rows := AggregatedCostPerOpcode(steps);
    assert forall r :: r in rows <==> r in grouped by {
      forall r ensures r in rows <==> r in grouped {
        assert r in rows <==> multiset(rows)[r] > 0;
        assert r in grouped <==> multiset(grouped)[r] > 0;
      }
    }
    forall r | r in rows ensures r.count == CountOf(steps, r.op) >= 1 && r.gas == GasOf(steps, r.op) {
      assert r.op in StepOps(steps);
      if CountOf(steps, r.op) == 0 {
        CountZeroMeansAbsent(steps, r.op);
      }
    }
    assert RowOps(rows) == RowOps(grouped);
  }

  // ---------------------------------------------------------------------
  // parseTransaction
  // ---------------------------------------------------------------------

  function Filter(rows: seq<OpcodeCost>, keep: OpcodeCost -> bool): (r: seq<OpcodeCost>)
    ensures forall x :: x in r <==> x in rows && keep(x)
  {
    if rows == [] then []
    else (if keep(rows[0]) then [rows[0]] else []) + Filter(rows[1..], keep)
  }

  /** A filter keeps the relative order, so a sorted list stays sorted. */
  lemma {:induction false} FilterKeepsSorted(rows: seq<OpcodeCost>, keep: OpcodeCost -> bool)
    requires SortedByGasDescending(rows)
    ensures SortedByGasDescending(Filter(rows, keep))
  {
    if rows != [] {
      var rest := rows[1..];
      assert SortedByGasDescending(rest) by {
        forall i, j | 0 <= i < j < |rest| ensures rest[i].gas >= rest[j].gas {
          assert rest[i] == rows[i + 1] && rest[j] == rows[j + 1];
        }
      }
      FilterKeepsSorted(rest, keep);
      var tail := Filter(rest, keep);
      forall j | 0 <= j < |tail| ensures rows[0].gas >= tail[j].gas {
        assert tail[j] in tail;
        var k :| 0 <= k < |rest| && rest[k] == tail[j];
        assert rows[k + 1] == tail[j];
      }
    }
  }

  /** Rows of at least 200 gas, printed before the "..." marker. */
  function BigSpenders(rows: seq<OpcodeCost>): seq<OpcodeCost>
  {
    Filter(rows, (r: OpcodeCost) => r.gas >= 200)
  }

  /** Rows of negative gas, printed after the marker. */
  function Refunds(rows: seq<OpcodeCost>): seq<OpcodeCost>
  {
    Filter(rows, (r: OpcodeCost) => r.gas < 0)
  }

  /** What `parseTransaction` learns about a mined transaction. */
  datatype TransactionReport = TransactionReport(gasUsed: nat, bigSpenders: seq<OpcodeCost>, refunds: seq<OpcodeCost>)

  /** `parseTransaction` with the gas used returned to the caller, as its
      callers in ninja-atomic-swap/helpers.ts expect. The two printed
      groups are exactly the heavy rows and the refund rows of the
      aggregate, never share a row, and each stays sorted. */
  function ParseTransaction(gasUsed: nat, steps: seq<StructLog>): (r: TransactionReport)
    ensures r.gasUsed == gasUsed
    ensures var costs := AggregatedCostPerOpcode(steps);
      && (forall c :: c in r.bigSpenders <==> c in costs && c.gas >= 200)
      && (forall c :: c in r.refunds <==> c in costs && c.gas < 0)
      && (forall c :: !(c in r.bigSpenders && c in r.refunds))
      && SortedByGasDescending(r.bigSpenders)
      && SortedByGasDescending(r.refunds)
  {
    var costs := AggregatedCostPerOpcode(steps);
    AggregatedCostPerOpcodeCorrect(steps);
    FilterKeepsSorted(costs, (c: OpcodeCost) => c.gas >= 200);
    FilterKeepsSorted(costs, (c: OpcodeCost) => c.gas < 0);
    TransactionReport(gasUsed, BigSpenders(costs), Refunds(costs))
  }

  // ---------------------------------------------------------------------
  // JavaScript numbers, for the gas counter as written
  // ---------------------------------------------------------------------

  /** A JavaScript number as far as the gas counter needs it. */
  datatype JsNumber = Finite(value: int) | NaN

  /** `Number(v)`: `Number(undefined)` is NaN. */
  function NumberOf(v: Option<nat>): (n: JsNumber)
    ensures n.NaN? <==> v.None?
  {
    match v
    case Some(x) => Finite(x)
    case None => NaN
  }

  /** `a + b`: NaN absorbs everything. */
  function JsAdd(a: JsNumber, b: JsNumber): (n: JsNumber)
    ensures n.Finite? <==> a.Finite? && b.Finite?
    ensures n.Finite? ==> n.value == a.value + b.value
  {
    if a.Finite? && b.Finite? then Finite(a.value + b.value) else NaN
  }

  /** `parseTransaction` as written: it logs and resolves to `undefined`,
      whatever the gas used. */
  function ParseTransactionAsWritten(gasUsed: nat, steps: seq<StructLog>): (r: Option<nat>)
    ensures r.None?
  {
    None
  }
}
