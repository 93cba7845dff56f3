/** Step 1 of a planning run: splitting the total budget into per-category
    amounts by the fixed ratios of the budget allocation table. */
module Allocation {
  import opened TravelConfig

  /** The categories a ratio table names. */
  function TableKeys(table: seq<(string, real)>): set<string>
  {
    set i | 0 <= i < |table| :: table[i].0
  }

  predicate UniqueKeys(table: seq<(string, real)>)
  {
    forall i, j :: 0 <= i < j < |table| ==> table[i].0 != table[j].0
  }

  /** Sum of the ratios, in table order. */
  function FractionSum(table: seq<(string, real)>): real
    decreases |table|
  {
    if table == [] then 0.0
    else FractionSum(table[..|table| - 1]) + table[|table| - 1].1
  }

  /** Sum of the amounts an allocation assigns to the table's categories. */
  function AllocatedSum(table: seq<(string, real)>, amounts: map<string, real>): real
    requires TableKeys(table) <= amounts.Keys
    decreases |table|
  {
    if table == [] then 0.0
    else
      var n := |table| - 1;
      assert TableKeys(table[..n]) <= TableKeys(table) by {
        forall k | k in TableKeys(table[..n]) ensures k in TableKeys(table) {
          var i :| 0 <= i < n && table[..n][i].0 == k;
          assert table[i].0 == k;
        }
      }
      AllocatedSum(table[..n], amounts) + amounts[table[n].0]
  }

  /** One category's amount: the budget times the category's ratio. */
  function Share(budget: int, fraction: real): real
  {
    budget as real * fraction
  }

  /** The allocation loop: one entry per table row, each the budget times the
      row's ratio, rows visited in order (a repeated category would keep the
      later row's amount). */
  function AllocateFrom(table: seq<(string, real)>, budget: int): map<string, real>
    decreases |table|
  {
    if table == [] then map[]
    else AllocateFrom(table[..|table| - 1], budget)[table[|table| - 1].0 := Share(budget, table[|table| - 1].1)]
  }

  /** The split has exactly the table's categories and, when these are
      distinct, gives each one budget times its own ratio. */
  lemma {:induction false} AllocateFromShares(table: seq<(string, real)>, budget: int)
    ensures AllocateFrom(table, budget).Keys == TableKeys(table)
    ensures UniqueKeys(table) ==> forall i :: 0 <= i < |table| ==>
      AllocateFrom(table, budget)[table[i].0] == Share(budget, table[i].1)
    decreases |table|
  {
    if table != [] {
      var n := |table| - 1;
      var prefix := table[..n];
      var last := table[n];
      var m := AllocateFrom(prefix, budget);
      var r := AllocateFrom(table, budget);
      assert r == m[last.0 := Share(budget, last.1)];
      assert forall i :: 0 <= i < n ==> prefix[i] == table[i];
      AllocateFromShares(prefix, budget);
      assert TableKeys(table) == TableKeys(prefix) + {last.0} by {
        forall k | k in TableKeys(table) ensures k in TableKeys(prefix) + {last.0} {
          var i :| 0 <= i < |table| && table[i].0 == k;
          if i < n { assert prefix[i].0 == k; }
        }
      }
      if UniqueKeys(table) {
        assert UniqueKeys(prefix);
        forall i | 0 <= i < |table|
          ensures r[table[i].0] == Share(budget, table[i].1)
        {
          if i < n {
            assert table[i].0 != last.0;
            assert m[prefix[i].0] == Share(budget, prefix[i].1);
          }
        }
      }
    }
  }

  /** The budget split used by a planning run: exactly the categories of the
      allocation table, each receiving budget times its ratio. */
  function Allocate(budget: int): (r: map<string, real>)
    ensures r.Keys == {"accommodation", "food", "activities", "transport"}
    ensures forall i :: 0 <= i < |BudgetAllocation| ==>
      r[BudgetAllocation[i].0] == budget as real * BudgetAllocation[i].1
  {
    assert UniqueKeys(BudgetAllocation);
    assert TableKeys(BudgetAllocation) == {"accommodation", "food", "activities", "transport"} by {
      assert BudgetAllocation[0].0 == "accommodation";
      assert BudgetAllocation[1].0 == "food";
      assert BudgetAllocation[2].0 == "activities";
      assert BudgetAllocation[3].0 == "transport";
    }
    AllocateFromShares(BudgetAllocation, budget);
    AllocateFrom(BudgetAllocation, budget)
  }

  /** The configured ratios 0.40, 0.25, 0.25 and 0.10 add up to exactly one. */
  lemma FractionsSumToOne()
    ensures FractionSum(BudgetAllocation) == 1.0
  {
    var t := BudgetAllocation;
    assert t[..3][..2][..1][..0] == [];
    assert FractionSum(t[..3][..2][..1]) == 0.40;
    assert FractionSum(t[..3][..2]) == 0.65;
    assert FractionSum(t[..3]) == 0.90;
  }

  /** When every category receives budget times its ratio, the amounts add up
      to the budget times the sum of the ratios. */
  lemma {:induction false} AllocatedSumScales(table: seq<(string, real)>, amounts: map<string, real>, budget: real)
    requires TableKeys(table) <= amounts.Keys
    requires forall i :: 0 <= i < |table| ==> amounts[table[i].0] == budget * table[i].1
    ensures AllocatedSum(table, amounts) == budget * FractionSum(table)
    decreases |table|
  {
    if table != [] {
      var n := |table| - 1;
      var prefix := table[..n];
      assert TableKeys(prefix) <= TableKeys(table) by {
        forall k | k in TableKeys(prefix) ensures k in TableKeys(table) {
          var i :| 0 <= i < n && prefix[i].0 == k;
          assert table[i].0 == k;
        }
      }
      assert forall i :: 0 <= i < n ==> prefix[i] == table[i];
      AllocatedSumScales(prefix, amounts, budget);
    }
  }

  /** Nothing of the budget is lost or invented by the split. */
  lemma AllocationSumsToBudget(budget: int)
    ensures AllocatedSum(BudgetAllocation, Allocate(budget)) == budget as real
  {
    var amounts := Allocate(budget);
    AllocatedSumScales(BudgetAllocation, amounts, budget as real);
    FractionsSumToOne();
  }
}
