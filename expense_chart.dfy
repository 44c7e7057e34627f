/** The expense chart: the expense transactions folded into one entry per
    category, in the order the categories first appear, then drawn as pie
    slices coloured from a fixed eight-colour palette, or an empty-state
    message when there is nothing to draw. */
module ExpenseChart {
  import opened Records
  import opened Lists
  import opened Summary

  /** One element of `categoryData`. */
  datatype CategoryTotal = CategoryTotal(category: string, amount: real)

  function EntryAmount(e: CategoryTotal): real { e.amount }

  /** `transactions.filter(t => t.type === 'expense')` */
  function Expenses(txs: seq<Transaction>): seq<Transaction>
  {
    OfKind(txs, Expense)
  }

  /** `acc.find(item => item.category === c)`, as the index of the first
      entry with that category. */
  function IndexOfCategory(acc: seq<CategoryTotal>, c: string): (r: Option<nat>)
    ensures r.Some? ==> r.value < |acc| && acc[r.value].category == c
    ensures r.Some? ==> forall j :: 0 <= j < r.value ==> acc[j].category != c
    ensures r.None? <==> forall j :: 0 <= j < |acc| ==> acc[j].category != c
  {
    if acc == [] then None
    else if acc[0].category == c then Some(0)
    else match IndexOfCategory(acc[1..], c)
      case None => None
      case Some(k) => Some(k + 1)
  }

  /** One step of the reduce: add to the entry of the transaction's
      category, or push a new entry for it. */
  function Accumulate(acc: seq<CategoryTotal>, t: Transaction): seq<CategoryTotal>
  {
    match IndexOfCategory(acc, t.category)
    case Some(j) => acc[j := CategoryTotal(acc[j].category, acc[j].amount + t.amount)]
    case None => acc + [CategoryTotal(t.category, t.amount)]
  }

  /** The reduce, from the empty accumulator, as a left fold. */
  function Group(es: seq<Transaction>): seq<CategoryTotal>
  {
    if es == [] then [] else Accumulate(Group(es[..|es| - 1]), es[|es| - 1])
  }

  /** `categoryData` */
  function CategoryData(txs: seq<Transaction>): seq<CategoryTotal>
  {
    Group(Expenses(txs))
  }

  // ---------------------------------------------------------------------
  // Reference definitions the grouping is proved against

  predicate DistinctCategories(r: seq<CategoryTotal>)
  {
    forall i, j :: 0 <= i < j < |r| ==> r[i].category != r[j].category
  }

  function CategoriesOf(r: seq<CategoryTotal>): set<string>
  {
    set i | 0 <= i < |r| :: r[i].category
  }

  function CategoriesIn(es: seq<Transaction>): set<string>
  {
    set i | 0 <= i < |es| :: es[i].category
  }

  /** Sum of the amounts of the transactions in `es` whose category is `c`. */
  function CategorySum(es: seq<Transaction>, c: string): real
  {
    if es == [] then 0.0
    else CategorySum(es[..|es| - 1], c)
         + (if es[|es| - 1].category == c then es[|es| - 1].amount else 0.0)
  }

  /** Position of the first transaction of category `c`, or |es| if none. */
  function FirstIndex(es: seq<Transaction>, c: string): (k: nat)
    ensures k <= |es|
    ensures forall j :: 0 <= j < k ==> es[j].category != c
    ensures k < |es| ==> es[k].category == c
  {
    if es == [] then 0
    else if es[0].category == c then 0
    else 1 + FirstIndex(es[1..], c)
  }

  // ---------------------------------------------------------------------
  // One step of the fold

  lemma CategoriesInSnoc(es: seq<Transaction>, t: Transaction)
    ensures CategoriesIn(es + [t]) == CategoriesIn(es) + {t.category}
  {
    var e := es + [t];
    forall c | c in CategoriesIn(e) ensures c in CategoriesIn(es) + {t.category} {
      var i :| 0 <= i < |e| && e[i].category == c;
      if i < |es| { assert es[i].category == c; }
    }
    forall c | c in CategoriesIn(es) + {t.category} ensures c in CategoriesIn(e) {
      if c in CategoriesIn(es) {
        var i :| 0 <= i < |es| && es[i].category == c;
        assert e[i].category == c;
      } else {
        assert e[|es|].category == c;
      }
    }
  }

  lemma CategorySumSnoc(es: seq<Transaction>, t: Transaction, c: string)
    ensures CategorySum(es + [t], c) == CategorySum(es, c) + (if t.category == c then t.amount else 0.0)
  {
    assert (es + [t])[..|es|] == es;
  }

  lemma {:induction false} CategorySumAbsent(es: seq<Transaction>, c: string)
    requires c !in CategoriesIn(es)
    ensures CategorySum(es, c) == 0.0
    decreases |es|
  {
    if es != [] {
      var p := es[..|es| - 1];
      assert CategoriesIn(p) <= CategoriesIn(es) by {
        forall x | x in CategoriesIn(p) ensures x in CategoriesIn(es) {
          var i :| 0 <= i < |p| && p[i].category == x;
          assert es[i].category == x;
        }
      }
      assert es[|es| - 1].category in CategoriesIn(es);
      CategorySumAbsent(p, c);
    }
  }

  lemma FirstIndexSnoc(es: seq<Transaction>, t: Transaction, c: string)
    ensures c in CategoriesIn(es) ==> FirstIndex(es + [t], c) == FirstIndex(es, c) < |es|
    ensures c !in CategoriesIn(es) && t.category == c ==> FirstIndex(es + [t], c) == |es|
  {
    var e := es + [t];
    var k, k' := FirstIndex(es, c), FirstIndex(e, c);
    if c in CategoriesIn(es) {
      var i :| 0 <= i < |es| && es[i].category == c;
      assert k <= i;
      assert forall j :: 0 <= j < |es| ==> e[j] == es[j];
    } else if t.category == c {
      assert e[|es|] == t;
      assert forall j :: 0 <= j < |es| ==> e[j] == es[j] && es[j].category in CategoriesIn(es);
    }
  }

  /** The grouping invariant of the reduce, for a prefix `es` of the
      expenses: one entry per category seen, in order of first appearance,
      each holding its category's sum. */
  ghost predicate GroupedBy(r: seq<CategoryTotal>, es: seq<Transaction>)
  {
    && DistinctCategories(r)
    && CategoriesOf(r) == CategoriesIn(es)
    && (forall i :: 0 <= i < |r| ==> r[i].amount == CategorySum(es, r[i].category))
    && (forall i, j :: 0 <= i < j < |r| ==>
          FirstIndex(es, r[i].category) < FirstIndex(es, r[j].category))
  }

  /** The accumulator's categories stay distinct and track the categories
      seen so far. */
  lemma AccumulateCategories(acc: seq<CategoryTotal>, es: seq<Transaction>, t: Transaction)
    requires DistinctCategories(acc) && CategoriesOf(acc) == CategoriesIn(es)
    ensures var r := Accumulate(acc, t);
      DistinctCategories(r) && CategoriesOf(r) == CategoriesIn(es + [t])
  {
    var r := Accumulate(acc, t);
    var c := t.category;
    CategoriesInSnoc(es, t);
    match IndexOfCategory(acc, c)
    case Some(j) =>
      assert forall i :: 0 <= i < |r| ==> r[i].category == acc[i].category;
      assert CategoriesOf(r) == CategoriesOf(acc);
      assert c in CategoriesOf(acc);
    case None =>
      assert r == acc + [CategoryTotal(c, t.amount)];
      forall x | x in CategoriesOf(r) ensures x in CategoriesOf(acc) + {c} {
        var i :| 0 <= i < |r| && r[i].category == x;
        if i < |acc| { assert acc[i].category == x; }
      }
      forall x | x in CategoriesOf(acc) + {c} ensures x in CategoriesOf(r) {
        if x == c {
          assert r[|acc|].category == x;
        } else {
          var i :| 0 <= i < |acc| && acc[i].category == x;
          assert r[i].category == x;
        }
      }
  }

  /** Each entry keeps holding the sum of its category. */
  lemma AccumulateAmounts(acc: seq<CategoryTotal>, es: seq<Transaction>, t: Transaction)
    requires DistinctCategories(acc) && CategoriesOf(acc) == CategoriesIn(es)
    requires forall i :: 0 <= i < |acc| ==> acc[i].amount == CategorySum(es, acc[i].category)
    ensures var r := Accumulate(acc, t);
      forall i :: 0 <= i < |r| ==> r[i].amount == CategorySum(es + [t], r[i].category)
  {
    var r := Accumulate(acc, t);
    var c := t.category;
    forall i | 0 <= i < |acc|
      ensures CategorySum(es + [t], acc[i].category)
              == CategorySum(es, acc[i].category) + (if c == acc[i].category then t.amount else 0.0)
    {
      CategorySumSnoc(es, t, acc[i].category);
    }
    match IndexOfCategory(acc, c)
    case Some(j) =>
    case None =>
      assert c !in CategoriesOf(acc);
      CategorySumSnoc(es, t, c);
      CategorySumAbsent(es, c);
      assert r[|acc|] == CategoryTotal(c, t.amount);
  }

  /** Entries stay in the order their categories first appeared. */
  lemma AccumulateOrder(acc: seq<CategoryTotal>, es: seq<Transaction>, t: Transaction)
    requires CategoriesOf(acc) == CategoriesIn(es)
    requires forall i, j :: 0 <= i < j < |acc| ==>
      FirstIndex(es, acc[i].category) < FirstIndex(es, acc[j].category)
    ensures var r := Accumulate(acc, t);
      forall i, j :: 0 <= i < j < |r| ==>
        FirstIndex(es + [t], r[i].category) < FirstIndex(es + [t], r[j].category)
  {
    var r := Accumulate(acc, t);
    var c := t.category;
    var e := es + [t];
    forall i | 0 <= i < |acc|
      ensures FirstIndex(e, acc[i].category) == FirstIndex(es, acc[i].category) < |es|
    {
      assert acc[i].category in CategoriesOf(acc);
      FirstIndexSnoc(es, t, acc[i].category);
    }
    match IndexOfCategory(acc, c)
    case Some(k) =>
      forall i, j | 0 <= i < j < |r|
        ensures FirstIndex(e, r[i].category) < FirstIndex(e, r[j].category)
      {
        assert r[i].category == acc[i].category && r[j].category == acc[j].category;
      }
    case None =>
      assert c !in CategoriesOf(acc);
      FirstIndexSnoc(es, t, c);
      forall i, j | 0 <= i < j < |r|
        ensures FirstIndex(e, r[i].category) < FirstIndex(e, r[j].category)
      {
        assert r[i] == acc[i];
        if j == |acc| {
          assert r[j].category == c;
        } else {
          assert r[j] == acc[j];
        }
      }
  }

  lemma AccumulateKeepsGrouping(acc: seq<CategoryTotal>, es: seq<Transaction>, t: Transaction)
    requires GroupedBy(acc, es)
    ensures GroupedBy(Accumulate(acc, t), es + [t])
  {
    AccumulateCategories(acc, es, t);
    AccumulateAmounts(acc, es, t);
    AccumulateOrder(acc, es, t);
  }

  lemma {:induction false} GroupIsGrouped(es: seq<Transaction>)
    ensures GroupedBy(Group(es), es)
    decreases |es|
  {
    if es != [] {
      var p, t := es[..|es| - 1], es[|es| - 1];
      GroupIsGrouped(p);
      AccumulateKeepsGrouping(Group(p), p, t);
      assert p + [t] == es;
    }
  }

  /** A step of the fold adds the transaction's amount to the entries' total. */
  lemma AccumulateSum(acc: seq<CategoryTotal>, t: Transaction)
    ensures Sum(Accumulate(acc, t), EntryAmount) == Sum(acc, EntryAmount) + t.amount
  {
    match IndexOfCategory(acc, t.category)
    case Some(j) =>
      SumUpdate(acc, j, CategoryTotal(acc[j].category, acc[j].amount + t.amount), EntryAmount);
    case None =>
      var e := CategoryTotal(t.category, t.amount);
      assert (acc + [e])[..|acc|] == acc;
  }

  lemma {:induction false} GroupConservesTotal(es: seq<Transaction>)
    ensures Sum(Group(es), EntryAmount) == Sum(es, Amount)
    decreases |es|
  {
    if es != [] {
      var p, t := es[..|es| - 1], es[|es| - 1];
      GroupConservesTotal(p);
      AccumulateSum(Group(p), t);
    }
  }

  // ---------------------------------------------------------------------
  // What the chart data promises

  /** Only expense transactions reach the chart: an income transaction
      anywhere in the list changes nothing. */
  lemma IncomeDoesNotAffectChart(a: seq<Transaction>, t: Transaction, b: seq<Transaction>)
    requires t.kind == Income
    ensures CategoryData(a + [t] + b) == CategoryData(a + b)
  {
    assert OfKind([t], Expense) == [];
    assert Expenses(a + [t] + b) == Expenses(a + b) by {
      OfKindConcat(a + [t], b, Expense);
      OfKindConcat(a, [t], Expense);
      OfKindConcat(a, b, Expense);
      assert OfKind(a + [t], Expense) == OfKind(a, Expense);
    }
  }

  /** The chart data has exactly one entry per category among the expense
      transactions, in order of first appearance, and each entry's amount
      is the sum of that category's expenses. */
  lemma CategoryDataIsGrouping(txs: seq<Transaction>)
    ensures var r, es := CategoryData(txs), Expenses(txs);
      && (forall i, j :: 0 <= i < j < |r| ==> r[i].category != r[j].category)
      && CategoriesOf(r) == CategoriesIn(es)
      && (forall i :: 0 <= i < |r| ==> r[i].amount == CategorySum(es, r[i].category))
      && (forall i, j :: 0 <= i < j < |r| ==>
            FirstIndex(es, r[i].category) < FirstIndex(es, r[j].category))
  {
    GroupIsGrouped(Expenses(txs));
  }

  /** The categories of the chart are those of the expense transactions. */
  lemma CategoryDataCategories(txs: seq<Transaction>, c: string)
    ensures c in CategoriesOf(CategoryData(txs)) <==>
      exists i :: 0 <= i < |txs| && txs[i].kind == Expense && txs[i].category == c
  {
    var es := Expenses(txs);
    GroupIsGrouped(es);
    if c in CategoriesIn(es) {
      var k :| 0 <= k < |es| && es[k].category == c;
      assert es[k] in txs;
    }
    if exists i :: 0 <= i < |txs| && txs[i].kind == Expense && txs[i].category == c {
      var i :| 0 <= i < |txs| && txs[i].kind == Expense && txs[i].category == c;
      assert txs[i] in es;
    }
  }

  /** The slices add up to the summary's total expenses. */
  lemma CategoryDataMatchesTotalExpenses(txs: seq<Transaction>)
    ensures Sum(CategoryData(txs), EntryAmount) == TotalExpenses(txs)
  {
    GroupConservesTotal(Expenses(txs));
  }

  /** The chart data is empty exactly when there is no expense transaction. */
  lemma CategoryDataEmpty(txs: seq<Transaction>)
    ensures CategoryData(txs) == [] <==> forall t :: t in txs ==> t.kind != Expense
  {
    var es := Expenses(txs);
    GroupIsGrouped(es);
    if es != [] {
      assert es[0].category in CategoriesIn(es);
      assert es[0] in txs;
    }
    if CategoryData(txs) != [] {
      assert CategoryData(txs)[0].category in CategoriesOf(CategoryData(txs));
    }
  }

  // ---------------------------------------------------------------------
  // The component

  const Palette: seq<string> :=
    ["#8884d8", "#82ca9d", "#ffc658", "#ff7c7c", "#8dd1e1", "#d084d0", "#ffb347", "#87ceeb"]

  /** `colors[index % colors.length]`: always one of the eight colours. */
  function CellColour(index: nat): (colour: string)
    ensures colour in Palette
  {
    Palette[index % |Palette|]
  }

  datatype Slice = Slice(category: string, amount: real, colour: string)

  /** What the component renders. */
  datatype ChartView = NoExpenseData | PieChart(slices: seq<Slice>)

  /** `acc.find(...)` over the accumulator. */
  method FindCategory(acc: seq<CategoryTotal>, c: string) returns (found: Option<nat>)
    ensures found == IndexOfCategory(acc, c)
  {
    var k := 0;
    while k < |acc|
      invariant 0 <= k <= |acc|
      invariant forall j :: 0 <= j < k ==> acc[j].category != c
    {
      if acc[k].category == c {
        return Some(k);
      }
      k := k + 1;
    }
    return None;
  }

  /** The `reduce` that builds `categoryData`, growing and updating the
      accumulator in place one expense at a time. */
  method GroupByCategory(expenses: seq<Transaction>) returns (acc: seq<CategoryTotal>)
    ensures acc == Group(expenses)
  {
    acc := [];
    var n := 0;
    while n < |expenses|
      invariant 0 <= n <= |expenses|
      invariant acc == Group(expenses[..n])
    {
      var t := expenses[n];
      var existing := FindCategory(acc, t.category);
      match existing {
        case Some(j) =>
          acc := acc[j := CategoryTotal(acc[j].category, acc[j].amount + t.amount)];
        case None =>
          acc := acc + [CategoryTotal(t.category, t.amount)];
      }
      assert expenses[..n + 1][..n] == expenses[..n];
      n := n + 1;
    }
    assert expenses[..n] == expenses;
  }

  /** The component: the empty-state message when there is no expense,
      otherwise one slice per category entry, coloured by its position. */
  method Render(transactions: seq<Transaction>) returns (view: ChartView)
    ensures view.NoExpenseData? <==> forall t :: t in transactions ==> t.kind != Expense
    ensures view.PieChart? ==>
      var data := CategoryData(transactions);
      && |view.slices| == |data|
      && forall i :: 0 <= i < |data| ==>
           && view.slices[i].category == data[i].category
           && view.slices[i].amount == data[i].amount
           && view.slices[i].colour == CellColour(i)
  {
    var expenses := Expenses(transactions);
    var categoryData := GroupByCategory(expenses);
    CategoryDataEmpty(transactions);
    if |categoryData| == 0 {
      view := NoExpenseData;
    } else {
      var slices := seq(|categoryData|, i requires 0 <= i < |categoryData| =>
        Slice(categoryData[i].category, categoryData[i].amount, CellColour(i)));
      view := PieChart(slices);
    }
  }
}
