/** `calculateReport` (App.tsx): totals, the per-category view and the paid
    percentage, computed over the whole list of bills. */
module Report {

  import Wrappers
  import opened Types
  import opened Sequences

  /** `totalProjetado`: the sum of the amounts of all bills, added up from the left. */
  function Total(data: seq<Boleto>): int
  {
    if data == [] then 0 else Total(data[..|data| - 1]) + data[|data| - 1].valor
  }

  /** The paid bills, in list order. */
  function PaidItems(data: seq<Boleto>): seq<Boleto>
  {
    if data == [] then []
    else PaidItems(data[..|data| - 1]) + (if data[|data| - 1].status == Pago then [data[|data| - 1]] else [])
  }

  function PendingItems(data: seq<Boleto>): seq<Boleto>
  {
    if data == [] then []
    else PendingItems(data[..|data| - 1]) + (if data[|data| - 1].status == Pendente then [data[|data| - 1]] else [])
  }

  /** `totalPago`: the sum over the paid bills. */
  function TotalPaid(data: seq<Boleto>): int
  {
    Total(PaidItems(data))
  }

  /** Every amount is zero or more. */
  predicate NonNegativeAmounts(data: seq<Boleto>)
  {
    forall i :: 0 <= i < |data| ==> data[i].valor >= 0
  }

  lemma {:induction false} TotalAppend(a: seq<Boleto>, b: seq<Boleto>)
    ensures Total(a + b) == Total(a) + Total(b)
    decreases |b|
  {
    if b == [] {
      assert a + b == a;
    } else {
      assert (a + b)[..|a + b| - 1] == a + b[..|b| - 1];
      TotalAppend(a, b[..|b| - 1]);
    }
  }

  lemma TotalSingleton(b: Boleto)
    ensures Total([b]) == b.valor
  {
    assert [b][..0] == [];
  }

  /** Leaving out the bill at position `k` takes its amount off the total. */
  lemma TotalWithout(data: seq<Boleto>, k: nat)
    requires k < |data|
    ensures Total(data[..k] + data[k + 1..]) == Total(data) - data[k].valor
  {
    SplitAt(data, k);
    TotalMiddle(data[..k], data[k], data[k + 1..]);
  }

  lemma TotalMiddle(pre: seq<Boleto>, b: Boleto, post: seq<Boleto>)
    ensures Total(pre + ([b] + post)) == Total(pre + post) + b.valor
  {
    TotalAppend(pre, [b] + post);
    TotalAppend([b], post);
    TotalSingleton(b);
    TotalAppend(pre, post);
  }

  lemma {:induction false} TotalNonNegative(data: seq<Boleto>)
    requires NonNegativeAmounts(data)
    ensures Total(data) >= 0
  {
    if data != [] {
      TotalNonNegative(data[..|data| - 1]);
    }
  }

  /** The paid total and the pending total add up to the projected total, so
      the "Saldo Pendente" card (`totalProjetado - totalPago`) is the sum over
      the pending bills. */
  lemma {:induction false} PaidPlusPendingIsTotal(data: seq<Boleto>)
    ensures TotalPaid(data) + Total(PendingItems(data)) == Total(data)
  {
    if data != [] {
      var init, last := data[..|data| - 1], data[|data| - 1];
      PaidPlusPendingIsTotal(init);
      TotalAppend(PaidItems(init), if last.status == Pago then [last] else []);
      TotalAppend(PendingItems(init), if last.status == Pendente then [last] else []);
      assert Total([last]) == last.valor by {
        assert [last][..0] == [];
      }
      assert Total([]) == 0;
    }
  }

  /** With no negative amount, nothing paid exceeds what is projected. */
  lemma TotalPaidAtMostTotal(data: seq<Boleto>)
    requires NonNegativeAmounts(data)
    ensures 0 <= TotalPaid(data) <= Total(data)
  {
    PaidPlusPendingIsTotal(data);
    PaidItemsAreItems(data);
    PendingItemsAreItems(data);
    TotalNonNegative(PaidItems(data));
    TotalNonNegative(PendingItems(data));
  }

  lemma {:induction false} PaidItemsAreItems(data: seq<Boleto>)
    ensures forall x :: x in PaidItems(data) <==> x in data && x.status == Pago
  {
    if data != [] {
      PaidItemsAreItems(data[..|data| - 1]);
      assert data == data[..|data| - 1] + [data[|data| - 1]];
    }
  }

  /** The paid filter keeps each paid bill as often as it occurs. */
  lemma {:induction false} PaidItemsCounts(data: seq<Boleto>)
    ensures forall x :: multiset(PaidItems(data))[x] == if x.status == Pago then multiset(data)[x] else 0
  {
    if data != [] {
      PaidItemsCounts(data[..|data| - 1]);
      assert data == data[..|data| - 1] + [data[|data| - 1]];
    }
  }

  lemma {:induction false} PendingItemsAreItems(data: seq<Boleto>)
    ensures forall x :: x in PendingItems(data) <==> x in data && x.status == Pendente
  {
    if data != [] {
      PendingItemsAreItems(data[..|data| - 1]);
      assert data == data[..|data| - 1] + [data[|data| - 1]];
    }
  }

  /** The keys of the `categoriasMap` accumulator in the order `Object.entries`
      lists them: each category once, in the order it is first met. */
  function Categories(data: seq<Boleto>): seq<string>
  {
    if data == [] then []
    else
      var keys := Categories(data[..|data| - 1]);
      var c := data[|data| - 1].categoria;
      if c in keys then keys else keys + [c]
  }

  /** The amount the accumulator holds for category `c`: the sum over the
      bills of that category. */
  function CategorySum(data: seq<Boleto>, c: string): int
  {
    if data == [] then 0
    else CategorySum(data[..|data| - 1], c) + (if data[|data| - 1].categoria == c then data[|data| - 1].valor else 0)
  }

  /** `visaoPorCategorias`: one (category, total) pair per key. */
  function CategoryView(data: seq<Boleto>): seq<CategoryTotal>
  {
    ViewOf(Categories(data), data)
  }

  function ViewOf(keys: seq<string>, data: seq<Boleto>): seq<CategoryTotal>
  {
    seq(|keys|, i requires 0 <= i < |keys| => CategoryTotal(keys[i], CategorySum(data, keys[i])))
  }

  function SumOfTotals(view: seq<CategoryTotal>): int
  {
    if view == [] then 0 else SumOfTotals(view[..|view| - 1]) + view[|view| - 1].total
  }

  /** Some bill of `data` has category `c`. */
  predicate HasCategory(data: seq<Boleto>, c: string)
  {
    exists k :: 0 <= k < |data| && data[k].categoria == c
  }

  /** Some line of `view` is for category `c`. */
  predicate ListsCategory(view: seq<CategoryTotal>, c: string)
  {
    exists i :: 0 <= i < |view| && view[i].categoria == c
  }

  /** A category is listed exactly when some bill has it, and none is listed twice. */
  lemma {:induction false} CategoriesAreTheInputCategories(data: seq<Boleto>)
    ensures forall c :: c in Categories(data) <==> HasCategory(data, c)
    ensures Distinct(Categories(data))
  {
    if data != [] {
      var init := data[..|data| - 1];
      CategoriesAreTheInputCategories(init);
      forall c ensures c in Categories(data) <==> HasCategory(data, c) {
        if HasCategory(init, c) {
          var k :| 0 <= k < |init| && init[k].categoria == c;
          assert data[k].categoria == c;
        }
        if HasCategory(data, c) {
          var k :| 0 <= k < |data| && data[k].categoria == c;
          if k < |init| {
            assert init[k].categoria == c;
          }
        }
      }
    }
  }

  /** First-encounter order: the keys met in any prefix of the list are a
      prefix of the keys of the whole list. */
  lemma {:induction false} CategoriesOfPrefix(data: seq<Boleto>, n: nat)
    requires n <= |data|
    ensures Categories(data[..n]) <= Categories(data)
    decreases |data| - n
  {
    if n < |data| {
      CategoriesOfPrefix(data, n + 1);
      assert data[..n + 1][..n] == data[..n];
    } else {
      assert data[..n] == data;
    }
  }

  /** A category no bill has sums to zero. */
  lemma {:induction false} CategorySumAbsent(data: seq<Boleto>, c: string)
    requires c !in Categories(data)
    ensures CategorySum(data, c) == 0
  {
    if data != [] {
      var init := data[..|data| - 1];
      assert Categories(init) <= Categories(data) by {
        CategoriesOfPrefix(data, |data| - 1);
      }
      CategorySumAbsent(init, c);
    }
  }

  function SumOver(keys: seq<string>, data: seq<Boleto>): int
  {
    if keys == [] then 0 else SumOver(keys[..|keys| - 1], data) + CategorySum(data, keys[|keys| - 1])
  }

  /** Adding one bill adds its amount to the sum over distinct keys exactly
      when its category is among them. */
  lemma {:induction false} SumOverSnoc(keys: seq<string>, data: seq<Boleto>, b: Boleto)
    requires Distinct(keys)
    ensures SumOver(keys, data + [b]) == SumOver(keys, data) + (if b.categoria in keys then b.valor else 0)
  {
    if keys != [] {
      var init := keys[..|keys| - 1];
      assert Distinct(init);
      SumOverSnoc(init, data, b);
      assert (data + [b])[..|data + [b]| - 1] == data;
      assert keys == init + [keys[|keys| - 1]];
      assert b.categoria in keys <==> b.categoria in init || b.categoria == keys[|keys| - 1];
      assert keys[|keys| - 1] !in init;
    }
  }

  lemma {:induction false} SumOverIsTotal(data: seq<Boleto>)
    ensures SumOver(Categories(data), data) == Total(data)
  {
    if data != [] {
      var init, b := data[..|data| - 1], data[|data| - 1];
      var keys := Categories(init);
      SumOverIsTotal(init);
      assert data == init + [b];
      assert Distinct(keys) by { CategoriesAreTheInputCategories(init); }
      SumOverSnoc(keys, init, b);
      assert Total(data) == Total(init) + b.valor;
      if b.categoria !in keys {
        var c := b.categoria;
        assert CategorySum(init, c) == 0 by { CategorySumAbsent(init, c); }
        assert CategorySum(data, c) == CategorySum(init, c) + b.valor;
        assert (keys + [c])[..|keys|] == keys;
        assert SumOver(keys + [c], data) == SumOver(keys, data) + CategorySum(data, c);
      }
    }
  }

  lemma {:induction false} SumOfViewIsSumOver(keys: seq<string>, data: seq<Boleto>)
    ensures SumOfTotals(ViewOf(keys, data)) == SumOver(keys, data)
  {
    if keys != [] {
      var init := keys[..|keys| - 1];
      SumOfViewIsSumOver(init, data);
      assert ViewOf(keys, data)[..|keys| - 1] == ViewOf(init, data);
    }
  }

  /** What the per-category view promises: each category of the input is
      listed exactly once, with the sum over the bills of that category, and
      the listed totals add up to the projected total. */
  lemma CategoryViewIsPartition(data: seq<Boleto>)
    ensures forall c :: ListsCategory(CategoryView(data), c) <==> HasCategory(data, c)
    ensures forall i, j :: 0 <= i < j < |CategoryView(data)| ==> CategoryView(data)[i].categoria != CategoryView(data)[j].categoria
    ensures forall i :: 0 <= i < |CategoryView(data)| ==> CategoryView(data)[i].total == CategorySum(data, CategoryView(data)[i].categoria)
    ensures SumOfTotals(CategoryView(data)) == Total(data)
  {
    var keys := Categories(data);
    var view := CategoryView(data);
    CategoriesAreTheInputCategories(data);
    forall c ensures ListsCategory(view, c) <==> c in keys {
      if c in keys {
        var i :| 0 <= i < |keys| && keys[i] == c;
        assert view[i].categoria == c;
      }
    }
    SumOfViewIsSumOver(keys, data);
    SumOverIsTotal(data);
  }

  /** `percentualLiquidado`: zero unless the projected total is positive
      (which covers the empty list), otherwise paid over projected times 100. */
  function PaidPercentage(totalPago: int, totalProjetado: int): (r: real)
    ensures totalProjetado <= 0 ==> r == 0.0
    ensures totalProjetado > 0 ==> r * totalProjetado as real == totalPago as real * 100.0
    ensures 0 <= totalPago <= totalProjetado ==> 0.0 <= r <= 100.0
  {
    if totalProjetado > 0 then (totalPago as real / totalProjetado as real) * 100.0 else 0.0
  }

  /** The `categoriasMap` reduce: one pass that adds each amount to its
      category's entry, inserting the key on first sight. The JavaScript
      object is the pair (`keys` in insertion order, `acc`). */
  method BuildCategoryView(data: seq<Boleto>) returns (view: seq<CategoryTotal>)
    ensures view == CategoryView(data)
  {
    var keys: seq<string> := [];
    var acc: map<string, int> := map[];
    var i := 0;
    while i < |data|
      invariant 0 <= i <= |data|
      invariant keys == Categories(data[..i])
      invariant forall k :: k in acc <==> k in keys
      invariant forall k :: k in acc ==> acc[k] == CategorySum(data[..i], k)
    {
      var b := data[i];
      assert data[..i + 1][..i] == data[..i];
      forall k ensures CategorySum(data[..i + 1], k) == CategorySum(data[..i], k) + (if b.categoria == k then b.valor else 0) {
      }
      if b.categoria !in acc {
        CategorySumAbsent(data[..i], b.categoria);
      }
      acc := acc[b.categoria := (if b.categoria in acc then acc[b.categoria] else 0) + b.valor];
      if b.categoria !in keys {
        keys := keys + [b.categoria];
      }
      i := i + 1;
    }
    assert data[..i] == data;
    view := seq(|keys|, j requires 0 <= j < |keys| => CategoryTotal(keys[j], acc[keys[j]]));
  }

  /** `calculateReport(data)`. */
  method CalculateReport(data: seq<Boleto>) returns (r: MacroReport)
    ensures r.totalProjetado == Total(data)
    ensures r.totalPago == TotalPaid(data)
    ensures r.visaoPorCategorias == CategoryView(data)
    ensures SumOfTotals(r.visaoPorCategorias) == r.totalProjetado
    ensures r.percentualLiquidado == PaidPercentage(r.totalPago, r.totalProjetado)
    ensures r.totalProjetado <= 0 ==> r.percentualLiquidado == 0.0
    ensures NonNegativeAmounts(data) ==> 0.0 <= r.percentualLiquidado <= 100.0
  {
    var totalProjetado := Total(data);
    var totalPago := TotalPaid(data);
    var view := BuildCategoryView(data);
    CategoryViewIsPartition(data);
    if NonNegativeAmounts(data) {
      TotalPaidAtMostTotal(data);
    }
    r := MacroReport(view, totalProjetado, totalPago, PaidPercentage(totalPago, totalProjetado));
  }

  /** A bill with only the fields the report reads set. */
  function Sample(id: string, categoria: string, valor: int, status: PaymentStatus): Boleto
  {
    Boleto(id, Wrappers.None, "", categoria, Wrappers.None, valor, "2026-01-10", Wrappers.None, status, "", Wrappers.None)
  }

  /** The bills of the worked example: 100.00 and 50.00 (paid) in "Saúde",
      25.00 in "Lazer". */
  function ExampleBills(): seq<Boleto>
  {
    [Sample("1", "Saúde", 10000, Pendente), Sample("2", "Saúde", 5000, Pago), Sample("3", "Lazer", 2500, Pendente)]
  }

  lemma ExampleTotals()
    ensures Total(ExampleBills()) == 17500
    ensures TotalPaid(ExampleBills()) == 5000
  {
    var b1, b2 := Sample("1", "Saúde", 10000, Pendente), Sample("2", "Saúde", 5000, Pago);
    var data := ExampleBills();
    assert data == [b1, b2, data[2]];
    assert data[..2] == [b1, b2] && [b1, b2][..1] == [b1] && [b1][..0] == [];
    assert Total([b1]) == 10000 && Total([b1, b2]) == 15000;
    assert PaidItems([b1]) == PaidItems([b1][..0]) + [] == [];
    assert PaidItems([b1, b2]) == PaidItems([b1, b2][..1]) + [b2] == [b2];
    assert PaidItems(data) == PaidItems(data[..2]) + [] == [b2];
    assert [b2][..0] == [];
  }

  lemma ExampleCategories()
    ensures Categories(ExampleBills()) == ["Saúde", "Lazer"]
  {
    var b1, b2 := Sample("1", "Saúde", 10000, Pendente), Sample("2", "Saúde", 5000, Pago);
    var data := ExampleBills();
    assert data == [b1, b2, data[2]];
    assert data[..2] == [b1, b2] && [b1, b2][..1] == [b1] && [b1][..0] == [];
    assert "Saúde" != "Lazer";
    assert Categories([b1]) == ["Saúde"];
    assert Categories([b1, b2]) == ["Saúde"];
  }

  lemma ExampleSums()
    ensures CategorySum(ExampleBills(), "Saúde") == 15000
    ensures CategorySum(ExampleBills(), "Lazer") == 2500
  {
    var b1, b2 := Sample("1", "Saúde", 10000, Pendente), Sample("2", "Saúde", 5000, Pago);
    var data := ExampleBills();
    assert data == [b1, b2, data[2]];
    assert data[..2] == [b1, b2] && [b1, b2][..1] == [b1] && [b1][..0] == [];
    assert "Saúde" != "Lazer";
    assert CategorySum([b1][..0], "Lazer") == 0 && CategorySum([b1][..0], "Saúde") == 0;
    assert CategorySum([b1], "Saúde") == 10000 && CategorySum([b1], "Lazer") == 0;
    assert CategorySum([b1, b2], "Saúde") == 15000 && CategorySum([b1, b2], "Lazer") == 0;
  }

  /** The worked scenario: 175.00 projected, 50.00 paid, about
      28.57 percent, and the view [Saúde: 150.00, Lazer: 25.00] in that order. */
  lemma ReportExample()
    ensures var data := ExampleBills();
            && Total(data) == 17500
            && TotalPaid(data) == 5000
            && CategoryView(data) == [CategoryTotal("Saúde", 15000), CategoryTotal("Lazer", 2500)]
            && PaidPercentage(TotalPaid(data), Total(data)) == 200.0 / 7.0
  {
    ExampleTotals();
    ExampleCategories();
    ExampleSums();
    assert PaidPercentage(5000, 17500) == 200.0 / 7.0;
  }
}
