/** The calorie table and the total-calorie loop. */
module Calories {
  import opened Types
  import opened Quantities

  /** `float(...)` of the selected column raises unless exactly one row matched. */
  datatype LookupError = NotExactlyOneRow(name: string)

  /** The list `food_list`: the navn column in table order. */
  function FoodList(table: seq<Row>): (names: seq<string>)
    ensures |names| == |table|
    ensures forall i :: 0 <= i < |table| ==> names[i] == table[i].navn
    ensures forall name :: name in names <==> Named(table, name)
  {
    seq(|table|, i requires 0 <= i < |table| => table[i].navn)
  }

  /** No food is named by two rows. */
  predicate UniqueNames(table: seq<Row>)
  {
    Distinct(FoodList(table))
  }

  /** Some row is named `name` and has `kcal100` kcal per 100 g. */
  ghost predicate RowOf(table: seq<Row>, name: string, kcal100: real)
  {
    exists i :: 0 <= i < |table| && table[i].navn == name && table[i].kcal100 == kcal100
  }

  ghost predicate Named(table: seq<Row>, name: string)
  {
    exists i :: 0 <= i < |table| && table[i].navn == name
  }

  ghost predicate NamedTwice(table: seq<Row>, name: string)
  {
    exists i, j :: 0 <= i < j < |table| && table[i].navn == name && table[j].navn == name
  }

  /** Exactly one row is named `name`: the case where `float(...)` succeeds. */
  ghost predicate OneRow(table: seq<Row>, name: string)
  {
    Named(table, name) && !NamedTwice(table, name)
  }

  /** The kcal_pr_100g values of the rows whose navn is `name`, in table order. */
  function Matching(table: seq<Row>, name: string): (m: seq<real>)
    ensures Named(table, name) <==> |m| > 0
    ensures forall x :: x in m ==> RowOf(table, name, x)
    ensures NamedTwice(table, name) <==> |m| >= 2
  {
    if table == [] then []
    else
      var rest := Matching(table[1..], name);
      assert forall i :: 1 <= i < |table| ==> table[i] == table[1..][i - 1];
      if table[0].navn == name then [table[0].kcal100] + rest else rest
  }

  /** The kcal per 100 g of `name`: the value of its row, or an error when no
      row or more than one row has that name. */
  function Lookup(table: seq<Row>, name: string): (r: Result<real, LookupError>)
    ensures r.Ok? ==> RowOf(table, name, r.value)
    ensures r.Ok? <==> OneRow(table, name)
    ensures r.Err? ==> r.error == NotExactlyOneRow(name)
  {
    var m := Matching(table, name);
    if |m| == 1 then assert m[0] in m; Ok(m[0]) else Err(NotExactlyOneRow(name))
  }

  /** With each food named by one row, every food of `food_list` is found. */
  lemma LookupFoodList(table: seq<Row>, name: string)
    requires UniqueNames(table) && name in FoodList(table)
    ensures Lookup(table, name).Ok?
  {
  }

  /** The calories of `gram` grams of a food with `kcal100` kcal per 100 g. */
  function Kcal(gram: int, kcal100: real): (c: real)
    ensures gram == 100 ==> c == kcal100
    ensures InRange(gram) && 0.0 <= kcal100 ==> 0.0 <= c <= 20.0 * kcal100
  {
    var g := gram as real;
    assert InRange(gram) && 0.0 <= kcal100 ==> 0.0 <= g * kcal100 <= 2000.0 * kcal100;
    g * kcal100 / 100.0
  }

  /** The value of `total` after the loop has walked the keys `order` of the
      quantities, or the error of the first key whose lookup fails. */
  function Total(table: seq<Row>, order: seq<string>, grams: map<string, int>): (r: Result<real, LookupError>)
    requires forall k :: k in order ==> k in grams
    ensures r.Err? ==> r.error.name in order
  {
    if order == [] then Ok(0.0)
    else
      var n := |order| - 1;
      match Total(table, order[..n], grams)
      case Err(e) => Err(e)
      case Ok(t) =>
        match Lookup(table, order[n])
        case Err(e) => Err(e)
        case Ok(k) => Ok(t + Kcal(grams[order[n]], k))
  }

  /** The walk succeeds exactly when every key has a unique row. */
  lemma {:induction false} TotalOkIff(table: seq<Row>, order: seq<string>, grams: map<string, int>)
    requires forall k :: k in order ==> k in grams
    ensures Total(table, order, grams).Ok? <==> forall i :: 0 <= i < |order| ==> Lookup(table, order[i]).Ok?
  {
    if order != [] {
      var n := |order| - 1;
      TotalOkIff(table, order[..n], grams);
      assert forall i :: 0 <= i < n ==> order[..n][i] == order[i];
    }
  }

  /** The walk succeeds exactly when every key is named by exactly one row. */
  lemma TotalOkIffOneRow(table: seq<Row>, order: seq<string>, grams: map<string, int>)
    requires forall k :: k in order ==> k in grams
    ensures Total(table, order, grams).Ok? <==> forall i :: 0 <= i < |order| ==> OneRow(table, order[i])
  {
    TotalOkIff(table, order, grams);
    forall i | 0 <= i < |order|
      ensures Lookup(table, order[i]).Ok? <==> OneRow(table, order[i])
    {
    }
  }

  /** Once the walk has failed on a prefix, the whole walk fails with that error. */
  lemma {:induction false} TotalErrPersists(table: seq<Row>, order: seq<string>, grams: map<string, int>, i: int)
    requires forall k :: k in order ==> k in grams
    requires 0 <= i <= |order|
    requires Total(table, order[..i], grams).Err?
    ensures Total(table, order, grams) == Total(table, order[..i], grams)
  {
    if i < |order| {
      var n := |order| - 1;
      assert order[..n][..i] == order[..i];
      TotalErrPersists(table, order[..n], grams, i);
      TotalErrLast(table, order, grams);
    } else {
      assert order[..i] == order;
    }
  }

  /** A walk whose prefix failed fails with the same error. */
  lemma TotalErrLast(table: seq<Row>, order: seq<string>, grams: map<string, int>)
    requires forall k :: k in order ==> k in grams
    requires order != [] && Total(table, order[..|order| - 1], grams).Err?
    ensures Total(table, order, grams) == Total(table, order[..|order| - 1], grams)
  {
  }

  /** A failed walk raises the error of the first key without a unique row. */
  lemma TotalFirstError(table: seq<Row>, order: seq<string>, grams: map<string, int>, i: int)
    requires forall k :: k in order ==> k in grams
    requires 0 <= i < |order| && Lookup(table, order[i]).Err?
    requires forall j :: 0 <= j < i ==> Lookup(table, order[j]).Ok?
    ensures Total(table, order, grams) == Lookup(table, order[i])
  {
    var pre := order[..i + 1];
    assert pre[..i] == order[..i];
    TotalOkIff(table, order[..i], grams);
    assert Total(table, pre, grams) == Lookup(table, order[i]);
    TotalErrPersists(table, order, grams, i + 1);
  }

  /** One step of the walk: a successful total is the total of all keys but
      the last, plus the calories of the last. */
  lemma TotalLast(table: seq<Row>, order: seq<string>, grams: map<string, int>)
    requires forall k :: k in order ==> k in grams
    requires order != [] && Total(table, order, grams).Ok?
    ensures Total(table, order[..|order| - 1], grams).Ok?
    ensures Lookup(table, order[|order| - 1]).Ok?
    ensures Total(table, order, grams).value ==
      Total(table, order[..|order| - 1], grams).value + Kcal(grams[order[|order| - 1]], Lookup(table, order[|order| - 1]).value)
  {
  }

  /** A dict holding one food L with G grams totals G * kcal(L) / 100. */
  lemma TotalOfOneKey(table: seq<Row>, l: string, g: int)
    requires OneRow(table, l)
    ensures Total(table, [l], map[l := g]).Ok?
    ensures Total(table, [l], map[l := g]).value == g as real * Lookup(table, l).value / 100.0
  {
    assert [l][..0] == [];
  }

  /** With non-negative kcal values and positive grams, a successful total is
      never negative. */
  lemma {:induction false} TotalNonNegative(table: seq<Row>, order: seq<string>, grams: map<string, int>)
    requires forall k :: k in order ==> k in grams && InRange(grams[k])
    requires forall i :: 0 <= i < |table| ==> 0.0 <= table[i].kcal100
    requires Total(table, order, grams).Ok?
    ensures 0.0 <= Total(table, order, grams).value
  {
    if order != [] {
      var n := |order| - 1;
      TotalLast(table, order, grams);
      TotalNonNegative(table, order[..n], grams);
      var k := Lookup(table, order[n]).value;
      assert RowOf(table, order[n], k);
    }
  }

  /** The walk extended by one key, as the loop takes it. */
  lemma TotalStep(table: seq<Row>, order: seq<string>, grams: map<string, int>, i: int)
    requires forall k :: k in order ==> k in grams
    requires 0 <= i < |order| && Total(table, order[..i], grams).Ok?
    ensures Lookup(table, order[i]).Err? ==> Total(table, order[..i + 1], grams) == Err(Lookup(table, order[i]).error)
    ensures Lookup(table, order[i]).Ok? ==>
      Total(table, order[..i + 1], grams) ==
        Ok(Total(table, order[..i], grams).value + Kcal(grams[order[i]], Lookup(table, order[i]).value))
  {
    assert order[..i + 1][..i] == order[..i];
  }

  /** The total loop of the script. */
  method ComputeTotal(table: seq<Row>, quantities: Dict) returns (total: Result<real, LookupError>)
    requires Valid(quantities)
    ensures total == Total(table, quantities.order, quantities.grams)
  {
    var order, grams := quantities.order, quantities.grams;
    assert forall k :: k in order ==> k in grams;
    var t := 0.0;
    for i := 0 to |order|
      invariant Total(table, order[..i], grams) == Ok(t)
    {
      var name := order[i];
      var gram := grams[name];
      var kcal100 := Lookup(table, name);
      TotalStep(table, order, grams, i);
      if kcal100.Err? {
        TotalErrPersists(table, order, grams, i + 1);
        return Err(kcal100.error);
      }
      t := t + Kcal(gram, kcal100.value);
    }
    assert order[..|order|] == order;
    return Ok(t);
  }
}
