/**
 * What the two updates of the pizza ordering view model guarantee: which
 * fields they change and how, what repeating them does, how they interact,
 * and what the states reachable from the catalogue look like.
 */
module OrderProperties {
  import opened UiState
  import opened ViewModel

  // ---------------------------------------------------------------------------
  // Setting a size

  /**
   * Setting the size of an existing bread succeeds and recomputes its running
   * price from scratch: base price + new surcharge + selected toppings.
   */
  lemma BreadSizeUpdateSetsPrice(s: PizzaOrderingUiState, size: Size, breadIndex: int)
    requires 0 <= breadIndex < |s.breads|
    ensures var u := BreadSizeUpdate(s, size, breadIndex);
            && u.Success?
            && u.value.breads[breadIndex].size == size
            && u.value.breads[breadIndex].totalPrice
               == s.breads[breadIndex].defaultPrice + size.Price() + SelectedTotal(s.breads[breadIndex].toppings)
  {
  }

  /**
   * Setting a size changes only the size and running price of the addressed
   * bread: its toppings, id, image and base price, every other bread and the
   * state's id stay as they were.
   */
  lemma BreadSizeUpdateFrame(s: PizzaOrderingUiState, size: Size, breadIndex: int)
    requires 0 <= breadIndex < |s.breads|
    ensures var u := BreadSizeUpdate(s, size, breadIndex);
            var b, b' := s.breads[breadIndex], u.value.breads[breadIndex];
            && u.Success?
            && u.value.id == s.id
            && |u.value.breads| == |s.breads|
            && (forall j :: 0 <= j < |s.breads| && j != breadIndex ==> u.value.breads[j] == s.breads[j])
            && b'.toppings == b.toppings && b'.id == b.id && b'.image == b.image && b'.defaultPrice == b.defaultPrice
  {
    var b, b' := s.breads[breadIndex], BreadSizeUpdate(s, size, breadIndex).value.breads[breadIndex];
    assert b' == Resized(b, size);
    assert b'.(size := b.size, totalPrice := b.totalPrice) == b;
  }

  /** Setting the same size twice gives the state of setting it once. */
  lemma BreadSizeUpdateIdempotent(s: PizzaOrderingUiState, size: Size, breadIndex: int)
    ensures var u := BreadSizeUpdate(s, size, breadIndex);
            u.Success? ==> BreadSizeUpdate(u.value, size, breadIndex) == u
  {
    var u := BreadSizeUpdate(s, size, breadIndex);
    if u.Success? {
      var b := s.breads[breadIndex];
      assert Resized(Resized(b, size), size) == Resized(b, size);
      assert u.value.breads[breadIndex := Resized(Resized(b, size), size)] == u.value.breads;
    }
  }

  /** Of two sizes set in a row on one bread only the last one counts. */
  lemma BreadSizeUpdateLastWins(s: PizzaOrderingUiState, first: Size, second: Size, breadIndex: int)
    ensures var u := BreadSizeUpdate(s, first, breadIndex);
            u.Success? ==> BreadSizeUpdate(u.value, second, breadIndex) == BreadSizeUpdate(s, second, breadIndex)
  {
    var u := BreadSizeUpdate(s, first, breadIndex);
    if u.Success? {
      var b := s.breads[breadIndex];
      assert Resized(Resized(b, first), second) == Resized(b, second);
      assert u.value.breads[breadIndex := Resized(b, second)] == s.breads[breadIndex := Resized(b, second)];
    }
  }

  // ---------------------------------------------------------------------------
  // Toggling a topping

  /**
   * Toggling an existing topping succeeds and negates that topping's
   * selection only: the other toppings of the bread, its size, id, image and
   * base price, every other bread and the state's id stay as they were.
   */
  lemma ToppingSelectionUpdateFrame(s: PizzaOrderingUiState, toppingIndex: int, breadIndex: int)
    requires 0 <= breadIndex < |s.breads| && 0 <= toppingIndex < |s.breads[breadIndex].toppings|
    ensures var u := ToppingSelectionUpdate(s, toppingIndex, breadIndex);
            var b, b' := s.breads[breadIndex], u.value.breads[breadIndex];
            && u.Success?
            && u.value.id == s.id
            && |u.value.breads| == |s.breads|
            && (forall j :: 0 <= j < |s.breads| && j != breadIndex ==> u.value.breads[j] == s.breads[j])
            && b'.size == b.size && b'.id == b.id && b'.image == b.image && b'.defaultPrice == b.defaultPrice
            && |b'.toppings| == |b.toppings|
            && b'.toppings[toppingIndex].isSelected == !b.toppings[toppingIndex].isSelected
            && b'.toppings[toppingIndex].(isSelected := b.toppings[toppingIndex].isSelected) == b.toppings[toppingIndex]
            && (forall k :: 0 <= k < |b.toppings| && k != toppingIndex ==> b'.toppings[k] == b.toppings[k])
  {
    var b := s.breads[breadIndex];
    var b' := ToppingSelectionUpdate(s, toppingIndex, breadIndex).value.breads[breadIndex];
    assert b' == WithToppingToggled(b, toppingIndex);
    assert b'.(toppings := b.toppings, totalPrice := b.totalPrice) == b;
  }

  /**
   * Toggling moves the running price up by the topping's price when it
   * became selected and down by it otherwise, so the running price minus
   * the selected toppings stays what it was.
   */
  lemma ToppingSelectionUpdatePrice(s: PizzaOrderingUiState, toppingIndex: int, breadIndex: int)
    requires 0 <= breadIndex < |s.breads| && 0 <= toppingIndex < |s.breads[breadIndex].toppings|
    ensures var u := ToppingSelectionUpdate(s, toppingIndex, breadIndex);
            var b, b' := s.breads[breadIndex], u.value.breads[breadIndex];
            var price := b.toppings[toppingIndex].price;
            && u.Success?
            && b'.totalPrice == b.totalPrice + (if b'.toppings[toppingIndex].isSelected then price else -price)
            && b'.totalPrice - SelectedTotal(b'.toppings) == b.totalPrice - SelectedTotal(b.toppings)
  {
    var b := s.breads[breadIndex];
    assert ToppingSelectionUpdate(s, toppingIndex, breadIndex).value.breads[breadIndex] == WithToppingToggled(b, toppingIndex);
  }

  /** Toggling the same topping twice restores the state exactly. */
  lemma ToppingSelectionUpdateInvolution(s: PizzaOrderingUiState, toppingIndex: int, breadIndex: int)
    ensures var u := ToppingSelectionUpdate(s, toppingIndex, breadIndex);
            u.Success? ==> ToppingSelectionUpdate(u.value, toppingIndex, breadIndex) == Success(s)
  {
    var u := ToppingSelectionUpdate(s, toppingIndex, breadIndex);
    if u.Success? {
      var b := s.breads[breadIndex];
      var once := WithToppingToggled(b, toppingIndex);
      var twice := WithToppingToggled(once, toppingIndex);
      assert twice.toppings == b.toppings;
      assert twice == b;
      assert u.value.breads[breadIndex := twice] == s.breads;
    }
  }

  /**
   * Once a bread's running price follows the full formula (after its size
   * was set), toggles keep it that way: the incremental update agrees with
   * recomputing the price from scratch.
   */
  lemma ToppingSelectionUpdateKeepsConsistent(s: PizzaOrderingUiState, toppingIndex: int, breadIndex: int)
    requires 0 <= breadIndex < |s.breads| && Consistent(s.breads[breadIndex])
    ensures var u := ToppingSelectionUpdate(s, toppingIndex, breadIndex);
            u.Success? ==> Consistent(u.value.breads[breadIndex])
  {
    var u := ToppingSelectionUpdate(s, toppingIndex, breadIndex);
    if u.Success? {
      assert u.value.breads[breadIndex] == WithToppingToggled(s.breads[breadIndex], toppingIndex);
    }
  }

  /** On one bread, resizing and toggling a topping commute. */
  lemma ResizedToggledCommute(b: Bread, size: Size, k: nat)
    requires k < |b.toppings|
    ensures Resized(WithToppingToggled(b, k), size) == WithToppingToggled(Resized(b, size), k)
  {
    var x := Resized(WithToppingToggled(b, k), size);
    var y := WithToppingToggled(Resized(b, size), k);
    assert x.toppings == y.toppings;
  }

  /**
   * Setting a size and toggling a topping, on any breads, give the same
   * state in either order, although one recomputes the price from scratch
   * and the other moves it incrementally.
   */
  lemma UpdatesCommute(s: PizzaOrderingUiState, size: Size, sizeBread: int, toppingIndex: int, toppingBread: int)
    requires 0 <= sizeBread < |s.breads|
    requires 0 <= toppingBread < |s.breads| && 0 <= toppingIndex < |s.breads[toppingBread].toppings|
    ensures var sized := BreadSizeUpdate(s, size, sizeBread).value;
            var toggled := ToppingSelectionUpdate(s, toppingIndex, toppingBread).value;
            BreadSizeUpdate(toggled, size, sizeBread) == ToppingSelectionUpdate(sized, toppingIndex, toppingBread)
  {
    var r := Resized(s.breads[sizeBread], size);
    var t := WithToppingToggled(s.breads[toppingBread], toppingIndex);
    var sized := s.(breads := s.breads[sizeBread := r]);
    var toggled := s.(breads := s.breads[toppingBread := t]);
    assert BreadSizeUpdate(s, size, sizeBread).value == sized;
    assert ToppingSelectionUpdate(s, toppingIndex, toppingBread).value == toggled;
    if sizeBread == toppingBread {
      ResizedToggledCommute(s.breads[sizeBread], size, toppingIndex);
      var both := Resized(t, size);
      assert toggled.breads[sizeBread := both] == s.breads[sizeBread := both];
      assert sized.breads[sizeBread := both] == s.breads[sizeBread := both];
      assert BreadSizeUpdate(toggled, size, sizeBread) == Success(s.(breads := s.breads[sizeBread := both]));
      assert ToppingSelectionUpdate(sized, toppingIndex, toppingBread) == Success(s.(breads := s.breads[sizeBread := both]));
    } else {
      assert toggled.breads[sizeBread] == s.breads[sizeBread];
      assert sized.breads[toppingBread] == s.breads[toppingBread];
      assert toggled.breads[sizeBread := r] == sized.breads[toppingBread := t];
    }
  }

  // ---------------------------------------------------------------------------
  // Index errors and the default state

  /**
   * Before the catalogue is filled in, the state has no breads, and every
   * update fails on the bread index, leaving nothing to store.
   */
  lemma DefaultStateRejectsUpdates(size: Size, toppingIndex: int, breadIndex: int)
    ensures BreadSizeUpdate(DefaultUiState, size, breadIndex) == Failure(IndexOutOfBounds(breadIndex, 0))
    ensures ToppingSelectionUpdate(DefaultUiState, toppingIndex, breadIndex) == Failure(IndexOutOfBounds(breadIndex, 0))
  {
  }

  /**
   * Setting a size on bread 99 of the catalogue fails with an index error and
   * leaves the state exactly as it was.
   */
  method OutOfRangeScenario(d: Drawables) returns (outcome: Outcome, before: PizzaOrderingUiState, after: PizzaOrderingUiState)
    ensures outcome == Fail(IndexOutOfBounds(99, 5))
    ensures before == after == Initial(d)
  {
    var vm := new PizzaOrderingViewModel(d);
    before := vm.state;
    outcome := vm.UpdateBreadSize(Large, 99);
    after := vm.state;
  }

  // ---------------------------------------------------------------------------
  // The catalogue and the reachable states

  /**
   * The catalogue leaves the SMALL surcharge out of the running price, so
   * choosing SMALL again, which changes nothing else, raises the price by 5.
   */
  lemma InitialOmitsSmallSurcharge(d: Drawables, breadIndex: int)
    requires 0 <= breadIndex < 5
    ensures var s := Initial(d);
            var u := BreadSizeUpdate(s, Small, breadIndex);
            && s.breads[breadIndex].totalPrice == s.breads[breadIndex].defaultPrice
            && u.Success?
            && u.value.breads[breadIndex].size == s.breads[breadIndex].size
            && u.value.breads[breadIndex].totalPrice == s.breads[breadIndex].totalPrice + 5
  {
    var s := Initial(d);
    assert Offset(s.breads[breadIndex]) == 0;
  }

  /**
   * From the initial state, selecting Onion (topping 1, price 4) on bread 0
   * and then making that bread LARGE gives a running price of 50 + 15 + 4.
   */
  method SelectThenResizeScenario(d: Drawables) returns (first: Outcome, second: Outcome, total: int)
    ensures first == Pass && second == Pass
    ensures total == 69
  {
    var vm := new PizzaOrderingViewModel(d);
    NothingSelected(Toppings(d));
    SelectedTotalToggle(Toppings(d), 1);
    first := vm.UpdateToppingSelection(1, 0);
    second := vm.UpdateBreadSize(Large, 0);
    total := vm.state.breads[0].totalPrice;
  }

  lemma {:induction false} SelectedTotalBounds(ts: seq<Topping>)
    requires forall k :: 0 <= k < |ts| ==> ts[k].price >= 0
    ensures 0 <= SelectedTotal(ts) <= SumOfPrices(ts)
  {
    if ts != [] {
      SelectedTotalCons(ts);
      SelectedTotalBounds(ts[1..]);
    }
  }

  lemma {:induction false} SumOfPricesSamePrices(a: seq<Topping>, b: seq<Topping>)
    requires |a| == |b|
    requires forall k :: 0 <= k < |a| ==> a[k].price == b[k].price
    ensures SumOfPrices(a) == SumOfPrices(b)
  {
    if a != [] {
      SumOfPricesSamePrices(a[1..], b[1..]);
    }
  }

  /**
   * In every reachable state each running price lies between 50 and
   * 70 + 15 + 30 = 115, so it never comes near the limits of a 32-bit
   * integer.
   */
  lemma ReachablePricesBounded(s: PizzaOrderingUiState, d: Drawables)
    requires Reachable(s, d)
    ensures forall i :: 0 <= i < |s.breads| ==> 50 <= s.breads[i].totalPrice <= 115
  {
    var ts := Toppings(d);
    assert SumOfPrices(ts) == 30 by {
      assert ts[4..][1..] == [];
      assert ts[3..][1..] == ts[4..];
      assert ts[2..][1..] == ts[3..];
      assert ts[1..][1..] == ts[2..];
      assert SumOfPrices(ts[4..]) == 10;
      assert SumOfPrices(ts[3..]) == 18;
      assert SumOfPrices(ts[2..]) == 24;
      assert SumOfPrices(ts[1..]) == 28;
    }
    forall i | 0 <= i < |s.breads|
      ensures 50 <= s.breads[i].totalPrice <= 115
    {
      var b := s.breads[i];
      assert SameEntry(b, Breads(d)[i]);
      forall k | 0 <= k < |b.toppings|
        ensures b.toppings[k].price == ts[k].price
      {
        assert b.toppings[k].(isSelected := ts[k].isSelected) == ts[k];
      }
      SumOfPricesSamePrices(b.toppings, ts);
      SelectedTotalBounds(b.toppings);
      assert OffsetInvariant(b);
    }
  }

  /**
   * In every reachable state each bread keeps the five catalogue toppings in
   * order, with ids 1..5 and prices 2, 4, .., 10; only the selection varies.
   */
  lemma ReachableToppings(s: PizzaOrderingUiState, d: Drawables, i: int)
    requires Reachable(s, d) && 0 <= i < |s.breads|
    ensures |s.breads[i].toppings| == 5
    ensures forall k :: 0 <= k < 5 ==>
              s.breads[i].toppings[k].id == k + 1 && s.breads[i].toppings[k].price == 2 * (k + 1)
  {
    var b, ts := s.breads[i], Toppings(d);
    assert SameEntry(b, Breads(d)[i]);
    forall k | 0 <= k < 5
      ensures b.toppings[k].id == k + 1 && b.toppings[k].price == 2 * (k + 1)
    {
      assert b.toppings[k].(isSelected := ts[k].isSelected) == ts[k];
    }
  }
}
