/**
 * The order state store of the pizza ordering screen: a view model that holds
 * the current `PizzaOrderingUiState`, fills it with a fixed catalogue when it
 * is created, and offers two updates, setting the size of a bread and
 * toggling one of its toppings.  Breads and toppings are addressed by their
 * index in the lists.
 */
module ViewModel {
  import opened UiState

  /** An index that does not address an element of a list of this length. */
  datatype Error = IndexOutOfBounds(index: int, length: int)

  datatype Result<T> = Success(value: T) | Failure(error: Error)

  /** How an update call ends: it stores a new state, or it throws. */
  datatype Outcome = Pass | Fail(error: Error)

  /** The drawable resource ids the catalogue refers to, kept opaque. */
  datatype Drawables = Drawables(
    bread1: int, bread2: int, bread3: int, bread4: int, bread5: int,
    basil3: int, basilGroup: int,
    onion3: int, onionGroup: int,
    broccoli3: int, brocoliGroup: int,
    mushroom3: int, mushroomGroup: int,
    sausage3: int, susageGroup: int)

  // ---------------------------------------------------------------------------
  // Prices

  /** The toppings that are selected, in their original order. */
  function Selected(ts: seq<Topping>): (r: seq<Topping>)
    ensures |r| <= |ts|
    ensures forall j :: 0 <= j < |r| ==> r[j].isSelected
  {
    if ts == [] then []
    else (if ts[0].isSelected then [ts[0]] else []) + Selected(ts[1..])
  }

  /** The sum of the prices of a list of toppings. */
  function SumOfPrices(ts: seq<Topping>): (r: int)
    ensures (forall k :: 0 <= k < |ts| ==> ts[k].price >= 0) ==> r >= 0
  {
    if ts == [] then 0 else ts[0].price + SumOfPrices(ts[1..])
  }

  /**
   * The price of the selected toppings, written directly: each topping adds
   * its price when it is selected and nothing otherwise.
   */
  function SelectedPrices(ts: seq<Topping>): (r: int) {
    if ts == [] then 0
    else (if ts[0].isSelected then ts[0].price else 0) + SelectedPrices(ts[1..])
  }

  /** Filtering the selected toppings and then summing their prices. */
  lemma {:induction false} FilterThenSum(ts: seq<Topping>)
    ensures SumOfPrices(Selected(ts)) == SelectedPrices(ts)
  {
    if ts != [] {
      var head := if ts[0].isSelected then [ts[0]] else [];
      SumOfPricesAppend(head, Selected(ts[1..]));
      FilterThenSum(ts[1..]);
    }
  }

  /** The price of the selected toppings of a bread. */
  function SelectedTotal(ts: seq<Topping>): (r: int)
    ensures r == SelectedPrices(ts)
  {
    FilterThenSum(ts);
    SumOfPrices(Selected(ts))
  }

  /**
   * What a bread's running price adds on top of its base price and its
   * selected toppings.  A correct price has the size surcharge here.
   */
  function Offset(b: Bread): (r: int) {
    b.totalPrice - b.defaultPrice - SelectedTotal(b.toppings)
  }

  /** The running price is base price + size surcharge + selected toppings. */
  predicate Consistent(b: Bread) {
    Offset(b) == b.size.Price()
  }

  lemma {:induction false} SumOfPricesAppend(a: seq<Topping>, b: seq<Topping>)
    ensures SumOfPrices(a + b) == SumOfPrices(a) + SumOfPrices(b)
  {
    if a == [] {
      assert a + b == b;
    } else {
      assert (a + b)[1..] == a[1..] + b;
      SumOfPricesAppend(a[1..], b);
    }
  }

  /** The selected total splits into the first topping and the rest. */
  lemma SelectedTotalCons(ts: seq<Topping>)
    requires ts != []
    ensures SelectedTotal(ts) == (if ts[0].isSelected then ts[0].price else 0) + SelectedTotal(ts[1..])
  {
  }

  /** Flipping one topping moves the selected total by exactly its price. */
  lemma {:induction false} SelectedTotalToggle(ts: seq<Topping>, k: nat)
    requires k < |ts|
    ensures SelectedTotal(ts[k := Toggled(ts[k])])
         == SelectedTotal(ts) + (if ts[k].isSelected then -ts[k].price else ts[k].price)
  {
    var ts' := ts[k := Toggled(ts[k])];
    SelectedTotalCons(ts);
    SelectedTotalCons(ts');
    if k == 0 {
      assert ts'[0] == Toggled(ts[0]);
      assert ts'[1..] == ts[1..];
    } else {
      var rest := ts[1..];
      assert rest[k - 1] == ts[k];
      assert ts'[0] == ts[0];
      assert ts'[1..] == rest[k - 1 := Toggled(rest[k - 1])];
      SelectedTotalToggle(rest, k - 1);
    }
  }

  // ---------------------------------------------------------------------------
  // The copies the updates build

  /** A topping with its selection flipped. */
  function Toggled(t: Topping): (r: Topping)
    ensures r.isSelected == !t.isSelected
    ensures r.(isSelected := t.isSelected) == t
  {
    t.(isSelected := !t.isSelected)
  }

  /** A bread set to a new size, its running price recomputed from scratch. */
  function Resized(b: Bread, size: Size): (r: Bread)
    ensures r.size == size && Consistent(r)
    ensures r.(size := b.size, totalPrice := b.totalPrice) == b
  {
    b.(size := size, totalPrice := b.defaultPrice + size.Price() + SelectedTotal(b.toppings))
  }

  /**
   * A bread with topping `k` flipped and its running price moved by that
   * topping's price: up when it became selected, down otherwise.
   */
  function WithToppingToggled(b: Bread, k: nat): (r: Bread)
    requires k < |b.toppings|
    ensures |r.toppings| == |b.toppings|
    ensures r.toppings[k] == Toggled(b.toppings[k])
    ensures forall j :: 0 <= j < |b.toppings| && j != k ==> r.toppings[j] == b.toppings[j]
    ensures r.(toppings := b.toppings, totalPrice := b.totalPrice) == b
    ensures Offset(r) == Offset(b)
  {
    var topping := b.toppings[k];
    var toppings := b.toppings[k := Toggled(topping)];
    SelectedTotalToggle(b.toppings, k);
    b.(toppings := toppings,
       totalPrice := b.totalPrice + if toppings[k].isSelected then topping.price else -topping.price)
  }

  // ---------------------------------------------------------------------------
  // The two updates as state transitions

  /**
   * `updateBreadSize(size, breadIndex)`: the state after the call, or the
   * index error the list lookup throws.
   */
  function BreadSizeUpdate(s: PizzaOrderingUiState, size: Size, breadIndex: int): (r: Result<PizzaOrderingUiState>)
    ensures r.Failure? <==> !(0 <= breadIndex < |s.breads|)
    ensures r.Failure? ==> r.error == IndexOutOfBounds(breadIndex, |s.breads|)
  {
    if 0 <= breadIndex < |s.breads| then
      Success(s.(breads := s.breads[breadIndex := Resized(s.breads[breadIndex], size)]))
    else
      Failure(IndexOutOfBounds(breadIndex, |s.breads|))
  }

  /**
   * `updateToppingSelection(toppingIndex, breadIndex)`: the state after the
   * call, or the index error thrown by the bread lookup (made first) or by
   * the topping lookup.
   */
  function ToppingSelectionUpdate(s: PizzaOrderingUiState, toppingIndex: int, breadIndex: int): (r: Result<PizzaOrderingUiState>)
    ensures r.Success? <==> 0 <= breadIndex < |s.breads| && 0 <= toppingIndex < |s.breads[breadIndex].toppings|
    ensures !(0 <= breadIndex < |s.breads|) ==> r == Failure(IndexOutOfBounds(breadIndex, |s.breads|))
    ensures 0 <= breadIndex < |s.breads| && !(0 <= toppingIndex < |s.breads[breadIndex].toppings|) ==>
              r == Failure(IndexOutOfBounds(toppingIndex, |s.breads[breadIndex].toppings|))
  {
    if !(0 <= breadIndex < |s.breads|) then
      Failure(IndexOutOfBounds(breadIndex, |s.breads|))
    else
      var bread := s.breads[breadIndex];
      if !(0 <= toppingIndex < |bread.toppings|) then
        Failure(IndexOutOfBounds(toppingIndex, |bread.toppings|))
      else
        Success(s.(breads := s.breads[breadIndex := WithToppingToggled(bread, toppingIndex)]))
  }

  // ---------------------------------------------------------------------------
  // The catalogue

  /** The five toppings every bread carries, all unselected. */
  function Toppings(d: Drawables): (ts: seq<Topping>)
    ensures |ts| == 5
    ensures forall k :: 0 <= k < |ts| ==> ts[k].id == k + 1 && ts[k].price == 2 * (k + 1) && !ts[k].isSelected
  {
    // The selection flag is left to its default, false.
    [ Topping(1, "Basil", d.basil3, 2, d.basilGroup, false),
      Topping(2, "Onion", d.onion3, 4, d.onionGroup, false),
      Topping(3, "Broccoli", d.broccoli3, 6, d.brocoliGroup, false),
      Topping(4, "Mushroom", d.mushroom3, 8, d.mushroomGroup, false),
      Topping(5, "Sausage", d.sausage3, 10, d.susageGroup, false) ]
  }

  /**
   * The five breads on offer.  Each starts SMALL with running price equal to
   * its base price: the SMALL surcharge is not added.
   */
  function Breads(d: Drawables): (bs: seq<Bread>)
    ensures |bs| == 5
    ensures forall i :: 0 <= i < |bs| ==>
              && bs[i].id == i + 1 && bs[i].defaultPrice == 50 + 5 * i
              && bs[i].totalPrice == bs[i].defaultPrice && bs[i].size == Small
              && bs[i].toppings == Toppings(d)
  {
    [ Bread(1, d.bread1, 50, 50, Small, Toppings(d)),
      Bread(2, d.bread2, 55, 55, Small, Toppings(d)),
      Bread(3, d.bread3, 60, 60, Small, Toppings(d)),
      Bread(4, d.bread4, 65, 65, Small, Toppings(d)),
      Bread(5, d.bread5, 70, 70, Small, Toppings(d)) ]
  }

  /** No topping of the catalogue is selected, so none adds to the price. */
  lemma {:induction false} NothingSelected(ts: seq<Topping>)
    requires forall k :: 0 <= k < |ts| ==> !ts[k].isSelected
    ensures SelectedTotal(ts) == 0
  {
    if ts != [] {
      SelectedTotalCons(ts);
      NothingSelected(ts[1..]);
    }
  }

  /** The state the initialiser stores: the default state with the catalogue. */
  function Initial(d: Drawables): (s: PizzaOrderingUiState)
    ensures s.id == 0 && |s.breads| == 5
    ensures forall i :: 0 <= i < |s.breads| ==> Offset(s.breads[i]) == 0 && !Consistent(s.breads[i])
  {
    NothingSelected(Toppings(d));
    DefaultUiState.(breads := Breads(d))
  }

  // ---------------------------------------------------------------------------
  // The invariant of every state the store can reach

  /** A bread is catalogue entry `c` with possibly other size, price and selection. */
  predicate SameEntry(b: Bread, c: Bread) {
    && b.id == c.id && b.image == c.image && b.defaultPrice == c.defaultPrice
    && |b.toppings| == |c.toppings|
    && forall k :: 0 <= k < |b.toppings| ==> b.toppings[k].(isSelected := c.toppings[k].isSelected) == c.toppings[k]
  }

  /**
   * The running price carries no surcharge (only while the bread is still
   * SMALL from the catalogue) or exactly the surcharge of its size.
   */
  predicate OffsetInvariant(b: Bread) {
    (b.size == Small && Offset(b) == 0) || Offset(b) == b.size.Price()
  }

  /** Every state the store can reach from its initialiser. */
  ghost predicate Reachable(s: PizzaOrderingUiState, d: Drawables) {
    var catalogue := Breads(d);
    && s.id == 0
    && |s.breads| == |catalogue|
    && forall i :: 0 <= i < |s.breads| ==> SameEntry(s.breads[i], catalogue[i]) && OffsetInvariant(s.breads[i])
  }

  lemma InitialReachable(d: Drawables)
    ensures Reachable(Initial(d), d)
  {
  }

  lemma BreadSizeUpdatePreservesReachable(s: PizzaOrderingUiState, d: Drawables, size: Size, breadIndex: int)
    requires Reachable(s, d)
    ensures BreadSizeUpdate(s, size, breadIndex).Success? ==> Reachable(BreadSizeUpdate(s, size, breadIndex).value, d)
  {
  }

  lemma ToppingSelectionUpdatePreservesReachable(s: PizzaOrderingUiState, d: Drawables, toppingIndex: int, breadIndex: int)
    requires Reachable(s, d)
    ensures ToppingSelectionUpdate(s, toppingIndex, breadIndex).Success? ==>
              Reachable(ToppingSelectionUpdate(s, toppingIndex, breadIndex).value, d)
  {
    var u := ToppingSelectionUpdate(s, toppingIndex, breadIndex);
    if u.Success? {
      var c := Breads(d)[breadIndex];
      var b := s.breads[breadIndex];
      var b' := u.value.breads[breadIndex];
      assert b' == WithToppingToggled(b, toppingIndex);
      forall k | 0 <= k < |b'.toppings|
        ensures b'.toppings[k].(isSelected := c.toppings[k].isSelected) == c.toppings[k]
      {
        assert b.toppings[k].(isSelected := c.toppings[k].isSelected) == c.toppings[k];
      }
      assert SameEntry(b', c);
    }
  }

  // ---------------------------------------------------------------------------
  // The view model

  /** The view model: the state it holds and the two updates on it. */
  class PizzaOrderingViewModel {
    /** The current state, published to the screen after each update. */
    var state: PizzaOrderingUiState
    /** The resource ids the catalogue was built with. */
    ghost const drawables: Drawables

    ghost predicate Valid()
      reads this
    {
      Reachable(state, drawables)
    }

    /** Starts from the default state and fills it with the catalogue. */
    constructor (d: Drawables)
      ensures Valid() && drawables == d
      ensures state == Initial(d)
    {
      drawables := d;
      var initial := DefaultUiState;
      state := initial.(breads := Breads(d));
      InitialReachable(d);
    }

    /**
     * Sets the size of bread `breadIndex` and recomputes its running price
     * from the base price, the new surcharge and the selected toppings.  An
     * index outside the list throws and the state stays as it was.
     */
    method UpdateBreadSize(size: Size, breadIndex: int) returns (outcome: Outcome)
      requires Valid()
      modifies this
      ensures Valid()
      ensures var u := BreadSizeUpdate(old(state), size, breadIndex);
              if u.Success? then outcome == Pass && state == u.value
              else outcome == Fail(u.error) && state == old(state)
    {
      if !(0 <= breadIndex < |state.breads|) {
        return Fail(IndexOutOfBounds(breadIndex, |state.breads|));
      }
      var breads := state.breads;
      var bread := breads[breadIndex];
      breads := breads[breadIndex := Resized(bread, size)];
      BreadSizeUpdatePreservesReachable(state, drawables, size, breadIndex);
      state := state.(breads := breads);
      outcome := Pass;
    }

    /**
     * Flips topping `toppingIndex` of bread `breadIndex` and moves the
     * bread's running price by that topping's price.  An index outside its
     * list throws and the state stays as it was.
     */
    method UpdateToppingSelection(toppingIndex: int, breadIndex: int) returns (outcome: Outcome)
      requires Valid()
      modifies this
      ensures Valid()
      ensures var u := ToppingSelectionUpdate(old(state), toppingIndex, breadIndex);
              if u.Success? then outcome == Pass && state == u.value
              else outcome == Fail(u.error) && state == old(state)
    {
      if !(0 <= breadIndex < |state.breads|) {
        return Fail(IndexOutOfBounds(breadIndex, |state.breads|));
      }
      var breads := state.breads;
      var bread := breads[breadIndex];
      var toppings := bread.toppings;
      if !(0 <= toppingIndex < |toppings|) {
        return Fail(IndexOutOfBounds(toppingIndex, |toppings|));
      }
      var topping := toppings[toppingIndex];
      toppings := toppings[toppingIndex := Toggled(topping)];
      var delta := if toppings[toppingIndex].isSelected then topping.price else -topping.price;
      var toggled := bread.(toppings := toppings, totalPrice := bread.totalPrice + delta);
      assert toggled == WithToppingToggled(bread, toppingIndex);
      breads := breads[breadIndex := toggled];
      ToppingSelectionUpdatePreservesReachable(state, drawables, toppingIndex, breadIndex);
      state := state.(breads := breads);
      outcome := Pass;
    }
  }
}
