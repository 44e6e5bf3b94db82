/**
 * The records the pizza ordering screen works on: the whole screen state,
 * one bread (an order line) with its toppings, and the bread size with its
 * surcharge.  All of them are immutable values; the view model never changes
 * a record in place but builds an updated copy.
 */
module UiState {

  /** The size of a bread, in declaration order; each size carries a surcharge. */
  datatype Size = Small | Medium | Large {

    /** The surcharge added to a bread's price for this size. */
    function Price(): (r: int)
      ensures this == Small ==> r == 5
      ensures this == Medium ==> r == 10
      ensures this == Large ==> r == 15
    {
      match this
      case Small => 5
      case Medium => 10
      case Large => 15
    }

    /** The position of the size in declaration order. */
    function Ordinal(): (r: nat) {
      match this
      case Small => 0
      case Medium => 1
      case Large => 2
    }
  }

  /** One topping of a bread.  The image fields are opaque resource ids. */
  datatype Topping = Topping(
    id: int,
    name: string,
    mainImage: int,
    price: int,
    image: int,
    isSelected: bool)

  /**
   * One bread on offer.  `defaultPrice` is its base price and `totalPrice`
   * the running price shown on the screen; `image` is an opaque resource id.
   */
  datatype Bread = Bread(
    id: int,
    image: int,
    defaultPrice: int,
    totalPrice: int,
    size: Size,
    toppings: seq<Topping>)

  /** The whole state of the ordering screen. */
  datatype PizzaOrderingUiState = PizzaOrderingUiState(id: int, breads: seq<Bread>)

  /** The record built when every constructor argument takes its default. */
  const DefaultTopping: Topping := Topping(0, "", 0, 0, 0, false)

  /** The record built when every constructor argument takes its default. */
  const DefaultBread: Bread := Bread(0, 0, 0, 0, Small, [])

  /** The state the view model holds before its initialiser runs. */
  const DefaultUiState: PizzaOrderingUiState := PizzaOrderingUiState(0, [])

  /** The surcharge grows strictly with the size, in declaration order. */
  lemma SizePriceIncreasing(a: Size, b: Size)
    ensures a.Ordinal() < b.Ordinal() <==> a.Price() < b.Price()
    ensures a.Price() > 0
  {
  }

  /**
   * A default bread is the smallest size with no price and no toppings, and a
   * default topping is free and not selected.
   */
  lemma DefaultRecords()
    ensures DefaultBread.size == Small && DefaultBread.toppings == []
    ensures DefaultBread.totalPrice == 0 && DefaultBread.defaultPrice == 0
    ensures DefaultTopping.price == 0 && !DefaultTopping.isSelected
    ensures DefaultUiState.id == 0 && DefaultUiState.breads == []
  {
  }
}
