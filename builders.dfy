/**
 The two builders of creationalDesignPatterns/builder.py.

 A Python list is a mutable object that several names can share, so both builders keep their
 list in a `StrList` object. `BurgerBuilder.build` gives the burger a fresh copy of the list,
 whereas `OrderBuilder.build_order` hands the order the builder's own list: appends made after
 building show through the order and never through the burger.
 */
module Builders {
  import opened Outcome
  import Text

  /** A Python list of strings, changed in place. */
  class StrList {
    var items: seq<string>

    constructor (items: seq<string>)
      ensures this.items == items
    {
      this.items := items;
    }

    /** `list.append(x)`. */
    method Append(x: string)
      modifies this
      ensures items == old(items) + [x]
    {
      items := items + [x];
    }
  }

  // ------------------------------------------------------------------
  // Burger and BurgerBuilder
  // ------------------------------------------------------------------

  /** The ingredients the five `add_*` methods can append. */
  datatype Topping = Cheese | Lettuce | Tomato | Pepperoni | ExtraPatty {
    /** The name `add_*` appends for this topping: never empty, and free of commas. */
    function Name(): (r: string)
      ensures r != [] && ',' !in r
    {
      match this
      case Cheese => "Cheese"
      case Lettuce => "Lettuce"
      case Tomato => "Tomato"
      case Pepperoni => "Pepperoni"
      case ExtraPatty => "Extra Patty"
    }
  }

  /** The ingredient list left by a sequence of `add_*` calls, in call order. */
  function Names(calls: seq<Topping>): (r: seq<string>)
    decreases |calls|
    ensures |r| == |calls|
    ensures forall k :: 0 <= k < |calls| ==> r[k] == calls[k].Name()
  {
    if calls == [] then []
    else Names(calls[..|calls| - 1]) + [calls[|calls| - 1].Name()]
  }

  lemma NamesAppend(calls: seq<Topping>, t: Topping)
    ensures Names(calls + [t]) == Names(calls) + [t.Name()]
  {
  }

  /** The body of a burger's ingredient list in `Burger.__str__`: "Plain" when there is none. */
  function IngredientsText(items: seq<string>): string
  {
    if items == [] then "Plain" else Text.Join(items, ", ")
  }

  /** `Burger.__str__` for a burger of `size` with `items`. */
  function BurgerText(size: string, items: seq<string>): string
  {
    "Burger(Size=" + size + ", Ingredients=[" + IngredientsText(items) + "])"
  }

  /** Reads an ingredient list body back: "Plain" is no ingredients. */
  function ReadIngredients(body: string): seq<string>
  {
    if body == "Plain" then [] else Text.SplitJoined(body)
  }

  /** Reads a rendered burger back into its size and ingredients, if it has the burger layout. */
  function ReadBurgerText(s: string): Option<(string, seq<string>)>
  {
    var head := "Burger(Size=";
    if |s| < |head| + 2 || s[..|head|] != head || s[|s| - 2..] != "])" then None
    else ReadSizeAndIngredients(s[|head|..|s| - 2])
  }

  /** Reads "<size>, Ingredients=[<body>" up to the first comma, which ends the size. */
  function ReadSizeAndIngredients(inner: string): Option<(string, seq<string>)>
  {
    var mid := ", Ingredients=[";
    var i := Text.IndexOf(inner, ',');
    var after := inner[i..];
    if |after| < |mid| || after[..|mid|] != mid then None
    else Some((inner[..i], ReadIngredients(after[|mid|..])))
  }

  lemma ReadIngredientsRoundTrip(items: seq<string>)
    requires Text.CommaFree(items) && items != ["Plain"]
    ensures ReadIngredients(IngredientsText(items)) == items
  {
    if items != [] {
      Text.SplitJoinRoundTrip(items);
    }
  }

  /**
   The rendering names the burger's size and ingredients recoverably, whenever the size and
   the ingredients hold no comma and the list is not the single item "Plain".
   */
  lemma BurgerTextRoundTrip(size: string, items: seq<string>)
    requires ',' !in size && Text.CommaFree(items) && items != ["Plain"]
    ensures ReadBurgerText(BurgerText(size, items)) == Some((size, items))
  {
    ReadBurgerTextOf(size, IngredientsText(items));
    ReadIngredientsRoundTrip(items);
  }

  /** The reader recovers the size and reads the ingredient body of any burger-shaped text. */
  lemma ReadBurgerTextOf(size: string, body: string)
    requires ',' !in size
    ensures ReadBurgerText("Burger(Size=" + size + ", Ingredients=[" + body + "])") ==
              Some((size, ReadIngredients(body)))
  {
    var head, mid, tail := "Burger(Size=", ", Ingredients=[", "])";
    var inner := size + mid + body;
    var s := head + size + mid + body + tail;
    assert s[..|head|] == head && s[|s| - 2..] == tail && s[|head|..|s| - 2] == inner by {
      assert s == head + inner + tail;
      ConcatSlices(head, inner, tail);
    }
    ReadSizeAndIngredientsOf(size, body);
  }

  lemma ReadSizeAndIngredientsOf(size: string, body: string)
    requires ',' !in size
    ensures ReadSizeAndIngredients(size + ", Ingredients=[" + body) == Some((size, ReadIngredients(body)))
  {
    var mid := ", Ingredients=[";
    var after := mid + body;
    var inner := size + mid + body;
    assert inner == size + after;
    assert Text.IndexOf(inner, ',') == |size| by {
      Text.IndexOfAfter(size, after, ',');
    }
    assert inner[..|size|] == size && inner[|size|..] == after by {
      SplitSlices(size, after);
    }
    assert after[..|mid|] == mid && after[|mid|..] == body by {
      SplitSlices(mid, body);
    }
  }

  lemma ConcatSlices(a: string, b: string, c: string)
    ensures (a + b + c)[..|a|] == a && (a + b + c)[|a|..|a| + |b|] == b
    ensures (a + b + c)[|a| + |b|..] == c
  {
  }

  lemma SplitSlices(a: string, b: string)
    ensures (a + b)[..|a|] == a && (a + b)[|a|..] == b
  {
  }

  /** The one list the rendering cannot tell apart from no ingredients. */
  lemma PlainIsAmbiguous(size: string)
    ensures BurgerText(size, ["Plain"]) == BurgerText(size, [])
  {
  }

  /** Every ingredient list a BurgerBuilder can build reads back as itself. */
  lemma {:induction false} BuiltBurgerTextRoundTrip(size: string, calls: seq<Topping>)
    requires ',' !in size
    ensures ReadBurgerText(BurgerText(size, Names(calls))) == Some((size, Names(calls)))
  {
    var items := Names(calls);
    assert Text.CommaFree(items) by {
      forall k | 0 <= k < |items| ensures ',' !in items[k] {
        assert items[k] == calls[k].Name();
      }
    }
    BurgerTextRoundTrip(size, items);
  }

  /** A built burger: its size and its own copy of the ingredient list. */
  class Burger {
    const size: string
    const ingredients: StrList

    /** `Burger(builder)`: copies the builder's size and a fresh copy of its ingredient list. */
    constructor (builder: BurgerBuilder)
      ensures size == builder.size
      ensures fresh(ingredients) && ingredients.items == builder.ingredients.items
    {
      size := builder.size;
      ingredients := new StrList(builder.ingredients.items);
    }

    /** `Burger.__str__`: names the size and the ingredients recoverably, within BurgerTextRoundTrip's limits. */
    function ToString(): (r: string)
      reads this, ingredients
      ensures ',' !in size && Text.CommaFree(ingredients.items) && ingredients.items != ["Plain"] ==>
                ReadBurgerText(r) == Some((size, ingredients.items))
    {
      if ',' !in size && Text.CommaFree(ingredients.items) && ingredients.items != ["Plain"] then
        BurgerTextRoundTrip(size, ingredients.items);
        BurgerText(size, ingredients.items)
      else
        BurgerText(size, ingredients.items)
    }
  }

  /** BurgerBuilder: a mandatory size and the ingredients appended so far. */
  class BurgerBuilder {
    var size: string
    const ingredients: StrList
    ghost var calls: seq<Topping>

    /** The size is given, and the list holds the names of the `add_*` calls made, in order. */
    ghost predicate Valid()
      reads this, ingredients
    {
      size != "" && ingredients.items == Names(calls)
    }

    /** The successful path of `BurgerBuilder(size)`; see `NewBurgerBuilder`. */
    constructor (size: string)
      requires size != ""
      ensures Valid() && this.size == size && calls == [] && ingredients.items == []
      ensures fresh(ingredients)
    {
      this.size := size;
      ingredients := new StrList([]);
      calls := [];
    }

    /** Appends one topping's name at the end and records the call. */
    method Add(t: Topping) returns (self: BurgerBuilder)
      requires Valid()
      modifies this, ingredients
      ensures Valid() && self == this
      ensures ingredients.items == old(ingredients.items) + [t.Name()]
      ensures calls == old(calls) + [t]
      ensures size == old(size)
    {
      NamesAppend(calls, t);
      ingredients.Append(t.Name());
      calls := calls + [t];
      self := this;
    }

    /** `add_cheese()`. */
    method AddCheese() returns (self: BurgerBuilder)
      requires Valid()
      modifies this, ingredients
      ensures Valid() && self == this
      ensures ingredients.items == old(ingredients.items) + ["Cheese"]
      ensures calls == old(calls) + [Cheese]
      ensures size == old(size)
    {
      self := Add(Cheese);
    }

    /** `add_lettuce()`. */
    method AddLettuce() returns (self: BurgerBuilder)
      requires Valid()
      modifies this, ingredients
      ensures Valid() && self == this
      ensures ingredients.items == old(ingredients.items) + ["Lettuce"]
      ensures calls == old(calls) + [Lettuce]
      ensures size == old(size)
    {
      self := Add(Lettuce);
    }

    /** `add_tomato()`. */
    method AddTomato() returns (self: BurgerBuilder)
      requires Valid()
      modifies this, ingredients
      ensures Valid() && self == this
      ensures ingredients.items == old(ingredients.items) + ["Tomato"]
      ensures calls == old(calls) + [Tomato]
      ensures size == old(size)
    {
      self := Add(Tomato);
    }

    /** `add_pepperoni()`. */
    method AddPepperoni() returns (self: BurgerBuilder)
      requires Valid()
      modifies this, ingredients
      ensures Valid() && self == this
      ensures ingredients.items == old(ingredients.items) + ["Pepperoni"]
      ensures calls == old(calls) + [Pepperoni]
      ensures size == old(size)
    {
      self := Add(Pepperoni);
    }

    /** `add_extra_patty()`. */
    method AddExtraPatty() returns (self: BurgerBuilder)
      requires Valid()
      modifies this, ingredients
      ensures Valid() && self == this
      ensures ingredients.items == old(ingredients.items) + ["Extra Patty"]
      ensures calls == old(calls) + [ExtraPatty]
      ensures size == old(size)
    {
      self := Add(ExtraPatty);
    }

    /** `build()`: a new burger with this size and a snapshot of the ingredient list. */
    method Build() returns (b: Burger)
      requires Valid()
      ensures fresh(b) && fresh(b.ingredients)
      ensures b.size == size && b.ingredients.items == Names(calls)
    {
      b := new Burger(this);
    }
  }

  /** `BurgerBuilder(size)`: raises ValueError for an empty size, otherwise a new, empty builder. */
  method NewBurgerBuilder(size: string) returns (r: Result<BurgerBuilder>)
    ensures r.Raised? <==> size == ""
    ensures r.Raised? ==> r.error == ValueError("Burger size must be provided")
    ensures r.Ok? ==> fresh(r.value) && fresh(r.value.ingredients) && r.value.Valid()
    ensures r.Ok? ==> r.value.size == size && r.value.ingredients.items == [] && r.value.calls == []
  {
    if size == "" {
      r := Raised(ValueError("Burger size must be provided"));
    } else {
      var b := new BurgerBuilder(size);
      r := Ok(b);
    }
  }

  /** An `add_*` call after `build()` changes the builder's list and not the burger's. */
  method BuiltBurgerIsSnapshot(builder: BurgerBuilder) returns (b: Burger)
    requires builder.Valid()
    modifies builder, builder.ingredients
    ensures b.ingredients.items == old(builder.ingredients.items)
    ensures builder.ingredients.items == old(builder.ingredients.items) + ["Cheese"]
  {
    b := builder.Build();
    var _ := builder.AddCheese();
  }

  // ------------------------------------------------------------------
  // Order and OrderBuilder
  // ------------------------------------------------------------------

  /** A built order: its two mandatory fields and the builder's list of extras, shared. */
  class Order {
    const orderId: string
    const restaurantName: string
    const addon: StrList

    /** `Order(builder)`: copies the two fields and keeps a reference to the builder's list. */
    constructor (builder: OrderBuilder)
      ensures orderId == builder.orderId && restaurantName == builder.restaurantName
      ensures addon == builder.additional
    {
      orderId := builder.orderId;
      restaurantName := builder.restaurantName;
      addon := builder.additional;
    }
  }

  /** OrderBuilder: the mandatory order id and restaurant, and a list of optional extras (`additioal`). */
  class OrderBuilder {
    var orderId: string
    var restaurantName: string
    const additional: StrList

    /** `OrderBuilder(order_id, restaurant_name)`: no extras yet. */
    constructor (orderId: string, restaurantName: string)
      ensures this.orderId == orderId && this.restaurantName == restaurantName
      ensures fresh(additional) && additional.items == []
    {
      this.orderId := orderId;
      this.restaurantName := restaurantName;
      additional := new StrList([]);
    }

    /** `is_delivery_address(address)`: appends the address. */
    method IsDeliveryAddress(address: string) returns (self: OrderBuilder)
      modifies additional
      ensures self == this
      ensures additional.items == old(additional.items) + [address]
    {
      additional.Append(address);
      self := this;
    }

    /** `is_coupon(coupon)`: appends the coupon. */
    method IsCoupon(coupon: string) returns (self: OrderBuilder)
      modifies additional
      ensures self == this
      ensures additional.items == old(additional.items) + [coupon]
    {
      additional.Append(coupon);
      self := this;
    }

    /** `is_instructions(instructions)`: appends the instructions. */
    method IsInstructions(instructions: string) returns (self: OrderBuilder)
      modifies additional
      ensures self == this
      ensures additional.items == old(additional.items) + [instructions]
    {
      additional.Append(instructions);
      self := this;
    }

    /** `build_order()`: a new order over this builder's fields and its very list. */
    method BuildOrder() returns (o: Order)
      ensures fresh(o)
      ensures o.orderId == orderId && o.restaurantName == restaurantName
      ensures o.addon == additional
    {
      o := new Order(this);
    }
  }

  /** An append after `build_order()` shows through the order. */
  method BuiltOrderSharesExtras(builder: OrderBuilder, coupon: string) returns (o: Order)
    modifies builder.additional
    ensures o.addon.items == old(builder.additional.items) + [coupon]
  {
    o := builder.BuildOrder();
    var _ := builder.IsCoupon(coupon);
  }
}
