/** The marketplace context: a product catalog, a per-account cart of
    product lines keyed by product id, a token balance and an order list. */
module Marketplace {
  import opened Common

  datatype Product = Product(id: string, name: string, description: string, category: string, tokenPrice: nat)

  const PRODUCT_CATALOG: seq<Product> := [
    Product("solar_panel_100w", "100W Solar Panel",
      "High-efficiency monocrystalline solar panel perfect for home installations",
      "solar_equipment", 2500),
    Product("smart_inverter", "Smart Grid-Tie Inverter",
      "Intelligent inverter with WiFi monitoring and grid synchronization",
      "solar_equipment", 4200),
    Product("battery_pack", "Lithium Battery Pack",
      "12V 100Ah LiFePO4 battery for energy storage systems",
      "solar_equipment", 6000),
    Product("led_bulb_pack", "Smart LED Bulb Pack (4x)",
      "Energy-efficient smart LED bulbs with app control",
      "eco_products", 800),
    Product("smart_thermostat", "Eco Smart Thermostat",
      "AI-powered thermostat that learns your preferences and saves energy",
      "eco_products", 1500),
    Product("carbon_offset_1ton", "Carbon Offset Certificate (1 Ton)",
      "Verified carbon offset certificate supporting renewable energy projects",
      "certificates", 500),
    Product("amazon_gift_50", "$50 Amazon Gift Card",
      "Digital Amazon gift card delivered instantly to your email",
      "gift_cards", 2000),
    Product("premium_features", "Premium App Features (1 Year)",
      "Unlock advanced analytics, custom reports, and priority support",
      "app_features", 1200)
  ]

  datatype Category = Category(id: string, name: string)

  /** "all" stands for no category filter. */
  const CATEGORIES: seq<Category> := [
    Category("all", "All Products"),
    Category("solar_equipment", "Solar Equipment"),
    Category("eco_products", "Eco Products"),
    Category("gift_cards", "Gift Cards"),
    Category("certificates", "Certificates"),
    Category("app_features", "Premium Features")
  ]

  /** Product ids are distinct. */
  lemma CatalogDistinctIds()
    ensures forall i, j :: 0 <= i < j < |PRODUCT_CATALOG| ==> PRODUCT_CATALOG[i].id != PRODUCT_CATALOG[j].id
  {
  }

  /** Every product belongs to a listed category other than "all". */
  lemma CatalogCategoriesListed()
    ensures forall i :: 0 <= i < |PRODUCT_CATALOG| ==>
              PRODUCT_CATALOG[i].category != "all" &&
              exists j :: 1 <= j < |CATEGORIES| && CATEGORIES[j].id == PRODUCT_CATALOG[i].category
  {
    var at := [1, 1, 1, 2, 2, 4, 3, 5];
    assert forall i :: 0 <= i < |PRODUCT_CATALOG| ==> |PRODUCT_CATALOG[i].category| > 3;
    assert forall i :: 0 <= i < |PRODUCT_CATALOG| ==> 1 <= at[i] < |CATEGORIES| && CATEGORIES[at[i]].id == PRODUCT_CATALOG[i].category;
  }

  predicate HasProducts(category: string) {
    exists i :: 0 <= i < |PRODUCT_CATALOG| && PRODUCT_CATALOG[i].category == category
  }

  /** Every listed category other than "all" has at least one product. */
  lemma CategoriesInhabited()
    ensures forall j :: 1 <= j < |CATEGORIES| ==> HasProducts(CATEGORIES[j].id)
  {
    assert PRODUCT_CATALOG[0].category == CATEGORIES[1].id;
    assert PRODUCT_CATALOG[3].category == CATEGORIES[2].id;
    assert PRODUCT_CATALOG[6].category == CATEGORIES[3].id;
    assert PRODUCT_CATALOG[5].category == CATEGORIES[4].id;
    assert PRODUCT_CATALOG[7].category == CATEGORIES[5].id;
  }

  /** A cart line is the product with a quantity; its id is the product's. */
  datatype CartLine = CartLine(product: Product, quantity: int)

  /** Orders carry the fixed date stamps the context writes into every order. */
  datatype Order = Order(id: string, items: seq<CartLine>, totalTokens: int, status: string,
                         orderDate: string, orderTime: string, estimatedDelivery: string)

  const ORDER_DATE := "2025-08-30"
  const ORDER_TIME := "12:31:32"
  const ESTIMATED_DELIVERY := "2025-09-06"

  // ---------------------------------------------------------------------
  // The cart as a value

  predicate InCart(cart: seq<CartLine>, id: string) {
    exists k :: 0 <= k < |cart| && cart[k].product.id == id
  }

  /** Line ids are unique and quantities positive. */
  predicate WellFormedCart(cart: seq<CartLine>) {
    && (forall i, j :: 0 <= i < j < |cart| ==> cart[i].product.id != cart[j].product.id)
    && (forall i :: 0 <= i < |cart| ==> cart[i].quantity >= 1)
  }

  /** `cart.map(item => item.id === id ? {...item, quantity: f(item)} : item)`
      with the new quantity given by `amount` (added, or replacing when `replace` holds). */
  function MapLines(cart: seq<CartLine>, id: string, amount: int, replace: bool): (r: seq<CartLine>)
    ensures |r| == |cart|
  {
    seq(|cart|, i requires 0 <= i < |cart| =>
      if cart[i].product.id != id then cart[i]
      else if replace then cart[i].(quantity := amount)
      else cart[i].(quantity := cart[i].quantity + amount))
  }

  function AddedToCart(cart: seq<CartLine>, product: Product, quantity: int): seq<CartLine> {
    if InCart(cart, product.id) then MapLines(cart, product.id, quantity, false)
    else cart + [CartLine(product, quantity)]
  }

  function RemovedFromCart(cart: seq<CartLine>, id: string): seq<CartLine> {
    Filter(cart, (line: CartLine) => line.product.id != id)
  }

  function UpdatedQuantity(cart: seq<CartLine>, id: string, quantity: int): seq<CartLine> {
    if quantity <= 0 then RemovedFromCart(cart, id) else MapLines(cart, id, quantity, true)
  }

  /** Sum of tokenPrice * quantity over the lines. */
  function CartTotal(cart: seq<CartLine>): int {
    if cart == [] then 0
    else CartTotal(cart[..|cart| - 1]) + cart[|cart| - 1].product.tokenPrice * cart[|cart| - 1].quantity
  }

  /** Adding a product already in a well-formed cart raises only that line's
      quantity: the cart keeps its length and every other line. */
  lemma AddExisting(cart: seq<CartLine>, product: Product, quantity: int, k: int)
    requires WellFormedCart(cart)
    requires 0 <= k < |cart| && cart[k].product.id == product.id
    ensures AddedToCart(cart, product, quantity)
         == cart[k := cart[k].(quantity := cart[k].quantity + quantity)]
  {
  }

  /** Adding a new product appends one line at the end. */
  lemma AddNew(cart: seq<CartLine>, product: Product, quantity: int)
    requires !InCart(cart, product.id)
    ensures AddedToCart(cart, product, quantity) == cart + [CartLine(product, quantity)]
    ensures InCart(AddedToCart(cart, product, quantity), product.id)
  {
    var r := AddedToCart(cart, product, quantity);
    assert r[|cart|].product.id == product.id;
  }

  /** Adding a positive quantity keeps ids unique and quantities positive. */
  lemma AddKeepsWellFormed(cart: seq<CartLine>, product: Product, quantity: int)
    requires WellFormedCart(cart) && quantity >= 1
    ensures WellFormedCart(AddedToCart(cart, product, quantity))
  {
  }

  lemma {:induction false} CartTotalAppend(a: seq<CartLine>, b: seq<CartLine>)
    ensures CartTotal(a + b) == CartTotal(a) + CartTotal(b)
  {
    if b == [] {
      assert a + b == a;
    } else {
      assert (a + b)[..|a + b| - 1] == a + b[..|b| - 1];
      CartTotalAppend(a, b[..|b| - 1]);
    }
  }

  /** Replacing line `k` changes the total by that line's price times the
      change in its quantity. */
  lemma {:induction false} CartTotalUpdate(cart: seq<CartLine>, k: int, line: CartLine)
    requires 0 <= k < |cart| && line.product.tokenPrice == cart[k].product.tokenPrice
    ensures CartTotal(cart[k := line])
         == CartTotal(cart) + cart[k].product.tokenPrice * (line.quantity - cart[k].quantity)
  {
    var n := |cart|;
    if k == n - 1 {
      assert cart[k := line][..n - 1] == cart[..n - 1];
    } else {
      assert cart[k := line][..n - 1] == cart[..n - 1][k := line];
      CartTotalUpdate(cart[..n - 1], k, line);
    }
  }

  lemma {:induction false} CartTotalNonNegative(cart: seq<CartLine>)
    requires WellFormedCart(cart)
    ensures CartTotal(cart) >= 0
    ensures CartTotal(cart) == 0 <==> forall i :: 0 <= i < |cart| ==> cart[i].product.tokenPrice == 0
  {
    if cart != [] {
      var init := cart[..|cart| - 1];
      assert WellFormedCart(init);
      CartTotalNonNegative(init);
      var last := cart[|cart| - 1];
      assert last.product.tokenPrice * last.quantity >= 0;
      assert last.product.tokenPrice * last.quantity == 0 <==> last.product.tokenPrice == 0;
      assert forall i :: 0 <= i < |init| ==> init[i] == cart[i];
    }
  }

  /** Adding to an existing line raises the total by that line's price times
      the added quantity. */
  lemma AddTotalExisting(cart: seq<CartLine>, product: Product, quantity: int, k: int)
    requires WellFormedCart(cart)
    requires 0 <= k < |cart| && cart[k].product.id == product.id
    ensures CartTotal(AddedToCart(cart, product, quantity))
         == CartTotal(cart) + cart[k].product.tokenPrice * quantity
  {
    var line := cart[k].(quantity := cart[k].quantity + quantity);
    AddExisting(cart, product, quantity, k);
    CartTotalUpdate(cart, k, line);
    assert line.quantity - cart[k].quantity == quantity;
  }

  /** Adding a new product raises the total by its price times the quantity. */
  lemma AddTotalNew(cart: seq<CartLine>, product: Product, quantity: int)
    requires !InCart(cart, product.id)
    ensures CartTotal(AddedToCart(cart, product, quantity)) == CartTotal(cart) + product.tokenPrice * quantity
  {
    AddNew(cart, product, quantity);
    CartTotalAppend(cart, [CartLine(product, quantity)]);
    assert CartTotal([CartLine(product, quantity)]) == product.tokenPrice * quantity by {
      assert [CartLine(product, quantity)][..0] == [];
    }
  }

  /** Removing from a well-formed cart deletes exactly the line with that id,
      keeping the others in order; removing an absent id changes nothing. */
  lemma RemoveDeletesLine(cart: seq<CartLine>, id: string)
    requires WellFormedCart(cart)
    ensures !InCart(cart, id) ==> RemovedFromCart(cart, id) == cart
    ensures forall k :: 0 <= k < |cart| && cart[k].product.id == id ==>
              RemovedFromCart(cart, id) == cart[..k] + cart[k + 1..]
  {
    var keep := (line: CartLine) => line.product.id != id;
    if !InCart(cart, id) {
      FilterAll(cart, keep);
    }
    forall k | 0 <= k < |cart| && cart[k].product.id == id
      ensures RemovedFromCart(cart, id) == cart[..k] + cart[k + 1..]
    {
      FilterDropsOne(cart, keep, k);
    }
  }

  /** No line with the removed id is left, whatever the cart. */
  lemma RemoveLeavesNone(cart: seq<CartLine>, id: string)
    ensures !InCart(RemovedFromCart(cart, id), id)
  {
    var r := RemovedFromCart(cart, id);
    assert forall k :: 0 <= k < |r| ==> r[k] in r;
  }

  /** Deleting one line keeps ids unique and quantities positive. */
  lemma DeleteKeepsWellFormed(cart: seq<CartLine>, k: int)
    requires WellFormedCart(cart) && 0 <= k < |cart|
    ensures WellFormedCart(cart[..k] + cart[k + 1..])
  {
    var r := cart[..k] + cart[k + 1..];
    assert forall i :: 0 <= i < |r| ==> r[i] == cart[if i < k then i else i + 1];
  }

  lemma RemoveKeepsWellFormed(cart: seq<CartLine>, id: string)
    requires WellFormedCart(cart)
    ensures WellFormedCart(RemovedFromCart(cart, id))
  {
    RemoveDeletesLine(cart, id);
    if InCart(cart, id) {
      var k :| 0 <= k < |cart| && cart[k].product.id == id;
      DeleteKeepsWellFormed(cart, k);
    }
  }

  /** A non-positive quantity removes the line; a positive one replaces that
      line's quantity and keeps every other line. */
  lemma UpdateQuantitySetsLine(cart: seq<CartLine>, id: string, quantity: int, k: int)
    requires WellFormedCart(cart)
    requires 0 <= k < |cart| && cart[k].product.id == id
    ensures quantity <= 0 ==> UpdatedQuantity(cart, id, quantity) == cart[..k] + cart[k + 1..]
    ensures quantity > 0 ==> UpdatedQuantity(cart, id, quantity) == cart[k := cart[k].(quantity := quantity)]
  {
    if quantity <= 0 {
      RemoveDeletesLine(cart, id);
    }
  }

  /** Setting a quantity keeps ids unique and quantities positive. */
  lemma UpdateKeepsWellFormed(cart: seq<CartLine>, id: string, quantity: int)
    requires WellFormedCart(cart)
    ensures WellFormedCart(UpdatedQuantity(cart, id, quantity))
  {
    if quantity <= 0 {
      RemoveKeepsWellFormed(cart, id);
    }
  }

  // ---------------------------------------------------------------------
  // Redemption

  datatype RedeemError = InsufficientBalance | CartEmpty

  function ErrorMessage(e: RedeemError): string {
    match e
    case InsufficientBalance => "Insufficient token balance"
    case CartEmpty => "Cart is empty"
  }

  datatype LedgerState = LedgerState(balance: int, cart: seq<CartLine>, orders: seq<Order>)

  /** Tokens spent over all orders. */
  function Spent(orders: seq<Order>): int {
    if orders == [] then 0 else orders[0].totalTokens + Spent(orders[1..])
  }

  /** `redeemCart`: the balance check comes before the empty-cart check; on
      success the total is debited, the cart emptied and the new order put
      in front of the others. */
  function Redeem(s: LedgerState, orderId: string): (out: (Result<Order, RedeemError>, LedgerState))
    ensures out.0 == Err(InsufficientBalance) <==> CartTotal(s.cart) > s.balance
    ensures out.0 == Err(CartEmpty) <==> CartTotal(s.cart) <= s.balance && s.cart == []
    ensures out.0.Err? ==> out.1 == s
    ensures out.0.Ok? ==>
              && out.0.value.items == s.cart
              && out.0.value.totalTokens == CartTotal(s.cart)
              && out.0.value.id == orderId && out.0.value.status == "confirmed"
              && out.1.balance == s.balance - CartTotal(s.cart) >= 0
              && out.1.cart == []
              && out.1.orders == [out.0.value] + s.orders
  {
    var cartTotal := CartTotal(s.cart);
    if cartTotal > s.balance then (Err(InsufficientBalance), s)
    else if |s.cart| == 0 then (Err(CartEmpty), s)
    else
      var newOrder := Order(orderId, s.cart, cartTotal, "confirmed", ORDER_DATE, ORDER_TIME, ESTIMATED_DELIVERY);
      (Ok(newOrder), LedgerState(s.balance - cartTotal, [], [newOrder] + s.orders))
  }

  /** Redemption conserves tokens: balance plus everything spent on orders
      is the same before and after, whatever the outcome. */
  lemma RedeemConserves(s: LedgerState, orderId: string)
    ensures var out := Redeem(s, orderId);
      out.1.balance + Spent(out.1.orders) == s.balance + Spent(s.orders)
  {
    var out := Redeem(s, orderId);
    if out.0.Ok? {
      assert ([out.0.value] + s.orders)[1..] == s.orders;
    }
  }

  // ---------------------------------------------------------------------
  // Catalog filter

  predicate MatchesQuery(p: Product, query: string) {
    || Contains(Lower(p.name), query)
    || Contains(Lower(p.description), query)
    || Contains(Lower(p.category), query)
  }

  /** The first stage: the products of the selected category, or all of
      them for "all". */
  function ByCategory(products: seq<Product>, selectedCategory: string): seq<Product> {
    if selectedCategory != "all" then Filter(products, (p: Product) => p.category == selectedCategory)
    else products
  }

  /** The second stage: when the query is not blank, the products whose
      lower-cased name, description or category contains the lower-cased
      query; the query itself is not trimmed. */
  function ByQuery(products: seq<Product>, searchQuery: string): seq<Product> {
    if !IsBlank(searchQuery) then
      var query := Lower(searchQuery);
      Filter(products, (p: Product) => MatchesQuery(p, query))
    else products
  }

  function FilteredProducts(catalog: seq<Product>, selectedCategory: string, searchQuery: string): seq<Product> {
    ByQuery(ByCategory(catalog, selectedCategory), searchQuery)
  }

  predicate CategorySelected(p: Product, selectedCategory: string) {
    selectedCategory == "all" || p.category == selectedCategory
  }

  predicate QuerySelected(p: Product, searchQuery: string) {
    IsBlank(searchQuery) || MatchesQuery(p, Lower(searchQuery))
  }

  predicate Selected(p: Product, selectedCategory: string, searchQuery: string) {
    CategorySelected(p, selectedCategory) && QuerySelected(p, searchQuery)
  }

  lemma ByCategoryIsFilter(products: seq<Product>, selectedCategory: string, inCategory: Product -> bool)
    requires forall p :: inCategory(p) == CategorySelected(p, selectedCategory)
    ensures ByCategory(products, selectedCategory) == Filter(products, inCategory)
  {
    if selectedCategory != "all" {
      FilterSame(products, (p: Product) => p.category == selectedCategory, inCategory);
    } else {
      FilterAll(products, inCategory);
    }
  }

  lemma ByQueryIsFilter(products: seq<Product>, searchQuery: string, matches: Product -> bool)
    requires forall p :: matches(p) == QuerySelected(p, searchQuery)
    ensures ByQuery(products, searchQuery) == Filter(products, matches)
  {
    if !IsBlank(searchQuery) {
      var query := Lower(searchQuery);
      FilterSame(products, (p: Product) => MatchesQuery(p, query), matches);
    } else {
      FilterAll(products, matches);
    }
  }

  /** The two stages together keep exactly the selected products, in
      catalog order: a subsequence of the catalog, each kept product in the
      catalog and selected, each selected catalog product kept. */
  lemma FilteredProductsSelects(catalog: seq<Product>, selectedCategory: string, searchQuery: string)
    ensures FilteredProducts(catalog, selectedCategory, searchQuery)
         == Filter(catalog, (p: Product) => Selected(p, selectedCategory, searchQuery))
    ensures IsSubsequence(FilteredProducts(catalog, selectedCategory, searchQuery), catalog)
    ensures forall p :: p in FilteredProducts(catalog, selectedCategory, searchQuery) <==>
              p in catalog && Selected(p, selectedCategory, searchQuery)
  {
    var byCategory := (p: Product) => CategorySelected(p, selectedCategory);
    var byQuery := (p: Product) => QuerySelected(p, searchQuery);
    var selected := (p: Product) => Selected(p, selectedCategory, searchQuery);
    ByCategoryIsFilter(catalog, selectedCategory, byCategory);
    ByQueryIsFilter(ByCategory(catalog, selectedCategory), searchQuery, byQuery);
    FilterTwice(catalog, byCategory, byQuery, selected);
    FilterIsSubsequence(catalog, selected);
  }

  /** With category "all" and a blank query every product is shown. */
  lemma NoFilterShowsCatalog(catalog: seq<Product>, searchQuery: string)
    requires IsBlank(searchQuery)
    ensures FilteredProducts(catalog, "all", searchQuery) == catalog
  {
  }

  // ---------------------------------------------------------------------
  // The context's state, updated in place

  class Ledger {
    var userTokenBalance: int
    var nftCount: int
    var cart: seq<CartLine>
    var orders: seq<Order>

    ghost function State(): LedgerState
      reads this
    {
      LedgerState(userTokenBalance, cart, orders)
    }

    constructor ()
      ensures userTokenBalance == 0 && nftCount == 0 && cart == [] && orders == []
    {
      userTokenBalance, nftCount, cart, orders := 0, 0, [], [];
    }

    function GetCartTotal(): (total: int)
      reads this
      ensures cart == [] ==> total == 0
      ensures WellFormedCart(cart) ==> total >= 0
    {
      var total := CartTotal(cart);
      assert WellFormedCart(cart) ==> total >= 0 by {
        if WellFormedCart(cart) { CartTotalNonNegative(cart); }
      }
      total
    }

    method AddToCart(product: Product, quantity: int)
      modifies this`cart
      ensures cart == AddedToCart(old(cart), product, quantity)
      ensures old(WellFormedCart(cart)) && quantity >= 1 ==> WellFormedCart(cart)
    {
      var existing := InCart(cart, product.id);
      var updatedCart;
      if existing {
        updatedCart := MapLines(cart, product.id, quantity, false);
      } else {
        updatedCart := cart + [CartLine(product, quantity)];
      }
      if old(WellFormedCart(cart)) && quantity >= 1 {
        AddKeepsWellFormed(cart, product, quantity);
      }
      cart := updatedCart;
    }

    method RemoveFromCart(productId: string)
      modifies this`cart
      ensures cart == RemovedFromCart(old(cart), productId)
      ensures !InCart(cart, productId)
      ensures old(WellFormedCart(cart)) ==> WellFormedCart(cart)
    {
      if WellFormedCart(cart) {
        RemoveKeepsWellFormed(cart, productId);
      }
      RemoveLeavesNone(cart, productId);
      cart := RemovedFromCart(cart, productId);
    }

    method UpdateCartQuantity(productId: string, quantity: int)
      modifies this`cart
      ensures cart == UpdatedQuantity(old(cart), productId, quantity)
      ensures old(WellFormedCart(cart)) ==> WellFormedCart(cart)
    {
      if quantity <= 0 {
        RemoveFromCart(productId);
        return;
      }
      cart := MapLines(cart, productId, quantity, true);
    }

    /** Redeems the cart as order `orderId`; on an error nothing changes. */
    method RedeemCart(orderId: string) returns (result: Result<Order, RedeemError>)
      modifies this`userTokenBalance, this`cart, this`orders
      ensures (result, State()) == Redeem(old(State()), orderId)
    {
      var cartTotal := GetCartTotal();
      if cartTotal > userTokenBalance {
        return Err(InsufficientBalance);
      }
      if |cart| == 0 {
        return Err(CartEmpty);
      }
      var newOrder := Order(orderId, cart, cartTotal, "confirmed", ORDER_DATE, ORDER_TIME, ESTIMATED_DELIVERY);
      userTokenBalance := userTokenBalance - cartTotal;
      orders := [newOrder] + orders;
      cart := [];
      result := Ok(newOrder);
    }

    /** The reset applied when the wallet disconnects. */
    method Disconnect()
      modifies this
      ensures userTokenBalance == 0 && nftCount == 0 && cart == [] && orders == []
    {
      userTokenBalance, nftCount, cart, orders := 0, 0, [], [];
    }
  }
}
