/** The product card: whether the product is already in the cart, whether
    the balance covers one unit, which control the card shows, and what a
    click on its add button does to the cart. */
module ProductCard {
  import opened Common
  import opened Marketplace

  predicate CanAfford(balance: int, product: Product) {
    balance >= product.tokenPrice
  }

  /** The control under the product: an "Added to Cart" indicator, or the
      add button, disabled and relabelled when the balance is too low. */
  datatype CardControl = InCartIndicator | AddButton(disabled: bool, caption: string)

  function CardView(cart: seq<CartLine>, balance: int, product: Product): (v: CardControl)
    ensures v.InCartIndicator? <==> InCart(cart, product.id)
    ensures v.AddButton? ==> (v.disabled <==> !CanAfford(balance, product))
    ensures v.AddButton? ==> v.caption == (if v.disabled then "Insufficient Tokens" else "Add to Cart")
  {
    if InCart(cart, product.id) then InCartIndicator
    else
      var canAfford := CanAfford(balance, product);
      AddButton(!canAfford, if canAfford then "Add to Cart" else "Insufficient Tokens")
  }

  /** The click handler: adds one unit only when affordable and not yet in
      the cart. */
  function CardClick(cart: seq<CartLine>, balance: int, product: Product): seq<CartLine> {
    if CanAfford(balance, product) && !InCart(cart, product.id) then AddedToCart(cart, product, 1)
    else cart
  }

  /** A click either leaves the cart alone or appends exactly one line with
      quantity one; afterwards the product is in the cart exactly when it was
      before or the balance covered it. */
  lemma CardClickEffect(cart: seq<CartLine>, balance: int, product: Product)
    ensures CardClick(cart, balance, product) == cart
         || CardClick(cart, balance, product) == cart + [CartLine(product, 1)]
    ensures CardClick(cart, balance, product) != cart <==> CanAfford(balance, product) && !InCart(cart, product.id)
    ensures InCart(CardClick(cart, balance, product), product.id) <==>
              InCart(cart, product.id) || CanAfford(balance, product)
  {
    if CanAfford(balance, product) && !InCart(cart, product.id) {
      AddNew(cart, product, 1);
      assert |CardClick(cart, balance, product)| == |cart| + 1;
    }
  }

  /** The card's button is enabled exactly when a click changes the cart. */
  lemma EnabledButtonIsGuard(cart: seq<CartLine>, balance: int, product: Product)
    ensures CardView(cart, balance, product).AddButton? && !CardView(cart, balance, product).disabled
            <==> CardClick(cart, balance, product) != cart
  {
    CardClickEffect(cart, balance, product);
  }

  /** A second click on the same card changes nothing: the card never raises
      a quantity, it only adds the product once. */
  lemma CardClickIdempotent(cart: seq<CartLine>, balance: int, product: Product)
    ensures CardClick(CardClick(cart, balance, product), balance, product) == CardClick(cart, balance, product)
  {
    CardClickEffect(cart, balance, product);
  }

  /** A click keeps the cart well formed and raises the total by the
      product's price when it adds the product, by nothing otherwise. */
  lemma CardClickKeepsCart(cart: seq<CartLine>, balance: int, product: Product)
    requires WellFormedCart(cart)
    ensures WellFormedCart(CardClick(cart, balance, product))
    ensures CartTotal(CardClick(cart, balance, product))
         == CartTotal(cart) + (if CardClick(cart, balance, product) == cart then 0 else product.tokenPrice)
  {
    CardClickEffect(cart, balance, product);
    if CanAfford(balance, product) && !InCart(cart, product.id) {
      AddKeepsWellFormed(cart, product, 1);
      AddTotalNew(cart, product, 1);
    }
  }

  /** The click as it happens on the marketplace's state. */
  method HandleAddToCart(ledger: Ledger, product: Product)
    modifies ledger
    ensures ledger.cart == CardClick(old(ledger.cart), old(ledger.userTokenBalance), product)
    ensures ledger.userTokenBalance == old(ledger.userTokenBalance)
    ensures ledger.orders == old(ledger.orders) && ledger.nftCount == old(ledger.nftCount)
  {
    var isInCart := InCart(ledger.cart, product.id);
    var canAfford := CanAfford(ledger.userTokenBalance, product);
    if canAfford && !isInCart {
      ledger.AddToCart(product, 1);
    }
  }
}
