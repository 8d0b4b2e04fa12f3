/** The product page: quantity selector, displayed price, the add-to-cart
    request and the related-products list. */
module ProductDetails {
  import opened Common
  import opened ProductUtils

  /** The page state the handlers change. */
  class ProductDetailsView {
    var quantity: int
    var selectedVariant: Option<ProductVariant>

    predicate Valid()
      reads this
    {
      quantity >= 1
    }

    constructor ()
      ensures quantity == 1 && selectedVariant == None
      ensures Valid()
    {
      quantity := 1;
      selectedVariant := None;
    }

    /** `handleQuantityChange`: "increase" adds one, "decrease" subtracts one
        only above 1, anything else is ignored. */
    method HandleQuantityChange(operation: string)
      modifies this
      ensures operation == "increase" ==> quantity == old(quantity) + 1
      ensures operation == "decrease" && old(quantity) > 1 ==> quantity == old(quantity) - 1
      ensures operation != "increase" && !(operation == "decrease" && old(quantity) > 1) ==> quantity == old(quantity)
      ensures selectedVariant == old(selectedVariant)
      ensures old(Valid()) ==> Valid()
    {
      if operation == "increase" {
        quantity := quantity + 1;
      } else if operation == "decrease" && quantity > 1 {
        quantity := quantity - 1;
      }
    }

    /** `handleVariantChange` */
    method HandleVariantChange(variant: Option<ProductVariant>)
      modifies this
      ensures selectedVariant == variant && quantity == old(quantity)
    {
      selectedVariant := variant;
    }
  }

  /** The price of one unit: the base price plus the selected variant's
      surcharge. */
  function UnitPrice(product: Product, selected: Option<ProductVariant>): (r: real)
    ensures selected.None? ==> r == product.price
    ensures selected.Some? ==> r == product.price + selected.value.additionalPrice
  {
    product.price + (if selected.Some? && selected.value.additionalPrice != 0.0 then selected.value.additionalPrice else 0.0)
  }

  /** `calculateTotalPrice`, before formatting: 0 without a product. */
  function CalculateTotalPrice(product: Option<Product>, selected: Option<ProductVariant>, quantity: int): (r: real)
    ensures product.None? ==> r == 0.0
    ensures product.Some? && selected.None? ==> r == product.value.price * quantity as real
    ensures product.Some? && selected.Some? ==>
      r == (product.value.price + selected.value.additionalPrice) * quantity as real
  {
    if product.None? then 0.0
    else UnitPrice(product.value, selected) * quantity as real
  }

  /** One more unit adds exactly one unit price. */
  lemma TotalPriceStep(product: Product, selected: Option<ProductVariant>, quantity: int)
    ensures CalculateTotalPrice(Some(product), selected, quantity + 1)
         == CalculateTotalPrice(Some(product), selected, quantity) + UnitPrice(product, selected)
  {
    var u := UnitPrice(product, selected);
    assert u * (quantity + 1) as real == u * quantity as real + u;
  }

  /** The request `addItemToCart` receives. */
  datatype AddToCartRequest = AddToCartRequest(productId: int, variantId: Option<int>, quantity: int)

  /** `addToCart`: nothing is sent when the product lists variants under
      `ProductVariants` and none is selected. */
  function AddToCart(product: Product, selected: Option<ProductVariant>, quantity: int): (r: Option<AddToCartRequest>)
    ensures r.None? <==> NonEmpty(product.productVariants) && selected.None?
    ensures r.Some? ==> r.value.productId == product.id && r.value.quantity == quantity
    ensures r.Some? ==> r.value.variantId == (if selected.Some? then Some(selected.value.id) else None)
  {
    if product.productVariants.Some? && |product.productVariants.value| > 0 && selected.None? then None
    else Some(AddToCartRequest(product.id, if selected.Some? then Some(selected.value.id) else None, quantity))
  }

  /** `mockProducts.find(p => p.id === productId)` */
  function FindById(catalog: seq<Product>, id: int): (r: Option<Product>)
    ensures r.None? <==> forall i :: 0 <= i < |catalog| ==> catalog[i].id != id
    ensures r.Some? ==> r.value in catalog && r.value.id == id
    ensures r.Some? ==> exists i :: 0 <= i < |catalog| && catalog[i] == r.value
                                 && forall j :: 0 <= j < i ==> catalog[j].id != id
    decreases |catalog|
  {
    if |catalog| == 0 then None
    else if catalog[0].id == id then Some(catalog[0])
    else
      var r := FindById(catalog[1..], id);
      assert r.Some? ==> exists i :: 0 <= i < |catalog| && catalog[i] == r.value
                                   && forall j :: 0 <= j < i ==> catalog[j].id != id by {
        if r.Some? {
          var i :| 0 <= i < |catalog[1..]| && catalog[1..][i] == r.value
                   && forall j :: 0 <= j < i ==> catalog[1..][j].id != id;
          assert catalog[i + 1] == r.value;
        }
      }
      r
  }

  /** The related products: same category as the product shown, the product
      itself excluded, none when no product is found. */
  function RelatedProducts(catalog: seq<Product>, id: int): (r: seq<Product>)
    ensures FindById(catalog, id).None? ==> r == []
    ensures forall p | p in r :: FindById(catalog, id).Some? && p in catalog && p.id != id
                                 && p.category == FindById(catalog, id).value.category
  {
    match FindById(catalog, id)
    case None => []
    case Some(found) => Filter(catalog, (p: Product) => p.category == found.category && p.id != found.id)
  }

  /** A product is related exactly when it is in the catalogue, shares the
      category of the product shown and is not that product. */
  lemma RelatedProductsMembers(catalog: seq<Product>, id: int, p: Product)
    ensures p in RelatedProducts(catalog, id) <==>
      FindById(catalog, id).Some? && p in catalog
      && p.category == FindById(catalog, id).value.category && p.id != id
  {
    var found := FindById(catalog, id);
    if found.Some? {
      FilterMembership(catalog, (q: Product) => q.category == found.value.category && q.id != found.value.id, p);
    }
  }

  /** The related products keep the catalogue order. */
  lemma RelatedProductsInOrder(catalog: seq<Product>, id: int)
    ensures IsSubsequence(RelatedProducts(catalog, id), catalog)
  {
    var found := FindById(catalog, id);
    if found.Some? {
      FilterIsSubsequence(catalog, (q: Product) => q.category == found.value.category && q.id != found.value.id);
    }
  }
}
