/** One row of the cart page: which image it shows, the variant label, and
    the quantity-update requests its buttons send. */
module CartPage {
  import opened Common
  import CartSlice
  import ImageUtils

  /** The product details the cart service attaches to a line. */
  datatype ProductData = ProductData(name: Option<string>, image: Option<string>, variantName: Option<string>)

  /** `item.productData?.variant?.name || (item.variant ? item.variant.name : "Standard")` */
  function VariantName(item: CartSlice.CartItem, productData: Option<ProductData>): (r: string)
    ensures productData.Some? && Truthy(productData.value.variantName) ==> r == productData.value.variantName.value
    ensures !(productData.Some? && Truthy(productData.value.variantName)) && item.variant.None? ==> r == "Standard"
  {
    if productData.Some? && Truthy(productData.value.variantName) then productData.value.variantName.value
    else if item.variant.Some? then item.variant.value.name
    else "Standard"
  }

  /** The label the variant column shows. */
  function VariantLabel(item: CartSlice.CartItem): (r: string)
    ensures item.variant.None? ==> r == "Standard"
    ensures item.variant.Some? ==> r == item.variant.value.name
  {
    if item.variant.Some? then item.variant.value.name else "Standard"
  }

  /** The column label agrees with the computed variant name whenever the
      cart service supplies no variant name of its own. */
  lemma LabelMatchesNameWithoutProductData(item: CartSlice.CartItem, productData: Option<ProductData>)
    requires productData.None? || !Truthy(productData.value.variantName)
    ensures VariantLabel(item) == VariantName(item, productData)
  {
  }

  /** The image reference a row starts from: the cart service's product image
      (the first element when it is a JSON array text that parses to a
      non-empty array), else the line's own image, else the placeholder. */
  function CartImageSource(productData: Option<ProductData>, imgUrl: Option<string>, parse: string -> JsonArray): (r: Option<string>)
    ensures (productData.Some? && Truthy(productData.value.image) && !StartsWith(productData.value.image.value, "["))
            ==> r == productData.value.image
    ensures !(productData.Some? && Truthy(productData.value.image)) && Truthy(imgUrl) ==> r == imgUrl
    ensures !(productData.Some? && Truthy(productData.value.image)) && !Truthy(imgUrl) ==> r == Some(ImageUtils.Placeholder)
  {
    if productData.Some? && Truthy(productData.value.image) then
      var s := productData.value.image.value;
      if StartsWith(s, "[") && parse(s).Parsed? && |parse(s).items| > 0 then parse(s).items[0]
      else productData.value.image
    else if Truthy(imgUrl) then imgUrl
    else Some(ImageUtils.Placeholder)
  }

  /** A JSON array text yields its first element; an empty array or a parse
      failure keeps the text. */
  lemma CartImageFromJsonArray(productData: ProductData, imgUrl: Option<string>, parse: string -> JsonArray)
    requires Truthy(productData.image) && StartsWith(productData.image.value, "[")
    ensures var s := productData.image.value;
      CartImageSource(Some(productData), imgUrl, parse)
        == if parse(s).Parsed? && |parse(s).items| > 0 then parse(s).items[0] else Some(s)
  {
  }

  /** The row's image: the source reference, then prefixed so that local
      paths point into '/uploads'. */
  method ResolveImageUrl(productData: Option<ProductData>, imgUrl: Option<string>, parse: string -> JsonArray)
    returns (imageUrl: Option<string>)
    ensures imageUrl == RowImage(CartImageSource(productData, imgUrl, parse))
  {
    if productData.Some? && Truthy(productData.value.image) {
      imageUrl := productData.value.image;
      var s := imageUrl.value;
      if StartsWith(s, "[") {
        match parse(s)
        case Parsed(items) =>
          if |items| > 0 {
            imageUrl := items[0];
          }
        case ParseError =>
      }
    } else if Truthy(imgUrl) {
      imageUrl := imgUrl;
    } else {
      imageUrl := Some(ImageUtils.Placeholder);
    }
    if Truthy(imageUrl) && !StartsWith(imageUrl.value, "http") && !StartsWith(imageUrl.value, "/placeholder") {
      var u := imageUrl.value;
      if StartsWith(u, "/uploads/") {
        imageUrl := Some(u);
      } else if StartsWith(u, "/products/") {
        imageUrl := Some("/uploads" + u);
      } else {
        imageUrl := if StartsWith(u, "/") then Some("/uploads" + u) else Some("/uploads/products/" + u);
      }
    }
  }

  /** The image a row derives from its source reference: full URLs, the
      placeholder and uploads paths are kept; another path starting with '/'
      (including '/products/…') is put under '/uploads'; a bare name goes
      under '/uploads/products/'. */
  function RowImage(src: Option<string>): (r: Option<string>)
    ensures !Truthy(src) ==> r == src
    ensures (Truthy(src) && (StartsWith(src.value, "http") || StartsWith(src.value, "/placeholder")
                             || StartsWith(src.value, "/uploads/")))
            ==> r == src
    ensures (Truthy(src) && src.value[0] == '/' && !StartsWith(src.value, "/placeholder")
             && !StartsWith(src.value, "/uploads/"))
            ==> r == Some("/uploads" + src.value)
    ensures (Truthy(src) && !StartsWith(src.value, "http") && src.value[0] != '/')
            ==> r == Some("/uploads/products/" + src.value)
  {
    if Truthy(src) && !StartsWith(src.value, "http") && !StartsWith(src.value, "/placeholder")
       && !StartsWith(src.value, "/uploads/") then
      (if src.value[0] == '/' then Some("/uploads" + src.value) else Some("/uploads/products/" + src.value))
    else src
  }

  /** '/products/…' becomes '/uploads/products/…'. */
  lemma RowImageProductsPath(u: string)
    requires StartsWith(u, "/products/")
    ensures RowImage(Some(u)) == Some("/uploads" + u)
    ensures StartsWith(RowImage(Some(u)).value, "/uploads/products/")
  {
    assert u[0] == '/' && u[1] == 'p' && u[2] == 'r';
    assert !StartsWith(u, "http") && !StartsWith(u, "/placeholder") && !StartsWith(u, "/uploads/") by {
      assert u[..4][0] == '/';
      assert u[..9][1] == 'p';
      if |u| >= 12 { assert u[..12][2] == 'r'; }
    }
    assert ("/uploads" + u)[..|"/uploads/products/"|] == "/uploads" + u[..|"/products/"|];
  }

  /** Every non-empty image a row shows is a full URL, the placeholder or an
      uploads path. */
  lemma RowImageShape(src: Option<string>)
    ensures var r := RowImage(src);
      Truthy(r) ==> StartsWith(r.value, "http") || StartsWith(r.value, "/placeholder") || StartsWith(r.value, "/uploads")
  {
  }

  /** On a plain file name, and on a '/products/…' path without repeated
      '/', the cart row and the shared `processImageUrl` helper agree. */
  lemma RowImageAgreesWithProcessImageUrl(u: string)
    requires u != "" && u != "null" && ImageUtils.NoDoubleSlash(u)
    requires !StartsWith(u, "http") && !StartsWith(u, "/placeholder") && !StartsWith(u, "/uploads/")
    requires u[0] != '/' || StartsWith(u, "/products/")
    ensures RowImage(Some(u)) == Some(ImageUtils.ProcessImageUrl(Some(u)))
  {
    if StartsWith(u, "/products/") {
      var rest := u[|"/products"|..];
      assert u == "/products" + rest;
      ImageUtils.CollapseSlashesAppend("/uploads", u);
      ImageUtils.CollapseSlashesFixpoint(u);
    }
  }

  /** `updateCartItemQuantity`'s argument. */
  datatype QuantityUpdate = QuantityUpdate(itemId: int, quantity: int)

  /** `incrementQuantity` */
  function IncrementRequest(item: CartSlice.CartItem): (r: QuantityUpdate)
    ensures r.itemId == item.id && r.quantity == item.quantity + 1
  {
    QuantityUpdate(item.id, item.quantity + 1)
  }

  /** `decrementQuantity`: a request only while the quantity is above 1. */
  function DecrementRequest(item: CartSlice.CartItem): (r: Option<QuantityUpdate>)
    ensures r.Some? <==> item.quantity > 1
    ensures r.Some? ==> r.value.itemId == item.id && r.value.quantity == item.quantity - 1 && r.value.quantity >= 1
  {
    if item.quantity > 1 then Some(QuantityUpdate(item.id, item.quantity - 1)) else None
  }

  /** Decrementing after an increment asks for the original quantity again. */
  lemma DecrementUndoesIncrement(item: CartSlice.CartItem)
    requires item.quantity >= 1
    ensures DecrementRequest(item.(quantity := IncrementRequest(item).quantity))
         == Some(QuantityUpdate(item.id, item.quantity))
  {
  }
}
