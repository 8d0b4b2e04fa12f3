/** The product record the catalogue pages share, and `hasProductVariants`. */
module ProductUtils {
  import opened Common

  datatype ProductVariant = ProductVariant(id: int, name: string, additionalPrice: real, stock: int)

  /** A catalogue product. The variant list arrives under either of two
      names, `ProductVariants` (from the database layer) or `variants`. */
  datatype Product = Product(
    id: int,
    productName: string,
    category: string,
    brand: string,
    price: real,
    isNew: bool,
    isBestSeller: bool,
    productVariants: Option<seq<ProductVariant>>,
    variants: Option<seq<ProductVariant>>)

  /** An optional list that is present and non-empty. */
  predicate NonEmpty<T>(l: Option<seq<T>>) {
    l.Some? && |l.value| > 0
  }

  /** `hasProductVariants`: a missing product has none; otherwise either list
      being non-empty is enough. */
  function HasProductVariants(product: Option<Product>): (r: bool)
    ensures product.None? ==> !r
    ensures product.Some? && NonEmpty(product.value.productVariants) ==> r
    ensures product.Some? && NonEmpty(product.value.variants) ==> r
    ensures r ==> product.Some? && (NonEmpty(product.value.productVariants) || NonEmpty(product.value.variants))
  {
    if product.None? then false
    else
      (product.value.productVariants.Some? && |product.value.productVariants.value| > 0)
      || (product.value.variants.Some? && |product.value.variants.value| > 0)
  }
}
