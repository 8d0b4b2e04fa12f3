/** The admin product list: its search box and the truncated description
    column. */
module AdminProducts {
  import opened Common
  import opened ProductUtils

  /** The product's name, category or brand contains the term, ignoring
      case; the term is used untrimmed. */
  function TermTest(term: string): Product -> bool {
    (p: Product) =>
      ContainsIgnoringCase(p.productName, term) || ContainsIgnoringCase(p.category, term)
      || ContainsIgnoringCase(p.brand, term)
  }

  /** The search effect: a blank term shows every product, any other keeps
      the products it is found in. */
  function SearchProducts(products: seq<Product>, searchTerm: string): (r: seq<Product>)
    ensures IsBlank(searchTerm) ==> r == products
    ensures forall p :: p in r <==>
      p in products && (IsBlank(searchTerm) || ContainsIgnoringCase(p.productName, searchTerm)
                        || ContainsIgnoringCase(p.category, searchTerm) || ContainsIgnoringCase(p.brand, searchTerm))
  {
    if IsBlank(searchTerm) then products
    else
      assert forall p :: p in Filter(products, TermTest(searchTerm)) <==> p in products && TermTest(searchTerm)(p) by {
        forall p ensures p in Filter(products, TermTest(searchTerm)) <==> p in products && TermTest(searchTerm)(p) {
          FilterMembership(products, TermTest(searchTerm), p);
        }
      }
      Filter(products, TermTest(searchTerm))
  }

  /** The search keeps the products in their list order. */
  lemma SearchKeepsOrder(products: seq<Product>, searchTerm: string)
    ensures IsSubsequence(SearchProducts(products, searchTerm), products)
  {
    if IsBlank(searchTerm) {
      SubsequenceReflexive(products);
    } else {
      FilterIsSubsequence(products, TermTest(searchTerm));
    }
  }

  /** Searching again for the same term changes nothing. */
  lemma SearchIdempotent(products: seq<Product>, searchTerm: string)
    ensures SearchProducts(SearchProducts(products, searchTerm), searchTerm) == SearchProducts(products, searchTerm)
  {
    var once := SearchProducts(products, searchTerm);
    if !IsBlank(searchTerm) {
      FilterAllPass(once, TermTest(searchTerm));
    }
  }

  const DefaultMaxLength: nat := 30

  /** `truncateText`: a missing or empty text shows as ""; a text longer
      than `maxLength` is cut to its first `maxLength` characters followed
      by "...". */
  function TruncateText(text: Option<string>, maxLength: nat): (r: string)
    ensures !Truthy(text) ==> r == ""
    ensures Truthy(text) && |text.value| <= maxLength ==> r == text.value
    ensures Truthy(text) && |text.value| > maxLength ==>
      |r| == maxLength + 3 && StartsWith(text.value, r[..maxLength]) && r[maxLength..] == "..."
    ensures |r| <= maxLength + 3
  {
    if !Truthy(text) then ""
    else if |text.value| > maxLength then text.value[..maxLength] + "..."
    else text.value
  }
}
