/** The catalogue data hook: which product query a collection name selects,
    and the list it publishes once the answer arrives. */
module UseGetData {
  import opened Common
  import opened ProductUtils

  /** The product service queries the hook can issue. */
  datatype Query = AllProducts | ByCategory(category: string) | ById(productId: string) | Unsupported

  const AllName := "products"
  const CategoryPrefix := "products/category/"
  const ProductPrefix := "products/"

  /** The dispatch on the collection name: the category prefix is checked
      before the generic product prefix, and the argument is the last
      path segment. */
  function Dispatch(name: string): (q: Query)
    ensures q.AllProducts? <==> name == AllName
    ensures q.ByCategory? <==> StartsWith(name, CategoryPrefix)
    ensures q.ById? <==> StartsWith(name, ProductPrefix) && !StartsWith(name, CategoryPrefix)
    ensures q.Unsupported? <==> name != AllName && !StartsWith(name, ProductPrefix)
    ensures q.ByCategory? ==> q.category == LastSegment(name)
    ensures q.ById? ==> q.productId == LastSegment(name)
  {
    if name == AllName then AllProducts
    else if StartsWith(name, CategoryPrefix) then
      assert name[..|ProductPrefix|] == name[..|CategoryPrefix|][..|ProductPrefix|];
      ByCategory(LastSegment(name))
    else if StartsWith(name, ProductPrefix) then ById(LastSegment(name))
    else Unsupported
  }

  /** A text usable as one path segment. */
  predicate Segment(s: string) {
    forall i | 0 <= i < |s| :: s[i] != '/'
  }

  /** The collection name a page asks for to issue a query. */
  function CollectionName(q: Query): (name: Option<string>)
    ensures name.None? <==> q.Unsupported?
  {
    match q
    case AllProducts => Some(AllName)
    case ByCategory(c) => Some(CategoryPrefix + c)
    case ById(id) => Some(ProductPrefix + id)
    case Unsupported => None
  }

  /** Dispatching the name of a query gives the query back, provided its
      argument is a single segment: a product id that happens to be
      "category" is still an id. */
  lemma DispatchRoundTrip(q: Query)
    requires q.ByCategory? ==> Segment(q.category)
    requires q.ById? ==> Segment(q.productId)
    ensures q.Unsupported? || Dispatch(CollectionName(q).value) == q
  {
    match q
    case AllProducts =>
    case ByCategory(c) =>
      var name := CategoryPrefix + c;
      assert name[..|CategoryPrefix|] == CategoryPrefix;
      assert name == "products/category" + "/" + c;
      LastSegmentOfJoin("products/category", c);
    case ById(id) =>
      var name := ProductPrefix + id;
      assert name[..|ProductPrefix|] == ProductPrefix;
      assert name == "products" + "/" + id;
      LastSegmentOfJoin("products", id);
      if |name| >= |CategoryPrefix| {
        assert name[17] == id[8] != '/';
        assert name[..|CategoryPrefix|][17] != CategoryPrefix[17];
      }
    case Unsupported =>
  }

  /** What the service call did: answered with a success flag and perhaps
      a product list, or threw. */
  datatype ServiceAnswer = Answer(success: bool, products: Option<seq<Product>>) | Threw

  /** The list an answer yields: the `products` field (or nothing) on
      success, whatever the query was; an empty list otherwise. */
  function Received(answer: ServiceAnswer): (r: seq<Product>)
    ensures answer.Answer? && answer.success && answer.products.Some? ==> r == answer.products.value
    ensures !(answer.Answer? && answer.success && answer.products.Some?) ==> r == []
  {
    match answer
    case Answer(success, products) => if success then products.GetOr([]) else []
    case Threw => []
  }

  /** The hook's state. */
  class DataHook {
    var data: seq<Product>
    var loading: bool

    constructor ()
      ensures data == [] && loading
    {
      data := [];
      loading := true;
    }

    /** The fetch effect: the query issued, if the name is supported, and
        the list published. `answer` is what the service call did. */
    method FetchData(collectionName: string, answer: ServiceAnswer) returns (request: Option<Query>)
      modifies this
      ensures !loading
      ensures request.None? <==> Dispatch(collectionName).Unsupported?
      ensures request.Some? ==> request.value == Dispatch(collectionName) && data == Received(answer)
      ensures request.None? ==> data == []
      ensures data != [] ==> request.Some? && answer.Answer? && answer.success
    {
      loading := true;
      if collectionName == AllName {
        request := Some(AllProducts);
      } else if StartsWith(collectionName, CategoryPrefix) {
        request := Some(ByCategory(LastSegment(collectionName)));
      } else if StartsWith(collectionName, ProductPrefix) {
        request := Some(ById(LastSegment(collectionName)));
      } else {
        data := [];
        loading := false;
        return None;
      }
      match answer {
        case Answer(success, products) =>
          if success {
            data := if products.Some? then products.value else [];
          } else {
            data := [];
          }
        case Threw =>
          data := [];
      }
      loading := false;
    }
  }
}
