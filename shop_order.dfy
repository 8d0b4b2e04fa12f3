/** The catalogue orderings the shop's sort menu offers, and the sort that
    arranges a product list by one of them. */
module ShopOrder {
  import opened Common
  import opened ProductUtils

  /** Plain lexicographic order on strings: `s` is not after `t`. */
  predicate LexLe(s: string, t: string)
    decreases |s|
  {
    |s| == 0 || (|t| > 0 && (s[0] < t[0] || (s[0] == t[0] && LexLe(s[1..], t[1..]))))
  }

  lemma {:induction false} LexLeTotal(s: string, t: string)
    ensures LexLe(s, t) || LexLe(t, s)
    decreases |s|
  {
    if |s| > 0 && |t| > 0 && s[0] == t[0] {
      LexLeTotal(s[1..], t[1..]);
    }
  }

  lemma {:induction false} LexLeTransitive(s: string, t: string, u: string)
    requires LexLe(s, t) && LexLe(t, u)
    ensures LexLe(s, u)
    decreases |s|
  {
    if |s| > 0 && s[0] == t[0] && t[0] == u[0] {
      LexLeTransitive(s[1..], t[1..], u[1..]);
    }
  }

  /** The orderings of the sort menu. */
  datatype SortKey = PriceAsc | PriceDesc | NameAsc | NameDesc | Newest

  /** The sort option a menu value selects; "rating", "bestselling" and
      anything unknown select none. */
  function SortKeyOf(option: string): (r: Option<SortKey>)
    ensures r.Some? <==> option in {"price_asc", "price_desc", "name_asc", "name_desc", "newest"}
  {
    match option
    case "price_asc" => Some(PriceAsc)
    case "price_desc" => Some(PriceDesc)
    case "name_asc" => Some(NameAsc)
    case "name_desc" => Some(NameDesc)
    case "newest" => Some(Newest)
    case _ => None
  }

  /** `a` may stand before `b` under the key: the comparator does not put
      `b` first. Newest is the higher id first. */
  predicate InOrder(key: SortKey, a: Product, b: Product) {
    match key
    case PriceAsc => a.price <= b.price
    case PriceDesc => a.price >= b.price
    case NameAsc => LexLe(a.productName, b.productName)
    case NameDesc => LexLe(b.productName, a.productName)
    case Newest => a.id >= b.id
  }

  lemma InOrderTotal(key: SortKey, a: Product, b: Product)
    ensures InOrder(key, a, b) || InOrder(key, b, a)
  {
    if key.NameAsc? || key.NameDesc? {
      LexLeTotal(a.productName, b.productName);
    }
  }

  lemma InOrderTransitive(key: SortKey, a: Product, b: Product, c: Product)
    requires InOrder(key, a, b) && InOrder(key, b, c)
    ensures InOrder(key, a, c)
  {
    match key
    case NameAsc => LexLeTransitive(a.productName, b.productName, c.productName);
    case NameDesc => LexLeTransitive(c.productName, b.productName, a.productName);
    case _ =>
  }

  /** Every earlier element may stand before every later one. */
  predicate SortedBy(key: SortKey, s: seq<Product>) {
    forall i, j :: 0 <= i < j < |s| ==> InOrder(key, s[i], s[j])
  }

  /** Puts `p` in front of the first element it may stand before. */
  function Insert(key: SortKey, p: Product, s: seq<Product>): (r: seq<Product>)
    ensures multiset(r) == multiset(s) + multiset{p}
    decreases |s|
  {
    if |s| == 0 then [p]
    else if InOrder(key, p, s[0]) then [p] + s
    else
      assert s == [s[0]] + s[1..];
      [s[0]] + Insert(key, p, s[1..])
  }

  lemma {:induction false} InsertSorted(key: SortKey, p: Product, s: seq<Product>)
    requires SortedBy(key, s)
    ensures SortedBy(key, Insert(key, p, s))
    decreases |s|
  {
    if |s| == 0 {
    } else if InOrder(key, p, s[0]) {
      var r := [p] + s;
      forall i, j | 0 <= i < j < |r| ensures InOrder(key, r[i], r[j]) {
        if i == 0 {
          if j > 1 { InOrderTransitive(key, p, s[0], s[j - 1]); }
        } else {
          assert r[i] == s[i - 1] && r[j] == s[j - 1];
        }
      }
    } else {
      InOrderTotal(key, p, s[0]);
      var tail := s[1..];
      assert SortedBy(key, tail) by {
        forall i, j | 0 <= i < j < |tail| ensures InOrder(key, tail[i], tail[j]) {
          assert tail[i] == s[i + 1] && tail[j] == s[j + 1];
        }
      }
      InsertSorted(key, p, tail);
      var ins := Insert(key, p, tail);
      var r := [s[0]] + ins;
      forall i, j | 0 <= i < j < |r| ensures InOrder(key, r[i], r[j]) {
        if i == 0 {
          var x := r[j];
          assert x == ins[j - 1];
          assert x in multiset(ins);
          if x != p {
            assert x in multiset(tail);
            var k :| 0 <= k < |tail| && tail[k] == x;
            assert s[k + 1] == x;
          }
        } else {
          assert r[i] == ins[i - 1] && r[j] == ins[j - 1];
        }
      }
    }
  }

  /** Insertion sort: each element in turn is inserted into the sorted rest. */
  function SortBy(key: SortKey, s: seq<Product>): (r: seq<Product>)
    ensures multiset(r) == multiset(s)
    decreases |s|
  {
    if |s| == 0 then []
    else
      assert s == [s[0]] + s[1..];
      Insert(key, s[0], SortBy(key, s[1..]))
  }

  /** The sort yields the ordering the key names. */
  lemma {:induction false} SortBySorted(key: SortKey, s: seq<Product>)
    ensures SortedBy(key, SortBy(key, s))
    decreases |s|
  {
    if |s| > 0 {
      SortBySorted(key, s[1..]);
      InsertSorted(key, s[0], SortBy(key, s[1..]));
    }
  }
}
