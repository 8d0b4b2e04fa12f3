/** The home page: five showcase sections cut from one product list, and
    the error shown when the list cannot be had. */
module Home {
  import opened Common
  import opened ProductUtils

  /** Each section shows at most this many products. */
  const SectionSize: nat := 4

  /** The sections' tests. */
  function NewTest(): Product -> bool { (p: Product) => p.isNew }
  function BestSellerTest(): Product -> bool { (p: Product) => p.isBestSeller }
  function CategoryTest(category: string): Product -> bool { (p: Product) => p.category == category }

  /** One section: the first four products that pass the section's test. */
  function Section(all: seq<Product>, keep: Product -> bool): (r: seq<Product>)
    ensures |r| <= SectionSize
    ensures |r| <= |Filter(all, keep)| && r == Filter(all, keep)[..|r|]
    ensures |Filter(all, keep)| < SectionSize ==> r == Filter(all, keep)
    ensures |Filter(all, keep)| >= SectionSize ==> |r| == SectionSize
  {
    Take(Filter(all, keep), SectionSize)
  }

  /** A section holds products of the list that pass its test, in the
      list's order. */
  lemma SectionShape(all: seq<Product>, keep: Product -> bool)
    ensures forall p | p in Section(all, keep) :: p in all && keep(p)
    ensures IsSubsequence(Section(all, keep), all)
  {
    var f := Filter(all, keep);
    var r := Section(all, keep);
    PrefixIsSubsequence(f, |r|);
    FilterIsSubsequence(all, keep);
    SubsequenceTransitive(r, f, all);
    forall p | p in r ensures p in all && keep(p) {
      assert p in f;
    }
  }

  /** A passing product is left out of its section only when the section
      is full. */
  lemma SectionMissesOnlyWhenFull(all: seq<Product>, keep: Product -> bool, p: Product)
    requires p in all && keep(p) && p !in Section(all, keep)
    ensures |Section(all, keep)| == SectionSize
  {
    FilterMembership(all, keep, p);
  }

  /** The five sections. */
  datatype Sections = Sections(
    newProducts: seq<Product>,
    bestSellers: seq<Product>,
    cpu: seq<Product>,
    gpu: seq<Product>,
    laptop: seq<Product>)

  const NoSections := Sections([], [], [], [], [])

  /** The sections cut from the fetched list. */
  function CutSections(all: seq<Product>): (s: Sections)
    ensures s.newProducts == Section(all, NewTest()) && s.bestSellers == Section(all, BestSellerTest())
    ensures s.cpu == Section(all, CategoryTest("CPU")) && s.gpu == Section(all, CategoryTest("GPU"))
    ensures s.laptop == Section(all, CategoryTest("Laptop"))
  {
    Sections(Section(all, NewTest()), Section(all, BestSellerTest()), Section(all, CategoryTest("CPU")),
             Section(all, CategoryTest("GPU")), Section(all, CategoryTest("Laptop")))
  }

  /** No product is shown in two category sections. */
  lemma CategorySectionsDisjoint(all: seq<Product>, p: Product)
    ensures !(p in CutSections(all).cpu && p in CutSections(all).gpu)
    ensures !(p in CutSections(all).cpu && p in CutSections(all).laptop)
    ensures !(p in CutSections(all).gpu && p in CutSections(all).laptop)
  {
    SectionShape(all, CategoryTest("CPU"));
    SectionShape(all, CategoryTest("GPU"));
    SectionShape(all, CategoryTest("Laptop"));
  }

  /** The decimal digits of a number, as a template literal renders it. */
  function Decimal(n: nat): (r: string)
    ensures |r| > 0
    ensures forall i | 0 <= i < |r| :: '0' <= r[i] <= '9'
  {
    if n < 10 then [(48 + n) as char] else Decimal(n / 10) + [(48 + n % 10) as char]
  }

  /** The number a string of decimal digits denotes, most significant
      digit first. */
  function DigitsValue(s: string): (v: nat)
    requires forall i | 0 <= i < |s| :: '0' <= s[i] <= '9'
    decreases |s|
  {
    if |s| == 0 then 0 else 10 * DigitsValue(s[..|s| - 1]) + (s[|s| - 1] as int - 48)
  }

  /** The digits rendered for a number denote that number, and only zero is
      rendered with a leading zero. */
  lemma {:induction false} DecimalValue(n: nat)
    ensures DigitsValue(Decimal(n)) == n
    ensures Decimal(n)[0] == '0' <==> n == 0
    decreases n
  {
    var r := Decimal(n);
    if n >= 10 {
      DecimalValue(n / 10);
      assert r[..|r| - 1] == Decimal(n / 10);
      assert r[0] == Decimal(n / 10)[0];
    }
  }

  /** Distinct numbers are rendered as distinct texts. */
  lemma DecimalInjective(m: nat, n: nat)
    ensures Decimal(m) == Decimal(n) ==> m == n
  {
    DecimalValue(m);
    DecimalValue(n);
  }

  /** The answer to the product request; `None` is no answer object. */
  datatype Answer = Answer(success: bool, products: Option<seq<Product>>)

  /** Why the request threw: the connection was refused, the server
      answered with an error (its message, if any, and its status), no
      answer came, or anything else (its message, if defined). */
  datatype RequestError =
    | ConnectionRefused
    | ServerError(message: Option<string>, status: nat)
    | NoAnswer
    | OtherError(message: Option<string>)

  /** What the request did. */
  datatype Outcome = Returned(answer: Option<Answer>) | Failed(error: RequestError)

  const InvalidFormat := "Failed to fetch products: Invalid response format"
  const CannotConnect := "Cannot connect to the server. Make sure the backend server is running."
  const NetworkError := "Network error. Please check your connection."

  /** The message for a request that threw. */
  function ErrorMessage(e: RequestError): (r: string)
    ensures e.ConnectionRefused? ==> r == CannotConnect
    ensures e.ServerError? && Truthy(e.message) ==> r == "Server error: " + e.message.value
    ensures e.ServerError? && !Truthy(e.message) ==> r == "Server error: " + Decimal(e.status)
    ensures e.NoAnswer? ==> r == NetworkError
    ensures e.OtherError? ==> r == "Error: " + (if e.message.Some? then e.message.value else "undefined")
  {
    match e
    case ConnectionRefused => CannotConnect
    case ServerError(message, status) => "Server error: " + (if Truthy(message) then message.value else Decimal(status))
    case NoAnswer => NetworkError
    case OtherError(message) => "Error: " + (if message.Some? then message.value else "undefined")
  }

  /** The page after the fetch: the sections, the error and the spinner. */
  datatype HomeView = HomeView(sections: Sections, error: Option<string>, loading: bool)

  /** The fetch effect: a successful answer fills the sections from its
      list (or from nothing); any other outcome leaves them empty and sets
      an error. */
  function Load(outcome: Outcome): (v: HomeView)
    ensures !v.loading
    ensures v.error.None? <==> outcome.Returned? && outcome.answer.Some? && outcome.answer.value.success
    ensures v.error.None? ==> v.sections == CutSections(outcome.answer.value.products.GetOr([]))
    ensures v.error.Some? ==> v.sections == NoSections
    ensures outcome.Returned? && v.error.Some? ==> v.error == Some(InvalidFormat)
    ensures outcome.Failed? ==> v.error == Some(ErrorMessage(outcome.error))
  {
    match outcome
    case Returned(answer) =>
      if answer.Some? && answer.value.success then
        HomeView(CutSections(answer.value.products.GetOr([])), None, false)
      else HomeView(NoSections, Some(InvalidFormat), false)
    case Failed(e) => HomeView(NoSections, Some(ErrorMessage(e)), false)
  }

  /** Every product shown on the page came from the answer's list. */
  lemma ShownProductsCameFromAnswer(outcome: Outcome, p: Product)
    requires Load(outcome).error.None?
    requires var s := Load(outcome).sections;
             p in s.newProducts || p in s.bestSellers || p in s.cpu || p in s.gpu || p in s.laptop
    ensures p in outcome.answer.value.products.GetOr([])
  {
    var all := outcome.answer.value.products.GetOr([]);
    SectionShape(all, NewTest());
    SectionShape(all, BestSellerTest());
    SectionShape(all, CategoryTest("CPU"));
    SectionShape(all, CategoryTest("GPU"));
    SectionShape(all, CategoryTest("Laptop"));
  }
}
