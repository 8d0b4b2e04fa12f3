/** The admin product form: the variant list with its draft row, the
    per-category default variants, the submit checks and the image
    previews of a product being edited. */
module ProductForm {
  import opened Common
  import ImageUtils

  /** A variant row of the form. */
  datatype FormVariant = FormVariant(id: int, name: string, description: string, additionalPrice: real, stock: real)

  /** The draft row the "add variant" inputs fill. */
  datatype VariantDraft = VariantDraft(name: string, description: string, additionalPrice: real, stock: real)

  const EmptyDraft := VariantDraft("", "", 0.0, 0.0)

  /** A row of a default-variant table, before it gets an id. */
  datatype Template = Template(name: string, description: string, additionalPrice: real, stock: real)

  const CpuTable := [
    Template("Base Model", "Default configuration", 0.0, 20.0),
    Template("OC Edition", "Factory overclocked for better performance", 49.99, 15.0)]

  const GpuTable := [
    Template("Standard Edition", "Reference design", 0.0, 20.0),
    Template("OC Edition", "Overclocked with enhanced cooling", 79.99, 15.0),
    Template("Liquid Cooled", "Integrated AIO liquid cooling for maximum performance", 149.99, 10.0)]

  const StorageTable := [
    Template("1TB", "Standard 1TB capacity", 0.0, 30.0),
    Template("2TB", "Expanded 2TB capacity", 100.0, 20.0)]

  const MemoryTable := [
    Template("32GB (2x16GB) 3200MHz", "Standard speed dual-channel kit", 0.0, 20.0),
    Template("32GB (2x16GB) 3600MHz", "High-speed dual-channel kit", 29.99, 30.0)]

  const MotherboardTable := [
    Template("Standard Edition", "Basic configuration with standard warranty", 0.0, 35.0),
    Template("Premium Bundle", "Includes premium accessories and extended warranty", 39.99, 15.0)]

  const LaptopTable := [
    Template("Core i5 / 8GB / 256GB", "Intel Core i5-1240P, 8GB LPDDR5, 256GB SSD, FHD+ Display", 0.0, 15.0),
    Template("Core i7 / 16GB / 512GB", "Intel Core i7-1260P, 16GB LPDDR5, 512GB SSD, FHD+ Display", 400.0, 10.0),
    Template("Core i7 / 32GB / 1TB", "Intel Core i7-1260P, 32GB LPDDR5, 1TB SSD, UHD+ Touch Display", 800.0, 5.0)]

  const DefaultTable := [
    Template("Basic Edition", "Standard configuration", 0.0, 30.0),
    Template("Deluxe Edition", "Enhanced features and premium support", 49.99, 20.0)]

  /** The table `generateDefaultVariants` uses for a category: one of the
      six named ones, or the generic table for any other category. */
  function TableFor(category: string): (t: seq<Template>)
    ensures 2 <= |t| <= 3
    ensures t[0].additionalPrice == 0.0
    ensures forall i :: 0 <= i < |t| ==> t[i].additionalPrice >= 0.0 && t[i].stock > 0.0
    ensures forall i, j :: 0 <= i < j < |t| ==> t[i].additionalPrice < t[j].additionalPrice
    ensures category !in {"CPU", "GPU", "Storage", "Memory", "Motherboard", "Laptop"} ==> t == DefaultTable
  {
    match category
    case "CPU" => CpuTable
    case "GPU" => GpuTable
    case "Storage" => StorageTable
    case "Memory" => MemoryTable
    case "Motherboard" => MotherboardTable
    case "Laptop" => LaptopTable
    case _ => DefaultTable
  }

  /** The table's rows with ids `now`, `now + 1`, … in order. */
  function Instantiate(table: seq<Template>, now: int): (r: seq<FormVariant>)
    ensures |r| == |table|
    ensures forall i :: 0 <= i < |r| ==>
      r[i] == FormVariant(now + i, table[i].name, table[i].description, table[i].additionalPrice, table[i].stock)
  {
    seq(|table|, i requires 0 <= i < |table| =>
      FormVariant(now + i, table[i].name, table[i].description, table[i].additionalPrice, table[i].stock))
  }

  /** Every variant of a generated list has its own id, and the first is
      the base variant with no surcharge. */
  lemma GeneratedVariantsShape(category: string, now: int)
    ensures var vs := Instantiate(TableFor(category), now);
      && |vs| >= 2 && vs[0].additionalPrice == 0.0 && vs[0].id == now
      && (forall i, j :: 0 <= i < j < |vs| ==> vs[i].id != vs[j].id)
  {
  }

  /** The variant a successful `addVariant` appends: the draft with an id. */
  function FromDraft(d: VariantDraft, id: int): (v: FormVariant)
    ensures v.id == id && v.name == d.name && v.description == d.description
    ensures v.additionalPrice == d.additionalPrice && v.stock == d.stock
  {
    FormVariant(id, d.name, d.description, d.additionalPrice, d.stock)
  }

  /** `variants.filter(v => v.id !== id)` */
  function WithoutId(variants: seq<FormVariant>, id: int): (r: seq<FormVariant>)
    ensures forall v :: v in r <==> v in variants && v.id != id
  {
    var keep := (v: FormVariant) => v.id != id;
    assert forall v :: v in Filter(variants, keep) <==> v in variants && v.id != id by {
      forall v ensures v in Filter(variants, keep) <==> v in variants && v.id != id {
        FilterMembership(variants, keep, v);
      }
    }
    Filter(variants, keep)
  }

  /** Removal keeps the other variants in their order. */
  lemma WithoutIdKeepsOrder(variants: seq<FormVariant>, id: int)
    ensures IsSubsequence(WithoutId(variants, id), variants)
  {
    FilterIsSubsequence(variants, (v: FormVariant) => v.id != id);
  }

  /** Removing a variant just added under an id no other variant has gives
      the list back as it was. */
  lemma {:induction false} RemoveUndoesAdd(variants: seq<FormVariant>, v: FormVariant)
    requires forall i :: 0 <= i < |variants| ==> variants[i].id != v.id
    ensures WithoutId(variants + [v], v.id) == variants
    decreases |variants|
  {
    var keep := (w: FormVariant) => w.id != v.id;
    if |variants| == 0 {
      assert variants + [v] == [v];
    } else {
      assert (variants + [v])[1..] == variants[1..] + [v];
      RemoveUndoesAdd(variants[1..], v);
      assert variants == [variants[0]] + variants[1..];
    }
  }

  const VariantNameRequired := "Variant name is required"
  const CategoryFirst := "Please select a category first"
  const FillRequired := "Please fill all required fields!"
  const VariantRequired := "Please add at least one product variant!"

  /** The submit checks: the three required fields, then at least one
      variant. */
  function SubmitError(productName: string, category: string, price: string, variants: seq<FormVariant>): (r: Option<string>)
    ensures r.None? <==> productName != "" && category != "" && price != "" && |variants| > 0
    ensures (productName == "" || category == "" || price == "") ==> r == Some(FillRequired)
    ensures productName != "" && category != "" && price != "" && |variants| == 0 ==> r == Some(VariantRequired)
  {
    if productName == "" || category == "" || price == "" then Some(FillRequired)
    else if |variants| == 0 then Some(VariantRequired)
    else None
  }

  /** A draft field the variant inputs change. */
  datatype DraftField = DraftName | DraftDescription | DraftAdditionalPrice | DraftStock

  /** The form state the variant handlers change. The fields of the product
      itself are held as the text of their inputs. */
  class ProductFormState {
    var productName: string
    var category: string
    var price: string
    var variants: seq<FormVariant>
    var newVariant: VariantDraft

    constructor ()
      ensures productName == "" && category == "" && price == ""
      ensures variants == [] && newVariant == EmptyDraft
    {
      productName, category, price := "", "", "";
      variants := [];
      newVariant := EmptyDraft;
    }

    /** `handleVariantChange`: the price and stock inputs go through
        `parseFloat`, given as `parse`. */
    method HandleVariantChange(field: DraftField, value: string, parse: string -> real)
      modifies this
      ensures newVariant == match field
        case DraftName => old(newVariant).(name := value)
        case DraftDescription => old(newVariant).(description := value)
        case DraftAdditionalPrice => old(newVariant).(additionalPrice := parse(value))
        case DraftStock => old(newVariant).(stock := parse(value))
      ensures variants == old(variants) && category == old(category)
    {
      match field
      case DraftName => newVariant := newVariant.(name := value);
      case DraftDescription => newVariant := newVariant.(description := value);
      case DraftAdditionalPrice => newVariant := newVariant.(additionalPrice := parse(value));
      case DraftStock => newVariant := newVariant.(stock := parse(value));
    }

    /** `addVariant`, with `now` the id `Date.now()` gives: an unnamed draft
        is refused and nothing changes; otherwise the draft is appended with
        that id and the draft is cleared. */
    method AddVariant(now: int) returns (error: Option<string>)
      modifies this
      ensures old(newVariant.name) == "" ==>
        error == Some(VariantNameRequired) && variants == old(variants) && newVariant == old(newVariant)
      ensures old(newVariant.name) != "" ==>
        error.None? && variants == old(variants) + [FromDraft(old(newVariant), now)] && newVariant == EmptyDraft
      ensures productName == old(productName) && category == old(category) && price == old(price)
    {
      if newVariant.name == "" {
        return Some(VariantNameRequired);
      }
      variants := variants + [FromDraft(newVariant, now)];
      newVariant := EmptyDraft;
      error := None;
    }

    /** `removeVariant` */
    method RemoveVariant(id: int)
      modifies this
      ensures variants == WithoutId(old(variants), id)
      ensures newVariant == old(newVariant) && category == old(category)
    {
      variants := WithoutId(variants, id);
    }

    /** `generateDefaultVariants`: refused without a category, otherwise the
        list becomes the category's table. */
    method GenerateDefaultVariants(now: int) returns (error: Option<string>)
      modifies this
      ensures category == "" ==> error == Some(CategoryFirst) && variants == old(variants)
      ensures category != "" ==> error.None? && variants == Instantiate(TableFor(category), now)
      ensures newVariant == old(newVariant) && category == old(category)
    {
      if category == "" {
        return Some(CategoryFirst);
      }
      variants := Instantiate(TableFor(category), now);
      error := None;
    }

    /** `handleSubmit`'s checks; `None` means the form is sent. */
    method HandleSubmit() returns (error: Option<string>)
      ensures error == SubmitError(productName, category, price, variants)
    {
      if productName == "" || category == "" || price == "" {
        return Some(FillRequired);
      }
      if |variants| == 0 {
        return Some(VariantRequired);
      }
      return None;
    }
  }

  /** One image reference made into a preview path: a local name is put
      under '/uploads/products/' unless it is already under '/uploads/';
      a missing or empty one becomes "". */
  function PreviewOf(image: Option<string>): (r: string)
    ensures r == "" <==> !Truthy(image)
    ensures Truthy(image) && (StartsWith(image.value, "http") || StartsWith(image.value, "/uploads/")) ==> r == image.value
    ensures Truthy(image) && !StartsWith(image.value, "http") && !StartsWith(image.value, "/uploads/")
            ==> r == "/uploads/products/" + image.value
  {
    if Truthy(image) && !StartsWith(image.value, "http") then
      (if StartsWith(image.value, "/uploads/") then image.value else "/uploads/products/" + image.value)
    else if image.Some? then image.value else ""
  }

  /** The images the stored `imgUrl` lists: a JSON array text gives its
      elements (none when it is empty or when parsing fails gives the text
      itself), another text is one image, an array is taken as it is. */
  function PreviewImages(imgUrl: ImageUtils.ImageField, parse: string -> JsonArray): (r: seq<Option<string>>)
    ensures imgUrl.Text? && !StartsWith(imgUrl.text, "[") ==> r == [Some(imgUrl.text)]
    ensures imgUrl.Text? && StartsWith(imgUrl.text, "[") && parse(imgUrl.text).ParseError? ==> r == [Some(imgUrl.text)]
    ensures imgUrl.Text? && StartsWith(imgUrl.text, "[") && parse(imgUrl.text).Parsed? ==> r == parse(imgUrl.text).items
    ensures imgUrl.List? ==> r == imgUrl.items
    ensures imgUrl.Absent? ==> r == []
  {
    match imgUrl
    case Absent => []
    case Text(s) =>
      if StartsWith(s, "[") then
        match parse(s)
        case ParseError => [Some(s)]
        case Parsed(items) => if |items| > 0 then items else []
      else [Some(s)]
    case List(items) => items
  }

  /** The preview list: each image made into a path, empty ones dropped.
      `None` when the product has no truthy `imgUrl` and the previews are
      left as they were. */
  function ImagePreviews(imgUrl: ImageUtils.ImageField, parse: string -> JsonArray): (r: Option<seq<string>>)
    ensures r.None? <==> imgUrl.Absent? || imgUrl == ImageUtils.Text("")
  {
    if imgUrl.Absent? || imgUrl == ImageUtils.Text("") then None
    else
      var images := PreviewImages(imgUrl, parse);
      Some(Filter(seq(|images|, i requires 0 <= i < |images| => PreviewOf(images[i])), (u: string) => u != ""))
  }

  /** Every preview is a full URL or a path under '/uploads/'. */
  lemma PreviewsShape(imgUrl: ImageUtils.ImageField, parse: string -> JsonArray, u: string)
    requires ImagePreviews(imgUrl, parse).Some? && u in ImagePreviews(imgUrl, parse).value
    ensures StartsWith(u, "http") || StartsWith(u, "/uploads/")
  {
    var images := PreviewImages(imgUrl, parse);
    var mapped := seq(|images|, i requires 0 <= i < |images| => PreviewOf(images[i]));
    FilterMembership(mapped, (u: string) => u != "", u);
    var i :| 0 <= i < |mapped| && mapped[i] == u;
    PreviewOfShape(images[i]);
  }

  /** A non-empty preview is a full URL or a path under '/uploads/'. */
  lemma PreviewOfShape(image: Option<string>)
    ensures PreviewOf(image) != "" ==> StartsWith(PreviewOf(image), "http") || StartsWith(PreviewOf(image), "/uploads/")
  {
    if Truthy(image) && !StartsWith(image.value, "http") && !StartsWith(image.value, "/uploads/") {
      assert "/uploads/products/" + image.value == "/uploads/" + ("products/" + image.value);
    }
  }

  /** A non-empty image is never dropped: there is one preview per truthy
      image, in order. */
  lemma {:induction false} PreviewsKeepTruthy(images: seq<Option<string>>)
    ensures var mapped := seq(|images|, i requires 0 <= i < |images| => PreviewOf(images[i]));
      |Filter(mapped, (u: string) => u != "")| == |Filter(images, Truthy)|
    decreases |images|
  {
    var mapped := seq(|images|, i requires 0 <= i < |images| => PreviewOf(images[i]));
    if |images| > 0 {
      var rest := images[1..];
      var mappedRest := seq(|rest|, i requires 0 <= i < |rest| => PreviewOf(rest[i]));
      assert mapped[1..] == mappedRest;
      PreviewsKeepTruthy(rest);
    }
  }

  /** For a bare file name the preview is the path `processImageUrl` gives. */
  lemma PreviewAgreesWithProcessImageUrl(name: string)
    requires name != "" && name != "null" && name[0] != '/' && !StartsWith(name, "http")
    ensures PreviewOf(Some(name)) == ImageUtils.ProcessImageUrl(Some(name))
  {
  }
}
