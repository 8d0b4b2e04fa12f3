/** The shared image-path helpers: `processImageUrl` maps a stored image
    reference to a path the browser can load, and `getImageUrl` first picks
    the image out of a JSON array, an array or a plain string. */
module ImageUtils {
  import opened Common

  const Placeholder := "/placeholder.png"

  /** No two consecutive '/' characters. */
  predicate NoDoubleSlash(s: string) {
    forall i :: 0 <= i < |s| - 1 ==> !(s[i] == '/' && s[i + 1] == '/')
  }

  /** `s.replace(/\/+/g, '/')`: every run of '/' becomes a single '/'. */
  function CollapseSlashes(s: string): (r: string)
    ensures |r| <= |s|
    ensures |s| > 0 ==> |r| > 0 && r[0] == s[0]
    ensures NoDoubleSlash(r)
    decreases |s|
  {
    if |s| == 0 then ""
    else if |s| >= 2 && s[0] == '/' && s[1] == '/' then CollapseSlashes(s[1..])
    else [s[0]] + CollapseSlashes(s[1..])
  }

  /** A string without runs of '/' is left as it is, so collapsing twice is
      collapsing once. */
  lemma {:induction false} CollapseSlashesFixpoint(s: string)
    requires NoDoubleSlash(s)
    ensures CollapseSlashes(s) == s
    decreases |s|
  {
    if |s| > 0 {
      assert NoDoubleSlash(s[1..]) by {
        forall i | 0 <= i < |s[1..]| - 1 ensures !(s[1..][i] == '/' && s[1..][i + 1] == '/') {
          assert s[1..][i] == s[i + 1] && s[1..][i + 1] == s[i + 2];
        }
      }
      CollapseSlashesFixpoint(s[1..]);
      if |s| >= 2 {
        assert !(s[0] == '/' && s[1] == '/');
      }
    }
  }

  lemma CollapseSlashesIdempotent(s: string)
    ensures CollapseSlashes(CollapseSlashes(s)) == CollapseSlashes(s)
  {
    CollapseSlashesFixpoint(CollapseSlashes(s));
  }

  /** Doubling a '/' changes nothing after collapsing. With
      `CollapseSlashesFixpoint` this pins the function down: it removes
      exactly the surplus '/' of each run and keeps everything else. */
  lemma {:induction false} CollapseSlashesMerge(p: string, q: string)
    ensures CollapseSlashes(p + "//" + q) == CollapseSlashes(p + "/" + q)
    decreases |p|
  {
    var t := p + "//" + q;
    var t' := p + "/" + q;
    if |p| == 0 {
      assert t[1..] == t';
    } else {
      assert t[1..] == p[1..] + "//" + q;
      assert t'[1..] == p[1..] + "/" + q;
      assert t[0] == t'[0] == p[0];
      assert t[1] == t'[1];
      CollapseSlashesMerge(p[1..], q);
    }
  }

  /** A prefix without runs of '/' that does not end in '/' passes through
      collapsing unchanged. */
  lemma {:induction false} CollapseSlashesAppend(p: string, s: string)
    requires |p| > 0 && p[|p| - 1] != '/' && NoDoubleSlash(p)
    ensures CollapseSlashes(p + s) == p + CollapseSlashes(s)
    decreases |p|
  {
    var t := p + s;
    assert t[1..] == p[1..] + s;
    if |p| == 1 {
      assert p[0] != '/';
    } else {
      assert !(t[0] == '/' && t[1] == '/') by { assert t[0] == p[0] && t[1] == p[1]; }
      assert NoDoubleSlash(p[1..]) by {
        forall i | 0 <= i < |p[1..]| - 1 ensures !(p[1..][i] == '/' && p[1..][i + 1] == '/') {
          assert p[1..][i] == p[i + 1] && p[1..][i + 1] == p[i + 2];
        }
      }
      CollapseSlashesAppend(p[1..], s);
      assert p == [p[0]] + p[1..];
    }
  }

  /** `processImageUrl` */
  function ProcessImageUrl(imgUrl: Option<string>): (r: string)
    ensures !Truthy(imgUrl) || imgUrl.value == "null" ==> r == Placeholder
    ensures (Truthy(imgUrl) && imgUrl.value != "null"
             && (StartsWith(imgUrl.value, "http") || StartsWith(imgUrl.value, "/uploads/")))
            ==> r == imgUrl.value
  {
    if !Truthy(imgUrl) || imgUrl.value == "null" then Placeholder
    else
      var u := imgUrl.value;
      if StartsWith(u, "http") then u
      else if StartsWith(u, "/uploads/") then u
      else if StartsWith(u, "/products/") then CollapseSlashes("/uploads" + u)
      else "/uploads/products/" + (if |u| > 0 && u[0] == '/' then u[1..] else u)
  }

  /** '/products/…' is served from '/uploads/products/…', with every run of
      '/' collapsed. */
  lemma ProductsPathMovedToUploads(u: string)
    requires StartsWith(u, "/products/")
    ensures StartsWith(ProcessImageUrl(Some(u)), "/uploads/products/")
    ensures NoDoubleSlash(ProcessImageUrl(Some(u)))
    ensures ProcessImageUrl(Some(u)) == "/uploads/products" + CollapseSlashes(u[9..])
  {
    var rest := u[|"/products"|..];
    assert u == "/products" + rest;
    assert "/uploads" + u == "/uploads/products" + rest;
    CollapseSlashesAppend("/uploads/products", rest);
    assert rest[0] == '/';
  }

  /** A file under '/products/' keeps its name and sub-path, with its runs
      of '/' collapsed, under '/uploads/products/'. */
  lemma ProductsFileMovedToUploads(u: string)
    requires StartsWith(u, "/products/") && (|u| == 10 || u[10] != '/')
    ensures ProcessImageUrl(Some(u)) == "/uploads/products/" + CollapseSlashes(u[10..])
  {
    ProductsPathMovedToUploads(u);
    var n := u[10..];
    assert u[9..] == "/" + n by { assert u[9] == u[..10][9] == '/'; }
    LeadingSlashKept(n);
    assert "/uploads/products" + ("/" + CollapseSlashes(n)) == "/uploads/products/" + CollapseSlashes(n);
  }

  lemma LeadingSlashKept(n: string)
    requires |n| == 0 || n[0] != '/'
    ensures CollapseSlashes("/" + n) == "/" + CollapseSlashes(n)
  {
    assert ("/" + n)[1..] == n;
  }

  /** Any other path goes under '/uploads/products/', with one leading '/'
      removed. */
  lemma OtherPathUnderProducts(u: string)
    requires u != "" && u != "null"
    requires !StartsWith(u, "http") && !StartsWith(u, "/uploads/") && !StartsWith(u, "/products/")
    ensures ProcessImageUrl(Some(u)) == "/uploads/products/" + (if u[0] == '/' then u[1..] else u)
  {
  }

  /** Every result is the placeholder, a full URL or an uploads path. */
  lemma ProcessImageUrlShape(imgUrl: Option<string>)
    ensures var r := ProcessImageUrl(imgUrl);
      r == Placeholder || StartsWith(r, "http") || StartsWith(r, "/uploads/")
  {
    if Truthy(imgUrl) && imgUrl.value != "null" && StartsWith(imgUrl.value, "/products/")
      && !StartsWith(imgUrl.value, "http") && !StartsWith(imgUrl.value, "/uploads/") {
      ProductsPathMovedToUploads(imgUrl.value);
    }
  }

  /** A processed path other than the placeholder is processed to itself. */
  lemma ProcessImageUrlStable(imgUrl: Option<string>)
    requires ProcessImageUrl(imgUrl) != Placeholder
    ensures ProcessImageUrl(Some(ProcessImageUrl(imgUrl))) == ProcessImageUrl(imgUrl)
  {
    ProcessImageUrlShape(imgUrl);
    var r := ProcessImageUrl(imgUrl);
    assert r != "" && r != "null" by {
      if StartsWith(r, "http") { assert r[0] == 'h'; } else { assert r[0] == '/'; }
    }
  }

  /** The placeholder is the one result that does not survive a second
      pass: it is taken for a bare file name and moved under
      '/uploads/products/'. */
  lemma PlaceholderNotStable()
    ensures ProcessImageUrl(Some(Placeholder)) == "/uploads/products/placeholder.png"
    ensures ProcessImageUrl(Some(ProcessImageUrl(None))) != ProcessImageUrl(None)
  {
    BareFileMoved(Placeholder);
    assert Placeholder[1..] == "placeholder.png";
  }

  /** A path of one '/' and a name that is neither under 'uploads' nor
      under 'products' is a bare file name, moved under '/uploads/products/'. */
  lemma BareFileMoved(u: string)
    requires |u| > 2 && u[0] == '/' && u[1] != 'u' && u[1] != '/' && u[2] != 'r'
    ensures ProcessImageUrl(Some(u)) == "/uploads/products/" + u[1..]
  {
    assert u != "null" by { assert u[0] != "null"[0]; }
    assert !StartsWith(u, "http") by { assert u[0] != "http"[0]; }
    assert !StartsWith(u, "/uploads/") by { assert u[1] != "/uploads/"[1]; }
    assert !StartsWith(u, "/products/") by { assert u[2] != "/products/"[2]; }
    OtherPathUnderProducts(u);
  }

  /** An image field as stored on a product: missing, a string (possibly a
      JSON array), or an array of image references. */
  datatype ImageField = Absent | Text(text: string) | List(items: seq<Option<string>>)

  /** `getImageUrl`. `parse` is the outcome of `JSON.parse` on a text. An empty
      array reaches `processImageUrl`, which throws on it; the handler then
      answers the placeholder. */
  function GetImageUrl(src: ImageField, parse: string -> JsonArray): (r: string)
    ensures src.Absent? || src == Text("") ==> r == Placeholder
    ensures src.List? && |src.items| == 0 ==> r == Placeholder
    ensures src.List? && |src.items| > 0 ==> r == ProcessImageUrl(src.items[0])
    ensures src.Text? && src.text != "" && !StartsWith(src.text, "[") ==> r == ProcessImageUrl(Some(src.text))
    ensures src.Text? && StartsWith(src.text, "[") && parse(src.text).ParseError? ==> r == ProcessImageUrl(Some(src.text))
    ensures src.Text? && StartsWith(src.text, "[") && parse(src.text).Parsed? ==>
      r == (if |parse(src.text).items| > 0 then ProcessImageUrl(parse(src.text).items[0]) else Placeholder)
  {
    match src
    case Absent => Placeholder
    case Text(s) =>
      if s == "" then Placeholder
      else if StartsWith(s, "[") then
        match parse(s)
        case ParseError => ProcessImageUrl(Some(s))
        case Parsed(items) => if |items| > 0 && Truthy(items[0]) then ProcessImageUrl(items[0]) else Placeholder
      else ProcessImageUrl(Some(s))
    case List(items) =>
      if |items| > 0 && Truthy(items[0]) then ProcessImageUrl(items[0]) else Placeholder
  }

  /** Whatever the stored form, the image shown is the placeholder, a full
      URL or an uploads path. */
  lemma GetImageUrlShape(src: ImageField, parse: string -> JsonArray)
    ensures var r := GetImageUrl(src, parse);
      r == Placeholder || StartsWith(r, "http") || StartsWith(r, "/uploads/")
  {
    match src
    case Absent =>
    case Text(s) =>
      ProcessImageUrlShape(Some(s));
      if StartsWith(s, "[") && parse(s).Parsed? && |parse(s).items| > 0 {
        ProcessImageUrlShape(parse(s).items[0]);
      }
    case List(items) =>
      if |items| > 0 { ProcessImageUrlShape(items[0]); }
  }
}
