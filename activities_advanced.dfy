/** Two catalogue activities whose processing is still a placeholder: the image step maps
    each image URL to a path under `processed/` named after the URL's last segment, and the
    SEO step builds a meta title and description around the product name. */
module Activities {
  import opened Common

  /** The last element of a non-empty list (`xs[-1]`). */
  function LastOf(parts: seq<string>): string
    requires parts != []
  {
    parts[|parts| - 1]
  }

  /** `url.split("/")[-1]`: the text after the last `/` of the URL. */
  function LastSegment(url: string): (seg: string)
    ensures '/' !in seg
    ensures '/' !in url ==> seg == url
  {
    var parts := Split(url, '/');
    assert '/' !in parts[|parts| - 1];
    LastOf(parts)
  }

  /** Joining splits off the last part behind the last separator. */
  lemma {:induction false} JoinLast(parts: seq<string>, sep: string)
    requires |parts| >= 2
    ensures Join(parts, sep) == Join(parts[..|parts| - 1], sep) + sep + parts[|parts| - 1]
    decreases |parts|
  {
    var n := |parts|;
    if n > 2 {
      JoinLast(parts[1..], sep);
      assert parts[1..][..n - 2] == parts[..n - 1][1..];
      assert parts[1..][n - 2] == parts[n - 1];
    }
  }

  lemma SegmentAfterSeparator(whole: string, prefix: string, seg: string, sep: char)
    requires whole == prefix + [sep] + seg
    ensures EndsWith(whole, seg) && whole[|whole| - |seg| - 1] == sep
  {
    assert whole[|whole| - |seg|..] == seg;
  }

  /** The last of the parts a string joins from ends the string, whole or after a
      separator. */
  lemma LastOfJoin(s: string, parts: seq<string>, sep: char)
    requires parts != [] && Join(parts, [sep]) == s
    ensures EndsWith(s, LastOf(parts))
    ensures LastOf(parts) == s || s[|s| - |LastOf(parts)| - 1] == sep
  {
    if |parts| == 1 {
      assert s[|s| - |s|..] == s;
    } else {
      JoinLast(parts, [sep]);
      SegmentAfterSeparator(s, Join(parts[..|parts| - 1], [sep]), parts[|parts| - 1], sep);
    }
  }

  /** The last segment ends the URL and is either the whole URL or preceded by a `/`. */
  lemma LastSegmentSpec(url: string)
    ensures EndsWith(url, LastSegment(url))
    ensures LastSegment(url) == url || url[|url| - |LastSegment(url)| - 1] == '/'
  {
    JoinSplit(url, '/');
    LastOfJoin(url, Split(url, '/'), '/');
  }

  /** The path one image URL is processed to. */
  function ProcessedPath(url: string): string {
    "processed/" + LastSegment(url)
  }

  /** A processed path is `processed/` followed by a name free of `/` that ends the URL;
      for a URL without `/` it is `processed/` followed by the whole URL. */
  lemma ProcessedPathSpec(url: string)
    ensures var p := ProcessedPath(url);
            && StartsWith(p, "processed/")
            && '/' !in p[|"processed/"|..]
            && EndsWith(url, p[|"processed/"|..])
            && ('/' !in url ==> p == "processed/" + url)
  {
    LastSegmentSpec(url);
    var p := ProcessedPath(url);
    assert p[..|"processed/"|] == "processed/";
    assert p[|"processed/"|..] == LastSegment(url);
  }

  /** `process_product_images`: one path per URL, in the same order. */
  method ProcessProductImages(imageUrls: seq<string>) returns (paths: seq<string>)
    ensures |paths| == |imageUrls|
    ensures forall i :: 0 <= i < |imageUrls| ==> paths[i] == ProcessedPath(imageUrls[i])
  {
    paths := [];
    for i := 0 to |imageUrls|
      invariant |paths| == i
      invariant forall j :: 0 <= j < i ==> paths[j] == ProcessedPath(imageUrls[j])
    {
      paths := paths + [ProcessedPath(imageUrls[i])];
    }
  }

  /** `product_data.get("name", "Product")` as it reads inside an f-string. */
  function ProductName(productData: map<string, Value>, render: Render): (n: string)
    ensures "name" !in productData ==> n == "Product"
    ensures "name" in productData && productData["name"].VStr? ==> n == productData["name"].s
  {
    PyStr(Get(productData, "name", VStr("Product")), render)
  }

  /** `generate_seo_content`. */
  function GenerateSeoContent(productData: map<string, Value>, render: Render): (seo: map<string, string>)
    ensures seo.Keys == {"meta_title", "meta_description"}
  {
    var name := ProductName(productData, render);
    map["meta_title" := "Buy " + name + " Online",
        "meta_description" := "Best price for " + name + " at Traverse."]
  }

  /** The title and the description frame the product name, which can be read back from
      either; without a name both speak of `Product`. */
  lemma SeoContentSpec(productData: map<string, Value>, render: Render)
    ensures var seo := GenerateSeoContent(productData, render);
            var name := ProductName(productData, render);
            var t := seo["meta_title"];
            var d := seo["meta_description"];
            && StartsWith(t, "Buy ") && EndsWith(t, " Online")
            && t[|"Buy "|..|t| - |" Online"|] == name
            && StartsWith(d, "Best price for ") && EndsWith(d, " at Traverse.")
            && d[|"Best price for "|..|d| - |" at Traverse."|] == name
    ensures "name" !in productData ==>
              GenerateSeoContent(productData, render)["meta_title"] == "Buy Product Online"
  {
    var seo := GenerateSeoContent(productData, render);
    var name := ProductName(productData, render);
    var t := seo["meta_title"];
    var d := seo["meta_description"];
    assert t == "Buy " + name + " Online";
    assert t[..|"Buy "|] == "Buy ";
    assert t[|t| - |" Online"|..] == " Online";
    assert d == "Best price for " + name + " at Traverse.";
    assert d[..|"Best price for "|] == "Best price for ";
    assert d[|d| - |" at Traverse."|..] == " at Traverse.";
    if "name" !in productData {
      assert "Buy " + "Product" + " Online" == "Buy Product Online";
    }
  }
}
