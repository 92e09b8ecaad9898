/** `scripts/build-static.js`: renders every page template of `src/pages` with its data
    into a clean-URL file of `dist`, then writes the sitemap and robots.txt. File reads,
    directory listings, the Vite manifest and Handlebars rendering are arguments; a read
    or parse that fails is `None`. */
module BuildStatic {
  import opened Strings
  import opened Handlebars

  /** `readJsonFile`: the parsed object, or `{}` when the file cannot be read or parsed. */
  function ReadJsonFile(file: Option<Data>): (data: Data)
    ensures file.None? ==> data == map[]
    ensures file.Some? ==> data == file.value
  {
    if file.Some? then file.value else map[]
  }

  /** `readTemplateFile`: the text, or '' when the file cannot be read. */
  function ReadTemplateFile(file: Option<string>): (text: string)
    ensures file.None? ==> text == ""
    ensures file.Some? ==> text == file.value
  {
    if file.Some? then file.value else ""
  }

  // ---------------------------------------------------------------------------------
  // Partials

  /** The `.html` entries of a listing, in listing order. */
  function HtmlFiles(files: seq<string>): (html: seq<string>)
    ensures |html| <= |files|
    ensures forall f :: f in html <==> f in files && IsSuffix(".html", f)
  {
    if files == [] then []
    else
      var init := HtmlFiles(files[..|files| - 1]);
      var last := files[|files| - 1];
      assert files == files[..|files| - 1] + [last];
      if IsSuffix(".html", last) then init + [last] else init
  }

  /** Filtering a listing split in two filters each part and keeps them in order, so the
      kept names keep the listing's order. */
  lemma {:induction false} HtmlFilesConcat(a: seq<string>, b: seq<string>)
    ensures HtmlFiles(a + b) == HtmlFiles(a) + HtmlFiles(b)
    decreases |b|
  {
    if b != [] {
      var init := b[..|b| - 1];
      HtmlFilesConcat(a, init);
      assert (a + b)[..|a + b| - 1] == a + init;
    }
    else {
      assert a + b == a;
    }
  }

  /** A single name is kept exactly when it ends in `.html`. */
  lemma HtmlFilesOne(f: string)
    ensures HtmlFiles([f]) == if IsSuffix(".html", f) then [f] else []
  {
    assert [f][..0] == [];
  }

  /** The partials `registerPartials` registers from the listed `.html` files: each under
      its name without `.html`, a later file replacing an earlier one of the same name. */
  function PartialsOf(dir: string, files: seq<string>, read: string -> Option<string>): map<string, string> {
    if files == [] then map[]
    else
      var f := files[|files| - 1];
      PartialsOf(dir, files[..|files| - 1], read)[BasenameWithout(f, ".html") := ReadTemplateFile(read(PathJoin(dir, f)))]
  }

  /** Every listed component has a partial under its name, and every partial comes from a
      listed component. */
  lemma {:induction false} PartialsOfNames(dir: string, files: seq<string>, read: string -> Option<string>)
    ensures forall f :: f in files ==> BasenameWithout(f, ".html") in PartialsOf(dir, files, read)
    ensures forall name :: name in PartialsOf(dir, files, read) ==>
      exists f :: f in files && BasenameWithout(f, ".html") == name
  {
    if files != [] {
      var init := files[..|files| - 1];
      PartialsOfNames(dir, init, read);
      assert files == init + [files[|files| - 1]];
    }
  }

  /** The partial of the last file named `name` is that file's text. */
  lemma {:induction false} PartialsOfLastWins(dir: string, files: seq<string>, read: string -> Option<string>, k: nat)
    requires k < |files|
    requires forall j :: k < j < |files| ==> BasenameWithout(files[j], ".html") != BasenameWithout(files[k], ".html")
    ensures BasenameWithout(files[k], ".html") in PartialsOf(dir, files, read)
    ensures PartialsOf(dir, files, read)[BasenameWithout(files[k], ".html")] == ReadTemplateFile(read(PathJoin(dir, files[k])))
  {
    if k < |files| - 1 {
      var init := files[..|files| - 1];
      assert forall j :: k < j < |init| ==> init[j] == files[j];
      PartialsOfLastWins(dir, init, read, k);
    }
  }

  lemma UnionUpdate(a: map<string, string>, b: map<string, string>, k: string, v: string)
    ensures (a + b)[k := v] == a + b[k := v]
  {
  }

  lemma PartialsOfStep(dir: string, files: seq<string>, i: nat, read: string -> Option<string>)
    requires i < |files|
    ensures PartialsOf(dir, files[..i + 1], read)
      == PartialsOf(dir, files[..i], read)[BasenameWithout(files[i], ".html") := ReadTemplateFile(read(PathJoin(dir, files[i])))]
  {
    assert files[..i + 1][..i] == files[..i] && files[..i + 1][i] == files[i];
  }

  /** `registerPartials`: every `.html` file of the components directory becomes a partial;
      a missing directory registers nothing. */
  method RegisterPartials(componentsDir: string, listing: Option<seq<string>>, read: string -> Option<string>,
                          registry: Registry)
    modifies registry
    ensures listing.None? ==> registry.partials == old(registry.partials)
    ensures listing.Some? ==>
      registry.partials == old(registry.partials) + PartialsOf(componentsDir, HtmlFiles(listing.value), read)
    ensures registry.helpers == old(registry.helpers)
  {
    if listing.None? {
      return;
    }
    var componentFiles := HtmlFiles(listing.value);
    for i := 0 to |componentFiles|
      invariant registry.partials == old(registry.partials) + PartialsOf(componentsDir, componentFiles[..i], read)
      invariant registry.helpers == old(registry.helpers)
    {
      var file := componentFiles[i];
      var componentName := BasenameWithout(file, ".html");
      var componentContent := ReadTemplateFile(read(PathJoin(componentsDir, file)));
      PartialsOfStep(componentsDir, componentFiles, i, read);
      UnionUpdate(old(registry.partials), PartialsOf(componentsDir, componentFiles[..i], read), componentName, componentContent);
      registry.RegisterPartial(componentName, componentContent);
    }
    assert componentFiles[..|componentFiles|] == componentFiles;
  }

  // ---------------------------------------------------------------------------------
  // Meta tags

  /** The `name` of a `<meta name=...>` tag of the head. */
  datatype MetaName = Viewport | Description | Robots | Author | Keywords

  /** The `property` of a `<meta property=...>` tag of the head. */
  datatype MetaProperty =
    | OgType | OgUrl | OgTitle | OgDescription | OgImage
    | TwitterCard | TwitterUrl | TwitterTitle | TwitterDescription | TwitterImage

  function NameText(n: MetaName): string {
    match n
    case Viewport => "viewport"
    case Description => "description"
    case Robots => "robots"
    case Author => "author"
    case Keywords => "keywords"
  }

  function PropertyText(p: MetaProperty): string {
    match p
    case OgType => "og:type"
    case OgUrl => "og:url"
    case OgTitle => "og:title"
    case OgDescription => "og:description"
    case OgImage => "og:image"
    case TwitterCard => "twitter:card"
    case TwitterUrl => "twitter:url"
    case TwitterTitle => "twitter:title"
    case TwitterDescription => "twitter:description"
    case TwitterImage => "twitter:image"
  }

  /** One line of the head fragment `generateMetaTags` writes. A conditional tag that is
      left out leaves an empty line (`Blank`). */
  datatype HeadTag =
    | Charset(charset: string)
    | NamedMeta(name: MetaName, content: string)
    | PropertyMeta(property: MetaProperty, content: string)
    | Title(text: string)
    | Comment(text: string)
    | Canonical(href: string)
    | Blank

  function RenderTag(t: HeadTag): string {
    match t
    case Charset(c) => "<meta charset=\"" + c + "\">"
    case NamedMeta(n, c) => "<meta name=\"" + NameText(n) + "\" content=\"" + c + "\">"
    case PropertyMeta(p, c) => "<meta property=\"" + PropertyText(p) + "\" content=\"" + c + "\">"
    case Title(t) => "<title>" + t + "</title>"
    case Comment(t) => "<!-- " + t + " -->"
    case Canonical(h) => "<link rel=\"canonical\" href=\"" + h + "\">"
    case Blank => ""
  }

  const DefaultSiteName := "My Website"
  const DefaultDescription := "Welcome to our website"

  /** `globalData.siteName || 'My Website'`. */
  function SiteName(global: Data): JsValue {
    Or(Get(global, "siteName"), JStr(DefaultSiteName))
  }

  /** The page title followed by the site name, or the site name alone. */
  function MetaTitle(page: Data, global: Data): (title: string)
    ensures IsSuffix(ToText(SiteName(global)), title)
    ensures Handlebars.Truthy(Get(page, "title")) ==> IsPrefix(ToText(Get(page, "title")) + " | ", title)
    ensures Handlebars.Truthy(Get(page, "title")) ==>
      |title| == |ToText(Get(page, "title"))| + 3 + |ToText(SiteName(global))|
    ensures !Handlebars.Truthy(Get(page, "title")) ==> title == ToText(SiteName(global))
  {
    var siteName := ToText(SiteName(global));
    var pageTitle := Get(page, "title");
    if Handlebars.Truthy(pageTitle) then
      SuffixOfConcat(ToText(pageTitle) + " | ", siteName);
      ToText(pageTitle) + " | " + siteName
    else siteName
  }

  /** The description falls back from the page to the global data to a fixed text. */
  function MetaDescription(page: Data, global: Data): (description: JsValue)
    ensures Handlebars.Truthy(Get(page, "description")) ==> description == Get(page, "description")
    ensures !Handlebars.Truthy(Get(page, "description")) && Handlebars.Truthy(Get(global, "description")) ==>
      description == Get(global, "description")
    ensures !Handlebars.Truthy(Get(page, "description")) && !Handlebars.Truthy(Get(global, "description")) ==>
      description == JStr(DefaultDescription)
  {
    Or(Or(Get(page, "description"), Get(global, "description")), JStr(DefaultDescription))
  }

  /** `pageData.url || ''`. */
  function MetaUrl(page: Data): string {
    ToText(Or(Get(page, "url"), JStr("")))
  }

  /** `pageData.image || globalData.defaultImage || ''`. */
  function MetaImage(page: Data, global: Data): (image: JsValue)
    ensures Handlebars.Truthy(image) <==>
      Handlebars.Truthy(Get(page, "image")) || Handlebars.Truthy(Get(global, "defaultImage"))
  {
    Or(Get(page, "image"), Or(Get(global, "defaultImage"), JStr("")))
  }

  /** `${v ? ... : ''}`: the text of a value that is written only when truthy. */
  function Shown(v: JsValue): (r: Option<string>)
    ensures r.Some? <==> Handlebars.Truthy(v)
    ensures r.Some? ==> r.value == ToText(v)
  {
    if Handlebars.Truthy(v) then Some(ToText(v)) else None
  }

  function PrimaryTags(title: string, description: string): seq<HeadTag> {
    [Charset("UTF-8"),
     NamedMeta(Viewport, "width=device-width, initial-scale=1.0"),
     Title(title),
     NamedMeta(Description, description)]
  }

  function OpenGraphTags(url: string, title: string, description: string, image: Option<string>): seq<HeadTag> {
    [Blank,
     Comment("Open Graph / Facebook"),
     PropertyMeta(OgType, "website"),
     PropertyMeta(OgUrl, url),
     PropertyMeta(OgTitle, title),
     PropertyMeta(OgDescription, description),
     if image.Some? then PropertyMeta(OgImage, image.value) else Blank]
  }

  function TwitterTags(url: string, title: string, description: string, image: Option<string>): seq<HeadTag> {
    [Blank,
     Comment("Twitter"),
     PropertyMeta(TwitterCard, "summary_large_image"),
     PropertyMeta(TwitterUrl, url),
     PropertyMeta(TwitterTitle, title),
     PropertyMeta(TwitterDescription, description),
     if image.Some? then PropertyMeta(TwitterImage, image.value) else Blank]
  }

  function SeoTags(author: string, keywords: Option<string>): seq<HeadTag> {
    [Blank,
     Comment("Additional SEO"),
     NamedMeta(Robots, "index, follow"),
     NamedMeta(Author, author),
     if keywords.Some? then NamedMeta(Keywords, keywords.value) else Blank]
  }

  function CanonicalTags(url: string): seq<HeadTag> {
    [Blank,
     Comment("Canonical URL"),
     Canonical(url)]
  }

  /** The head's tags, in the order the head lists them, from the values they show. */
  function HeadTags(title: string, description: string, url: string, image: Option<string>, author: string,
                    keywords: Option<string>): seq<HeadTag> {
    PrimaryTags(title, description)
    + OpenGraphTags(url, title, description, image)
    + TwitterTags(url, title, description, image)
    + SeoTags(author, keywords)
    + CanonicalTags(url)
  }

  /** The tags of `generateMetaTags`, line by line. */
  function MetaTags(page: Data, global: Data): seq<HeadTag> {
    HeadTags(MetaTitle(page, global), ToText(MetaDescription(page, global)), MetaUrl(page), Shown(MetaImage(page, global)),
             ToText(Or(Get(global, "author"), JStr(""))), Shown(Get(page, "keywords")))
  }

  predicate HasProperty(tags: seq<HeadTag>, p: MetaProperty) {
    exists t :: t in tags && t.PropertyMeta? && t.property == p
  }

  predicate HasName(tags: seq<HeadTag>, n: MetaName) {
    exists t :: t in tags && t.NamedMeta? && t.name == n
  }

  lemma HasPropertyAppend(a: seq<HeadTag>, b: seq<HeadTag>, p: MetaProperty)
    ensures HasProperty(a + b, p) <==> HasProperty(a, p) || HasProperty(b, p)
  {
    if HasProperty(a + b, p) {
      var t :| t in a + b && t.PropertyMeta? && t.property == p;
      assert t in a || t in b;
    }
    if HasProperty(a, p) {
      var t :| t in a && t.PropertyMeta? && t.property == p;
      assert t in a + b;
    }
    if HasProperty(b, p) {
      var t :| t in b && t.PropertyMeta? && t.property == p;
      assert t in a + b;
    }
  }

  lemma HasNameAppend(a: seq<HeadTag>, b: seq<HeadTag>, n: MetaName)
    ensures HasName(a + b, n) <==> HasName(a, n) || HasName(b, n)
  {
    if HasName(a + b, n) {
      var t :| t in a + b && t.NamedMeta? && t.name == n;
      assert t in a || t in b;
    }
    if HasName(a, n) {
      var t :| t in a && t.NamedMeta? && t.name == n;
      assert t in a + b;
    }
    if HasName(b, n) {
      var t :| t in b && t.NamedMeta? && t.name == n;
      assert t in a + b;
    }
  }

  lemma OpenGraphProperties(url: string, title: string, description: string, image: Option<string>, p: MetaProperty)
    ensures HasProperty(OpenGraphTags(url, title, description, image), p) <==>
      p in {OgType, OgUrl, OgTitle, OgDescription} || (p == OgImage && image.Some?)
  {
    var og := OpenGraphTags(url, title, description, image);
    if p in {OgType, OgUrl, OgTitle, OgDescription} || (p == OgImage && image.Some?) {
      var k := match p case OgType => 2 case OgUrl => 3 case OgTitle => 4 case OgDescription => 5 case _ => 6;
      assert og[k] in og;
    }
  }

  lemma TwitterProperties(url: string, title: string, description: string, image: Option<string>, p: MetaProperty)
    ensures HasProperty(TwitterTags(url, title, description, image), p) <==>
      p in {TwitterCard, TwitterUrl, TwitterTitle, TwitterDescription} || (p == TwitterImage && image.Some?)
  {
    var tw := TwitterTags(url, title, description, image);
    if p in {TwitterCard, TwitterUrl, TwitterTitle, TwitterDescription} || (p == TwitterImage && image.Some?) {
      var k := match p
        case TwitterCard => 2 case TwitterUrl => 3 case TwitterTitle => 4 case TwitterDescription => 5 case _ => 6;
      assert tw[k] in tw;
    }
  }

  lemma PrimaryNames(title: string, description: string, n: MetaName)
    ensures HasName(PrimaryTags(title, description), n) <==> n == Viewport || n == Description
  {
    var primary := PrimaryTags(title, description);
    if n == Viewport {
      assert primary[1] in primary;
    } else if n == Description {
      assert primary[3] in primary;
    }
  }

  lemma SeoNames(author: string, keywords: Option<string>, n: MetaName)
    ensures HasName(SeoTags(author, keywords), n) <==> n == Robots || n == Author || (n == Keywords && keywords.Some?)
  {
    var seo := SeoTags(author, keywords);
    if n == Robots || n == Author || (n == Keywords && keywords.Some?) {
      var k := if n == Robots then 2 else if n == Author then 3 else 4;
      assert seo[k] in seo;
    }
  }

  /** The primary, SEO and canonical sections have no `property` tag, and the Open Graph,
      Twitter and canonical sections no `name` tag. */
  lemma PrimaryHasNoProperty(title: string, description: string, p: MetaProperty)
    ensures !HasProperty(PrimaryTags(title, description), p)
  {
  }

  lemma SeoHasNoProperty(author: string, keywords: Option<string>, p: MetaProperty)
    ensures !HasProperty(SeoTags(author, keywords), p)
  {
  }

  lemma OpenGraphHasNoName(url: string, title: string, description: string, image: Option<string>, n: MetaName)
    ensures !HasName(OpenGraphTags(url, title, description, image), n)
  {
  }

  lemma TwitterHasNoName(url: string, title: string, description: string, image: Option<string>, n: MetaName)
    ensures !HasName(TwitterTags(url, title, description, image), n)
  {
  }

  lemma CanonicalHasNoMeta(url: string, p: MetaProperty, n: MetaName)
    ensures !HasProperty(CanonicalTags(url), p) && !HasName(CanonicalTags(url), n)
  {
  }

  lemma {:induction false} HeadTagsProperties(title: string, description: string, url: string, image: Option<string>,
                                              author: string, keywords: Option<string>, p: MetaProperty)
    ensures HasProperty(HeadTags(title, description, url, image, author, keywords), p) <==>
      (p != OgImage && p != TwitterImage) || image.Some?
  {
    var primary, og, tw := PrimaryTags(title, description), OpenGraphTags(url, title, description, image),
                           TwitterTags(url, title, description, image);
    var seo, canonical := SeoTags(author, keywords), CanonicalTags(url);
    HasPropertyAppend(primary, og, p);
    HasPropertyAppend(primary + og, tw, p);
    HasPropertyAppend(primary + og + tw, seo, p);
    HasPropertyAppend(primary + og + tw + seo, canonical, p);
    OpenGraphProperties(url, title, description, image, p);
    TwitterProperties(url, title, description, image, p);
    PrimaryHasNoProperty(title, description, p);
    SeoHasNoProperty(author, keywords, p);
    CanonicalHasNoMeta(url, p, Viewport);
  }

  lemma {:induction false} HeadTagsNames(title: string, description: string, url: string, image: Option<string>,
                                         author: string, keywords: Option<string>, n: MetaName)
    ensures HasName(HeadTags(title, description, url, image, author, keywords), n) <==>
      n != Keywords || keywords.Some?
  {
    var primary, og, tw := PrimaryTags(title, description), OpenGraphTags(url, title, description, image),
                           TwitterTags(url, title, description, image);
    var seo, canonical := SeoTags(author, keywords), CanonicalTags(url);
    HasNameAppend(primary, og, n);
    HasNameAppend(primary + og, tw, n);
    HasNameAppend(primary + og + tw, seo, n);
    HasNameAppend(primary + og + tw + seo, canonical, n);
    PrimaryNames(title, description, n);
    SeoNames(author, keywords, n);
    OpenGraphHasNoName(url, title, description, image, n);
    TwitterHasNoName(url, title, description, image, n);
    CanonicalHasNoMeta(url, OgType, n);
  }

  /** The image tags appear exactly when the image is truthy, and the keywords tag exactly
      when the page has keywords; every other tag is always there. */
  lemma ConditionalMetaTags(page: Data, global: Data)
    ensures HasProperty(MetaTags(page, global), OgImage) <==> Handlebars.Truthy(MetaImage(page, global))
    ensures HasProperty(MetaTags(page, global), TwitterImage) <==> Handlebars.Truthy(MetaImage(page, global))
    ensures HasName(MetaTags(page, global), Keywords) <==> Handlebars.Truthy(Get(page, "keywords"))
    ensures forall p :: p != OgImage && p != TwitterImage ==> HasProperty(MetaTags(page, global), p)
    ensures forall n :: n != Keywords ==> HasName(MetaTags(page, global), n)
  {
    var title, description, url := MetaTitle(page, global), ToText(MetaDescription(page, global)), MetaUrl(page);
    var image, author, keywords := Shown(MetaImage(page, global)), ToText(Or(Get(global, "author"), JStr(""))), Shown(Get(page, "keywords"));
    forall p ensures HasProperty(MetaTags(page, global), p) <==>
      (p != OgImage && p != TwitterImage) || image.Some?
    {
      HeadTagsProperties(title, description, url, image, author, keywords, p);
    }
    forall n ensures HasName(MetaTags(page, global), n) <==> n != Keywords || keywords.Some?
    {
      HeadTagsNames(title, description, url, image, author, keywords, n);
    }
  }

  /** Whether a tag carries the title, description or URL it is meant to. */
  predicate Agrees(t: HeadTag, title: string, description: string, url: string) {
    match t
    case Title(text) => text == title
    case NamedMeta(n, c) => n == Description ==> c == description
    case PropertyMeta(p, c) =>
      && (p == OgTitle || p == TwitterTitle ==> c == title)
      && (p == OgDescription || p == TwitterDescription ==> c == description)
      && (p == OgUrl || p == TwitterUrl ==> c == url)
    case Canonical(h) => h == url
    case _ => true
  }

  predicate AllAgree(tags: seq<HeadTag>, title: string, description: string, url: string) {
    forall t :: t in tags ==> Agrees(t, title, description, url)
  }

  lemma AllAgreeAppend(a: seq<HeadTag>, b: seq<HeadTag>, title: string, description: string, url: string)
    requires AllAgree(a, title, description, url) && AllAgree(b, title, description, url)
    ensures AllAgree(a + b, title, description, url)
  {
  }

  lemma PrimaryAgrees(title: string, description: string, url: string)
    ensures AllAgree(PrimaryTags(title, description), title, description, url)
  {
  }

  lemma OpenGraphAgrees(title: string, description: string, url: string, image: Option<string>)
    ensures AllAgree(OpenGraphTags(url, title, description, image), title, description, url)
  {
  }

  lemma TwitterAgrees(title: string, description: string, url: string, image: Option<string>)
    ensures AllAgree(TwitterTags(url, title, description, image), title, description, url)
  {
  }

  lemma SeoAgrees(title: string, description: string, url: string, author: string, keywords: Option<string>)
    ensures AllAgree(SeoTags(author, keywords), title, description, url)
  {
  }

  lemma HeadTagsAgree(title: string, description: string, url: string, image: Option<string>, author: string,
                      keywords: Option<string>)
    ensures AllAgree(HeadTags(title, description, url, image, author, keywords), title, description, url)
  {
    var primary, og, tw := PrimaryTags(title, description), OpenGraphTags(url, title, description, image),
                           TwitterTags(url, title, description, image);
    var seo, canonical := SeoTags(author, keywords), CanonicalTags(url);
    PrimaryAgrees(title, description, url);
    OpenGraphAgrees(title, description, url, image);
    TwitterAgrees(title, description, url, image);
    SeoAgrees(title, description, url, author, keywords);
    AllAgreeAppend(primary, og, title, description, url);
    AllAgreeAppend(primary + og, tw, title, description, url);
    AllAgreeAppend(primary + og + tw, seo, title, description, url);
    AllAgreeAppend(primary + og + tw + seo, canonical, title, description, url);
  }

  /** The document title, the Open Graph title and the Twitter title are the same text,
      and so are the three descriptions and the three URLs (with the canonical link). */
  lemma MetaTagsAgree(page: Data, global: Data)
    ensures AllAgree(MetaTags(page, global), MetaTitle(page, global), ToText(MetaDescription(page, global)), MetaUrl(page))
  {
    HeadTagsAgree(MetaTitle(page, global), ToText(MetaDescription(page, global)), MetaUrl(page),
                  Shown(MetaImage(page, global)), ToText(Or(Get(global, "author"), JStr(""))), Shown(Get(page, "keywords")));
  }

  const MetaIndent := "\n    "

  /** The lines of the head fragment. */
  function MetaLines(page: Data, global: Data): seq<string> {
    var tags := MetaTags(page, global);
    seq(|tags|, i requires 0 <= i < |tags| => RenderTag(tags[i]))
  }

  /** `generateMetaTags`: the lines at the template's indentation, trimmed. The trim
      removes exactly the template's framing whitespace. */
  function GenerateMetaTags(page: Data, global: Data): (head: string)
    ensures head == Join(MetaLines(page, global), MetaIndent)
  {
    var text := Join(MetaLines(page, global), MetaIndent);
    MetaLinesFramed(page, global);
    FramingIsWhitespace();
    TrimOfFramed(MetaIndent, text, MetaClose);
    Trim(MetaIndent + text + MetaClose)
  }

  const MetaClose := "\n  "

  lemma FramingIsWhitespace()
    ensures AllWhitespace(MetaIndent) && AllWhitespace(MetaClose)
  {
  }

  /** The fragment starts with the charset tag and ends with the canonical link. */
  lemma MetaLinesFramed(page: Data, global: Data)
    ensures var text := Join(MetaLines(page, global), MetaIndent);
      text != "" && !IsJsWhitespace(text[0]) && !IsJsWhitespace(text[|text| - 1])
  {
    var tags := MetaTags(page, global);
    var lines := MetaLines(page, global);
    MetaTagsEnds(page, global);
    TagLineEnds(tags[0]);
    TagLineEnds(tags[|tags| - 1]);
    JoinEnds(lines, MetaIndent);
  }

  lemma MetaTagsEnds(page: Data, global: Data)
    ensures |MetaTags(page, global)| == 26
    ensures MetaTags(page, global)[0].Charset? && MetaTags(page, global)[25].Canonical?
  {
  }

  lemma TagLineEnds(t: HeadTag)
    requires t.Charset? || t.Canonical?
    ensures var line := RenderTag(t); line != "" && line[0] == '<' && line[|line| - 1] == '>'
  {
  }

  // ---------------------------------------------------------------------------------
  // Page skeleton and assets

  /** The entry script and stylesheet, `null` as `None`. */
  datatype AssetPaths = AssetPaths(js: Option<string>, css: Option<string>)

  /** A tag for an asset path, present only for a truthy path: `opening`, then the
      attribute (`attr` holds its name, `=` and the opening quote), the path and its
      closing quote, then `closing`. */
  function AssetTag(opening: string, attr: string, path: Option<string>, closing: string): (tag: string)
    ensures tag == "" <==> !Strings.Truthy(path)
    ensures Strings.Truthy(path) ==> Contains(tag, attr + path.value + "\"")
  {
    if Strings.Truthy(path) then
      ContainsInConcat(opening, attr + path.value + "\"", closing);
      opening + (attr + path.value + "\"") + closing
    else ""
  }

  /** The stylesheet link, present only for a truthy `css`. */
  function StylesheetTag(css: Option<string>): string {
    AssetTag("<link rel=\"stylesheet\" ", "href=\"", css, ">")
  }

  /** The module script, present only for a truthy `js`. */
  function ScriptTag(js: Option<string>): string {
    AssetTag("<script type=\"module\" ", "src=\"", js, "></script>")
  }

  const DocumentOpening := "<!DOCTYPE html>\n<html lang=\"en\">\n<head>\n    "
  const StyleBlock := "\n    <style>\n        /* Prevent flash of unstyled content */\n        [x-cloak] { display: none !important; }\n    </style>\n</head>\n<body>\n    "

  /** The document up to the `app` element: the meta tags, the stylesheet and the style
      block that hides `x-cloak` elements. */
  function DocumentHead(metaTags: string, css: Option<string>): string {
    DocumentOpening + metaTags + "\n    " + StylesheetTag(css) + StyleBlock
  }

  /** The `app` element holding the rendered page. */
  function AppElement(content: string): string {
    "<div id=\"app\">\n        " + content + "\n    </div>"
  }

  /** The module script and the closing tags. */
  function DocumentTail(js: Option<string>): string {
    "\n    " + ScriptTag(js) + "\n</body>\n</html>"
  }

  /** `createBaseTemplate`. */
  function CreateBaseTemplate(metaTags: string, content: string, assets: AssetPaths): string {
    DocumentHead(metaTags, assets.css) + AppElement(content) + DocumentTail(assets.js)
  }

  /** The page holds the meta tags, the rendered content inside the `app` element, the
      stylesheet link when there is a stylesheet and the module script when there is a
      script. */
  lemma BaseTemplateHolds(metaTags: string, content: string, assets: AssetPaths)
    ensures Contains(CreateBaseTemplate(metaTags, content, assets), metaTags)
    ensures Contains(CreateBaseTemplate(metaTags, content, assets), AppElement(content))
    ensures Strings.Truthy(assets.css) ==>
      Contains(CreateBaseTemplate(metaTags, content, assets), "href=\"" + assets.css.value + "\"")
    ensures Strings.Truthy(assets.js) ==>
      Contains(CreateBaseTemplate(metaTags, content, assets), "src=\"" + assets.js.value + "\"")
  {
    var html := CreateBaseTemplate(metaTags, content, assets);
    var tail := DocumentTail(assets.js);
    LayoutHolds(DocumentOpening, metaTags, "\n    ", StylesheetTag(assets.css), StyleBlock, AppElement(content), tail);
    if Strings.Truthy(assets.css) {
      ContainsTrans(html, StylesheetTag(assets.css), "href=\"" + assets.css.value + "\"");
    }
    if Strings.Truthy(assets.js) {
      ContainsInConcat("\n    ", ScriptTag(assets.js), "\n</body>\n</html>");
      ContainsTrans(html, tail, ScriptTag(assets.js));
      ContainsTrans(html, ScriptTag(assets.js), "src=\"" + assets.js.value + "\"");
    }
  }

  /** Each piece of the document's layout occurs in the document. */
  lemma LayoutHolds(opening: string, meta: string, gap: string, style: string, block: string, app: string,
                    tail: string)
    ensures var html := opening + meta + gap + style + block + app + tail;
      Contains(html, meta) && Contains(html, style) && Contains(html, app) && Contains(html, tail)
  {
    var withMeta := opening + meta;
    var withStyle := withMeta + gap + style;
    var withApp := withStyle + block + app;
    var html := withApp + tail;
    ContainsParts(withApp, tail);
    ContainsParts(withStyle + block, app);
    ContainsTrans(html, withApp, app);
    ContainsParts(withMeta + gap, style);
    ContainsParts(withStyle, block);
    ContainsTrans(withApp, withStyle + block, withStyle);
    ContainsTrans(html, withApp, withStyle);
    ContainsTrans(html, withStyle, style);
    ContainsParts(opening, meta);
    ContainsParts(withMeta, gap);
    ContainsTrans(withStyle, withMeta + gap, withMeta);
    ContainsTrans(html, withStyle, withMeta);
    ContainsTrans(html, withMeta, meta);
  }

  /** An entry of the Vite manifest. */
  datatype ManifestEntry = ManifestEntry(file: Option<string>, css: Option<seq<string>>)

  type Manifest = map<string, ManifestEntry>

  /** `manifest['src/js/main.js'] || manifest['main.js'] || {}`. */
  function ManifestEntryOf(m: Manifest): (e: ManifestEntry)
    ensures "src/js/main.js" in m ==> e == m["src/js/main.js"]
    ensures "src/js/main.js" !in m && "main.js" in m ==> e == m["main.js"]
    ensures "src/js/main.js" !in m && "main.js" !in m ==> e == ManifestEntry(None, None)
  {
    if "src/js/main.js" in m then m["src/js/main.js"]
    else if "main.js" in m then m["main.js"]
    else ManifestEntry(None, None)
  }

  /** The asset paths of a manifest entry: `/file` and `/css[0]` when those are truthy. */
  function EntryAssets(e: ManifestEntry): (a: AssetPaths)
    ensures a.js.Some? <==> Strings.Truthy(e.file)
    ensures a.js.Some? ==> a.js.value == "/" + e.file.value
    ensures a.css.Some? <==> e.css.Some? && |e.css.value| > 0 && e.css.value[0] != ""
    ensures a.css.Some? ==> a.css.value == "/" + e.css.value[0]
  {
    AssetPaths(
      if Strings.Truthy(e.file) then Some("/" + e.file.value) else None,
      if e.css.Some? && |e.css.value| > 0 && e.css.value[0] != "" then Some("/" + e.css.value[0]) else None)
  }

  /** `files.find(...)`: the first file with the prefix and the suffix. */
  function FindFirst(files: seq<string>, prefix: string, suffix: string): (r: Option<nat>)
    ensures r.Some? ==> r.value < |files| && IsPrefix(prefix, files[r.value]) && IsSuffix(suffix, files[r.value])
    ensures r.Some? ==> forall j :: 0 <= j < r.value ==> !(IsPrefix(prefix, files[j]) && IsSuffix(suffix, files[j]))
    ensures r.None? ==> forall j :: 0 <= j < |files| ==> !(IsPrefix(prefix, files[j]) && IsSuffix(suffix, files[j]))
  {
    if files == [] then None
    else if IsPrefix(prefix, files[0]) && IsSuffix(suffix, files[0]) then Some(0)
    else
      var r := FindFirst(files[1..], prefix, suffix);
      if r.Some? then Some(r.value + 1) else None
  }

  function FoundAsset(files: seq<string>, suffix: string): Option<string> {
    var i := FindFirst(files, "main-", suffix);
    if i.Some? then Some("/assets/" + files[i.value]) else None
  }

  /** `getAssetPaths`: `manifest` is `None` when `dist/.vite/manifest.json` does not exist
      and `Some(None)` when it cannot be read or parsed, which falls through to the scan of
      `dist/assets` (`assets`, `None` when missing). */
  function GetAssetPaths(manifest: Option<Option<Manifest>>, assets: Option<seq<string>>): (a: AssetPaths)
    ensures manifest.Some? && manifest.value.Some? ==> a == EntryAssets(ManifestEntryOf(manifest.value.value))
    ensures (manifest.None? || manifest.value.None?) && assets.Some? ==>
      a == AssetPaths(FoundAsset(assets.value, ".js"), FoundAsset(assets.value, ".css"))
    ensures (manifest.None? || manifest.value.None?) && assets.None? ==> a == AssetPaths(None, None)
  {
    if manifest.Some? && manifest.value.Some? then EntryAssets(ManifestEntryOf(manifest.value.value))
    else if assets.Some? then AssetPaths(FoundAsset(assets.value, ".js"), FoundAsset(assets.value, ".css"))
    else AssetPaths(None, None)
  }

  // ---------------------------------------------------------------------------------
  // Pages

  const DistDir := "dist"
  const PagesDir := "src/pages"
  const ComponentsDir := "src/components"
  const DataDir := "src/data"

  /** The page named `home` or `index` is the site root. */
  predicate IsRootPage(pageName: string) {
    pageName == "home" || pageName == "index"
  }

  /** The URL of a page: `/` for the root page, `/name/` otherwise. */
  function PageUrl(pageName: string): (url: string)
    ensures IsPrefix("/", url) && IsSuffix("/", url)
  {
    if IsRootPage(pageName) then "/" else "/" + pageName + "/"
  }

  /** The file written for a page: `dist/index.html`, or `dist/name/index.html`. */
  function OutputPath(distDir: string, pageName: string): string {
    if IsRootPage(pageName) then PathJoin(distDir, "index.html")
    else PathJoin(PathJoin(distDir, pageName), "index.html")
  }

  /** The file written is the one a static host serves for the page's URL: the URL's
      directory under `dist` followed by `index.html`. */
  lemma OutputPathServesUrl(distDir: string, pageName: string)
    ensures OutputPath(distDir, pageName) == distDir + PageUrl(pageName) + "index.html"
  {
  }

  /** Only `home` and `index` have the URL `/`, and other pages keep their own URL. */
  lemma PageUrlDistinct(a: string, b: string)
    ensures PageUrl(a) == "/" <==> IsRootPage(a)
    ensures !IsRootPage(a) && !IsRootPage(b) && a != b ==> PageUrl(a) != PageUrl(b)
  {
    if !IsRootPage(a) && !IsRootPage(b) && PageUrl(a) == PageUrl(b) {
      assert PageUrl(a)[1..|PageUrl(a)| - 1] == a;
    }
  }

  /** An entry of `builtPages`. */
  datatype BuiltPage = BuiltPage(name: string, url: string, title: JsValue, description: JsValue)

  /** A file written under `dist`. */
  datatype Output = Output(path: string, text: string)

  /** A page that was built and the file written for it. */
  datatype PageBuild = PageBuild(page: BuiltPage, output: Output)

  /** Handlebars compiling and running a template on data, with the partials registered
      so far; `None` when compiling or rendering throws. */
  type Renderer = (map<string, string>, string, Data) -> Option<string>

  /** The document written for a page: its meta tags, its rendered content and the
      assets. */
  function PageHtml(page: Data, global: Data, content: string, assets: AssetPaths): string {
    CreateBaseTemplate(GenerateMetaTags(page, global), content, assets)
  }

  /** `buildPage`: the template rendered on the merged data, wrapped in the page skeleton
      and written at the page's output path; `None` when rendering throws. */
  function BuildPage(pageName: string, pageTemplate: string, page: Data, global: Data, assets: AssetPaths,
                     partials: map<string, string>, render: Renderer): Option<PageBuild>
  {
    var templateData := Merge(global, page);
    match render(partials, pageTemplate, templateData)
    case None => None
    case Some(pageContent) =>
      Some(PageBuild(BuiltPage(pageName, PageUrl(pageName), Get(page, "title"), Get(page, "description")),
                     Output(OutputPath(DistDir, pageName), PageHtml(page, global, pageContent, assets))))
  }

  /** A page is built exactly when its template renders on the global data overridden by
      the page data; it is recorded under its clean URL with the page's own title and
      description, and written where a static host serves that URL, as a document holding
      the rendered content and the page's meta tags. */
  lemma BuildPageWrites(pageName: string, pageTemplate: string, page: Data, global: Data, assets: AssetPaths,
                        partials: map<string, string>, render: Renderer)
    ensures var r := BuildPage(pageName, pageTemplate, page, global, assets, partials, render);
      r.Some? <==> render(partials, pageTemplate, Merge(global, page)).Some?
    ensures var r := BuildPage(pageName, pageTemplate, page, global, assets, partials, render);
      r.Some? ==>
        && r.value.page == BuiltPage(pageName, PageUrl(pageName), Get(page, "title"), Get(page, "description"))
        && r.value.output.path == DistDir + r.value.page.url + "index.html"
        && Contains(r.value.output.text, AppElement(render(partials, pageTemplate, Merge(global, page)).value))
        && Contains(r.value.output.text, GenerateMetaTags(page, global))
  {
    match render(partials, pageTemplate, Merge(global, page))
    case None =>
    case Some(content) =>
      OutputPathServesUrl(DistDir, pageName);
      BaseTemplateHolds(GenerateMetaTags(page, global), content, assets);
  }

  /** What the build reads: directory listings (`None` for a missing directory), file
      contents (`None` for a file that cannot be read or parsed), the Vite build's
      manifest, the renderer and the date of the build. */
  datatype SiteSources = SiteSources(
    components: Option<seq<string>>,
    pages: Option<seq<string>>,
    readTemplate: string -> Option<string>,
    readJson: string -> Option<Data>,
    manifest: Option<Option<Manifest>>,
    assets: Option<seq<string>>,
    render: Renderer,
    today: string)

  /** One turn of the page loop: the page named after the file, its template and its data
      file `src/data/<name>.json`. */
  function PageAttempt(pageFile: string, src: SiteSources, partials: map<string, string>, global: Data,
                       assets: AssetPaths): Option<PageBuild>
  {
    var pageName := BasenameWithout(pageFile, ".html");
    var pageTemplate := ReadTemplateFile(src.readTemplate(PathJoin(PagesDir, pageFile)));
    var pageData := ReadJsonFile(src.readJson(PathJoin(DataDir, pageName + ".json")));
    BuildPage(pageName, pageTemplate, pageData, global, assets, partials, src.render)
  }

  /** The results of `attempt` on `files` that are not `None`, in file order: a loop that
      pushes each successful result. */
  function Collect<T>(files: seq<string>, attempt: string -> Option<T>): seq<T> {
    if files == [] then []
    else
      var init := Collect(files[..|files| - 1], attempt);
      match attempt(files[|files| - 1])
      case None => init
      case Some(b) => init + [b]
  }

  lemma CollectStep<T>(files: seq<string>, i: nat, attempt: string -> Option<T>)
    requires i < |files|
    ensures Collect(files[..i + 1], attempt) ==
      Collect(files[..i], attempt) + (if attempt(files[i]).Some? then [attempt(files[i]).value] else [])
  {
    assert files[..i + 1][..i] == files[..i];
  }

  /** Collecting two lists of files one after the other collects the first, then the
      second: results keep the order of their files. */
  lemma {:induction false} CollectAppend<T>(xs: seq<string>, ys: seq<string>, attempt: string -> Option<T>)
    ensures Collect(xs + ys, attempt) == Collect(xs, attempt) + Collect(ys, attempt)
  {
    if ys == [] {
      assert xs + ys == xs;
    } else {
      var init := ys[..|ys| - 1];
      assert (xs + ys)[..|xs + ys| - 1] == xs + init;
      CollectAppend(xs, init, attempt);
    }
  }

  /** Every result comes from a listed file, and there are no more results than files. */
  lemma {:induction false} CollectSound<T>(files: seq<string>, attempt: string -> Option<T>)
    ensures |Collect(files, attempt)| <= |files|
    ensures forall b :: b in Collect(files, attempt) ==> exists f :: f in files && attempt(f) == Some(b)
  {
    if files != [] {
      var init := files[..|files| - 1];
      CollectSound(init, attempt);
      assert forall f :: f in init ==> f in files;
    }
  }

  /** The result of every listed file whose attempt succeeds is collected. */
  lemma {:induction false} CollectComplete<T>(files: seq<string>, attempt: string -> Option<T>, f: string)
    requires f in files && attempt(f).Some?
    ensures attempt(f).value in Collect(files, attempt)
  {
    var init := files[..|files| - 1];
    if f != files[|files| - 1] {
      assert files == init + [files[|files| - 1]];
      CollectComplete(init, attempt, f);
    }
  }

  /** The pages the loop builds from `files`, in file order, skipping those whose build
      fails. */
  function BuildAll(files: seq<string>, src: SiteSources, partials: map<string, string>, global: Data,
                    assets: AssetPaths): seq<PageBuild>
  {
    Collect(files, f => PageAttempt(f, src, partials, global, assets))
  }

  /** The page loop of `buildStaticSite`. */
  method BuildPages(pageFiles: seq<string>, src: SiteSources, partials: map<string, string>, global: Data,
                    assets: AssetPaths) returns (builtPages: seq<PageBuild>)
    ensures builtPages == BuildAll(pageFiles, src, partials, global, assets)
  {
    var attempt := f => PageAttempt(f, src, partials, global, assets);
    builtPages := [];
    for i := 0 to |pageFiles|
      invariant builtPages == Collect(pageFiles[..i], attempt)
    {
      CollectStep(pageFiles, i, attempt);
      var builtPage := PageAttempt(pageFiles[i], src, partials, global, assets);
      if builtPage.Some? {
        builtPages := builtPages + [builtPage.value];
      }
    }
    assert pageFiles[..|pageFiles|] == pageFiles;
  }

  /** Every built page comes from a listed page file whose template rendered, lives at its
      clean URL and is written where that URL is served; a file whose build succeeds is
      among the built pages; no more pages are built than files are listed. */
  lemma BuildAllSound(files: seq<string>, src: SiteSources, partials: map<string, string>, global: Data,
                      assets: AssetPaths)
    ensures |BuildAll(files, src, partials, global, assets)| <= |files|
    ensures forall b :: b in BuildAll(files, src, partials, global, assets) ==>
      && b.page.url == PageUrl(b.page.name)
      && b.output.path == DistDir + b.page.url + "index.html"
      && exists f :: f in files && BasenameWithout(f, ".html") == b.page.name
    ensures forall f :: f in files && PageAttempt(f, src, partials, global, assets).Some? ==>
      PageAttempt(f, src, partials, global, assets).value in BuildAll(files, src, partials, global, assets)
  {
    var attempt := f => PageAttempt(f, src, partials, global, assets);
    CollectSound(files, attempt);
    forall b | b in BuildAll(files, src, partials, global, assets)
      ensures b.page.url == PageUrl(b.page.name)
      ensures b.output.path == DistDir + b.page.url + "index.html"
      ensures exists f :: f in files && BasenameWithout(f, ".html") == b.page.name
    {
      var f :| f in files && attempt(f) == Some(b);
      OutputPathServesUrl(DistDir, BasenameWithout(f, ".html"));
    }
    forall f | f in files && attempt(f).Some?
      ensures attempt(f).value in Collect(files, attempt)
    {
      CollectComplete(files, attempt, f);
    }
  }

  // ---------------------------------------------------------------------------------
  // Sitemap and robots.txt

  /** `globalData.baseUrl || 'https://example.com'`. */
  function BaseUrl(global: Data): string {
    ToText(Or(Get(global, "baseUrl"), JStr("https://example.com")))
  }

  /** One `<url>` element of the sitemaps.org 0.9 `urlset`. */
  datatype SitemapUrl = SitemapUrl(loc: string, lastmod: string, changefreq: string, priority: string)

  /** The entries of `generateSitemap`, one per built page in build order. `today` is the
      date part of `new Date().toISOString()`. */
  function SitemapUrls(pages: seq<BuiltPage>, baseUrl: string, today: string): (urls: seq<SitemapUrl>)
    ensures |urls| == |pages|
    ensures forall i :: 0 <= i < |pages| ==>
      && urls[i].loc == baseUrl + pages[i].url
      && urls[i].lastmod == today && urls[i].changefreq == "weekly"
      && (urls[i].priority == "1.0" <==> pages[i].url == "/")
      && (urls[i].priority == "1.0" || urls[i].priority == "0.8")
  {
    seq(|pages|, i requires 0 <= i < |pages| =>
      SitemapUrl(baseUrl + pages[i].url, today, "weekly", if pages[i].url == "/" then "1.0" else "0.8"))
  }

  function RenderUrl(u: SitemapUrl): string {
    "\n  <url>\n    <loc>" + u.loc + "</loc>\n    <lastmod>" + u.lastmod + "</lastmod>\n    <changefreq>"
    + u.changefreq + "</changefreq>\n    <priority>" + u.priority + "</priority>\n  </url>"
  }

  const UrlsetOpen := "<?xml version=\"1.0\" encoding=\"UTF-8\"?>\n<urlset xmlns=\"http://www.sitemaps.org/schemas/sitemap/0.9\">\n"

  /** `generateSitemap`: the entries joined without separator inside the `urlset`. */
  function GenerateSitemap(pages: seq<BuiltPage>, global: Data, today: string): string {
    var urls := SitemapUrls(pages, BaseUrl(global), today);
    UrlsetOpen + Join(seq(|urls|, i requires 0 <= i < |urls| => RenderUrl(urls[i])), "") + "\n</urlset>"
  }

  /** `generateRobotsTxt`. */
  function GenerateRobotsTxt(global: Data): (robots: string)
    ensures IsPrefix("User-agent: *\nAllow: /\n", robots)
    ensures IsSuffix(BaseUrl(global) + "/sitemap.xml", robots)
  {
    var prefix := "User-agent: *\nAllow: /\n\nSitemap: ";
    SuffixOfConcat(prefix, BaseUrl(global) + "/sitemap.xml");
    assert prefix + (BaseUrl(global) + "/sitemap.xml") == prefix + BaseUrl(global) + "/sitemap.xml";
    prefix + BaseUrl(global) + "/sitemap.xml"
  }

  // ---------------------------------------------------------------------------------
  // The whole build

  /** The pages of the build, in build order. */
  function PagesOf(builds: seq<PageBuild>): (pages: seq<BuiltPage>)
    ensures |pages| == |builds| && forall i :: 0 <= i < |builds| ==> pages[i] == builds[i].page
  {
    seq(|builds|, i requires 0 <= i < |builds| => builds[i].page)
  }

  /** What `buildStaticSite` writes when the pages directory exists. */
  datatype SiteBuild = SiteBuild(builds: seq<PageBuild>, sitemap: Output, robots: Output)

  /** `buildStaticSite`: registers the partials and the helpers, reads the global data and
      the asset paths, builds every page, and writes the sitemap and robots.txt; nothing
      is built when the pages directory is missing. */
  method BuildStaticSite(src: SiteSources, registry: Registry) returns (site: Option<SiteBuild>)
    modifies registry
    ensures src.components.None? ==> registry.partials == old(registry.partials)
    ensures src.components.Some? ==>
      registry.partials == old(registry.partials) + PartialsOf(ComponentsDir, HtmlFiles(src.components.value), src.readTemplate)
    ensures registry.helpers == old(registry.helpers) + HelperNames
    ensures site.None? <==> src.pages.None?
    ensures site.Some? ==>
      var global := ReadJsonFile(src.readJson(PathJoin(DataDir, "global.json")));
      && site.value.builds ==
        BuildAll(HtmlFiles(src.pages.value), src, registry.partials, global, GetAssetPaths(src.manifest, src.assets))
      && site.value.sitemap == Output(PathJoin(DistDir, "sitemap.xml"), GenerateSitemap(PagesOf(site.value.builds), global, src.today))
      && site.value.robots == Output(PathJoin(DistDir, "robots.txt"), GenerateRobotsTxt(global))
  {
    RegisterPartials(ComponentsDir, src.components, src.readTemplate, registry);
    registry.RegisterHelpers();
    var globalData := ReadJsonFile(src.readJson(PathJoin(DataDir, "global.json")));
    var assetPaths := GetAssetPaths(src.manifest, src.assets);
    if src.pages.None? {
      return None;
    }
    var pageFiles := HtmlFiles(src.pages.value);
    var builtPages := BuildPages(pageFiles, src, registry.partials, globalData, assetPaths);
    var sitemap := Output(PathJoin(DistDir, "sitemap.xml"), GenerateSitemap(PagesOf(builtPages), globalData, src.today));
    var robots := Output(PathJoin(DistDir, "robots.txt"), GenerateRobotsTxt(globalData));
    site := Some(SiteBuild(builtPages, sitemap, robots));
  }

  /** The sitemap has one entry per built page, in build order, at the base URL followed
      by the page's clean URL; the root page alone has priority 1.0. robots.txt points at
      the sitemap under the same base. */
  lemma SitemapOfBuild(files: seq<string>, src: SiteSources, partials: map<string, string>, global: Data,
                       assets: AssetPaths)
    ensures var pages := PagesOf(BuildAll(files, src, partials, global, assets));
      var urls := SitemapUrls(pages, BaseUrl(global), src.today);
      && |urls| == |pages|
      && (forall i :: 0 <= i < |urls| ==> urls[i].loc == BaseUrl(global) + PageUrl(pages[i].name))
      && (forall i :: 0 <= i < |urls| ==> (urls[i].priority == "1.0" <==> IsRootPage(pages[i].name)))
    ensures IsSuffix(BaseUrl(global) + "/sitemap.xml", GenerateRobotsTxt(global))
  {
    var builds := BuildAll(files, src, partials, global, assets);
    BuildAllSound(files, src, partials, global, assets);
    var pages := PagesOf(builds);
    forall i | 0 <= i < |pages|
      ensures pages[i].url == PageUrl(pages[i].name)
      ensures pages[i].url == "/" <==> IsRootPage(pages[i].name)
    {
      assert builds[i] in builds;
      PageUrlDistinct(pages[i].name, pages[i].name);
    }
  }
}
