/** `src/js/dev/template-engine.js`: the development-time renderer. It registers the
    components as partials, picks the page template from the location's path, loads the
    global and page data and renders the template into the `#app` element. The module's
    template cache and set of registered partials are the fields of `TemplateEngine`;
    `fetch`, Vite's component glob, the DOM and running a compiled template are
    arguments. */
module TemplateEngine {
  import opened Strings
  import opened Handlebars

  /** What `fetch` gives: a response with its status and body (`json` is `None` when the
      body does not parse), or a rejection. */
  datatype FetchReply = Response(ok: bool, text: string, json: Option<Data>) | NetworkError

  type Fetch = string -> FetchReply

  /** A template compiled by `Handlebars.compile`: compiling is lazy, so it is its source. */
  datatype CompiledTemplate = CompiledTemplate(source: string)

  /** Why `registerPartial` rejects. */
  datatype PartialError = HttpError | FetchFailed

  /** `loadJsonData`: the parsed body of an ok response, and `{}` for a response that is
      not ok, a body that does not parse or a failed fetch. */
  function LoadJsonData(reply: FetchReply): (data: Data)
    ensures reply.Response? && reply.ok && reply.json.Some? ==> data == reply.json.value
    ensures reply.NetworkError? || !reply.ok || reply.json.None? ==> data == map[]
  {
    match reply
    case NetworkError => map[]
    case Response(ok, _, json) => if !ok then map[] else if json.None? then map[] else json.value
  }

  const ComponentsPrefix := "/src/components/"

  /** The partial name of a component path: the first `/src/components/` and then the first
      `.html` removed. */
  function ComponentName(componentPath: string): string {
    ReplaceFirst(ReplaceFirst(componentPath, ComponentsPrefix, ""), ".html", "")
  }

  /** A component file `/src/components/<n>.html` is registered as `n`, provided `n` does
      not itself contain `.html`. */
  lemma ComponentNameOfFile(n: string)
    requires !Contains(n, ".html")
    ensures ComponentName(ComponentsPrefix + n + ".html") == n
  {
    assert ComponentsPrefix + n + ".html" == ComponentsPrefix + (n + ".html");
    ReplaceFirstOfPrefix(ComponentsPrefix, n + ".html", "");
    assert "" + (n + ".html") == n + ".html";
    FirstOccurrenceAtEnd(n, ".html");
    assert (n + ".html")[..|n|] == n;
  }

  /** The partials `registerAllPartials` registers: the component of each path whose
      module loads, under its component name. */
  function ComponentPartials(paths: seq<string>, load: string -> Option<string>): map<string, string> {
    if paths == [] then map[]
    else
      var p := paths[|paths| - 1];
      var init := ComponentPartials(paths[..|paths| - 1], load);
      if load(p).Some? then init[ComponentName(p) := load(p).value] else init
  }

  /** The names `registerAllPartials` adds to the registered set. */
  function LoadedNames(paths: seq<string>, load: string -> Option<string>): set<string> {
    set p | p in paths && load(p).Some? :: ComponentName(p)
  }

  /** The registered partials are exactly the components that loaded, and each holds the
      text of its module. */
  lemma {:induction false} ComponentPartialsLoaded(paths: seq<string>, load: string -> Option<string>)
    ensures ComponentPartials(paths, load).Keys == LoadedNames(paths, load)
    ensures forall p :: (p in paths && load(p).Some? &&
                         (forall q :: q in paths && q != p && load(q).Some? ==> ComponentName(q) != ComponentName(p)))
                         ==> ComponentPartials(paths, load)[ComponentName(p)] == load(p).value
  {
    if paths != [] {
      var init := paths[..|paths| - 1];
      var last := paths[|paths| - 1];
      ComponentPartialsLoaded(init, load);
      assert paths == init + [last];
      assert forall p :: p in paths <==> p in init || p == last;
    }
  }

  /** The page a location's path shows: `/` and `/index.html` show `index`, or `home`
      when `/src/pages/index.html` cannot be fetched; any other path shows its last
      segment with the first `.html` removed. `indexReply` is consulted for the root path
      only. */
  function PageNameFor(pagePath: string, indexReply: FetchReply): string {
    if pagePath == "/" || pagePath == "/index.html" then
      if indexReply.Response? && indexReply.ok then "index" else "home"
    else SegmentName(pagePath)
  }

  /** `pagePath.split('/').pop().replace('.html', '')`. */
  function SegmentName(pagePath: string): string {
    var segments := Split(pagePath, '/');
    ReplaceFirst(segments[|segments| - 1], ".html", "")
  }

  function TemplatePathOf(pageName: string): string {
    "/src/pages/" + pageName + ".html"
  }

  function DataPathOf(pageName: string): string {
    "/src/data/" + pageName + ".json"
  }

  const GlobalDataPath := "/src/data/global.json"

  /** The root, `/` or `/index.html`, shows `index` when its template is served and `home`
      when the response is not ok or the fetch fails. */
  lemma PageNameOfRoot(indexReply: FetchReply)
    ensures PageNameFor("/", indexReply) == PageNameFor("/index.html", indexReply)
    ensures PageNameFor("/", indexReply) == "index" <==> indexReply.Response? && indexReply.ok
    ensures PageNameFor("/", indexReply) != "index" ==> PageNameFor("/", indexReply) == "home"
  {
  }

  /** Any other path to a page file `<dir>/<n>.html` shows `n`. */
  lemma PageNameOfFile(dir: string, n: string, indexReply: FetchReply)
    requires '/' !in n && !Contains(n, ".html")
    requires dir + "/" + n + ".html" != "/index.html"
    ensures PageNameFor(dir + "/" + n + ".html", indexReply) == n
  {
    var path := dir + "/" + n + ".html";
    assert path[|path| - 1] == 'l';
    assert path == dir + ['/'] + (n + ".html");
    SegmentNameOfFile(dir, n);
  }

  lemma SegmentNameOfFile(dir: string, n: string)
    requires '/' !in n && !Contains(n, ".html")
    ensures SegmentName(dir + ['/'] + (n + ".html")) == n
  {
    var file := n + ".html";
    LastSegmentOf(dir, file);
    FirstOccurrenceAtEnd(n, ".html");
    assert file[..|n|] == n;
  }

  /** A path without the extension, `<dir>/<n>` other than the root paths, shows `n`. */
  lemma PageNameOfPlainPath(dir: string, n: string, indexReply: FetchReply)
    requires '/' !in n && !Contains(n, ".html")
    requires dir + "/" + n != "/" && dir + "/" + n != "/index.html"
    ensures PageNameFor(dir + "/" + n, indexReply) == n
  {
    assert dir + "/" + n == dir + ['/'] + n;
    LastSegmentOf(dir, n);
  }

  /** A path ending in '/' other than the root, such as `/about/`, shows the empty name,
      whose template is `/src/pages/.html`. */
  lemma PageNameOfTrailingSlash(dir: string, indexReply: FetchReply)
    requires dir + "/" != "/"
    ensures PageNameFor(dir + "/", indexReply) == ""
    ensures TemplatePathOf(PageNameFor(dir + "/", indexReply)) == "/src/pages/.html"
  {
    var path := dir + "/";
    assert path[|path| - 1] == '/' && "/index.html"[10] == 'l';
    assert path == dir + ['/'] + "";
    SegmentNameOfDirectory(dir);
  }

  lemma SegmentNameOfDirectory(dir: string)
    ensures SegmentName(dir + ['/'] + "") == ""
  {
    LastSegmentOf(dir, "");
    NotContains("", ".html");
  }

  /** The last '/'-separated segment of `dir/name` is `name`. */
  lemma LastSegmentOf(dir: string, name: string)
    requires '/' !in name
    ensures var segments := Split(dir + ['/'] + name, '/'); segments[|segments| - 1] == name
  {
    SplitAroundSeparator(dir, '/', name);
    SplitNoSeparator(name, '/');
  }

  /** What `renderTemplate` did: there was no `#app` element, the template could not be
      loaded, the element now holds the rendered page, or running the template threw. */
  datatype RenderOutcome = NoTarget | NoTemplate | Rendered(html: string) | Threw

  /** Running a compiled template on data with the registered partials; `None` when it
      throws. */
  type Runner = (map<string, string>, CompiledTemplate, Data) -> Option<string>

  /** The `#app` element of the document, when there is one. */
  class Document {
    const hasApp: bool
    var appHtml: string

    constructor (hasApp: bool, appHtml: string)
      ensures this.hasApp == hasApp && this.appHtml == appHtml
    {
      this.hasApp, this.appHtml := hasApp, appHtml;
    }
  }

  /** What `initTemplates` loaded and rendered. */
  datatype InitReport = InitReport(pageName: string, templatePath: string, data: Data, outcome: RenderOutcome)

  /** The module state of the development engine, over the library's registry. */
  class Engine {
    var templateCache: map<string, CompiledTemplate>
    var partialsRegistered: set<string>
    const registry: Registry

    constructor (registry: Registry)
      ensures templateCache == map[] && partialsRegistered == {} && this.registry == registry
    {
      templateCache, partialsRegistered := map[], {};
      this.registry := registry;
    }

    /** `registerPartial`: a name already registered is skipped without a request;
        otherwise the partial is fetched and registered, and the name recorded, only when
        the response is ok. A response that is not ok or a failed fetch rejects and changes
        nothing. `requested` lists the URLs fetched. */
    method RegisterPartial(name: string, path: string, fetch: Fetch)
      returns (r: Result<(), PartialError>, requested: seq<string>)
      modifies this, registry
      ensures templateCache == old(templateCache) && registry.helpers == old(registry.helpers)
      ensures name in old(partialsRegistered) ==>
        r.Ok? && requested == [] && partialsRegistered == old(partialsRegistered)
        && registry.partials == old(registry.partials)
      ensures name !in old(partialsRegistered) ==> requested == [path]
      ensures name !in old(partialsRegistered) && fetch(path).Response? && fetch(path).ok ==>
        r.Ok? && registry.partials == old(registry.partials)[name := fetch(path).text]
        && partialsRegistered == old(partialsRegistered) + {name}
      ensures name !in old(partialsRegistered) && !(fetch(path).Response? && fetch(path).ok) ==>
        r.Err? && registry.partials == old(registry.partials) && partialsRegistered == old(partialsRegistered)
      ensures r.Ok? <==> name in partialsRegistered
    {
      if name in partialsRegistered {
        return Ok(()), [];
      }
      requested := [path];
      var response := fetch(path);
      if response.NetworkError? {
        return Err(FetchFailed), requested;
      }
      if !response.ok {
        return Err(HttpError), requested;
      }
      registry.RegisterPartial(name, response.text);
      partialsRegistered := partialsRegistered + {name};
      r := Ok(());
    }

    /** `loadTemplate`: a cached template is returned without a request; otherwise the
        response body is compiled and cached, whatever the status (a 404 page is compiled
        too). A failed fetch gives `null` and caches nothing. */
    method LoadTemplate(path: string, fetch: Fetch) returns (t: Option<CompiledTemplate>, requested: seq<string>)
      modifies this
      ensures partialsRegistered == old(partialsRegistered)
      ensures path in old(templateCache) ==>
        t == Some(old(templateCache)[path]) && requested == [] && templateCache == old(templateCache)
      ensures path !in old(templateCache) ==> requested == [path]
      ensures path !in old(templateCache) && fetch(path).Response? ==>
        t == Some(CompiledTemplate(fetch(path).text)) && templateCache == old(templateCache)[path := t.value]
      ensures path !in old(templateCache) && fetch(path).NetworkError? ==>
        t.None? && templateCache == old(templateCache)
      ensures t.Some? ==> path in templateCache && templateCache[path] == t.value
    {
      if path in templateCache {
        return Some(templateCache[path]), [];
      }
      requested := [path];
      var response := fetch(path);
      if response.NetworkError? {
        return None, requested;
      }
      var template := CompiledTemplate(response.text);
      templateCache := templateCache[path := template];
      t := Some(template);
    }

    /** `renderTemplate`: without a target element nothing is loaded; otherwise the
        template is loaded and, when there is one, its output replaces the element's
        content. A template that throws leaves the element as it was. */
    method RenderTemplate(doc: Document, templatePath: string, data: Data, fetch: Fetch, run: Runner)
      returns (outcome: RenderOutcome)
      modifies this, doc
      ensures partialsRegistered == old(partialsRegistered)
      ensures !doc.hasApp ==> outcome == NoTarget && templateCache == old(templateCache)
      ensures doc.hasApp && templatePath !in old(templateCache) && fetch(templatePath).Response? ==>
        templateCache == old(templateCache)[templatePath := CompiledTemplate(fetch(templatePath).text)]
      ensures !(doc.hasApp && templatePath !in old(templateCache) && fetch(templatePath).Response?) ==>
        templateCache == old(templateCache)
      ensures outcome == NoTemplate <==>
        (doc.hasApp && templatePath !in old(templateCache) && fetch(templatePath).NetworkError?)
      ensures outcome.NoTarget? <==> !doc.hasApp
      ensures outcome.Rendered? <==>
        (doc.hasApp && templatePath in templateCache && run(registry.partials, templateCache[templatePath], data).Some?)
      ensures outcome.Rendered? ==> outcome.html == run(registry.partials, templateCache[templatePath], data).value
      ensures outcome.Rendered? ==> doc.appHtml == outcome.html
      ensures !outcome.Rendered? ==> doc.appHtml == old(doc.appHtml)
      ensures outcome.Threw? <==>
        (doc.hasApp && templatePath in templateCache && run(registry.partials, templateCache[templatePath], data).None?)
    {
      if !doc.hasApp {
        return NoTarget;
      }
      var template, _ := LoadTemplate(templatePath, fetch);
      if template.None? {
        return NoTemplate;
      }
      var html := run(registry.partials, template.value, data);
      if html.None? {
        return Threw;
      }
      doc.appHtml := html.value;
      outcome := Rendered(html.value);
    }

    /** `registerAllPartials`: every component module that loads is registered under its
        component name and the name recorded, whether or not it was registered before; a
        component that fails to load is skipped. The registrations run concurrently; here
        they run in the glob's key order. */
    method RegisterAllPartials(componentPaths: seq<string>, load: string -> Option<string>)
      modifies this, registry
      ensures templateCache == old(templateCache) && registry.helpers == old(registry.helpers)
      ensures registry.partials == old(registry.partials) + ComponentPartials(componentPaths, load)
      ensures partialsRegistered == old(partialsRegistered) + LoadedNames(componentPaths, load)
    {
      for i := 0 to |componentPaths|
        invariant templateCache == old(templateCache) && registry.helpers == old(registry.helpers)
        invariant registry.partials == old(registry.partials) + ComponentPartials(componentPaths[..i], load)
        invariant partialsRegistered == old(partialsRegistered) + LoadedNames(componentPaths[..i], load)
      {
        LoadedStep(componentPaths, i, load);
        var componentPath := componentPaths[i];
        var componentName := ComponentName(componentPath);
        var componentContent := load(componentPath);
        if componentContent.Some? {
          UnionUpdate(old(registry.partials), ComponentPartials(componentPaths[..i], load), componentName,
                      componentContent.value);
          registry.RegisterPartial(componentName, componentContent.value);
          partialsRegistered := partialsRegistered + {componentName};
        }
      }
      assert componentPaths[..|componentPaths|] == componentPaths;
    }

    /** `initTemplates`: registers the helpers and the components, loads the global data,
        routes the location's path to a page, loads that page's data and renders the page
        template on the global data overridden by the page data. It rejects exactly when
        the template throws. */
    method InitTemplates(doc: Document, pagePath: string, fetch: Fetch, componentPaths: seq<string>,
                         load: string -> Option<string>, run: Runner)
      returns (report: InitReport)
      modifies this, registry, doc
      ensures registry.helpers == old(registry.helpers) + HelperNames
      ensures registry.partials == old(registry.partials) + ComponentPartials(componentPaths, load)
      ensures partialsRegistered == old(partialsRegistered) + LoadedNames(componentPaths, load)
      ensures report.pageName == PageNameFor(pagePath, fetch("/src/pages/index.html"))
      ensures report.templatePath == TemplatePathOf(report.pageName)
      ensures report.data ==
        Merge(LoadJsonData(fetch(GlobalDataPath)), LoadJsonData(fetch(DataPathOf(report.pageName))))
      ensures doc.hasApp && report.templatePath !in old(templateCache) && fetch(report.templatePath).Response? ==>
        templateCache == old(templateCache)[report.templatePath := CompiledTemplate(fetch(report.templatePath).text)]
      ensures !(doc.hasApp && report.templatePath !in old(templateCache) && fetch(report.templatePath).Response?) ==>
        templateCache == old(templateCache)
      ensures report.outcome.Rendered? <==>
        (doc.hasApp && report.templatePath in templateCache
         && run(registry.partials, templateCache[report.templatePath], report.data).Some?)
      ensures report.outcome.Rendered? ==>
        report.outcome.html == run(registry.partials, templateCache[report.templatePath], report.data).value
      ensures report.outcome == NoTemplate <==>
        (doc.hasApp && report.templatePath !in old(templateCache) && fetch(report.templatePath).NetworkError?)
      ensures report.outcome.Rendered? ==> doc.appHtml == report.outcome.html
      ensures !report.outcome.Rendered? ==> doc.appHtml == old(doc.appHtml)
      ensures report.outcome.NoTarget? <==> !doc.hasApp
    {
      registry.RegisterHelpers();
      RegisterAllPartials(componentPaths, load);
      var globalData := LoadJsonData(fetch(GlobalDataPath));
      var pageName := PageNameFor(pagePath, fetch("/src/pages/index.html"));
      var templatePath := TemplatePathOf(pageName);
      var pageData := LoadJsonData(fetch(DataPathOf(pageName)));
      var templateData := Merge(globalData, pageData);
      var outcome := RenderTemplate(doc, templatePath, templateData, fetch, run);
      report := InitReport(pageName, templatePath, templateData, outcome);
    }
  }

  /** One more component path: its partial and name are added when it loads. */
  lemma LoadedStep(paths: seq<string>, i: nat, load: string -> Option<string>)
    requires i < |paths|
    ensures ComponentPartials(paths[..i + 1], load) ==
      if load(paths[i]).Some? then ComponentPartials(paths[..i], load)[ComponentName(paths[i]) := load(paths[i]).value]
      else ComponentPartials(paths[..i], load)
    ensures LoadedNames(paths[..i + 1], load) ==
      LoadedNames(paths[..i], load) + (if load(paths[i]).Some? then {ComponentName(paths[i])} else {})
  {
    var prefix := paths[..i + 1];
    assert prefix[..i] == paths[..i] && prefix[i] == paths[i];
    assert forall p :: p in prefix <==> p in paths[..i] || p == paths[i];
  }

  lemma UnionUpdate(a: map<string, string>, b: map<string, string>, k: string, v: string)
    ensures (a + b)[k := v] == a + b[k := v]
  {
  }
}
