/** The server-side renderer of http/render.tsx: it normalises the options,
    classifies the component, consults and fills the shared cache, and adds
    the hydration, init and live-reload scripts and their endpoints. */
module JsxRender {
  import opened Base
  import opened Options
  import opened Documents
  import opened Host

  /** `#initOptions(opt)`: fills each absent field of `opt` in place, in the
      order the source assigns them. */
  method InitOptions(opt: RenderOptions)
    modifies opt
    ensures opt.Value() == Normalize(old(opt.Value()))
  {
    opt.status := Some(opt.status.GetOr(200));
    opt.pageFolder := Some(opt.pageFolder.GetOr("pages"));
    opt.cache := Some(opt.cache.GetOr(true));
    opt.development := Some(opt.development.GetOr(true));
    var html := opt.html.GetOr(EmptyHtml);
    var head := html.head.GetOr(EmptyHead);
    var meta := DefaultMeta(head.descriptions);
    head := head.(meta := Some(head.meta.GetOr(meta)));
    head := head.(script := Some(head.script.GetOr([])));
    html := html.(head := Some(head));
    html := html.(body := Some(html.body.GetOr(EmptyBody)));
    opt.html := Some(html);
  }

  /** The state one render reads and changes: the options, the shared cache
      and the server's route registrations. */
  datatype State = State(opts: Settings, nest: map<string, Entry>, routes: seq<Registration>)

  /** What a render fixes at construction. */
  datatype Context = Context(development: bool, staticPath: string, reqUrl: Option<string>, element: Component)

  datatype Outcome = Outcome(result: Result<Entry>, state: State)

  /** How `#createHTML` classifies a component: a markup tree (given directly
      or inside a page wrapper), or something treated as a function component,
      with the name it reads and the component `#initHtml` is given. */
  datatype Resolved = AsMarkup(tree: Component) | AsFunction(name: Option<string>, target: Component)

  function Resolve(c: Component, element: Component): (r: Resolved)
    ensures r.AsMarkup? <==> IsJsx(c) || (c.Page? && IsJsx(c.inner))
    ensures r.AsMarkup? ==> IsJsx(r.tree)
    ensures r.AsMarkup? ==> r.tree == (if IsJsx(c) then c else c.inner)
    ensures r.AsFunction? ==> r.name == NameOf(if c.Page? then c.inner else c)
    // a page renders its inner component, anything else the render's own element
    ensures r.AsFunction? ==> r.target == (if c.Page? then c.inner else element)
  {
    if IsJsx(c) then AsMarkup(c)
    else
      var inner := if c.Page? then c.inner else c;
      var target := if c.Page? then c.inner else element;
      if IsJsx(inner) then AsMarkup(inner) else AsFunction(NameOf(inner), target)
  }

  /** `compID`: the sentinel `default` for markup trees, the function's name
      otherwise, followed by the request URL. Props take no part. */
  function CacheKey(r: Resolved, reqUrl: Option<string>): (k: string)
    ensures |k| >= |Shown(reqUrl)| && k[|k| - |Shown(reqUrl)|..] == Shown(reqUrl)
    ensures k[..|k| - |Shown(reqUrl)|] == if r.AsMarkup? then "default" else Shown(r.name)
  {
    match r
    case AsMarkup(_) => "default" + Shown(reqUrl)
    case AsFunction(name, _) => Shown(name) + Shown(reqUrl)
  }

  function KeyFor(ctx: Context, c: Component): string {
    CacheKey(Resolve(c, ctx.element), ctx.reqUrl)
  }

  /** A markup tree keys as `default` + URL, given directly or wrapped in a page. */
  lemma MarkupTreeKey(ctx: Context, c: Component)
    requires IsJsx(c) || (c.Page? && IsJsx(c.inner))
    ensures KeyFor(ctx, c) == "default" + Shown(ctx.reqUrl)
  {
  }

  /** A function component keys as its name + URL, bare or wrapped in a page. */
  lemma FunctionKey(ctx: Context, name: string)
    ensures KeyFor(ctx, Function(name)) == name + Shown(ctx.reqUrl)
    ensures KeyFor(ctx, Page(Function(name))) == name + Shown(ctx.reqUrl)
  {
  }

  /** Two function components with different names never share a key at one URL. */
  lemma DistinctNamesDistinctKeys(ctx: Context, n1: string, n2: string)
    requires n1 != n2
    ensures KeyFor(ctx, Function(n1)) != KeyFor(ctx, Function(n2))
  {
    if KeyFor(ctx, Function(n1)) == KeyFor(ctx, Function(n2)) {
      SuffixCancels(n1, n2, Shown(ctx.reqUrl));
    }
  }

  /** The sentinel is an ordinary name: a function whose name is `default`
      (an anonymous default export) shares the key of a markup tree. */
  lemma DefaultNameSharesMarkupKey(ctx: Context, tree: Component)
    requires IsJsx(tree)
    ensures KeyFor(ctx, Function("default")) == KeyFor(ctx, tree)
  {
  }

  /** `#handleDevelopment`: in development, register `refresh.js` and append
      it to `head.script` when that list exists; otherwise nothing. */
  function DevStep(ctx: Context, s: State): State {
    if !ctx.development then s
    else
      var path := ctx.staticPath + "/refresh.js";
      State(AppendHeadScript(s.opts, path), s.nest, s.routes + [Registration("GET", path, RefreshScript)])
  }

  /** `#handleComponent(fc, hydrate = true)`: nothing without a body; when
      hydrating and `body.script` exists, append the component's bundle. The
      name is lower-cased only then, and an undefined name throws there. */
  function HydrateStep(staticPath: string, o: Settings, name: Option<string>, hydrate: Option<bool>): (Option<Fault>, Settings) {
    if o.html.None? || o.html.value.body.None? then (None, o)
    else if !hydrate.GetOr(true) || BodyScripts(o).None? then (None, o)
    else if name.None? then (Some(UndefinedName), o)
    else (None, AppendBodyScript(o, staticPath + "/" + Lower(name.value) + ".js"))
  }

  /** `#injectInitScript`: register `init.js` and append it to `body.script` when that list exists. */
  function InitStep(ctx: Context, s: State): State {
    var path := ctx.staticPath + "/init.js";
    State(AppendBodyScript(s.opts, path), s.nest, s.routes + [Registration("GET", path, InitData(s.opts.props))])
  }

  /** Build the document and store it under `key`. */
  function Build(s: State, key: string, e: Component): Outcome {
    match InitHtml(e, s.opts.html, s.opts.props)
    case Err(f) => Outcome(Err(f), s)
    case Ok(doc) => Outcome(Ok(Rendered(doc)), s.(nest := s.nest[key := Rendered(doc)]))
  }

  /** `#handleJSXElement`. */
  function MarkupSpec(ctx: Context, s: State, tree: Component, cached: bool): Outcome {
    var key := "default" + Shown(ctx.reqUrl);
    if cached && Hit(s.nest, key) then Outcome(Ok(s.nest[key]), s)
    else Build(s, key, tree)
  }

  /** `#createHTML(component, cached)`. */
  function CreateHtmlSpec(ctx: Context, s: State, c: Component, cached: bool): Outcome {
    var s1 := DevStep(ctx, s);
    match Resolve(c, ctx.element)
    case AsMarkup(tree) => MarkupSpec(ctx, s1, tree, cached)
    case AsFunction(name, target) =>
      var key := Shown(name) + Shown(ctx.reqUrl);
      if cached && Hit(s1.nest, key) then Outcome(Ok(s1.nest[key]), s1)
      else
        var (fault, o2) := HydrateStep(ctx.staticPath, s1.opts, name, s1.opts.hydrate);
        if fault.Some? then Outcome(Err(fault.value), s1)
        else Build(InitStep(ctx, s1.(opts := o2)), key, target)
  }

  datatype Reply = Reply(result: Result<Response>, state: State)

  /** `render()`: the document (cached when `cache` is on) streamed with the configured status. */
  function RenderSpec(ctx: Context, s: State): Reply {
    var o := CreateHtmlSpec(ctx, s, ctx.element, s.opts.cache == Some(true));
    match o.result
    case Err(f) => Reply(Err(f), o.state)
    case Ok(e) => Reply(Ok(Response(o.state.opts.status.GetOr(200), "text/html", Stream(e))), o.state)
  }

  /** On a cache hit the stored value is returned and the only change is the
      development step: no body script, no init endpoint, the cache untouched. */
  lemma CacheHitOnlyRunsDevelopment(ctx: Context, s: State, c: Component)
    requires Hit(s.nest, KeyFor(ctx, c))
    ensures CreateHtmlSpec(ctx, s, c, true) == Outcome(Ok(s.nest[KeyFor(ctx, c)]), DevStep(ctx, s))
  {
  }

  /** On a miss the result is stored under the key and nowhere else; a
      failure stores nothing. */
  lemma CacheMissStoresUnderKeyOnly(ctx: Context, s: State, c: Component, cached: bool)
    requires !(cached && Hit(s.nest, KeyFor(ctx, c)))
    ensures var o := CreateHtmlSpec(ctx, s, c, cached);
      && (o.result.Ok? ==> o.result.value.Rendered? && o.state.nest == s.nest[KeyFor(ctx, c) := o.result.value])
      && (o.result.Err? ==> o.state.nest == s.nest)
  {
    var s1 := DevStep(ctx, s);
    var key := KeyFor(ctx, c);
    assert s1.nest == s.nest;
    match Resolve(c, ctx.element)
    case AsMarkup(tree) =>
      BuildStoresUnderKey(s1, key, tree);
    case AsFunction(name, target) =>
      var (fault, o2) := HydrateStep(ctx.staticPath, s1.opts, name, s1.opts.hydrate);
      if fault.None? {
        var s3 := InitStep(ctx, s1.(opts := o2));
        assert s3.nest == s.nest;
        BuildStoresUnderKey(s3, key, target);
      }
  }

  /** `Build` stores a document under its key and nowhere else, or fails and stores nothing. */
  lemma BuildStoresUnderKey(s: State, key: string, e: Component)
    ensures var o := Build(s, key, e);
      && (o.result.Ok? ==> o.result.value.Rendered? && o.state.nest == s.nest[key := o.result.value])
      && (o.result.Err? ==> o.state.nest == s.nest)
  {
  }

  /** A function-component miss appends, in order, the component's bundle
      (unless `hydrate` is false) and then `init.js` to `body.script`, and
      registers `init.js` after the development registrations. */
  lemma FunctionMissAppendsScripts(ctx: Context, s: State, c: Component, cached: bool, name: string)
    requires c == Function(name) || c == Page(Function(name))
    requires !(cached && Hit(s.nest, name + Shown(ctx.reqUrl)))
    requires BodyScripts(s.opts).Some?
    ensures var o := CreateHtmlSpec(ctx, s, c, cached);
      var bundle := if s.opts.hydrate.GetOr(true) then [Script(ctx.staticPath + "/" + Lower(name) + ".js")] else [];
      && BodyScripts(o.state.opts) == Some(BodyScripts(s.opts).value + bundle + [Script(ctx.staticPath + "/init.js")])
      && o.state.routes == DevStep(ctx, s).routes + [Registration("GET", ctx.staticPath + "/init.js", InitData(s.opts.props))]
  {
    var s1 := DevStep(ctx, s);
    assert BodyScripts(s1.opts) == BodyScripts(s.opts);
    assert s1.opts.hydrate == s.opts.hydrate && s1.opts.props == s.opts.props;
    var l := BodyScripts(s.opts).value;
    var (fault, o2) := HydrateStep(ctx.staticPath, s1.opts, Some(name), s1.opts.hydrate);
    assert fault.None?;
    var bundle := if s.opts.hydrate.GetOr(true) then [Script(ctx.staticPath + "/" + Lower(name) + ".js")] else [];
    if s.opts.hydrate.GetOr(true) {
      assert o2 == AppendBodyScript(s1.opts, ctx.staticPath + "/" + Lower(name) + ".js");
    } else {
      assert o2 == s1.opts && l + bundle == l;
    }
    assert BodyScripts(o2) == Some(l + bundle);
    var s3 := InitStep(ctx, s1.(opts := o2));
    assert BodyScripts(s3.opts) == Some(l + bundle + [Script(ctx.staticPath + "/init.js")]);
    assert o2.props == s.opts.props;
  }

  /** The markup-tree path appends nothing to `body.script` and registers nothing beyond development. */
  lemma MarkupAppendsNoBodyScript(ctx: Context, s: State, c: Component, cached: bool)
    requires Resolve(c, ctx.element).AsMarkup?
    ensures var o := CreateHtmlSpec(ctx, s, c, cached);
      BodyScripts(o.state.opts) == BodyScripts(s.opts) && o.state.routes == DevStep(ctx, s).routes
  {
  }

  /** After the development step, `#createHTML` leaves `head.script` alone
      and registers at most the `init.js` endpoint. */
  lemma AfterDevelopment(ctx: Context, s: State, c: Component, cached: bool)
    ensures var o, s1 := CreateHtmlSpec(ctx, s, c, cached), DevStep(ctx, s);
      && HeadScripts(o.state.opts) == HeadScripts(s1.opts)
      && (o.state.routes == s1.routes ||
          (|o.state.routes| == |s1.routes| + 1 && o.state.routes[..|s1.routes|] == s1.routes
           && o.state.routes[|s1.routes|].handler.InitData?))
  {
  }

  /** Every call, cache hits included, adds `refresh.js` to `head.script` and
      registers it first, in development and only then; the route log only grows. */
  lemma DevelopmentOnEveryCall(ctx: Context, s: State, c: Component, cached: bool)
    ensures var o := CreateHtmlSpec(ctx, s, c, cached);
      var refresh := ctx.staticPath + "/refresh.js";
      && HeadScripts(o.state.opts) ==
           (if ctx.development && HeadScripts(s.opts).Some? then Some(HeadScripts(s.opts).value + [Script(refresh)])
            else HeadScripts(s.opts))
      && o.state.routes[..|s.routes|] == s.routes
      && (ctx.development <==>
            |o.state.routes| > |s.routes| && o.state.routes[|s.routes|] == Registration("GET", refresh, RefreshScript))
  {
    var o := CreateHtmlSpec(ctx, s, c, cached);
    var s1 := DevStep(ctx, s);
    AfterDevelopment(ctx, s, c, cached);
    assert s1.routes[..|s.routes|] == s.routes;
    assert |s1.routes| >= |s.routes|;
    assert o.state.routes[..|s1.routes|] == s1.routes;
    assert o.state.routes[..|s.routes|] == s1.routes[..|s.routes|];
  }

  /** Two renders of one component at one URL with caching on: the second
      returns the first's result and only runs the development step, so
      hydration and the init endpoint happen once. */
  lemma SecondRenderServedFromCache(ctx: Context, s: State, c: Component)
    requires CreateHtmlSpec(ctx, s, c, true).result.Ok?
    ensures var o1 := CreateHtmlSpec(ctx, s, c, true);
      var o2 := CreateHtmlSpec(ctx, o1.state, c, true);
      o2.result == o1.result && o2.state == DevStep(ctx, o1.state)
  {
    var key := KeyFor(ctx, c);
    var o1 := CreateHtmlSpec(ctx, s, c, true);
    if Hit(s.nest, key) {
      CacheHitOnlyRunsDevelopment(ctx, s, c);
      assert o1.state.nest == s.nest;
    } else {
      CacheMissStoresUnderKeyOnly(ctx, s, c, true);
    }
    assert Hit(o1.state.nest, key) && o1.state.nest[key] == o1.result.value;
    CacheHitOnlyRunsDevelopment(ctx, o1.state, c);
  }

  /** Props are not part of the key: on a hit, renders with other props get the same cached value. */
  lemma CachedResultIgnoresProps(ctx: Context, s: State, c: Component, p: Option<Props>)
    requires Hit(s.nest, KeyFor(ctx, c))
    ensures CreateHtmlSpec(ctx, s.(opts := s.opts.(props := p)), c, true).result == CreateHtmlSpec(ctx, s, c, true).result
  {
    CacheHitOnlyRunsDevelopment(ctx, s, c);
    CacheHitOnlyRunsDevelopment(ctx, s.(opts := s.opts.(props := p)), c);
  }

  /** A value that is neither a markup tree, a function nor a page (an object
      missing `type` or `props`) is read as a nameless function: on a miss
      with hydration on and a body script list, lower-casing its name throws. */
  lemma NamelessComponentThrows(ctx: Context, s: State, c: Component, cached: bool)
    requires c.Element? && !IsJsx(c)
    requires !(cached && Hit(s.nest, "undefined" + Shown(ctx.reqUrl)))
    requires s.opts.hydrate.GetOr(true) && BodyScripts(s.opts).Some?
    ensures CreateHtmlSpec(ctx, s, c, cached) == Outcome(Err(UndefinedName), DevStep(ctx, s))
  {
    assert BodyScripts(DevStep(ctx, s).opts) == BodyScripts(s.opts);
  }

  /** The response carries the configured status (200 by default) and HTML content. */
  lemma RenderResponds(ctx: Context, s: State)
    requires RenderSpec(ctx, s).result.Ok?
    ensures var r := RenderSpec(ctx, s);
      && r.result.value.status == s.opts.status.GetOr(200)
      && r.result.value.contentType == "text/html"
      && r.result.value.body == Stream(CreateHtmlSpec(ctx, s, ctx.element, s.opts.cache == Some(true)).result.value)
  {
    var o := CreateHtmlSpec(ctx, s, ctx.element, s.opts.cache == Some(true));
    assert o.state.opts.status == s.opts.status;
  }

  /** The `Render` object: the options it appends to, the shared cache and
      the server it registers endpoints with. */
  class Render {
    const options: RenderOptions
    const element: Component
    const nest: Nest
    const development: bool
    const server: Server
    const staticPath: string
    const reqUrl: Option<string>

    function Ctx(): Context {
      Context(development, staticPath, reqUrl, element)
    }

    function StateOf(): State
      reads options, nest, server
    {
      State(options.Value(), nest.entries, server.routes)
    }

    constructor (element: Component, options: RenderOptions, nest: Nest, server: Server, reqUrl: Option<string>)
      modifies options
      ensures this.options == options && this.element == element && this.nest == nest && this.server == server
      ensures development == server.development && staticPath == server.staticPath + "/js" && this.reqUrl == reqUrl
      ensures options.Value() == Normalize(old(options.Value()))
    {
      InitOptions(options);
      this.options := options;
      this.element := element;
      this.nest := nest;
      this.development := server.development;
      this.server := server;
      this.staticPath := server.staticPath + "/js";
      this.reqUrl := reqUrl;
    }

    method HandleDevelopment()
      modifies options, server
      ensures StateOf() == DevStep(Ctx(), old(StateOf()))
    {
      if !development {
        return;
      }
      var refreshPath := staticPath + "/refresh.js";
      server.Register("GET", refreshPath, RefreshScript);
      if HeadScripts(options.Value()).Some? {
        options.html := AppendHeadScript(options.Value(), refreshPath).html;
      }
    }

    method HandleComponent(name: Option<string>, hydrate: Option<bool>) returns (fault: Option<Fault>)
      modifies options
      ensures (fault, options.Value()) == HydrateStep(staticPath, old(options.Value()), name, hydrate)
    {
      fault := None;
      if options.html.None? || options.html.value.body.None? {
        return;
      }
      if hydrate.GetOr(true) && BodyScripts(options.Value()).Some? {
        if name.None? {
          fault := Some(UndefinedName);
          return;
        }
        options.html := AppendBodyScript(options.Value(), staticPath + "/" + Lower(name.value) + ".js").html;
      }
    }

    method InjectInitScript()
      modifies options, server
      ensures StateOf() == InitStep(Ctx(), old(StateOf()))
    {
      var initPath := staticPath + "/init.js";
      server.Register("GET", initPath, InitData(options.props));
      if BodyScripts(options.Value()).Some? {
        options.html := AppendBodyScript(options.Value(), initPath).html;
      }
    }

    method HandleJsxElement(tree: Component, cached: bool) returns (r: Result<Entry>)
      modifies nest
      ensures Outcome(r, StateOf()) == MarkupSpec(Ctx(), old(StateOf()), tree, cached)
    {
      var compId := "default" + Shown(reqUrl);
      if cached && Hit(nest.entries, compId) {
        return Ok(nest.entries[compId]);
      }
      var html := InitHtml(tree, options.html, options.props);
      if html.Err? {
        return Err(html.fault);
      }
      nest.entries := nest.entries[compId := Rendered(html.value)];
      r := Ok(Rendered(html.value));
    }

    method CreateHtml(component: Component, cached: bool) returns (r: Result<Entry>)
      modifies options, nest, server
      ensures Outcome(r, StateOf()) == CreateHtmlSpec(Ctx(), old(StateOf()), component, cached)
    {
      HandleDevelopment();
      if IsJsx(component) {
        r := HandleJsxElement(component, cached);
        return;
      }
      var isPage := component.Page?;
      var c := if isPage then component.inner else component;
      var e := if isPage then component.inner else element;
      if IsJsx(c) {
        r := HandleJsxElement(c, cached);
        return;
      }
      var name := NameOf(c);
      var compId := Shown(name) + Shown(reqUrl);
      if cached && Hit(nest.entries, compId) {
        return Ok(nest.entries[compId]);
      }
      var fault := HandleComponent(name, options.hydrate);
      if fault.Some? {
        return Err(fault.value);
      }
      InjectInitScript();
      var html := InitHtml(e, options.html, options.props);
      if html.Err? {
        return Err(html.fault);
      }
      nest.entries := nest.entries[compId := Rendered(html.value)];
      r := Ok(Rendered(html.value));
    }

    /** `render()`, with the streaming left out: the response carries the document itself. */
    method RenderPage() returns (r: Result<Response>)
      modifies options, nest, server
      ensures Reply(r, StateOf()) == RenderSpec(Ctx(), old(StateOf()))
    {
      var html := CreateHtml(element, options.cache == Some(true));
      if html.Err? {
        return Err(html.fault);
      }
      r := Ok(Response(options.status.GetOr(200), "text/html", Stream(html.value)));
    }
  }
}
