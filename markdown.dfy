/** The markdown hook of hooks/markdown.tsx: posts are looked up through the
    shared `nest` record, read from disk on a miss, and rendered by the
    server-side renderer with the hook's options or a fixed default record. */
module MarkdownHook {
  import opened Base
  import opened Options
  import opened Documents
  import opened Host
  import opened JsxRender

  /** The I/O behind `#readFile`: the file name the wildcard URL pattern (slash, star) captures
      from a path (`None` when it does not match), and the post read from
      `./posts/<file>.md` and laid out with the header and footer (`None`
      when reading or parsing throws). */
  datatype Loader = Loader(
    matchPath: string -> Option<string>,
    load: (Component, Component, string) -> Option<Post>)

  /** `getPost`'s key. */
  function PostKey(url: string): (k: string)
    ensures |k| == |url| + 8 && k[..8] == "markdown" && k[8..] == url
  {
    "markdown" + url
  }

  /** The `pathname` of `#readFile`'s URL pattern, a slash and a star. */
  const Wildcard := "/" + "*"

  /** `#readFile`'s key: `markdown` + the wildcard pattern + the path. */
  function FileKey(path: string): (k: string)
    ensures |k| == |path| + 10 && k[..8] == "markdown" && k[8..10] == Wildcard && k[10..] == path
  {
    "markdown" + Wildcard + path
  }

  /** For one path the two caches never share an entry, and neither shares
      one with the markup-tree entries of the renderer. */
  lemma KeysDistinct(path: string, url: string)
    ensures FileKey(path) != PostKey(path)
    ensures PostKey(path) != "default" + url && FileKey(path) != "default" + url
  {
    assert |FileKey(path)| == |PostKey(path)| + 2;
    assert PostKey(path)[0] == 'm' && FileKey(path)[0] == 'm' && ("default" + url)[0] == 'd';
  }

  /** What one call returns and leaves behind: the shared record and the
      instance's `#post` record. */
  datatype Step = Step(result: Entry, nest: map<string, Entry>, posts: map<string, Post>)

  /** `#readFile(path)`: a truthy entry under its key is returned as it is; a
      path that does not match, or a read that throws, stores `null` there;
      a successful read is recorded in `#post` and not in the shared record. */
  function ReadFileSpec(nest: map<string, Entry>, posts: map<string, Post>, path: string,
                        header: Component, footer: Component, loader: Loader): Step
  {
    var key := FileKey(path);
    if Hit(nest, key) then Step(nest[key], nest, posts)
    else match loader.matchPath(path)
      case None => Step(Null, nest[key := Null], posts)
      case Some(file) =>
        match loader.load(header, footer, file)
        case None => Step(Null, nest[key := Null], posts)
        case Some(post) => Step(Article(post), nest, posts[path := post])
  }

  /** `getPost()`: a truthy entry under `markdown` + URL is returned without
      reading; otherwise whatever `#readFile` gives is stored there and returned. */
  function GetPostSpec(nest: map<string, Entry>, posts: map<string, Post>, url: string,
                       header: Component, footer: Component, loader: Loader): Step
  {
    var key := PostKey(url);
    if Hit(nest, key) then Step(nest[key], nest, posts)
    else
      var read := ReadFileSpec(nest, posts, url, header, footer, loader);
      Step(read.result, read.nest[key := read.result], read.posts)
  }

  /** A cached post is returned without reading: the loader plays no part and nothing changes. */
  lemma CachedPostSkipsRead(nest: map<string, Entry>, posts: map<string, Post>, url: string,
                            header: Component, footer: Component, l1: Loader, l2: Loader)
    requires Hit(nest, PostKey(url))
    ensures GetPostSpec(nest, posts, url, header, footer, l1) == GetPostSpec(nest, posts, url, header, footer, l2)
    ensures GetPostSpec(nest, posts, url, header, footer, l1) == Step(nest[PostKey(url)], nest, posts)
  {
  }

  /** On a miss the read's result is stored under `markdown` + URL and returned. */
  lemma MissStoresReadResult(nest: map<string, Entry>, posts: map<string, Post>, url: string,
                             header: Component, footer: Component, loader: Loader)
    requires !Hit(nest, PostKey(url))
    ensures var s := GetPostSpec(nest, posts, url, header, footer, loader);
      && s.result == ReadFileSpec(nest, posts, url, header, footer, loader).result
      && PostKey(url) in s.nest && s.nest[PostKey(url)] == s.result
  {
  }

  /** A successful read lands in `#post` under the path and in the shared
      record only under `getPost`'s key, never under `#readFile`'s. */
  lemma SuccessfulReadRecordedInPosts(nest: map<string, Entry>, posts: map<string, Post>, url: string,
                                      header: Component, footer: Component, loader: Loader, file: string, post: Post)
    requires !Hit(nest, PostKey(url)) && !Hit(nest, FileKey(url))
    requires loader.matchPath(url) == Some(file) && loader.load(header, footer, file) == Some(post)
    ensures GetPostSpec(nest, posts, url, header, footer, loader) ==
      Step(Article(post), nest[PostKey(url) := Article(post)], posts[url := post])
  {
  }

  /** A failed read stores `null` under both keys; `null` is falsy, so the
      next request for the URL reads again, with whatever the loader then gives. */
  lemma FailureIsNotCached(nest: map<string, Entry>, posts: map<string, Post>, url: string,
                           header: Component, footer: Component, loader: Loader, next: Loader)
    requires !Hit(nest, PostKey(url)) && !Hit(nest, FileKey(url))
    requires ReadFileSpec(nest, posts, url, header, footer, loader).result.Null?
    ensures var s := GetPostSpec(nest, posts, url, header, footer, loader);
      && s.result == Null
      && s.nest == nest[FileKey(url) := Null][PostKey(url) := Null]
      && GetPostSpec(s.nest, s.posts, url, header, footer, next).result ==
           ReadFileSpec(s.nest, s.posts, url, header, footer, next).result
  {
    KeysDistinct(url, "");
  }

  /** The key of a `#readFile` entry. */
  predicate IsFileKey(k: string) {
    |k| >= 10 && k[..10] == "markdown/*"
  }

  /** No `#readFile` entry is truthy. */
  predicate NoFileHits(nest: map<string, Entry>) {
    forall k :: k in nest && IsFileKey(k) ==> nest[k].Null?
  }

  /** A request URL is absolute, so it never starts with the wildcard pattern. */
  predicate AbsoluteUrl(url: string) {
    !(|url| >= 2 && url[..2] == Wildcard)
  }

  /** `#readFile` only ever stores `null`, and `getPost` on an absolute URL
      never writes a `#readFile` key. */
  lemma GetPostKeepsNoFileHits(nest: map<string, Entry>, posts: map<string, Post>, url: string,
                               header: Component, footer: Component, loader: Loader)
    requires NoFileHits(nest) && AbsoluteUrl(url)
    ensures NoFileHits(GetPostSpec(nest, posts, url, header, footer, loader).nest)
  {
    var s := GetPostSpec(nest, posts, url, header, footer, loader);
    if !Hit(nest, PostKey(url)) {
      var read := ReadFileSpec(nest, posts, url, header, footer, loader);
      assert NoFileHits(read.nest);
      assert !IsFileKey(PostKey(url)) by {
        if |PostKey(url)| >= 10 {
          assert PostKey(url)[8..10] == url[..2];
          assert "markdown/*"[8..10] == Wildcard;
        }
      }
    }
  }

  /** The shared record after a sequence of requests, each served by a fresh
      `Markdown` object whose `#post` record starts empty. */
  function GetPosts(nest: map<string, Entry>, urls: seq<string>,
                    header: Component, footer: Component, loader: Loader): map<string, Entry>
    decreases |urls|
  {
    if urls == [] then nest
    else
      var s := GetPostSpec(nest, map[], urls[0], header, footer, loader);
      GetPosts(s.nest, urls[1..], header, footer, loader)
  }

  /** `#readFile`'s own cache is never hit: over any run of requests, none of
      its entries becomes truthy. */
  lemma {:induction false} FileCacheNeverHits(nest: map<string, Entry>, urls: seq<string>,
                                              header: Component, footer: Component, loader: Loader)
    requires NoFileHits(nest)
    requires forall i :: 0 <= i < |urls| ==> AbsoluteUrl(urls[i])
    ensures NoFileHits(GetPosts(nest, urls, header, footer, loader))
    decreases |urls|
  {
    if urls != [] {
      var s := GetPostSpec(nest, map[], urls[0], header, footer, loader);
      GetPostKeepsNoFileHits(nest, map[], urls[0], header, footer, loader);
      FileCacheNeverHits(s.nest, urls[1..], header, footer, loader);
    }
  }

  /** `md.meta?.<field>` */
  function MetaOf(md: Post): PostMeta {
    md.meta.GetOr(PostMeta(None, None, None, None, None, None, None))
  }

  function DefaultMetaList(md: Post): seq<Meta> {
    var m := MetaOf(md);
    [ CharsetMeta,
      ViewportMeta,
      Meta(Some("description"), None, m.description, None),
      Meta(None, Some("og:image"), m.image, None),
      Meta(Some("twitter:image:src"), None, m.image, None),
      Meta(Some("twitter:description"), None, m.description, None),
      Meta(Some("og-description"), None, m.description, None),
      Meta(None, Some("og:title"), m.title, None) ]
  }

  const BootstrapCss := Link(
    "https://cdn.jsdelivr.net/npm/bootstrap@5.3.0-alpha1/dist/css/bootstrap.min.css", "stylesheet",
    Some("sha384-GLhlTQ8iRABdZLl6O3oVMWSktQOp6b7In1Zl3/Jr59b6EGGoI1aFkw7cmDA6j6gD"), Some("anonymous"))
  const PostCss := Link("/static/post.css", "stylesheet", None, None)
  const CoverCss := Link("/static/cover.css", "stylesheet", None, None)

  const BodyClass := "d-flex h-100 text-bg-dark"
  const RootClass := "cover-container d-flex w-100 p-3 mx-auto flex-column"

  function DefaultHead(md: Post): Head {
    Head(Some(Shown(MetaOf(md).title) + " | Fastro"), MetaOf(md).description,
         Some(DefaultMetaList(md)), Some([BootstrapCss, PostCss, CoverCss]), None)
  }

  /** `#getDefaultOptions(md)` as written, which is what the hook renders
      with: cache on, English, the post's title, eight meta entries and three
      stylesheets; the root class is given as `body.rootClass`, a property the
      layout never reads, and `body.root` is absent. */
  function DefaultOptionsAsWritten(md: Post): (r: Settings)
    ensures r.cache == Some(true) && r.html.Some? && r.html.value.lang == Some("en")
    ensures r.html.value.head.Some? && r.html.value.head.value.title == Some(Shown(MetaOf(md).title) + " | Fastro")
    ensures var meta := r.html.value.head.value.meta;
      meta.Some? && |meta.value| == 8 && meta.value[0] == CharsetMeta && meta.value[1] == ViewportMeta
    ensures r.html.value.head.value.link == Some([BootstrapCss, PostCss, CoverCss])
    ensures r.html.value.body == Some(Body(Some(BodyClass), None, Some(RootClass), None))
  {
    Settings(None, None, Some(true), None, None, None,
      Some(Html(Some("en"), Some(DefaultHead(md)), Some(Body(Some(BodyClass), None, Some(RootClass), None)))))
  }

  /** The correction of `#getDefaultOptions(md)`: the same record with the
      root class moved to where the layout reads it, `body.root.class`. */
  function DefaultOptions(md: Post): (r: Settings)
    ensures var w := DefaultOptionsAsWritten(md);
      r == w.(html := Some(w.html.value.(body := Some(Body(Some(BodyClass), Some(Root(Some(RootClass))), None, None)))))
  {
    Settings(None, None, Some(true), None, None, None,
      Some(Html(Some("en"), Some(DefaultHead(md)), Some(Body(Some(BodyClass), Some(Root(Some(RootClass))), None, None)))))
  }

  /** The record as written cannot be rendered: a post (a markup tree) not
      yet cached fails with the TypeError of reading `root.class`. */
  lemma DefaultOptionsAsWrittenFailToRender(ctx: Context, md: Post, nest: map<string, Entry>, routes: seq<Registration>)
    requires IsJsx(md.content) && ctx.element == md.content
    requires !Hit(nest, "default" + Shown(ctx.reqUrl))
    ensures RenderSpec(ctx, State(Normalize(DefaultOptionsAsWritten(md)), nest, routes)).result == Err(MissingRoot)
  {
    var s := State(Normalize(DefaultOptionsAsWritten(md)), nest, routes);
    var s1 := DevStep(ctx, s);
    assert s.opts.cache == Some(true);
    assert s1.opts.html.value.body == s.opts.html.value.body;
  }

  /** With the root class in `body.root`, the same post renders with status
      200 and is cached under the markup key. */
  lemma DefaultOptionsRender(ctx: Context, md: Post, nest: map<string, Entry>, routes: seq<Registration>)
    requires IsJsx(md.content) && ctx.element == md.content
    requires !Hit(nest, "default" + Shown(ctx.reqUrl))
    ensures var rep, key := RenderSpec(ctx, State(Normalize(DefaultOptions(md)), nest, routes)), "default" + Shown(ctx.reqUrl);
      && rep.result.Ok? && key in rep.state.nest && rep.state.nest[key].Rendered?
      && rep.result.value == Response(200, "text/html", Stream(rep.state.nest[key]))
  {
    var s := State(Normalize(DefaultOptions(md)), nest, routes);
    var s1 := DevStep(ctx, s);
    assert s.opts.cache == Some(true) && s.opts.status == Some(200);
    assert s1.opts.html.value.body == s.opts.html.value.body;
    assert s1.opts.status == Some(200);
  }

  /** The components/header.tsx and components/footer.tsx default exports. */
  const DefaultHeader := Function("Header")
  const DefaultFooter := Function("Footer")

  /** The per-request `Markdown` object. */
  class Markdown {
    var post: map<string, Post>
    const nest: Nest
    const path: string
    const header: Component
    const footer: Component

    constructor (nest: Nest, url: string, header: Component, footer: Component)
      ensures post == map[] && this.nest == nest && path == url && this.header == header && this.footer == footer
    {
      post := map[];
      this.nest := nest;
      path := url;
      this.header := header;
      this.footer := footer;
    }

    method ReadFile(path: string, loader: Loader) returns (r: Entry)
      modifies this, nest
      ensures Step(r, nest.entries, post) == ReadFileSpec(old(nest.entries), old(post), path, header, footer, loader)
    {
      var nestId := "markdown" + Wildcard + path;
      if Hit(nest.entries, nestId) {
        return nest.entries[nestId];
      }
      var m := loader.matchPath(path);
      if m.None? {
        nest.entries := nest.entries[nestId := Null];
        return Null;
      }
      var read := loader.load(header, footer, m.value);
      if read.None? {
        nest.entries := nest.entries[nestId := Null];
        return Null;
      }
      post := post[path := read.value];
      r := Article(read.value);
    }

    method GetPost(loader: Loader) returns (r: Entry)
      modifies this, nest
      ensures Step(r, nest.entries, post) == GetPostSpec(old(nest.entries), old(post), path, header, footer, loader)
    {
      var nestId := "markdown" + path;
      if Hit(nest.entries, nestId) {
        return nest.entries[nestId];
      }
      var res := ReadFile(path, loader);
      nest.entries := nest.entries[nestId := res];
      r := res;
    }
  }

  /** The hook object: its header, footer and, optionally, fixed render options. */
  class Instance {
    const header: Component
    const footer: Component
    const options: RenderOptions?

    constructor (header: Option<Component>, footer: Option<Component>, options: RenderOptions?)
      ensures this.header == header.GetOr(DefaultHeader) && this.footer == footer.GetOr(DefaultFooter)
      ensures this.options == options
    {
      this.header := header.GetOr(DefaultHeader);
      this.footer := footer.GetOr(DefaultFooter);
      this.options := options;
    }

    /** `hook(f, r)`: nothing for a URL without a post; otherwise the post
        rendered with the instance's options, or the defaults when it has none. */
    method Hook(server: Server, nest: Nest, url: string, loader: Loader) returns (r: Result<Option<Response>>)
      modifies nest, server, options
      ensures var step := GetPostSpec(old(nest.entries), map[], url, header, footer, loader);
        && (step.result.Null? ==>
              && r == Ok(None) && nest.entries == step.nest && server.routes == old(server.routes)
              && (options != null ==> options.Value() == old(options.Value())))
        && (step.result.Rendered? ==>
              && r == Err(NotAPost) && nest.entries == step.nest && server.routes == old(server.routes)
              && (options != null ==> options.Value() == old(options.Value())))
        && (step.result.Article? ==>
              var opts := if options == null then DefaultOptionsAsWritten(step.result.post) else old(options.Value());
              var ctx := Context(server.development, server.staticPath + "/js", Some(url), step.result.post.content);
              var reply := RenderSpec(ctx, State(Normalize(opts), step.nest, old(server.routes)));
              && nest.entries == reply.state.nest
              && server.routes == reply.state.routes
              && (options != null ==> options.Value() == reply.state.opts)
              && r == (if reply.result.Ok? then Ok(Some(reply.result.value)) else Err(reply.result.fault)))
    {
      var md := new Markdown(nest, url, header, footer);
      var found := md.GetPost(loader);
      if found.Null? {
        return Ok(None);
      }
      if !found.Article? {
        return Err(NotAPost);
      }
      var opt: RenderOptions;
      if options != null {
        opt := options;
      } else {
        opt := new RenderOptions(DefaultOptionsAsWritten(found.post));
      }
      var render := new Render(found.post.content, opt, nest, server, Some(url));
      var res := render.RenderPage();
      if res.Err? {
        return Err(res.fault);
      }
      r := Ok(Some(res.value));
    }
  }
}
