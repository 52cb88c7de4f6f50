/** The mutable `RenderOptions` record that one render reads and appends to,
    and the defaults `#initOptions` fills in (http/render.tsx). */
module Options {
  import opened Base

  datatype Meta = Meta(name: Option<string>, property: Option<string>, content: Option<string>, charset: Option<string>)
  datatype Link = Link(href: string, rel: string, integrity: Option<string>, crossorigin: Option<string>)
  datatype Script = Script(src: string)

  datatype Head = Head(
    title: Option<string>,
    descriptions: Option<string>,
    meta: Option<seq<Meta>>,
    link: Option<seq<Link>>,
    script: Option<seq<Script>>)

  datatype Root = Root(className: Option<string>)

  /** `rootClass` is a property some callers set; the document layout never reads it. */
  datatype Body = Body(className: Option<string>, root: Option<Root>, rootClass: Option<string>, script: Option<seq<Script>>)

  datatype Html = Html(lang: Option<string>, head: Option<Head>, body: Option<Body>)

  /** The value held by a `RenderOptions` object at one moment. */
  datatype Settings = Settings(
    status: Option<int>,
    pageFolder: Option<string>,
    cache: Option<bool>,
    development: Option<bool>,
    hydrate: Option<bool>,
    props: Option<Props>,
    html: Option<Html>)

  const EmptyHtml := Html(None, None, None)
  /** `{ meta: [], script: [], link: [] }` */
  const EmptyHead := Head(None, None, Some([]), Some([]), Some([]))
  /** `{ script: [], root: {} }` */
  const EmptyBody := Body(None, Some(Root(None)), None, Some([]))

  const CharsetMeta := Meta(None, None, None, Some("utf-8"))
  const ViewportMeta := Meta(Some("viewport"), None, Some("width=device-width, initial-scale=1.0"), None)

  /** The meta list used when a head has none: charset, viewport, and a
      description entry only when `descriptions` is truthy. */
  function DefaultMeta(descriptions: Option<string>): (r: seq<Meta>)
    ensures 2 <= |r| <= 3 && r[0] == CharsetMeta && r[1] == ViewportMeta
    ensures |r| == 3 <==> Truthy(descriptions)
    ensures |r| == 3 ==> r[2] == Meta(Some("description"), None, descriptions, None)
  {
    [CharsetMeta, ViewportMeta] +
      if Truthy(descriptions) then [Meta(Some("description"), None, descriptions, None)] else []
  }

  function HeadScripts(s: Settings): Option<seq<Script>> {
    if s.html.Some? && s.html.value.head.Some? then s.html.value.head.value.script else None
  }

  function BodyScripts(s: Settings): Option<seq<Script>> {
    if s.html.Some? && s.html.value.body.Some? then s.html.value.body.value.script else None
  }

  /** `html.head.script?.push({ src })`: appends only when the list exists. */
  function AppendHeadScript(s: Settings, src: string): (r: Settings)
    ensures HeadScripts(s).Some? ==> HeadScripts(r) == Some(HeadScripts(s).value + [Script(src)])
    ensures HeadScripts(s).None? ==> r == s
    ensures BodyScripts(r) == BodyScripts(s)
    ensures r.(html := s.html) == s
    // only `head.script` changes: lang, body and the rest of the head stay
    ensures HeadScripts(s).Some? ==>
      && r.html.Some? && r.html.value.head.Some?
      && r.html.value.(head := s.html.value.head) == s.html.value
      && r.html.value.head.value.(script := s.html.value.head.value.script) == s.html.value.head.value
  {
    if HeadScripts(s).Some? then
      var head := s.html.value.head.value;
      s.(html := Some(s.html.value.(head := Some(head.(script := Some(head.script.value + [Script(src)]))))))
    else s
  }

  /** `html.body.script?.push({ src })`: appends only when the list exists. */
  function AppendBodyScript(s: Settings, src: string): (r: Settings)
    ensures BodyScripts(s).Some? ==> BodyScripts(r) == Some(BodyScripts(s).value + [Script(src)])
    ensures BodyScripts(s).None? ==> r == s
    ensures HeadScripts(r) == HeadScripts(s)
    ensures r.(html := s.html) == s
    // only `body.script` changes: lang, head and the body's class and root stay
    ensures BodyScripts(s).Some? ==>
      && r.html.Some? && r.html.value.body.Some?
      && r.html.value.(body := s.html.value.body) == s.html.value
      && r.html.value.body.value.(script := s.html.value.body.value.script) == s.html.value.body.value
  {
    if BodyScripts(s).Some? then
      var body := s.html.value.body.value;
      s.(html := Some(s.html.value.(body := Some(body.(script := Some(body.script.value + [Script(src)]))))))
    else s
  }

  /** What `#initOptions` guarantees to the rest of the pipeline. */
  predicate Normalized(s: Settings) {
    && s.status.Some? && s.pageFolder.Some? && s.cache.Some? && s.development.Some?
    && s.html.Some?
    && s.html.value.head.Some?
    && s.html.value.head.value.meta.Some?
    && s.html.value.head.value.script.Some?
    && s.html.value.body.Some?
  }

  /** The effect of `#initOptions`: every field is `x = x ?? default`. */
  function Normalize(s: Settings): (r: Settings)
    ensures Normalized(r)
    ensures s.status.Some? ==> r.status == s.status
    ensures s.status.None? ==> r.status == Some(200)
    ensures s.pageFolder.Some? ==> r.pageFolder == s.pageFolder
    ensures s.pageFolder.None? ==> r.pageFolder == Some("pages")
    ensures s.cache.Some? ==> r.cache == s.cache
    ensures s.cache.None? ==> r.cache == Some(true)
    ensures s.development.Some? ==> r.development == s.development
    ensures s.development.None? ==> r.development == Some(true)
    ensures r.hydrate == s.hydrate && r.props == s.props
    // a missing html becomes `{}`, a missing head the empty head
    ensures s.html.None? ==> r.html.value.lang.None?
    ensures (s.html.None? || s.html.value.head.None?) ==> r.html.value.head == Some(EmptyHead)
    // a head that exists keeps its lists; only a missing meta or script list is filled
    ensures s.html.Some? && s.html.value.head.Some? ==>
      var h, h' := s.html.value.head.value, r.html.value.head.value;
      && h'.title == h.title && h'.descriptions == h.descriptions && h'.link == h.link
      && h'.meta == Some(h.meta.GetOr(DefaultMeta(h.descriptions)))
      && h'.script == Some(h.script.GetOr([]))
    // a body that exists is kept as it is, script list included
    ensures s.html.Some? && s.html.value.body.Some? ==> r.html.value.body == s.html.value.body
    ensures (s.html.None? || s.html.value.body.None?) ==> r.html.value.body == Some(EmptyBody)
    ensures s.html.Some? ==> r.html.value.lang == s.html.value.lang
  {
    var html := s.html.GetOr(EmptyHtml);
    var head := html.head.GetOr(EmptyHead);
    var head' := head.(meta := Some(head.meta.GetOr(DefaultMeta(head.descriptions))),
                       script := Some(head.script.GetOr([])));
    var html' := html.(head := Some(head'), body := Some(html.body.GetOr(EmptyBody)));
    s.(status := Some(s.status.GetOr(200)),
       pageFolder := Some(s.pageFolder.GetOr("pages")),
       cache := Some(s.cache.GetOr(true)),
       development := Some(s.development.GetOr(true)),
       html := Some(html'))
  }

  /** A normalized record is a fixed point: nothing is defaulted twice. */
  lemma NormalizeFixesNormalized(s: Settings)
    requires Normalized(s)
    ensures Normalize(s) == s
  {
    var h := s.html.value;
    assert h.(head := h.head, body := h.body) == h;
  }

  /** `#initOptions` is idempotent. */
  lemma NormalizeIdempotent(s: Settings)
    ensures Normalize(Normalize(s)) == Normalize(s)
  {
    NormalizeFixesNormalized(Normalize(s));
  }

  /** Without a head the default meta list is never used: the head defaults
      to empty lists first, so `meta` is `[]` whatever `descriptions` says. */
  lemma AbsentHeadHasNoMeta(s: Settings)
    requires s.html.None? || s.html.value.head.None?
    ensures Normalize(s).html.value.head.value.meta == Some([])
  {
  }

  /** A `RenderOptions` object: its fields are assigned in place by
      `#initOptions` and its script lists are appended to by the render. */
  class RenderOptions {
    var status: Option<int>
    var pageFolder: Option<string>
    var cache: Option<bool>
    var development: Option<bool>
    var hydrate: Option<bool>
    var props: Option<Props>
    var html: Option<Html>

    function Value(): Settings
      reads this
    {
      Settings(status, pageFolder, cache, development, hydrate, props, html)
    }

    constructor (s: Settings)
      ensures Value() == s
    {
      status, pageFolder, cache, development := s.status, s.pageFolder, s.cache, s.development;
      hydrate, props, html := s.hydrate, s.props, s.html;
    }
  }
}
