/** What gets rendered and what the shared render cache holds: the three
    kinds of component (http/render.tsx), the document `#initHtml` builds
    around one, and the posts the markdown hook stores (hooks/markdown.tsx). */
module Documents {
  import opened Base
  import opened Options

  /** A value handed to the renderer. `Element` is any object that may carry
      `type` and `props`; `Function` is a function component with its declared
      name; `Page` is a page wrapper around an inner component. */
  datatype Component =
    | Element(tag: Option<string>, props: Option<Props>)
    | Function(name: string)
    | Page(inner: Component)

  /** `isJSX`: a markup tree is a value whose `props` and `type` are both
      defined; a function or a page wrapper never is one, and has no such
      markup to hand to the layout. */
  predicate IsJsx(c: Component)
    ensures IsJsx(c) ==> c.Element? && NameOf(c).None?
    ensures c.Element? ==> (IsJsx(c) <==> c.tag.Some? && c.props.Some?)
  {
    c.Element? && c.tag.Some? && c.props.Some?
  }

  /** `fc.name`: only a function has a name. */
  function NameOf(c: Component): (r: Option<string>)
    ensures r.Some? <==> c.Function?
    ensures c.Function? ==> r == Some(c.name)
  {
    if c.Function? then Some(c.name) else None
  }

  /** The element placed in the root `div`: a markup tree as it is, anything
      else through `createElement(component, props)`. */
  datatype Content = Tree(tree: Component) | Created(component: Component, props: Option<Props>)

  /** The document `#initHtml` returns: the bare element when there is no
      `html` option, else the page layout over a snapshot of the options. */
  datatype Document = Bare(content: Content) | Full(html: Html, content: Content)

  /** `#initHtml(element, html)`. The layout reads `html.body.root.class`
      without optional chaining after `root`, so a body without a root throws. */
  function InitHtml(e: Component, html: Option<Html>, props: Option<Props>): (r: Result<Document>)
    ensures r.Ok? ==> r.value.content == (if IsJsx(e) then Tree(e) else Created(e, props))
    ensures html.None? ==> r.Ok? && r.value.Bare?
    ensures html.Some? ==> (r.Err? <==> html.value.body.Some? && html.value.body.value.root.None?)
    ensures html.Some? && r.Ok? ==> r.value.Full? && r.value.html == html.value
    ensures r.Err? ==> r.fault == MissingRoot
  {
    var el := if IsJsx(e) then Tree(e) else Created(e, props);
    match html
    case None => Ok(Bare(el))
    case Some(h) =>
      if h.body.Some? && h.body.value.root.None? then Err(MissingRoot)
      else Ok(Full(h, el))
  }

  /** Front matter of a markdown post. */
  datatype PostMeta = PostMeta(
    title: Option<string>, author: Option<string>, date: Option<string>,
    description: Option<string>, image: Option<string>,
    prev: Option<string>, next: Option<string>)

  datatype Post = Post(meta: Option<PostMeta>, content: Component)

  /** A value in the shared `nest` record. `Null` is JavaScript's `null`. */
  datatype Entry = Null | Rendered(doc: Document) | Article(post: Post)

  /** `nest[key]` is truthy: present and not `null` (documents and posts are objects). */
  predicate Hit(nest: map<string, Entry>, key: string) {
    key in nest && !nest[key].Null?
  }
}
