/** The Preact renderer of http/server/render.ts: it registers a props
    endpoint per page, lays the component out, appends the hydration script
    (and the live-reload script in development) to the layout's children,
    and answers with the doctype followed by the rendered markup. */
module PreactRender {
  import opened Base
  import opened Host

  datatype Child = TextNode(text: string) | ElementNode(node: VNode)
  datatype Children = Absent | Single(child: Child) | Many(items: seq<Child>)
  /** A Preact node; `src` and `async` are the props a script node carries. */
  datatype VNode = VNode(tag: string, src: Option<string>, async: bool, children: Children)

  /** `app.props.children` is truthy: an array always (even empty), a single
      child unless it is the empty string. */
  predicate ChildrenTruthy(c: Children) {
    match c
    case Absent => false
    case Single(TextNode(t)) => t != ""
    case Single(ElementNode(_)) => true
    case Many(_) => true
  }

  /** `h("script", { src, async: true })` */
  function ScriptNode(src: string): VNode {
    VNode("script", Some(src), true, Absent)
  }

  /** The page component: a function with its name, or a ready value. */
  datatype View = FunctionView(name: string, render: Props -> Child) | ValueView(child: Child)

  /** A page: its component and its layout `({ children, data }) => VNode`. */
  datatype Page = Page(component: View, layout: (Child, Props) -> VNode)

  const Doctype := "<!DOCTYPE html>"

  /** The path of the page's props endpoint. */
  function PropsPath(key: string): (r: string)
    ensures |r| == |key| + 9
    ensures r[..3] == "/__" && r[|r| - 6..] == "/props"
    ensures r[3..|r| - 6] == key
  {
    "/__" + key + "/props"
  }

  /** Each key gets its own props endpoint. */
  lemma PropsPathInjective(k1: string, k2: string)
    requires PropsPath(k1) == PropsPath(k2)
    ensures k1 == k2
  {
    var p := PropsPath(k1);
    assert k1 == p[3..|p| - 6];
    assert k2 == p[3..|p| - 6];
  }

  /** The children handed to the layout: the function's output for a
      function component, the component value itself otherwise. */
  function ChildrenOf(v: View, data: Props): (r: Child)
    ensures v.FunctionView? ==> r == v.render(data)
    ensures v.ValueView? ==> r == v.child
  {
    match v
    case FunctionView(_, render) => render(data)
    case ValueView(child) => child
  }

  function HydrationScripts(name: string, development: bool): seq<Child> {
    [ElementNode(ScriptNode("/js/" + Lower(name) + ".js"))]
      + if development then [ElementNode(ScriptNode("/js/refresh.js"))] else []
  }

  /** `#mutate(app, component)`: pushes the component's script, then in
      development the refresh script, onto the children array; `push` on
      anything but an array throws. */
  function Mutate(app: VNode, name: string, development: bool): (r: Result<VNode>)
    ensures r.Ok? <==> app.children.Many?
    ensures r.Ok? ==>
      var before, after := app.children.items, r.value.children;
      && r.value.(children := app.children) == app
      && after.Many?
      && |after.items| == |before| + (if development then 2 else 1)
      && after.items[..|before|] == before
      && after.items[|before|] == ElementNode(ScriptNode("/js/" + Lower(name) + ".js"))
      && (development ==> after.items[|before| + 1] == ElementNode(ScriptNode("/js/refresh.js")))
    ensures r.Err? ==> r.fault == NotAnArray
  {
    match app.children
    case Many(items) => Ok(app.(children := Many(items + HydrationScripts(name, development))))
    case _ => Err(NotAnArray)
  }

  /** The response of `render(key, p, data)` once the props endpoint is registered. */
  function RenderSpec(p: Page, data: Props, development: bool, toString: VNode -> string): Result<Response> {
    var app := p.layout(ChildrenOf(p.component, data), data);
    if ChildrenTruthy(app.children) && p.component.FunctionView? then
      match Mutate(app, p.component.name, development)
      case Err(f) => Err(f)
      case Ok(mutated) => Ok(Response(200, "text/html", Text(Doctype + toString(mutated))))
    else Ok(Response(200, "text/html", Text(Doctype + toString(app))))
  }

  /** Every successful response is the doctype followed by the rendered app. */
  lemma RenderStartsWithDoctype(p: Page, data: Props, development: bool, toString: VNode -> string)
    requires RenderSpec(p, data, development, toString).Ok?
    ensures var r := RenderSpec(p, data, development, toString).value;
      r.contentType == "text/html" && r.body.Text? && |r.body.text| >= 15 && r.body.text[..15] == Doctype
  {
  }

  /** The layout is left untouched unless its children are truthy and the
      component is a function. */
  lemma NoMutationUnlessFunctionWithChildren(p: Page, data: Props, development: bool, toString: VNode -> string)
    requires var app := p.layout(ChildrenOf(p.component, data), data);
      !ChildrenTruthy(app.children) || p.component.ValueView?
    ensures RenderSpec(p, data, development, toString) ==
      Ok(Response(200, "text/html", Text(Doctype + toString(p.layout(ChildrenOf(p.component, data), data)))))
  {
  }

  /** A function component whose layout yields a children array is rendered
      with its hydration script (and in development the refresh script)
      after the layout's own children. */
  lemma FunctionPageIsHydrated(p: Page, data: Props, development: bool, toString: VNode -> string)
    requires p.component.FunctionView?
    requires p.layout(p.component.render(data), data).children.Many?
    ensures var app := p.layout(p.component.render(data), data);
      RenderSpec(p, data, development, toString) ==
        Ok(Response(200, "text/html", Text(Doctype + toString(
          app.(children := Many(app.children.items + HydrationScripts(p.component.name, development)))))))
  {
  }

  /** The endpoints the constructor registers: both live-reload routes in development, none otherwise. */
  function DevRegistrations(development: bool): (r: seq<Registration>)
    ensures development ==> r == [Registration("GET", "/js/refresh.js", RefreshScript), Registration("GET", RefreshUrl, RefreshStream)]
    ensures !development ==> r == []
  {
    if development then
      [Registration("GET", "/js/refresh.js", RefreshScript), Registration("GET", RefreshUrl, RefreshStream)]
    else []
  }

  class Render {
    const server: Server

    constructor (server: Server)
      modifies server
      ensures this.server == server
      ensures server.routes == old(server.routes) + DevRegistrations(server.development)
    {
      this.server := server;
      new;
      if server.development {
        server.Register("GET", "/js/refresh.js", RefreshScript);
        server.Register("GET", RefreshUrl, RefreshStream);
      }
    }

    method AddPropsEndpoint(key: string, data: Props)
      modifies server
      ensures server.routes == old(server.routes) + [Registration("GET", PropsPath(key), PropsData(data))]
    {
      var path := "/__" + key + "/props";
      server.Register("GET", path, PropsData(data));
    }

    /** `render(key, p, data)`; `toString` stands for `renderToString`. */
    method RenderPage(key: string, p: Page, data: Props, toString: VNode -> string) returns (r: Result<Response>)
      modifies server
      ensures server.routes == old(server.routes) + [Registration("GET", PropsPath(key), PropsData(data))]
      ensures r == RenderSpec(p, data, server.development, toString)
    {
      AddPropsEndpoint(key, data);
      var children := ChildrenOf(p.component, data);
      var app := p.layout(children, data);
      if ChildrenTruthy(app.children) && p.component.FunctionView? {
        var mutated := Mutate(app, p.component.name, server.development);
        if mutated.Err? {
          return Err(mutated.fault);
        }
        app := mutated.value;
      }
      r := Ok(Response(200, "text/html", Text(Doctype + toString(app))));
    }
  }
}
