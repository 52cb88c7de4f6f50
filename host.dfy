/** The collaborators the render pipelines use: the process-wide `nest`
    record, the server with its route registrations, the responses the
    registered endpoints produce, and the two scripts those endpoints serve. */
module Host {
  import opened Base
  import opened Documents

  /** The shared `nest` record (`Record<string, any>`), one per server process. */
  class Nest {
    var entries: map<string, Entry>

    constructor (entries: map<string, Entry>)
      ensures this.entries == entries
    {
      this.entries := entries;
    }
  }

  /** What a registered endpoint does when it is requested. */
  datatype Handler =
    | InitData(props: Option<Props>)   // `${staticPath}/init.js`: encrypted props, referer-guarded
    | RefreshScript                    // the live-reload client script
    | RefreshStream                    // `/___refresh___`: the event stream
    | PropsData(data: Props)           // `/__<key>/props`: the page data as JSON

  datatype Registration = Registration(verb: string, path: string, handler: Handler)

  /** The server: its development flag and static path, and the log of every
      route registration made through it (`push` and `add`). */
  class Server {
    const development: bool
    const staticPath: string
    var routes: seq<Registration>

    constructor (development: bool, staticPath: string)
      ensures this.development == development && this.staticPath == staticPath
      ensures routes == []
    {
      this.development := development;
      this.staticPath := staticPath;
      routes := [];
    }

    method Register(verb: string, path: string, handler: Handler)
      modifies this
      ensures routes == old(routes) + [Registration(verb, path, handler)]
    {
      routes := routes + [Registration(verb, path, handler)];
    }
  }

  datatype ResponseBody =
    | Text(text: string)
    | Json(data: Props)                     // `JSON.stringify(data)`
    | Events(first: string, every: string)  // first event, then the one repeated on every tick
    | Stream(entry: Entry)                  // the rendered document, streamed

  datatype Response = Response(status: int, contentType: string, body: ResponseBody)

  const RefreshUrl := "/___refresh___"

  /** `#refreshJs(url, buildId)`: opens an event source on `url` and reloads
      the page when an event carries another build id. */
  function RefreshJs(url: string, buildId: string): (r: string)
    ensures |r| == |EsOpen| + |url| + |EsCompare| + |buildId| + |EsReload|
    ensures r[..|EsOpen| + |url|] == EsOpen + url
    // the listener, then the comparison of each event with the build id
    ensures r[|EsOpen| + |url|..|EsOpen| + |url| + |EsCompare|] == EsCompare
    ensures r[|r| - |EsReload| - |buildId|..] == buildId + EsReload
  {
    EsOpen + url + EsCompare + buildId + EsReload
  }

  /** The three fixed parts of the refresh client script. */
  const EsOpen := "const es = new EventSource('"
  const EsCompare := "');\n"
    + "window.addEventListener(\"beforeunload\", (event) => {\n  es.close();\n});\n"
    + "es.onmessage = function(e) {\n  if (e.data !== \""
  const EsReload := "\") {\n    location.reload();\n  };\n};"

  /** The client script compares against the build id it was rendered with:
      two builds give two different scripts. */
  lemma RefreshJsDistinguishesBuilds(url: string, id1: string, id2: string)
    requires RefreshJs(url, id1) == RefreshJs(url, id2)
    ensures id1 == id2
  {
    var r := RefreshJs(url, id1);
    assert |id1| == |id2|;
    assert id1 + EsReload == r[|r| - |EsReload| - |id1|..] == id2 + EsReload;
    SuffixCancels(id1, id2, EsReload);
  }

  const EnvMarker := "window.__ENV__ = \"DEVELOPMENT\";"
  const DataPrefix := "window.__INITIAL_DATA__ = \""
  const DataSuffix := "\";"

  /** The body `#createInitScript` returns: the environment marker when `ENV`
      is set, then the assignment of the ciphertext to `__INITIAL_DATA__`. */
  function InitScript(envSet: bool, cipher: string): (r: string)
    ensures |r| == (if envSet then |EnvMarker| else 0) + |DataPrefix| + |cipher| + |DataSuffix|
    ensures envSet ==> r[..|EnvMarker|] == EnvMarker
    ensures r[|r| - |DataSuffix|..] == DataSuffix
  {
    (if envSet then EnvMarker else "") + DataPrefix + cipher + DataSuffix
  }

  /** Reads the environment flag and the ciphertext back out of an init script. */
  function ParseInitScript(s: string): Option<(bool, string)> {
    var env := |s| >= |EnvMarker| && s[..|EnvMarker|] == EnvMarker;
    var rest := if env then s[|EnvMarker|..] else s;
    if |rest| >= |DataPrefix| + |DataSuffix|
       && rest[..|DataPrefix|] == DataPrefix
       && rest[|rest| - |DataSuffix|..] == DataSuffix
    then Some((env, rest[|DataPrefix|..|rest| - |DataSuffix|]))
    else None
  }

  /** The init script is unambiguous: the flag and the ciphertext it carries
      are exactly the ones it was built from, whatever the ciphertext holds. */
  lemma InitScriptRoundTrip(envSet: bool, cipher: string)
    ensures ParseInitScript(InitScript(envSet, cipher)) == Some((envSet, cipher))
  {
    var s := InitScript(envSet, cipher);
    var rest := DataPrefix + cipher + DataSuffix;
    if envSet {
      assert s == EnvMarker + rest;
      assert s[..|EnvMarker|] == EnvMarker;
      assert s[|EnvMarker|..] == rest;
    } else {
      assert s == rest;
      assert s[9] == 'I' != EnvMarker[9];
    }
    assert rest[..|DataPrefix|] == DataPrefix;
    assert rest[|rest| - |DataSuffix|..] == DataSuffix;
    assert rest[|DataPrefix|..|rest| - |DataSuffix|] == cipher;
  }

  /** What the endpoint answers: the request-time facts it depends on. */
  datatype Env = Env(
    development: bool,               // the server's development flag at request time
    referer: Option<Response>,       // what `checkReferer(req)` returned
    envSet: bool,                    // `Deno.env.get("ENV") !== undefined`
    buildId: string,                 // BUILD_ID
    encrypt: Option<Props> -> string) // stringify, then encrypt with the de-obfuscated key

  /** The response of a registered endpoint. */
  function Serve(h: Handler, env: Env): (r: Response)
    // init.js: the guard's response short-circuits, else the encrypted props as JavaScript
    ensures h.InitData? && env.referer.Some? ==> r == env.referer.value
    ensures h.InitData? && env.referer.None? ==>
      r == Response(200, "application/javascript", Text(InitScript(env.envSet, env.encrypt(h.props))))
    // the props endpoint honours the guard only outside development
    ensures h.PropsData? && !env.development && env.referer.Some? ==> r == env.referer.value
    ensures h.PropsData? && (env.development || env.referer.None?) ==>
      r == Response(200, "application/json", Json(h.data))
    ensures h.RefreshScript? ==>
      r == Response(200, "application/javascript", Text(RefreshJs(RefreshUrl, env.buildId)))
    // the stream opens with the build id and a retry delay, then repeats the build id
    ensures h.RefreshStream? ==>
      r == Response(200, "text/event-stream",
                    Events("data: " + env.buildId + "\nretry: 100\n\n", "data: " + env.buildId + "\n\n"))
  {
    match h
    case InitData(props) =>
      if env.referer.Some? then env.referer.value
      else Response(200, "application/javascript", Text(InitScript(env.envSet, env.encrypt(props))))
    case RefreshScript =>
      Response(200, "application/javascript", Text(RefreshJs(RefreshUrl, env.buildId)))
    case RefreshStream =>
      Response(200, "text/event-stream",
        Events("data: " + env.buildId + "\nretry: 100\n\n", "data: " + env.buildId + "\n\n"))
    case PropsData(data) =>
      if !env.development && env.referer.Some? then env.referer.value
      else Response(200, "application/json", Json(data))
  }

  /** A request the referer guard turns away never reaches the encoder: the
      answer is the same whatever encryption is in place. */
  lemma GuardedInitNeverEncrypts(props: Option<Props>, env: Env, other: Option<Props> -> string)
    requires env.referer.Some?
    ensures Serve(InitData(props), env) == Serve(InitData(props), env.(encrypt := other)) == env.referer.value
  {
  }
}
