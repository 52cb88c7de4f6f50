# Fastro server-side rendering core, modelled in Dafny

This project models the server-side rendering (SSR) core of the fastro web
framework for Deno:

- **`Render` of http/render.tsx** (module `JsxRender`). It fills in the
  defaults of a `RenderOptions` object in place, then classifies the
  component: a markup tree, a function component or a page wrapper. It
  looks the component up in the process-wide `nest` cache, under the key
  `default<url>` or `<name><url>`. On a miss for a function component it
  appends the hydration bundle and `init.js` to `body.script` and
  registers the `init.js` endpoint, which serves the encrypted props; a
  markup tree appends and registers nothing. In development it adds
  `refresh.js` to the head and registers its endpoint on every call.
  Finally it stores the built document and answers with it as `text/html`
  under the configured status.
- **The Preact `Render` of http/server/render.ts** (module `PreactRender`).
  It registers the live-reload routes in development and a props endpoint
  `/__<key>/props` per page. It lays the component out and pushes the
  hydration script, plus the refresh script in development, onto the
  layout's children. It answers with `<!DOCTYPE html>` followed by the
  rendered markup.
- **`page()` of server/page.ts** (module `Pages`). It is a registry that
  stores each SSR page under `GET#localhost#<path>`.
- **The markdown hook of hooks/markdown.tsx** (module `MarkdownHook`).
  `getPost` memoises a post under `markdown<url>`, and `#readFile` has a
  cache of its own under `markdown/*<path>`. The hook renders the post with
  the instance's options or with per-post defaults built by `#getDefaultOptions`.

Supporting modules:

- `Base`: `Option`, `Result`, the faults that model thrown `TypeError`s,
  and the JavaScript string conventions (truthiness, `${undefined}`,
  lower-casing).
- `Options`: the `RenderOptions` records and the normalisation.
- `Documents`: components, documents, posts and cache entries.
- `Host`: the `nest` record, the server with its log of route
  registrations, and the responses of the registered endpoints.

Imperative parts are classes whose methods change state: their own fields, or the options, `nest` record and server they hold:

- `Options.RenderOptions`
- `Host.Nest` and `Host.Server`
- `JsxRender.Render` and `PreactRender.Render`
- `Pages.PageRegistry`
- `MarkdownHook.Markdown` and `MarkdownHook.Instance`

Each method is proved equal to a pure function of the state before the
call, such as `CreateHtmlSpec`, `RenderSpec`, `GetPostSpec` or `Stored`.
The properties are lemmas about those functions.

Points of the code's behaviour that are easy to misread:

- **Description meta.** The code appends the `description` meta entry
  after the charset and viewport entries.
- **Unused default meta list.** When the head itself is absent, the
  default meta list is never used: the head becomes `{ meta: [], … }`
  first.
- **Cache hits go by truthiness.** A hit requires a truthy entry, so a
  stored `null` is read again.
- **Registrations are logged.** Every registration made through
  `push`/`add` is recorded in call order, so repeated renders register the
  same path again.
- **Development flag.** `http/render.tsx` takes the development flag from
  the server, not from `options.development`. That option is defaulted
  but never read.

## Model

| member | source | states |
|---|---|---|
| Base.Lower | http/render.tsx:268 | Lower-casing keeps the length and maps each character through `LowerChar`: ASCII capitals become lower case and every other character is kept. |
| Options.DefaultMeta | http/render.tsx:64-73 | The meta list starts with charset utf-8 and the viewport entry. It has a third `description` entry, carrying the descriptions, exactly when the descriptions are a non-empty string. |
| Options.AppendHeadScript | http/render.tsx:311-315 | `head.script?.push`: when the head script list exists it gains the entry at its end, and nothing else changes: `lang`, the body, and the head's title, descriptions, meta and links stay as they were. When the list is absent the record is unchanged. |
| Options.AppendBodyScript | http/render.tsx:290-294 | `body.script?.push`: when the body script list exists it gains the entry at its end, and nothing else changes: `lang`, the head, and the body's class, root and root class stay as they were. When the list is absent the record is unchanged. |
| Options.Normalize | http/render.tsx:52-84 | The result satisfies `Normalized`. Each present field is kept. Absent fields take their defaults: status 200, page folder `pages`, cache on, development on. A missing html gives `{}`. A missing head gives empty meta, script and link lists. An existing head keeps its meta list, or gets the default meta list derived from its descriptions. A missing body gives an empty script list and an empty root. |
| Options.NormalizeFixesNormalized | http/render.tsx:52-84 | A record that is already normalised is a fixed point of normalisation. |
| Options.NormalizeIdempotent | http/render.tsx:52-84 | Normalising twice equals normalising once, so nothing is defaulted twice and no meta entry is duplicated. |
| Options.AbsentHeadHasNoMeta | http/render.tsx:58-74 | Without a head, the meta list is `[]` whatever the descriptions say: the charset, viewport and description defaults are never used. |
| Documents.IsJsx | http/render.tsx:23-25 | `isJSX` holds for a value exactly when it has both `type` and `props`. A function or a page wrapper is never a markup tree, and a markup tree has no function name. |
| Documents.NameOf | http/render.tsx:243-244 | `fc.name` is defined exactly for function components, and is then the function's own name. |
| Documents.InitHtml | http/render.tsx:110-214 | With no html option the element is returned bare. Otherwise the result is the layout over these options, and the call fails (the `root.class` TypeError) exactly when the body exists without a root. A markup tree is kept as it is. Anything else is created with the render's props. |
| Host.Server.Register | http/render.tsx:275-288 | A registration is appended to the server's route log and nothing else changes. |
| Host.RefreshJs | http/render.tsx:216-226 | The refresh client script opens an event source on the given URL and ends by comparing each event with the build id, then reloading. The listener and the comparison text between them are fixed, and so is the total length. |
| Host.RefreshJsDistinguishesBuilds | http/render.tsx:216-226 | The refresh client script determines the build id it compares against: scripts from two builds differ. |
| Host.InitScript | http/render.tsx:101-107 | The init script starts with the `__ENV__` marker when `ENV` is set, ends with `";`, and has exactly the length of its parts. |
| Host.InitScriptRoundTrip | http/render.tsx:101-107 | Parsing an init script gives back exactly the environment flag and the ciphertext it was built from. |
| Host.Serve | http/render.tsx:278-308 | `init.js` answers with the referer guard's response when the guard returns one, and otherwise with the encrypted props as `application/javascript`. The props endpoint of http/server/render.ts:51-64 honours the guard only outside development, and otherwise answers the data as JSON. `refresh.js` answers, as `application/javascript`, the refresh script for `/___refresh___`. The refresh stream (http/server/render.ts:68-88) is `text/event-stream`: it opens with `data: <build id>`, a newline and `retry: 100`, then repeats `data: <build id>` on every tick. |
| Host.GuardedInitNeverEncrypts | http/render.tsx:278-282 | A request that the referer guard turns away gets the guard's response whatever the encryption is. |
| JsxRender.InitOptions | http/render.tsx:52-84 | Afterwards the options object holds exactly the normalisation of its previous value. |
| JsxRender.Resolve | http/render.tsx:231-243 | A component is treated as markup exactly when it is a markup tree, given directly or inside a page wrapper, and the tree rendered is that component or the page's inner one. Otherwise the name read is that of the component or of the page's inner component. What is rendered is the page's inner component for a page, and the render's own `#element` for anything else. |
| JsxRender.CacheKey | http/render.tsx:244 | `compID` (here and at line 258) ends with the request URL as printed (`undefined` when there is none). What precedes it is the sentinel `default` for a markup tree and the function's name as printed otherwise. |
| JsxRender.MarkupTreeKey | http/render.tsx:231-241 | A markup tree, bare or wrapped, is cached under `default` followed by the URL. |
| JsxRender.FunctionKey | http/render.tsx:243-244 | A function component, bare or wrapped, is cached under its name followed by the URL. |
| JsxRender.DistinctNamesDistinctKeys | http/render.tsx:244 | Function components with different names never share a cache key at one URL. |
| JsxRender.DefaultNameSharesMarkupKey | http/render.tsx:244 | A function named `default` shares the cache key of every markup tree at that URL. |
| JsxRender.CacheHitOnlyRunsDevelopment | http/render.tsx:228-251 | On a cache hit the stored entry is returned and the only change is the development step. No hydration script, no init endpoint, and the cache is not written. |
| JsxRender.CacheMissStoresUnderKeyOnly | http/render.tsx:245-261 | On a miss, a built document is stored under its key and under no other key. A failed build leaves the cache as it was. |
| JsxRender.FunctionMissAppendsScripts | http/render.tsx:247-248 | On a function-component miss, `body.script` gains, in order, the lower-cased bundle (unless `hydrate` is false) and then `init.js`. The `init.js` endpoint is registered with the render's props after the development registrations. |
| JsxRender.MarkupAppendsNoBodyScript | http/render.tsx:253-262 | A markup tree leaves `body.script` as it was and registers nothing beyond the development step. |
| JsxRender.AfterDevelopment | http/render.tsx:228-251 | After the development step, `#createHTML` leaves `head.script` as it is and registers either nothing or the one `init.js` endpoint. |
| JsxRender.BuildStoresUnderKey | http/render.tsx:249-250 | Building stores the document under its key and nowhere else. A failed build stores nothing. |
| JsxRender.DevelopmentOnEveryCall | http/render.tsx:297-316 | Every call, cache hits included, appends `refresh.js` to an existing `head.script` in development only. The route log only grows, and its first new entry is the `refresh.js` registration exactly in development. |
| JsxRender.SecondRenderServedFromCache | http/render.tsx:245-250 | With caching on, a second render of the same component at the same URL returns the first result and only repeats the development step. |
| JsxRender.CachedResultIgnoresProps | http/render.tsx:244-245 | Props are not part of the key: on a hit, renders with any other props get the same cached value. |
| JsxRender.NamelessComponentThrows | http/render.tsx:264-269 | A value that is neither a markup tree nor a function is read under the name `undefined`. On a miss with hydration on and a body script list, the render fails with the TypeError of lower-casing its name. |
| JsxRender.RenderResponds | http/render.tsx:318-343 | A successful render answers `text/html` with the configured status (200 by default). The body is the document of `#createHTML`, cached when `cache` is on. |
| JsxRender.Render.constructor | http/render.tsx:36-50 | The options are normalised in place. The development flag and the static path (`<static>/js`) come from the server, and the request URL is kept. |
| JsxRender.Render.HandleDevelopment | http/render.tsx:297-316 | The new options and route log are exactly the development step of the old ones. |
| JsxRender.Render.HandleComponent | http/render.tsx:264-271 | The fault and the new options are exactly those of the hydration step. |
| JsxRender.Render.InjectInitScript | http/render.tsx:273-295 | The new options and route log are exactly the init step of the old ones. |
| JsxRender.Render.HandleJsxElement | http/render.tsx:253-262 | The result and the new cache are exactly those of the markup-tree specification. |
| JsxRender.Render.CreateHtml | http/render.tsx:228-251 | The result, options, cache and route log are exactly those of `CreateHtmlSpec`, the function the cache lemmas above are about. |
| JsxRender.Render.RenderPage | http/render.tsx:318-344 | The response and the new state are exactly those of `RenderSpec`. |
| PreactRender.PropsPath | http/server/render.ts:50 | The props path is `/__`, then exactly the key, then `/props`. |
| PreactRender.PropsPathInjective | http/server/render.ts:50 | Different keys get different props endpoints. |
| PreactRender.ChildrenOf | http/server/render.ts:114-116 | A function component's output is passed to the layout. A value component is passed as it is. |
| PreactRender.Mutate | http/server/render.ts:93-109 | The push succeeds exactly when the children are an array. The array keeps its items as a prefix and gains `/js/<lower-cased name>.js`, then `/js/refresh.js` in development only. The rest of the node is unchanged. A non-array fails. |
| PreactRender.RenderStartsWithDoctype | http/server/render.ts:123-126 | Every successful response is `text/html` and begins with `<!DOCTYPE html>`. |
| PreactRender.NoMutationUnlessFunctionWithChildren | http/server/render.ts:118-121 | When the layout's children are falsy or the component is not a function, the layout is rendered untouched. |
| PreactRender.FunctionPageIsHydrated | http/server/render.ts:111-126 | A function page whose layout has a children array is rendered with the hydration scripts after the layout's own children. |
| PreactRender.DevRegistrations | http/server/render.ts:11-14 | In development both live-reload routes are registered: `/js/refresh.js`, then `/___refresh___`. Outside development none are. |
| PreactRender.Render.constructor | http/server/render.ts:9-15 | The route log gains exactly the development registrations. |
| PreactRender.Render.AddPropsEndpoint | http/server/render.ts:49-65 | The route log gains exactly one GET registration of the page data at the props path. |
| PreactRender.Render.RenderPage | http/server/render.ts:111-131 | The props endpoint is registered first. The response is exactly `RenderSpec`, the function the lemmas above are about. |
| Pages.PageKey | server/page.ts:29 | The key is `GET#localhost#` followed by the path. |
| Pages.PageKeyInjective | server/page.ts:29 | Different paths never share a key. |
| Pages.SetReplacesOnlyItsKey | server/page.ts:24-29 | `set` stores the record (path, ssr, handler) under its key, replacing any earlier one, and leaves every other key as it was. |
| Pages.SetGrowsIffNew | server/page.ts:29 | The map grows by one entry exactly when the path was new. Otherwise its size is kept. |
| Pages.PageRegistry.constructor | server/page.ts:13-15 | A new registry is empty. |
| Pages.PageRegistry.Set | server/page.ts:19-31 | `set` returns the registry itself, and its map is the old one with the record stored under the path's key. |
| MarkdownHook.KeysDistinct | hooks/markdown.tsx:148-149 | For one path, the `#readFile` key, the `getPost` key and the renderer's markup key are pairwise different. |
| MarkdownHook.PostKey | hooks/markdown.tsx:277 | `getPost`'s key is `markdown` followed by the request URL. |
| MarkdownHook.FileKey | hooks/markdown.tsx:148-149 | `#readFile`'s key is `markdown`, then the wildcard pattern `/` and `*`, then the path. |
| MarkdownHook.CachedPostSkipsRead | hooks/markdown.tsx:276-278 | A cached post is returned without reading: whatever the loader does, nothing changes. |
| MarkdownHook.MissStoresReadResult | hooks/markdown.tsx:279-280 | On a miss, what `#readFile` returns is stored under `markdown<url>` and returned. |
| MarkdownHook.SuccessfulReadRecordedInPosts | hooks/markdown.tsx:158-167 | A successful read is recorded in `#post` under the path. It lands in the shared record only under `getPost`'s key. |
| MarkdownHook.FailureIsNotCached | hooks/markdown.tsx:150-170 | A failed read stores `null` under both keys. The next request for the URL reads again. |
| MarkdownHook.GetPostKeepsNoFileHits | hooks/markdown.tsx:147-170 | `getPost` on an absolute URL never makes a `#readFile` entry truthy. |
| MarkdownHook.FileCacheNeverHits | hooks/markdown.tsx:147-171 | Over any run of requests for absolute URLs, the `#readFile` cache is never hit. |
| MarkdownHook.DefaultOptionsAsWritten | hooks/markdown.tsx:43-103 | The defaults the hook renders with are: cache on, `lang` `en`, a title of the post title followed by the Fastro suffix, and eight meta entries starting with charset and viewport. They carry the bootstrap, post and cover stylesheets, and the body has its class and `rootClass` but no `root`. |
| MarkdownHook.DefaultOptions | hooks/markdown.tsx:97-100 | The corrected defaults, which are not in the source: the record as written with the root class moved from `body.rootClass` into `body.root`, where the layout reads it. Everything else is identical. |
| MarkdownHook.DefaultOptionsAsWrittenFailToRender | hooks/markdown.tsx:97-100 | With the defaults as written, rendering a post that is not cached fails with the `root.class` TypeError. This is the result the hook gives for an instance without options. |
| MarkdownHook.DefaultOptionsRender | hooks/markdown.tsx:97-100 | With the corrected defaults, the same post renders with status 200 as `text/html` and is cached under `default<url>`. |
| MarkdownHook.Markdown.constructor | hooks/markdown.tsx:134-145 | `#post` starts empty. The shared record, the URL, the header and the footer are kept. |
| MarkdownHook.Markdown.ReadFile | hooks/markdown.tsx:147-171 | The result, the shared record and `#post` are exactly those of `ReadFileSpec`. |
| MarkdownHook.Markdown.GetPost | hooks/markdown.tsx:276-281 | The result, the shared record and `#post` are exactly those of `GetPostSpec`. |
| MarkdownHook.Instance.constructor | hooks/markdown.tsx:33-41 | The header and footer default to the default components. The options are kept. |
| MarkdownHook.Instance.Hook | hooks/markdown.tsx:105-124 | No post means no response, with the routes and the instance's options untouched. An entry that is not a post gives an error and likewise leaves the routes and options untouched. A post is rendered with the instance's options, or, when it has none, with `#getDefaultOptions` as written. The cache, routes and options are then those of `RenderSpec`, starting from the state `getPost` left. So an instance without options fails on every post that is not cached yet (`DefaultOptionsAsWrittenFailToRender`). |

## Left out

- Key handling and encryption are one parameter, `Env.encrypt`. This covers the de-obfuscation of the exported key (`clean`, `reverseString`, `extractOriginalString`, `atob`), `importCryptoKey`, `JSON.stringify` and `encryptData`, because they are foreign crypto calls.
- `renderToReadableStream`, its `signal` and `onError`, and `renderToString` are left out. The JSX response carries the document itself, and the Preact renderer takes `toString` as a parameter.
- The event stream's timer and its cancellation are left out, because they are clock-driven. The stream is modelled as its first event and the event repeated on every tick.
- `server.push` and `server.add` are modelled as an append to a route log. The dispatch behind them is not part of this model.
- `checkReferer` is modelled only as the response it returns, given as a parameter.
- `BUILD_ID` and the `ENV` variable are parameters.
- The layout that `#initHtml` builds is kept as a snapshot of the html options plus the element. Of its attributes, only the `root.class` read is modelled, because it is the one that can throw.
- The shallow copy `{ ...opt }` is left out: the render keeps the caller's options object. Top-level fields are never reassigned after normalisation, and the nested lists are shared by the copy anyway.
- `toLocaleLowerCase` is modelled as ASCII-only lower-casing. Locale-specific case mappings are left out.
- `isPageComponent` and the `Fastro` server class are not part of this model. http/render.tsx imports them from http/server.ts, and http/server/render.ts imports `Fastro`, `getDevelopment` and `checkReferer` from http/server/types.ts and http/server/mod.ts. A page component is the `Page` wrapper of `Documents.Component`.
- Markdown I/O is the `Loader` parameter. This covers `Deno.readTextFile`, the GitHub release `fetch`, gray-matter front matter, `ReactMarkdown`, `URLPattern` matching, date formatting and `#contentContainer`.
- MarkdownHook.Instance.Hook: when a truthy entry under `markdown<url>` is not a post, the model stops with `NotAPost` and leaves the options and routes untouched. The source goes on to build a `Render`, which normalises the instance's options in place and, in development, registers `refresh.js` and appends it to `head.script`, before `fc.name` throws on the undefined content. Those side effects of the failing call are not modelled.
- `handleJSXPage` of server/page.ts is left out: it only calls the page's handler, which is not part of this model.
- `renderJsx` of http/server/render.ts is left out: it is a thin wrapper over `renderToString`.
- The Preact layout's VNode is changed in place by the source. The model computes the changed node as a value, so a layout that returns the same node object on every request would accumulate scripts across requests, and that aliasing is not captured.
- The CORS headers of the props endpoint are left out. Only its content type is modelled.
- `getDevelopment()` in http/server/render.ts is read from the server's development flag.
- Render options that only feed markup attributes are left out, because they take no part in caching, scripts or registrations. These are the html class and style, the body and root style, theme, `noScriptLink`, `headStyle`, `headScript`, `onError` and `abortController`.
- Concurrency is left out: every call is atomic. Interleaved requests writing the same `nest` key, where the last writer wins, are not modelled.
- The default header and footer components (components/header.tsx, components/footer.tsx) are not part of this model. They appear only as named function components.
- The build step (esbuild), dependencies, tests, templates and examples are left out.

## Findings

| source | as written | input that shows it | evidently intended | confidence | as-written member | corrected member |
|---|---|---|---|---|---|---|
| hooks/markdown.tsx:97-100 | The default options put the root class in `body.rootClass` and give no `body.root`. The layout of http/render.tsx:194 reads `body?.root.class`, which throws when `root` is undefined. | An `Instance` built without options, serving any existing post that is not yet in the cache. | `body: { class, root: { class: "cover-container …" } }`, so that the post renders with its root class. | not executed | MarkdownHook.DefaultOptionsAsWrittenFailToRender | MarkdownHook.DefaultOptionsRender |
