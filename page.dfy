/** The page registry of server/page.ts: a map from a route key to the page
    record registered for it, filled through a chaining `set`. */
module Pages {

  /** The server-side-rendering definition and the handler of a page; the
      registry only stores them. */
  type Ssr(==)
  type HandlerArgument(==)

  datatype PageRecord = PageRecord(path: string, ssr: Ssr, handler: HandlerArgument)

  const Localhost := "localhost"
  const KeyPrefix := "GET#localhost#"

  /** `GET#${LOCALHOST}#${path}` */
  function PageKey(path: string): (k: string)
    ensures |k| == |path| + 14
    ensures k[..14] == KeyPrefix && k[14..] == path
  {
    KeyPrefix + path
  }

  /** Different paths never share a key. */
  lemma PageKeyInjective(p1: string, p2: string)
    requires PageKey(p1) == PageKey(p2)
    ensures p1 == p2
  {
    assert p1 == PageKey(p1)[14..];
  }

  /** The map after `set(path, ssr, handler)`. */
  function Stored(pages: map<string, PageRecord>, path: string, ssr: Ssr, handler: HandlerArgument): map<string, PageRecord> {
    pages[PageKey(path) := PageRecord(path, ssr, handler)]
  }

  /** `set` stores the record under its key, replacing any record there, and
      leaves every other key as it was. */
  lemma SetReplacesOnlyItsKey(pages: map<string, PageRecord>, path: string, ssr: Ssr, handler: HandlerArgument, other: string)
    requires other != PageKey(path)
    ensures var r := Stored(pages, path, ssr, handler);
      && r[PageKey(path)] == PageRecord(path, ssr, handler)
      && (other in r <==> other in pages)
      && (other in pages ==> r[other] == pages[other])
  {
  }

  /** The map grows by exactly one entry when the key was new, and keeps its size otherwise. */
  lemma SetGrowsIffNew(pages: map<string, PageRecord>, path: string, ssr: Ssr, handler: HandlerArgument)
    ensures var r := Stored(pages, path, ssr, handler);
      |r| == if PageKey(path) in pages then |pages| else |pages| + 1
  {
    var k := PageKey(path);
    var r := Stored(pages, path, ssr, handler);
    if k in pages {
      assert r.Keys == pages.Keys;
    } else {
      assert r.Keys == pages.Keys + {k};
      assert |pages.Keys + {k}| == |pages.Keys| + 1;
    }
  }

  /** The object `page()` returns. */
  class PageRegistry {
    var pages: map<string, PageRecord>

    /** `page()`: a registry with no pages. */
    constructor ()
      ensures pages == map[]
    {
      pages := map[];
    }

    /** `set(path, ssr, handler)`: returns the registry itself, so chained calls update one map. */
    method Set(path: string, ssr: Ssr, handler: HandlerArgument) returns (r: PageRegistry)
      modifies this
      ensures r == this
      ensures pages == Stored(old(pages), path, ssr, handler)
    {
      var component := PageRecord(path, ssr, handler);
      var key := "GET#" + Localhost + "#" + path;
      assert "GET#" + Localhost + "#" == KeyPrefix;
      pages := pages[key := component];
      return this;
    }
  }
}
