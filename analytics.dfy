/** The analytics middlewares: `analyticsMiddleware` wraps `res.send` and
    `res.json` so that every response carries timing headers and a default
    `Cache-Control`; `injectAnalyticsScript` wraps `res.send` so that HTML
    responses load the analytics script. */
module Analytics {
  import opened Wrappers
  import opened Strings

  /** What is handed to `res.send`: a string or any other value. */
  datatype Body = Text(s: string) | Other

  const BodyClose: string := "</body>"
  const HtmlType: string := "text/html"

  /** The snippet placed before `</body>`. */
  const AnalyticsScript: string :=
    "\n<script>\n  window.va = window.va || function () { (window.vaq = window.vaq || []).push(arguments); };\n</script>\n<script defer src=\"/_vercel/insights/script.js\"></script>\n"

  const CacheGet: string := "public, max-age=3600"
  const CacheOther: string := "no-cache, no-store, must-revalidate"

  // ------------------------------------------------------------ script injection

  /** The body `injectAnalyticsScript` passes on: a string body of an HTML
      response gets the script right before the first `</body>`, or at the
      end when there is none; anything else passes unchanged. */
  function Inject(contentType: Option<string>, data: Body): (r: Body)
    ensures !(Includes(OrEmpty(contentType), HtmlType) && data.Text?) ==> r == data
    ensures Includes(OrEmpty(contentType), HtmlType) && data.Text? && !Includes(data.s, BodyClose) ==>
              r == Text(data.s + AnalyticsScript)
    ensures Includes(OrEmpty(contentType), HtmlType) && data.Text? && Includes(data.s, BodyClose) ==>
              var i := IndexOf(data.s, BodyClose).value;
              r == Text(data.s[..i] + AnalyticsScript + data.s[i..])
  {
    if Includes(OrEmpty(contentType), HtmlType) && data.Text? then
      if Includes(data.s, BodyClose) then
        InsertBeforeClose(data.s);
        Text(ReplaceFirst(data.s, BodyClose, AnalyticsScript + BodyClose))
      else Text(data.s + AnalyticsScript)
    else data
  }

  /** Replacing the first `</body>` by script + `</body>` inserts the script
      at that position and keeps every character of the page. */
  lemma InsertBeforeClose(s: string)
    requires Includes(s, BodyClose)
    ensures var i := IndexOf(s, BodyClose).value;
      ReplaceFirst(s, BodyClose, AnalyticsScript + BodyClose) == s[..i] + AnalyticsScript + s[i..]
  {
    var i := IndexOf(s, BodyClose).value;
    assert s[i..] == BodyClose + s[i + |BodyClose|..];
  }

  /** Taking the inserted script out again gives back the page as it was,
      and the part after the script still begins with `</body>`. */
  lemma InjectionIsRemovable(contentType: Option<string>, page: string)
    requires Includes(OrEmpty(contentType), HtmlType)
    requires Includes(page, BodyClose)
    ensures var i := IndexOf(page, BodyClose).value;
      var out := Inject(contentType, Text(page)).s;
      && out[..i] + out[i + |AnalyticsScript|..] == page
      && StartsWith(out[i + |AnalyticsScript|..], BodyClose)
  {
    var i := IndexOf(page, BodyClose).value;
    var out := Inject(contentType, Text(page)).s;
    assert out == page[..i] + AnalyticsScript + page[i..];
    assert out[..i] == page[..i];
    assert out[i + |AnalyticsScript|..] == page[i..];
    assert page[..i] + page[i..] == page;
  }

  /** The injected body never loses a character of the original: it is the
      original with the script spliced in at one position. */
  lemma InjectionOnlyAdds(contentType: Option<string>, data: Body)
    requires data.Text?
    ensures var r := Inject(contentType, data);
      r.Text? &&
      (r == data || exists i :: 0 <= i <= |data.s| && r.s == data.s[..i] + AnalyticsScript + data.s[i..])
  {
    var r := Inject(contentType, data);
    var page := data.s;
    if r != data {
      if Includes(page, BodyClose) {
        var i := IndexOf(page, BodyClose).value;
        assert r.s == page[..i] + AnalyticsScript + page[i..];
      } else {
        assert r.s == page + AnalyticsScript;
        assert page[..|page|] == page && page[|page|..] == [];
        assert r.s == page[..|page|] + AnalyticsScript + page[|page|..];
      }
    }
  }

  // ------------------------------------------------------------ headers

  /** The `Cache-Control` chosen when the response has none. */
  function DefaultCacheControl(httpMethod: string): (r: string)
    ensures httpMethod == "GET" ==> r == CacheGet
    ensures httpMethod != "GET" ==> r == CacheOther
  {
    if httpMethod == "GET" then CacheGet else CacheOther
  }

  /** The headers after the wrapper ran (names in lower case, as Express
      compares them): the three tracking headers are set, and
      `Cache-Control` only when it is absent or empty. */
  function TrackedHeaders(headers: map<string, string>, httpMethod: string, path: string, elapsedMs: nat): (r: map<string, string>)
    ensures r.Keys == headers.Keys + {"x-response-time", "x-request-method", "x-request-path", "cache-control"}
    ensures r["x-request-method"] == httpMethod && r["x-request-path"] == path
    ensures r["x-response-time"] == NatToString(elapsedMs) + "ms"
    ensures "cache-control" in headers && headers["cache-control"] != "" ==> r["cache-control"] == headers["cache-control"]
    ensures !("cache-control" in headers && headers["cache-control"] != "") ==> r["cache-control"] == DefaultCacheControl(httpMethod)
    ensures forall k :: k in headers && k !in {"x-response-time", "x-request-method", "x-request-path", "cache-control"} ==>
              r[k] == headers[k]
  {
    var timed := headers["x-response-time" := NatToString(elapsedMs) + "ms"]
                        ["x-request-method" := httpMethod]["x-request-path" := path];
    if "cache-control" in headers && headers["cache-control"] != "" then timed
    else timed["cache-control" := DefaultCacheControl(httpMethod)]
  }

  /** Once set, `Cache-Control` is kept by every later wrapped call (as when
      `res.json` goes on to call the wrapped `res.send`). */
  lemma CacheControlSetOnce(headers: map<string, string>, m1: string, p1: string, t1: nat, m2: string, p2: string, t2: nat)
    ensures TrackedHeaders(TrackedHeaders(headers, m1, p1, t1), m2, p2, t2)["cache-control"]
            == TrackedHeaders(headers, m1, p1, t1)["cache-control"]
  {
    var once := TrackedHeaders(headers, m1, p1, t1);
    assert once["cache-control"] != "" by {
      if !("cache-control" in headers && headers["cache-control"] != "") {
        assert once["cache-control"] == DefaultCacheControl(m1);
        assert DefaultCacheControl(m1)[0] == (if m1 == "GET" then 'p' else 'n');
      }
    }
  }

  /** The response the wrappers act on: its headers and the bodies that
      reached the original `send`/`json`. */
  class Response {
    var headers: map<string, string>
    var sent: seq<Body>

    constructor (headers: map<string, string>)
      ensures this.headers == headers && sent == []
    {
      this.headers := headers;
      sent := [];
    }

    /** The wrapped `res.send` / `res.json` of `analyticsMiddleware`. */
    method SendTracked(httpMethod: string, path: string, elapsedMs: nat, data: Body)
      modifies this
      ensures headers == TrackedHeaders(old(headers), httpMethod, path, elapsedMs)
      ensures sent == old(sent) + [data]
    {
      var present := "cache-control" in headers && headers["cache-control"] != "";
      headers := headers["x-response-time" := NatToString(elapsedMs) + "ms"];
      headers := headers["x-request-method" := httpMethod];
      headers := headers["x-request-path" := path];
      if !present {
        if httpMethod == "GET" {
          headers := headers["cache-control" := CacheGet];
        } else {
          headers := headers["cache-control" := CacheOther];
        }
      }
      sent := sent + [data];
    }

    /** The wrapped `res.send` of `injectAnalyticsScript`. */
    method SendWithScript(data: Body)
      modifies this
      ensures headers == old(headers)
      ensures sent == old(sent) + [Inject(if "content-type" in headers then Some(headers["content-type"]) else None, data)]
    {
      var contentType := if "content-type" in headers then Some(headers["content-type"]) else None;
      var out := data;
      if Includes(OrEmpty(contentType), HtmlType) && data.Text? {
        if Includes(data.s, BodyClose) {
          out := Text(ReplaceFirst(data.s, BodyClose, AnalyticsScript + BodyClose));
        } else {
          out := Text(data.s + AnalyticsScript);
        }
      }
      sent := sent + [out];
    }
  }
}
