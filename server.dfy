/**
 * The server-side render entry point: how one request becomes exactly one
 * response (a bare status, a redirect or a rendered page), and how the page is
 * assembled around the rendered markup and the serialized state, with the
 * webpack partial loaded once per process and cached.
 *
 * Rendering, the effect engine, head-tag collection, JSON serialization and
 * percent-encoding are collaborators whose code is not part of this model; they
 * are passed in as functions.
 */
module Server {
  import opened Wrappers
  import Toggle

  /** The parts of the incoming request that the render reads. */
  datatype Request = Request(url: string, cookie: Option<string>)

  /** The `auth` slice, seeded from the request. */
  datatype Auth = Auth(cookie: string)

  /** The state the store is created with: only the `auth` slice is given. */
  datatype InitialState = InitialState(auth: Auth)

  /**
   * The store's state after the effects have settled, as far as the render
   * looks into it; `rest` stands for the slices owned by other reducers.
   */
  datatype AppState = AppState(
    auth: Auth,
    apiResultHttpCode: int,
    toggle: Toggle.ToggleStore,
    rest: map<string, string>)

  /** The tags the head collector returns: title, scripts, links and meta tags. */
  datatype Head = Head(title: string, script: string, link: string, meta: string)

  /**
   * What the request leaves behind once the effects have settled and the
   * second render pass has run: the final state, the `url` the router put in
   * the context (if any), the markup of the second pass and the collected head.
   */
  datatype Settlement = Settlement(state: AppState, contextUrl: Option<string>, html: string, head: Head)

  /**
   * The collaborators. `mobileParser` classifies the request's device;
   * `settle` stands for store creation, the device dispatch, the saga run and
   * both render passes at the request's location; `stringify` and
   * `encodeURIComponent` may throw, which `None` stands for.
   */
  datatype App = App(
    mobileParser: Request -> string,
    settle: (InitialState, string, string) -> Settlement,
    stringify: AppState -> Option<string>,
    encodeURIComponent: string -> Option<string>)

  /**
   * Build-time configuration: the `__DEV__` switch and the static favicon and
   * analytics markup blocks.
   */
  datatype Config = Config(dev: bool, faviconHtml: string, analyticsHtml: string)

  /** The three kinds of response the render sends. */
  datatype Response =
    | StatusOnly(code: int)
    | Redirect(code: int, location: string)
    | Html(code: int, body: string)

  /** Exceptions the render does not catch: after one, nothing is sent. */
  datatype Fault = PartialLoadFailed | SerializeFailed

  /** The steps of one request, in the order they happen. */
  datatype Event =
    | MobileDetectDispatched(device: string)
    | SagasStarted
    | FirstRender
    | StoreClosed
    | EffectsSettled
    | SecondRender
    | Sent(response: Response)

  /** The status code of a successful data load. */
  const Ok200: int := 200

  /** The status code of the redirect: a temporary redirect that keeps the method. */
  const TemporaryRedirect: int := 307

  /** The steps every request goes through before the response is chosen. */
  function Prelude(device: string): seq<Event> {
    [MobileDetectDispatched(device), SagasStarted, FirstRender, StoreClosed, EffectsSettled, SecondRender]
  }

  /** The initial state: `auth.cookie` is the cookie header, or "" when absent. */
  function InitialStateOf(req: Request): (s: InitialState)
    ensures req.cookie.Some? ==> s.auth.cookie == req.cookie.value
    ensures req.cookie.None? ==> s.auth.cookie == ""
  {
    InitialState(Auth(req.cookie.GetOr("")))
  }

  /** `context.url` is tested for truthiness, so an empty URL does not redirect. */
  function HasRedirect(contextUrl: Option<string>): (b: bool)
    ensures contextUrl.None? ==> !b
    ensures contextUrl == Some("") ==> !b
    ensures contextUrl.Some? && contextUrl.value != "" ==> b
  {
    contextUrl.Some? && contextUrl.value != ""
  }

  /** Which response the final state and router context call for. */
  datatype Decision = SendStatus(code: int) | SendRedirect(location: string) | SendHtml

  /**
   * The branching after the effects settle. A non-200 result code wins over
   * everything; only with 200 is the redirect looked at; otherwise the page is
   * rendered.
   */
  function Decide(code: int, contextUrl: Option<string>): (d: Decision)
    ensures d.SendStatus? <==> code != Ok200
    ensures d.SendStatus? ==> d.code == code
    ensures d.SendRedirect? <==> code == Ok200 && HasRedirect(contextUrl)
    ensures d.SendRedirect? ==> contextUrl == Some(d.location)
    ensures d == SendHtml <==> code == Ok200 && !HasRedirect(contextUrl)
  {
    if code != Ok200 then SendStatus(code)
    else if HasRedirect(contextUrl) then SendRedirect(contextUrl.value)
    else SendHtml
  }

  /** A non-200 code is sent as a bare status even when a redirect is pending. */
  lemma StatusBeatsRedirect(code: int, contextUrl: Option<string>)
    requires code != Ok200
    ensures Decide(code, contextUrl) == SendStatus(code)
  {
  }

  // ---------------------------------------------------------------------------
  // The partial cache

  /** The partial used when `__DEV__` is set. */
  const DevPartial: string :=
    "\n      <script src=\"/js/dist/dev/dev.client.app.js\" type=\"text/javascript\" defer></script>"
    + "\n      <link href=\"https://fonts.googleapis.com/css?family=Roboto\" rel=\"stylesheet\"></link>\n    "

  /**
   * What one load produces: the dev partial, or the contents of the built
   * partial file; a missing file makes the read throw.
   */
  function LoadedPartial(dev: bool, partialFile: Option<string>): (r: Result<string, Fault>)
    ensures dev ==> r == Ok(DevPartial)
    ensures !dev && partialFile.Some? ==> r == Ok(partialFile.value)
    ensures !dev && partialFile.None? ==> r == Err(PartialLoadFailed)
  {
    if dev then Ok(DevPartial)
    else if partialFile.Some? then Ok(partialFile.value)
    else Err(PartialLoadFailed)
  }

  /**
   * The cache after one use: a filled cache is kept as it is, an empty one is
   * filled by a load if the load succeeds.
   */
  function CacheAfter(cache: Option<string>, dev: bool, partialFile: Option<string>): (c: Option<string>)
    ensures cache.Some? ==> c == cache
    ensures cache.None? && LoadedPartial(dev, partialFile).Ok? ==> c == Some(LoadedPartial(dev, partialFile).value)
    ensures cache.None? && LoadedPartial(dev, partialFile).Err? ==> c == None
  {
    if cache.Some? then cache
    else match LoadedPartial(dev, partialFile)
      case Ok(p) => Some(p)
      case Err(_) => None
  }

  /** Once filled, the cache never changes, whatever later loads would read. */
  lemma CacheFilledOnce(cache: Option<string>, dev: bool, f1: Option<string>, f2: Option<string>)
    requires CacheAfter(cache, dev, f1).Some?
    ensures CacheAfter(CacheAfter(cache, dev, f1), dev, f2) == CacheAfter(cache, dev, f1)
  {
  }

  // ---------------------------------------------------------------------------
  // Document assembly

  /** The markup before the head tags. */
  const DocumentOpen: string :=
    "\n  <!DOCTYPE html>"
    + "\n  <!--[if IE 8]> <html lang=\"en\" class=\"ie8\"> <![endif]-->"
    + "\n  <!--[if IE 9]> <html lang=\"en\" class=\"ie9\"> <![endif]-->"
    + "\n  <!--[if !IE]><!-->"
    + "\n  <html lang=\"ru\">"
    + "\n    <!--<![endif]-->"
    + "\n    <head>"
    + "\n      "

  /** The line break and indentation between two head entries. */
  const Line: string := "\n      "

  /** The line break, blank line and indentation between two head blocks. */
  const Block: string := "\n\n      "

  /** The inline script up to the encoded state. */
  const ScriptOpen: string := "<script>\n        window.__INITIAL_STATE__ = JSON.parse(decodeURIComponent(\""

  /** The inline script after the encoded state. */
  const ScriptClose: string := "\"));\n      </script>"

  /** The end of the head and the start of the body. */
  const BodyOpen: string := "\n    </head>\n    <body data-spy=\"scroll\">"

  /** The element the application is mounted in. */
  const DivOpen: string := "<div id=\"react-app\">"
  const DivClose: string := "</div>"

  /** The markup after the application element. */
  const DocumentClose: string := "</body>\n  </html>"

  /** The analytics block, which dev builds leave out. */
  function StatScripts(config: Config): (s: string)
    ensures config.dev ==> s == ""
    ensures !config.dev ==> s == config.analyticsHtml
  {
    if config.dev then "" else config.analyticsHtml
  }

  /** The head up to the inline script: head tags, then the favicon block. */
  function HeadSection(head: Head, favicon: string): string {
    DocumentOpen + HeadTags(head, favicon)
  }

  /** The head tags, one per line, then the favicon block. */
  function HeadTags(head: Head, favicon: string): string {
    head.title + Line + head.script + Line + head.link + Line + head.meta + Block + favicon + Block
  }

  /** The inline script that hands the encoded state to the client. */
  function StateScript(payload: string): string {
    ScriptOpen + payload + ScriptClose
  }

  /** The rest of the head: the webpack partial and the analytics block. */
  function AssetSection(partial: string, stats: string): string {
    Block + partial + Block + stats + BodyOpen
  }

  /** The element the application's markup is placed in. */
  function AppElement(content: string): string {
    DivOpen + content + DivClose
  }

  /**
   * The page `renderHtml` returns: a complete document, from the doctype and
   * conditional `<html>` markup to the closing `</body>` and `</html>`.
   */
  function Document(head: Head, favicon: string, payload: string, partial: string, stats: string, content: string): (doc: string)
    ensures DocumentOpen <= doc
    ensures |DocumentClose| <= |doc| && doc[|doc| - |DocumentClose|..] == DocumentClose
  {
    Framed(DocumentOpen, HeadTags(head, favicon), StateScript(payload), AssetSection(partial, stats), AppElement(content), DocumentClose);
    HeadSection(head, favicon) + StateScript(payload) + AssetSection(partial, stats) + AppElement(content) + DocumentClose
  }

  /** A concatenation of six parts starts with the first and ends with the last. */
  lemma Framed(o: string, t: string, s: string, a: string, e: string, c: string)
    ensures var d := o + t + s + a + e + c;
      && o <= d && |c| <= |d| && d[|d| - |c|..] == c
  {
    var d := o + t + s + a + e + c;
    assert d == o + (t + s + a + e + c);
    PrefixOfConcat(o, t + s + a + e + c);
    assert d == (o + t + s + a + e) + c;
    Slot(o + t + s + a + e, [], c);
  }

  /** A sequence is a prefix of itself followed by anything. */
  lemma PrefixOfConcat(a: string, b: string)
    ensures a <= a + b
  {
    assert (a + b)[..|a|] == a;
  }

  /** `t` occurs in `s` at some position. */
  ghost predicate Contains(s: string, t: string) {
    exists i, j :: 0 <= i <= j <= |s| && s[i..j] == t
  }

  /** The content appears verbatim inside the application element. */
  lemma ContentInsideReactApp(head: Head, favicon: string, payload: string, partial: string, stats: string, content: string)
    ensures Contains(Document(head, favicon, payload, partial, stats, content), DivOpen + content + DivClose)
  {
    var doc := Document(head, favicon, payload, partial, stats, content);
    var pre := HeadSection(head, favicon) + StateScript(payload) + AssetSection(partial, stats);
    var t := AppElement(content);
    assert doc == pre + t + DocumentClose;
    assert doc[|pre|..|pre| + |t|] == t;
  }

  /** The encoded state appears verbatim inside the initial-state script. */
  lemma PayloadInsideInitialStateScript(head: Head, favicon: string, payload: string, partial: string, stats: string, content: string)
    ensures Contains(Document(head, favicon, payload, partial, stats, content), ScriptOpen + payload + ScriptClose)
  {
    var doc := Document(head, favicon, payload, partial, stats, content);
    var pre := HeadSection(head, favicon);
    var t := StateScript(payload);
    var post := AssetSection(partial, stats) + AppElement(content) + DocumentClose;
    assert doc == pre + t + post;
    assert doc[|pre|..|pre| + |t|] == t;
  }

  /** The page up to the encoded state. */
  function BeforeState(head: Head, favicon: string): string {
    HeadSection(head, favicon) + ScriptOpen
  }

  /** The page after the encoded state. */
  function AfterState(partial: string, stats: string, content: string): string {
    ScriptClose + (AssetSection(partial, stats) + AppElement(content) + DocumentClose)
  }

  /**
   * The encoded state fills exactly one slot of the page: what comes before it
   * depends only on the head tags and the favicon block, and what comes after
   * it only on the partial, the analytics block and the content.
   */
  lemma StateEmbeddedOnce(head: Head, favicon: string, payload: string, partial: string, stats: string, content: string)
    ensures Document(head, favicon, payload, partial, stats, content)
         == BeforeState(head, favicon) + payload + AfterState(partial, stats, content)
  {
    Reassociate(HeadSection(head, favicon), ScriptOpen, payload, ScriptClose,
                AssetSection(partial, stats), AppElement(content), DocumentClose);
  }

  /** Regrouping of a page made of seven parts around its middle one. */
  lemma Reassociate(h: string, so: string, p: string, sc: string, a: string, e: string, c: string)
    ensures h + (so + p + sc) + a + e + c == (h + so) + p + (sc + (a + e + c))
  {
  }

  /** Two states are embedded at the same position, with the same text around them. */
  lemma StateSlotIsFixed(head: Head, favicon: string, p1: string, p2: string, partial: string, stats: string, content: string)
    ensures var d1 := Document(head, favicon, p1, partial, stats, content);
            var d2 := Document(head, favicon, p2, partial, stats, content);
            var n := |BeforeState(head, favicon)|;
            && n + |p1| <= |d1| && n + |p2| <= |d2|
            && d1[..n] == d2[..n]
            && d1[n..n + |p1|] == p1 && d2[n..n + |p2|] == p2
            && d1[n + |p1|..] == d2[n + |p2|..]
  {
    var b := BeforeState(head, favicon);
    var a := AfterState(partial, stats, content);
    StateEmbeddedOnce(head, favicon, p1, partial, stats, content);
    StateEmbeddedOnce(head, favicon, p2, partial, stats, content);
    Slot(b, p1, a);
    Slot(b, p2, a);
  }

  /** The three parts of `b + p + a` can be read back by position. */
  lemma Slot(b: string, p: string, a: string)
    ensures var d := b + p + a;
      && d[..|b|] == b && d[|b|..|b| + |p|] == p && d[|b| + |p|..] == a
  {
  }

  /** `encodeURIComponent(JSON.stringify(state))`; either call may throw. */
  function Payload(app: App, state: AppState): (r: Result<string, Fault>)
    ensures app.stringify(state).None? ==> r == Err(SerializeFailed)
    ensures app.stringify(state).Some? && app.encodeURIComponent(app.stringify(state).value).None? ==> r == Err(SerializeFailed)
    ensures r.Ok? <==> app.stringify(state).Some? && app.encodeURIComponent(app.stringify(state).value).Some?
    ensures r.Ok? ==> r.value == app.encodeURIComponent(app.stringify(state).value).value
  {
    match app.stringify(state)
    case None => Err(SerializeFailed)
    case Some(json) =>
      match app.encodeURIComponent(json)
      case None => Err(SerializeFailed)
      case Some(encoded) => Ok(encoded)
  }

  /**
   * What `renderHtml` returns once the cache has been consulted: a failed load
   * propagates, a failed serialization propagates, otherwise the page.
   */
  function PageFor(cache: Option<string>, content: string, state: AppState, head: Head, app: App, config: Config): (r: Result<string, Fault>)
    ensures cache.None? ==> r == Err(PartialLoadFailed)
    ensures cache.Some? && Payload(app, state).Err? ==> r == Err(SerializeFailed)
    ensures cache.Some? && Payload(app, state).Ok? ==>
      r == Ok(Document(head, config.faviconHtml, Payload(app, state).value, cache.value, StatScripts(config), content))
  {
    match cache
    case None => Err(PartialLoadFailed)
    case Some(partial) =>
      match Payload(app, state)
      case Err(e) => Err(e)
      case Ok(payload) => Ok(Document(head, config.faviconHtml, payload, partial, StatScripts(config), content))
  }

  /** The response the render sends, or the fault that stops it from sending one. */
  function Outcome(d: Decision, page: Result<string, Fault>): (r: Result<Response, Fault>)
    ensures d.SendStatus? ==> r == Ok(StatusOnly(d.code))
    ensures d.SendRedirect? ==> r == Ok(Redirect(TemporaryRedirect, d.location))
    ensures d == SendHtml && page.Ok? ==> r == Ok(Html(Ok200, page.value))
    ensures d == SendHtml && page.Err? ==> r == Err(page.error)
  {
    match d
    case SendStatus(code) => Ok(StatusOnly(code))
    case SendRedirect(location) => Ok(Redirect(TemporaryRedirect, location))
    case SendHtml => if page.Ok? then Ok(Html(Ok200, page.value)) else Err(page.error)
  }

  /**
   * A page that was built holds the rendered content inside the application
   * element and the encoded state inside the initial-state script.
   */
  lemma PageHoldsContentAndState(cache: Option<string>, content: string, state: AppState, head: Head, app: App, config: Config)
    ensures PageFor(cache, content, state, head, app, config).Ok? ==>
      && Payload(app, state).Ok?
      && Contains(PageFor(cache, content, state, head, app, config).value, DivOpen + content + DivClose)
      && Contains(PageFor(cache, content, state, head, app, config).value, ScriptOpen + Payload(app, state).value + ScriptClose)
  {
    if PageFor(cache, content, state, head, app, config).Ok? {
      var payload := Payload(app, state).value;
      ContentInsideReactApp(head, config.faviconHtml, payload, cache.value, StatScripts(config), content);
      PayloadInsideInitialStateScript(head, config.faviconHtml, payload, cache.value, StatScripts(config), content);
    }
  }

  /**
   * The module-level state of the server: the cached webpack partial. `loads`
   * counts how often the loader has run.
   */
  class Server {
    var webpackPartial: Option<string>
    ghost var loads: nat

    /** At start-up the cache is empty. */
    constructor ()
      ensures webpackPartial == None && loads == 0
    {
      webpackPartial := None;
      loads := 0;
    }

    /**
     * `loadWebpackPartialTmpl`: stores the dev partial or the file contents. A
     * missing file throws before anything is stored.
     */
    method LoadWebpackPartial(config: Config, partialFile: Option<string>) returns (ok: bool)
      modifies this
      ensures ok == LoadedPartial(config.dev, partialFile).Ok?
      ensures ok ==> webpackPartial == Some(LoadedPartial(config.dev, partialFile).value)
      ensures !ok ==> webpackPartial == old(webpackPartial)
      ensures loads == old(loads) + 1
    {
      loads := loads + 1;
      if config.dev {
        webpackPartial := Some(DevPartial);
        return true;
      }
      if partialFile.None? {
        return false;
      }
      webpackPartial := Some(partialFile.value);
      ok := true;
    }

    /**
     * `renderHtml`: loads the partial only when the cache is empty, then
     * assembles the page around `content` and the encoded state.
     */
    method RenderHtml(content: string, state: AppState, head: Head, app: App, config: Config, partialFile: Option<string>)
      returns (r: Result<string, Fault>)
      modifies this
      ensures webpackPartial == CacheAfter(old(webpackPartial), config.dev, partialFile)
      ensures loads == old(loads) + (if old(webpackPartial).None? then 1 else 0)
      ensures r == PageFor(webpackPartial, content, state, head, app, config)
    {
      if webpackPartial.None? {
        var _ := LoadWebpackPartial(config, partialFile);
      }
      if webpackPartial.None? {
        return Err(PartialLoadFailed);
      }
      var payload := Payload(app, state);
      if payload.Err? {
        return Err(payload.error);
      }
      r := Ok(Document(head, config.faviconHtml, payload.value, webpackPartial.value, StatScripts(config), content));
    }

    /**
     * `render`: seeds the state from the cookie, lets the effects settle, then
     * sends one response chosen by `Decide`; the page is built only when
     * neither a non-200 code nor a redirect is pending.
     */
    method Render(req: Request, app: App, config: Config, partialFile: Option<string>)
      returns (out: Result<Response, Fault>, log: seq<Event>)
      modifies this
      ensures var device := app.mobileParser(req);
              var s := app.settle(InitialStateOf(req), device, req.url);
              var d := Decide(s.state.apiResultHttpCode, s.contextUrl);
              && log == Prelude(device) + (if out.Ok? then [Sent(out.value)] else [])
              && (d == SendHtml ==>
                    && webpackPartial == CacheAfter(old(webpackPartial), config.dev, partialFile)
                    && loads == old(loads) + (if old(webpackPartial).None? then 1 else 0)
                    && out == Outcome(d, PageFor(webpackPartial, s.html, s.state, s.head, app, config)))
              && (d.SendStatus? ==> out == Ok(StatusOnly(d.code)))
              && (d.SendRedirect? ==> out == Ok(Redirect(TemporaryRedirect, d.location)))
              && (d != SendHtml ==> webpackPartial == old(webpackPartial) && loads == old(loads))
              && (out.Ok? && out.value.Html? ==>
                    && Contains(out.value.body, DivOpen + s.html + DivClose)
                    && Payload(app, s.state).Ok?
                    && Contains(out.value.body, ScriptOpen + Payload(app, s.state).value + ScriptClose))
    {
      var initialState := InitialStateOf(req);
      var device := app.mobileParser(req);
      log := [MobileDetectDispatched(device)];
      log := log + [SagasStarted, FirstRender, StoreClosed];
      var settled := app.settle(initialState, device, req.url);
      log := log + [EffectsSettled, SecondRender];
      var html := settled.html;
      var state := settled.state;
      if state.apiResultHttpCode != Ok200 {
        out := Ok(StatusOnly(state.apiResultHttpCode));
        log := log + [Sent(out.value)];
        return;
      }
      if HasRedirect(settled.contextUrl) {
        out := Ok(Redirect(TemporaryRedirect, settled.contextUrl.value));
        log := log + [Sent(out.value)];
        return;
      }
      var page := RenderHtml(html, state, settled.head, app, config, partialFile);
      if page.Err? {
        out := Err(page.error);
        return;
      }
      PageHoldsContentAndState(webpackPartial, html, state, settled.head, app, config);
      out := Ok(Html(Ok200, page.value));
      log := log + [Sent(out.value)];
    }
  }

  /**
   * Two page builds in a row give the same page when the first one succeeded,
   * and the second one does not load the partial again, whatever the file
   * holds by then.
   */
  method RenderHtmlTwice(server: Server, content: string, state: AppState, head: Head, app: App, config: Config,
                         firstFile: Option<string>, laterFile: Option<string>)
    returns (r1: Result<string, Fault>, r2: Result<string, Fault>)
    modifies server
    ensures r1.Ok? ==> r2 == r1
    ensures r1.Ok? ==> server.loads == old(server.loads) + (if old(server.webpackPartial).None? then 1 else 0)
  {
    r1 := server.RenderHtml(content, state, head, app, config, firstFile);
    r2 := server.RenderHtml(content, state, head, app, config, laterFile);
  }
}
