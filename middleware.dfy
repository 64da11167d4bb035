/** The request middleware: the language cookie on every response, and the subscription gate
    in front of the new-estimate page. */
module Middleware {
  import opened Wrappers
  import opened JsString
  import opened Store
  import opened Subscriptions

  const LanguageCookie: string := "i18next"
  /** One year, in seconds. */
  const LanguageCookieMaxAge: int := 60 * 60 * 24 * 365
  /** The cookie is set for the whole site. */
  const LanguageCookiePath: string := "/"
  const GatedPath: string := "/dashboard/new-estimate"

  /** What the middleware reads: the path, the `i18next` cookie, the Accept-Language header and
      the id of the session's user, if any. */
  datatype Request = Request(path: string, languageCookie: Option<string>,
                             acceptLanguage: Option<string>, session: Option<string>)

  /** `NextResponse.next()` carrying the language cookie, or a redirect. The redirect is a new
      response, so it carries no language cookie. */
  datatype Response = Next(language: string) | Redirect(location: string)

  /** `/subscribe?reason=<reason>`. */
  function SubscribeUrl(reason: Option<string>): string {
    if reason.Some? then "/subscribe?reason=" + reason.value else "/subscribe"
  }

  /** The gate is consulted only for the exact new-estimate path and only with a session. */
  predicate Gated(req: Request) {
    req.path == GatedPath && req.session.Some?
  }

  /** The gate redirects: a row came back without error and it is inactive, past its end or
      at its limit. An error, an exception or a `null` row lets the request through. */
  predicate GateBlocks(req: Request, query: Query<Subscription>, now: int) {
    Gated(req) && query.Found? && query.data.Some? && Blocked(query.data.value, now)
  }

  /** `middleware(req)`, with `query` the outcome of the subscription read (consulted only
      behind the gate) and `now` the clock in milliseconds. */
  method Handle(req: Request, query: Query<Subscription>, now: int) returns (resp: Response)
    ensures resp.Redirect? <==> GateBlocks(req, query, now)
    ensures !Gated(req) ==> resp.Next?
    // "expired" wins over "limit".
    ensures resp.Redirect? ==>
      resp.location == SubscribeUrl(Some(if Lapsed(query.data.value, now) then "expired" else "limit"))
    ensures resp.Next? && req.languageCookie.Some? ==> resp.language == req.languageCookie.value
    ensures resp.Next? && req.languageCookie.None? ==>
      (resp.language == "ru" <==> StartsWith(req.acceptLanguage.GetOr(""), "ru"))
      && (resp.language == "ru" || resp.language == "en")
  {
    var language: string;
    if req.languageCookie.None? {
      var acceptLanguage := req.acceptLanguage.GetOr("");
      var detectedLang := "en";
      if StartsWith(acceptLanguage, "ru") {
        detectedLang := "ru";
      }
      language := detectedLang;
    } else {
      language := req.languageCookie.value;
    }
    resp := Next(language);
    if req.path == GatedPath && req.session.Some? {
      if query.Threw? || query.Failed? {
        return;
      }
      var subscription := query.data;
      if subscription.Some? && Blocked(subscription.value, now) {
        var reason: Option<string> := None;
        if Lapsed(subscription.value, now) {
          reason := Some("expired");
        } else if LimitReached(subscription.value) {
          reason := Some("limit");
        }
        resp := Redirect(SubscribeUrl(reason));
      }
    }
  }

  /** A user without any subscription row passes the gate: `.single()` reports the missing
      row as an error, and the error branch lets the request through. */
  lemma MissingRowPasses(req: Request, now: int)
    ensures !GateBlocks(req, ReadSingle(None, None), now)
  {
  }

  /** Without a storage fault the gate blocks exactly a present, blocked row. */
  lemma GateBlocksRow(req: Request, row: Option<Subscription>, now: int)
    requires Gated(req)
    ensures GateBlocks(req, ReadSingle(row, None), now) <==> row.Some? && Blocked(row.value, now)
  {
  }
}
