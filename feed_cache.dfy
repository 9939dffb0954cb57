/**
 * The backend's `/fetch-alerts` handler: a revalidating fetch of the upstream CAP/RSS feed in
 * front of a single durable slot `{etag, data}` holding the last body that looked like markup.
 *
 * The upstream is a function of the request headers the handler sends, so that the conditional
 * `If-None-Match` precondition (section 3.2 of RFC 7232) is part of what is modelled. The cache
 * file is a field of `FeedServer`; the handler is a method on it, proved against the pure
 * functions `Handle` and `After`, about which the remaining properties are lemmas.
 */
module FeedCache {
  import opened JsValues

  /** The reply sent when neither the upstream nor the slot can supply a body. */
  const ConnectionFailedBody: string := "<error>NDMA Connection Failed</error>"

  const UserAgent: string :=
    "Mozilla/5.0 (Windows NT 10.0; Win64; x64) AppleWebKit/537.36 (KHTML, like Gecko) Chrome/121.0.0.0 Safari/537.36"
  const AcceptXml: string := "application/xml, text/xml, */*"

  /** The durable record `{etag, data}`; `None` is JSON `null`. */
  datatype CacheRecord = CacheRecord(etag: Option<string>, data: Option<string>)

  const EmptyCache: CacheRecord := CacheRecord(None, None)

  /** What the cache file holds when a request arrives: nothing, something `JSON.parse` rejects, or a record. */
  datatype CacheFile = Absent | Unreadable | Stored(record: CacheRecord)

  /** The upstream fetch: a response (status, body text, `etag` header) or a throw from `fetch`/`text()`. */
  datatype Upstream = Reply(status: int, body: string, etag: Option<string>) | NetworkError

  type Headers = map<string, string>

  /** What Express sends: `text/plain` where the handler sets it, Express's HTML default otherwise. */
  datatype ContentType = TextPlain | TextHtml

  datatype Response = Response(status: int, contentType: ContentType, body: string)

  /** One request's effect: the response and the record written to the slot, if one was written. */
  datatype Step = Step(response: Response, written: Option<CacheRecord>)

  /** One incoming request: how the upstream answers a given set of headers, and whether the cache write throws. */
  datatype Request = Request(upstream: Headers -> Upstream, writeFails: bool)

  /** `response.ok`. */
  predicate IsOk(status: int)
  {
    200 <= status <= 299
  }

  /** The header set every upstream request carries. */
  const BaseHeaders: Headers := map["User-Agent" := UserAgent, "Accept" := AcceptXml]

  /** Loading the slot: a missing or unparsable file is the empty cache, never an error. */
  function Load(file: CacheFile): (c: CacheRecord)
    ensures file.Stored? ==> c == file.record
    ensures !file.Stored? ==> c == EmptyCache
  {
    match file
    case Stored(r) => r
    case _ => EmptyCache
  }

  /** The headers of the upstream request: the conditional header is present exactly when the tag is truthy. */
  function RequestHeaders(cache: CacheRecord): (h: Headers)
    ensures "If-None-Match" in h <==> Truthy(cache.etag)
    ensures "If-None-Match" in h ==> h["If-None-Match"] == cache.etag.value
    ensures forall k :: k in BaseHeaders ==> k in h && h[k] == BaseHeaders[k]
    ensures forall k :: k in h ==> k in BaseHeaders || k == "If-None-Match"
  {
    if Truthy(cache.etag) then BaseHeaders["If-None-Match" := cache.etag.value] else BaseHeaders
  }

  /** The catch branch: serve the cached data when it is truthy, else the 500 error page. Nothing is written. */
  function Fallback(cache: CacheRecord): (st: Step)
    ensures st.written == None
    ensures st.response.status == 200 <==> Truthy(cache.data)
    ensures Truthy(cache.data) ==> st.response.body == cache.data.value
  {
    if Truthy(cache.data) then Step(Response(200, TextPlain, cache.data.value), None)
    else Step(Response(500, TextHtml, ConnectionFailedBody), None)
  }

  /**
   * The handler's decision, given the loaded cache, the upstream's answer and whether the
   * cache write throws. Whatever is written is what is served and looks like markup; a 500 is
   * only ever the fixed error page, sent when the cache had no data.
   */
  function Serve(cache: CacheRecord, reply: Upstream, writeFails: bool): (st: Step)
    ensures st.written.Some? ==>
              st.written.value.data == Some(st.response.body) && LooksLikeMarkup(st.response.body)
    ensures st.response.status == 200 || st.response.status == 500
    ensures st.response.status == 500 ==>
              !Truthy(cache.data) && st.written == None && st.response.body == ConnectionFailedBody
  {
    match reply
    case NetworkError => Fallback(cache)
    case Reply(status, body, etag) =>
      if status == 304 then
        // `res.send(null)` sends an empty body with the default status
        Step(Response(200, TextPlain, if cache.data.Some? then cache.data.value else ""), None)
      else if IsOk(status) && LooksLikeMarkup(body) && !writeFails then
        Step(Response(200, TextPlain, body), Some(CacheRecord(etag, Some(body))))
      else
        Fallback(cache)
  }

  /**
   * A whole request against the file: load, build the headers, ask the upstream, decide. A record
   * is written only after an OK reply with a `<`-containing body and a write that succeeds.
   */
  function Handle(file: CacheFile, req: Request): (st: Step)
    ensures var reply := req.upstream(RequestHeaders(Load(file)));
            st.written.Some? ==>
              reply.Reply? && IsOk(reply.status) && LooksLikeMarkup(reply.body) && !req.writeFails &&
              st.written.value == CacheRecord(reply.etag, Some(reply.body))
    ensures st.response.status == 500 ==> !Truthy(Load(file).data)
  {
    var cache := Load(file);
    Serve(cache, req.upstream(RequestHeaders(cache)), req.writeFails)
  }

  /** The cache file after a request: untouched, or holding exactly the `<`-containing body just served. */
  function After(file: CacheFile, req: Request): (f: CacheFile)
    ensures f == file ||
            (f.Stored? && f.record.data == Some(Handle(file, req).response.body) &&
             LooksLikeMarkup(Handle(file, req).response.body))
  {
    var st := Handle(file, req);
    if st.written.Some? then Stored(st.written.value) else file
  }

  /** The cache file after a sequence of requests handled one at a time. */
  function Run(file: CacheFile, reqs: seq<Request>): CacheFile
    decreases |reqs|
  {
    if reqs == [] then file else Run(After(file, reqs[0]), reqs[1..])
  }

  /** The slot invariant: stored data, when there is any, looks like markup. */
  predicate SlotInvariant(file: CacheFile)
  {
    file.Stored? && file.record.data.Some? ==> LooksLikeMarkup(file.record.data.value)
  }

  class FeedServer {
    /** The durable cache file beside the service. */
    var file: CacheFile

    constructor (file: CacheFile)
      ensures this.file == file
    {
      this.file := file;
    }

    /**
     * The `/fetch-alerts` handler. `upstream` answers the headers actually sent; `writeFails`
     * says whether writing the cache file throws, which lands in the same catch as a network error.
     */
    method FetchAlerts(upstream: Headers -> Upstream, writeFails: bool) returns (sent: Headers, res: Response)
      modifies this
      ensures sent == RequestHeaders(Load(old(file)))
      ensures res == Handle(old(file), Request(upstream, writeFails)).response
      ensures file == After(old(file), Request(upstream, writeFails))
    {
      var cache := EmptyCache;
      if file.Stored? {
        cache := file.record;
      }

      var headers := BaseHeaders;
      if Truthy(cache.etag) {
        headers := headers["If-None-Match" := cache.etag.value];
      }
      sent := headers;

      var reply := upstream(headers);
      if reply.Reply? {
        if reply.status == 304 {
          res := Response(200, TextPlain, if cache.data.Some? then cache.data.value else "");
          return;
        }
        if IsOk(reply.status) && LooksLikeMarkup(reply.body) && !writeFails {
          file := Stored(CacheRecord(reply.etag, Some(reply.body)));
          res := Response(200, TextPlain, reply.body);
          return;
        }
      }

      // emergency fallback to the cache
      if Truthy(cache.data) {
        res := Response(200, TextPlain, cache.data.value);
        return;
      }
      res := Response(500, TextHtml, ConnectionFailedBody);
    }
  }

  /** A 304 serves the cached data (or an empty body when there is none) and writes nothing. */
  lemma NotModifiedServesCache(cache: CacheRecord, body: string, etag: Option<string>, writeFails: bool)
    ensures var st := Serve(cache, Reply(304, body, etag), writeFails);
            st.written == None &&
            st.response == Response(200, TextPlain, if cache.data.Some? then cache.data.value else "")
  {
  }

  /** An OK body containing `<` replaces the whole slot, tag included (even a missing tag), and is served. */
  lemma FreshBodyReplacesSlot(cache: CacheRecord, status: int, body: string, etag: Option<string>)
    requires IsOk(status) && LooksLikeMarkup(body)
    ensures Serve(cache, Reply(status, body, etag), false) ==
            Step(Response(200, TextPlain, body), Some(CacheRecord(etag, Some(body))))
  {
  }

  /**
   * A non-OK status, a body without `<` (the empty body included) and a failed cache write all
   * take the same path as a network error.
   */
  lemma RejectedReplyIsNetworkError(cache: CacheRecord, status: int, body: string, etag: Option<string>, writeFails: bool)
    requires status != 304
    requires !IsOk(status) || !LooksLikeMarkup(body) || writeFails
    ensures Serve(cache, Reply(status, body, etag), writeFails) == Serve(cache, NetworkError, writeFails)
  {
  }

  /** On failure, truthy cached data is served exactly and the slot is left alone; otherwise the 500 page. */
  lemma EmergencyFallback(cache: CacheRecord, writeFails: bool)
    ensures var st := Serve(cache, NetworkError, writeFails);
            st.written == None &&
            st.response == if Truthy(cache.data) then Response(200, TextPlain, cache.data.value)
                           else Response(500, TextHtml, ConnectionFailedBody)
  {
  }

  /** One request keeps the slot invariant, and never loses data the slot already had. */
  lemma AfterKeepsSlot(file: CacheFile, req: Request)
    ensures SlotInvariant(file) ==> SlotInvariant(After(file, req))
    ensures Truthy(Load(file).data) ==> Truthy(Load(After(file, req)).data)
  {
  }

  /** Every value the handler ever writes contains `<`: a slot that starts empty or markup-like stays markup-like. */
  lemma {:induction false} RunKeepsSlotInvariant(file: CacheFile, reqs: seq<Request>)
    requires SlotInvariant(file)
    ensures SlotInvariant(Run(file, reqs))
    decreases |reqs|
  {
    if reqs != [] {
      AfterKeepsSlot(file, reqs[0]);
      RunKeepsSlotInvariant(After(file, reqs[0]), reqs[1..]);
    }
  }

  /** Once the slot holds data, no later request in any sequence is answered with the 500 page. */
  lemma {:induction false} NoErrorOnceFilled(file: CacheFile, reqs: seq<Request>, next: Request)
    requires Truthy(Load(file).data)
    ensures Truthy(Load(Run(file, reqs)).data)
    ensures Handle(Run(file, reqs), next).response.status == 200
    decreases |reqs|
  {
    if reqs != [] {
      AfterKeepsSlot(file, reqs[0]);
      NoErrorOnceFilled(After(file, reqs[0]), reqs[1..], next);
    }
  }

  /** With the slot invariant, every body the handler sends is empty or contains `<`. */
  lemma ServedBodyIsMarkupOrEmpty(file: CacheFile, req: Request)
    requires SlotInvariant(file)
    ensures var body := Handle(file, req).response.body;
            body == "" || LooksLikeMarkup(body)
  {
  }

  /** An upstream that honours `If-None-Match` for `tag` and otherwise sends `body` with that tag. */
  function Revalidating(body: string, tag: string): Headers -> Upstream
  {
    (h: Headers) => if "If-None-Match" in h && h["If-None-Match"] == tag then Reply(304, "", None)
                    else Reply(200, body, Some(tag))
  }

  /**
   * Two requests in a row against an unchanged upstream, from any slot: the second gets the same
   * response as the first and writes nothing, so at most one write happens. From a slot with no
   * tag, the first request stores a `<`-containing body with its tag and serves the body.
   */
  lemma RevalidationIsIdempotent(file: CacheFile, body: string, tag: string)
    requires tag != ""
    ensures var req := Request(Revalidating(body, tag), false);
            var first := After(file, req);
            Handle(first, req).written == None &&
            Handle(first, req).response == Handle(file, req).response
    ensures var req := Request(Revalidating(body, tag), false);
            LooksLikeMarkup(body) && !Truthy(Load(file).etag) ==>
              After(file, req) == Stored(CacheRecord(Some(tag), Some(body))) &&
              Handle(file, req).response == Response(200, TextPlain, body)
  {
  }
}
