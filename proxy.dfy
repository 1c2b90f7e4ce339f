/** `ProxyRequest` of proxy/middleware.py: the decision logic of the caching
    proxy. The origin's reply is an input (its headers and body bytes); the
    cache is the `FileCache` of the store model; the response is an object
    whose headers the proxy sets one by one. */
module Proxy {
  import opened Values
  import opened Text
  import opened Classifier
  import opened HttpUtils
  import opened Store
  import Reader

  /** An incoming request. `path` is what `utils.get_path` returns for it,
      which proxy/utils.py does not define: it is taken as given. */
  datatype Request = Request(verb: string, path: string, meta: map<string, string>)

  /** The origin's reply: its headers, the raw body bytes, and the body as
      `raw.read()` returns it once content decoding is switched on. */
  datatype OriginReply = OriginReply(headers: map<string, string>, raw: seq<byte>, decoded: seq<byte>)

  /** The request forwarded to the origin. */
  datatype Outbound = Outbound(verb: string, url: string, headers: map<string, string>)

  /** Where a streamed body comes from: a cached file, cached bytes, the
      origin relayed as is, or the origin written through to the cache. */
  datatype Source = FileSource(path: string, data: seq<byte>) | MemorySource(data: seq<byte>)
                  | Relay(data: seq<byte>) | WriteThrough(data: seq<byte>)

  /** `HttpResponse` (a body in one piece) or `StreamingHttpResponse`. */
  datatype Body = Buffered(data: seq<byte>) | Streamed(source: Source)

  /** A response's headers and body, as values. */
  datatype Reply = Reply(headers: map<string, string>, body: Body)

  /** The response object; `Set` is `response[name] = value`. */
  class Response {
    var headers: map<string, string>
    var body: Body

    constructor (body: Body)
      ensures headers == map[] && this.body == body
    {
      headers := map[];
      this.body := body;
    }

    method Set(name: string, value: string)
      modifies this
      ensures headers == old(headers)[name := value] && body == old(body)
    {
      headers := headers[name := value];
    }
  }

  const HopByHop: seq<string> := ["connection", "keep-alive", "proxy-authenticate", "proxy-authorization",
                                  "te", "trailers", "transfer-encoding", "upgrade", "content-encoding"]
  const RequestExcludes: seq<string> := ["CONTENT-LENGTH", "IF-MODIFIED-SINCE", "IF-NONE-MATCH", "HOST"]
  const ResponseExcludes: seq<string> := ["content-length", "content-encoding"]
  const FrameHeader := "X-Frame-Options"
  const FramePrefix := "ALLOW-FROM "
  const RefererKey := "REFERER"

  /** `make_scope_key`: `method:path`. */
  function ScopeKey(req: Request): (r: string)
    ensures r == Colon(req.verb, req.path)
  {
    req.verb + ":" + req.path
  }

  /** Requests that differ in method or path never share a scope, as long
      as methods hold no colon. */
  lemma ScopeKeysDiffer(a: Request, b: Request)
    requires ':' !in a.verb && ':' !in b.verb
    requires a.verb != b.verb || a.path != b.path
    ensures ScopeKey(a) != ScopeKey(b)
  {
    if ScopeKey(a) == ScopeKey(b) {
      ColonInjective(a.verb, a.path, b.verb, b.path);
    }
  }

  /** A header that concerns one connection only; the test ignores case. */
  predicate IsHopByHop(name: string)
  {
    Lower(name) in HopByHop
  }

  /** The end-to-end headers of a map: all others, with their values. */
  function EndToEnd(h: map<string, string>): (r: map<string, string>)
    ensures forall k :: k in r <==> k in h && !IsHopByHop(k)
    ensures forall k :: k in r ==> r[k] == h[k]
  {
    map k | k in h && !IsHopByHop(k) :: h[k]
  }

  /** The hop-by-hop test ignores case. */
  lemma HopByHopIgnoresCase()
    ensures EndToEnd(map["Transfer-Encoding" := "chunked", "content-type" := "image/png"])
            == map["content-type" := "image/png"]
  {
    var te, ct := "Transfer-Encoding", "content-type";
    assert Lower(te) == "transfer-encoding";
    assert Lower(ct) == ct;
    assert ct !in HopByHop by {
      assert ct[0] == 'c' && |ct| == 12;
      assert forall i :: 0 <= i < |HopByHop| ==> HopByHop[i][0] != 'c' || |HopByHop[i]| != 12;
    }
  }

  /** `copy_headers`: copies every end-to-end header onto the response and
      returns the copied set. */
  method CopyHeaders(headers: map<string, string>, response: Response) returns (copied: map<string, string>)
    modifies response
    ensures copied == EndToEnd(headers)
    ensures response.headers == old(response.headers) + copied
    ensures response.body == old(response.body)
  {
    copied := map[];
    var rest := headers.Keys;
    while rest != {}
      invariant rest <= headers.Keys
      invariant forall j :: j in copied <==> j in headers && j !in rest && !IsHopByHop(j)
      invariant forall j :: j in copied ==> copied[j] == headers[j]
      invariant response.headers == old(response.headers) + copied
      invariant response.body == old(response.body)
      decreases |rest|
    {
      var k :| k in rest;
      if !IsHopByHop(k) {
        UpdateMerge(old(response.headers), copied, k, headers[k]);
        response.Set(k, headers[k]);
        copied := copied[k := headers[k]];
      }
      rest := rest - {k};
    }
    assert copied == EndToEnd(headers);
  }

  lemma UpdateMerge<K, V>(a: map<K, V>, c: map<K, V>, k: K, v: V)
    ensures (a + c)[k := v] == a + c[k := v]
  {
  }

  lemma EmptyMerge<K, V>(c: map<K, V>)
    ensures map[] + c == c
  {
  }

  /** The `X-Frame-Options` value `setup_response_headers` sets: present
      exactly when the headers hold a truthy `REFERER`. */
  function FrameOption(headers: map<string, Field>): (r: Option<string>)
    ensures r.Some? <==> RefererKey in headers && Truthy(headers[RefererKey])
    ensures r.Some? ==> r.value == FramePrefix + Show(headers[RefererKey])
  {
    var referer := GetOr(headers, RefererKey, Null);
    if Truthy(referer) then Some(FramePrefix + Show(referer)) else None
  }

  /** Response headers `h` once `setup_response_headers` has seen `headers`. */
  function WithFrameOption(h: map<string, string>, headers: map<string, Field>): (r: map<string, string>)
    ensures FrameOption(headers).Some? ==> r == h[FrameHeader := FrameOption(headers).value]
    ensures FrameOption(headers).None? ==> r == h
  {
    var f := FrameOption(headers);
    if f.Some? then h[FrameHeader := f.value] else h
  }

  /** `setup_response_headers`. */
  method SetupResponseHeaders(response: Response, headers: map<string, Field>)
    modifies response
    ensures response.headers == WithFrameOption(old(response.headers), headers)
    ensures response.body == old(response.body)
  {
    var referer := GetOr(headers, RefererKey, Null);
    if Truthy(referer) {
      response.Set(FrameHeader, FramePrefix + Show(referer));
    }
  }

  /** The string-valued entries of a stored header record. */
  function TextFields(m: map<string, Field>): (r: map<string, string>)
    ensures forall k :: k in r <==> k in m && m[k].Str?
    ensures forall k :: k in r ==> r[k] == m[k].s
  {
    map k | k in m && m[k].Str? :: m[k].s
  }

  /** The headers of a cached reply: every stored header as a string. */
  function Shown(m: map<string, Field>): (r: map<string, string>)
    ensures r.Keys == m.Keys
    ensures forall k :: k in m ==> r[k] == Show(m[k])
  {
    map k | k in m :: Show(m[k])
  }

  /** What `_response_cache` answers with for the stored `meta` and `content`
      entries, or why it raises: the meta entry must be a dictionary whose
      content type, if any, is a string. A text reply is the stored bytes in
      one piece; otherwise a set stream flag streams the record's file, and
      no flag streams the stored bytes. */
  function CachedReply(meta: Option<Value>, content: Option<Value>, files: map<string, seq<byte>>): (r: Result<Reply, Fault>)
    ensures r.Ok? <==>
              && meta.Some? && meta.value.Record?
              && ("content-type" in meta.value.fields ==> meta.value.fields["content-type"].Str?)
              && (IsText(TextFields(meta.value.fields)) ==> content.Some? && content.value.Bytes?)
              && (!IsText(TextFields(meta.value.fields)) && IsFileObj(meta.value.fields) ==> FileBacked(content, files).Ok?)
              && (!IsText(TextFields(meta.value.fields)) && !IsFileObj(meta.value.fields) ==> content.None? || content.value.Bytes?)
    ensures r.Ok? ==> meta.Some? && meta.value.Record?
    ensures r.Ok? ==> r.value.headers == WithFrameOption(Shown(meta.value.fields), meta.value.fields)
    ensures meta.Some? && meta.value.Record? && IsText(TextFields(meta.value.fields)) && r.Ok? ==>
              content.Some? && content.value.Bytes? && r.value.body == Buffered(content.value.data)
    ensures r.Ok? && !IsText(TextFields(meta.value.fields)) && IsFileObj(meta.value.fields) ==>
              && content.Some? && content.value.Record? && FilePathKey in content.value.fields
              && content.value.fields[FilePathKey].Str? && content.value.fields[FilePathKey].s in files
              && r.value.body == Streamed(FileSource(content.value.fields[FilePathKey].s, files[content.value.fields[FilePathKey].s]))
    ensures r.Ok? && !IsText(TextFields(meta.value.fields)) && !IsFileObj(meta.value.fields) ==>
              && (content.None? || content.value.Bytes?)
              && r.value.body == Streamed(MemorySource(if content.None? then NoneText else content.value.data))
  {
    if meta.None? then Err(Missing)
    else if !meta.value.Record? then Err(NotRecord)
    else
      var m := meta.value.fields;
      if "content-type" in m && !m["content-type"].Str? then Err(BadContentType)
      else
        var body := CachedBody(m, content, files);
        if body.Err? then Err(body.error) else Ok(Reply(WithFrameOption(Shown(m), m), body.value))
  }

  /** The body `_response_cache` chooses for the stored header record `m`. */
  function CachedBody(m: map<string, Field>, content: Option<Value>, files: map<string, seq<byte>>): Result<Body, Fault>
  {
    if IsText(TextFields(m)) then
      var b := InlineBytes(content);
      if b.Ok? then Ok(Buffered(b.value)) else Err(b.error)
    else if IsFileObj(m) then
      var f := FileBacked(content, files);
      if f.Ok? then Ok(Streamed(FileSource(f.value.0, f.value.1))) else Err(f.error)
    else
      var b := StringIOBytes(content);
      if b.Ok? then Ok(Streamed(MemorySource(b.value))) else Err(b.error)
  }

  /** `is_fileobj` on a stored header record: a truthy `stream` entry. */
  predicate IsFileObj(m: map<string, Field>)
    ensures IsFileObj(m) <==> StreamKey in m && Truthy(m[StreamKey])
  {
    Truthy(GetOr(m, StreamKey, Flag(false)))
  }

  /** Copies every stored header onto the response, as a string. */
  method SetStoredHeaders(response: Response, m: map<string, Field>)
    modifies response
    ensures response.headers == old(response.headers) + Shown(m)
    ensures response.body == old(response.body)
  {
    var rest := m.Keys;
    ghost var done: map<string, string> := map[];
    while rest != {}
      invariant rest <= m.Keys
      invariant forall k :: k in done <==> k in m && k !in rest
      invariant forall k :: k in done ==> done[k] == Show(m[k])
      invariant response.headers == old(response.headers) + done
      invariant response.body == old(response.body)
      decreases |rest|
    {
      var k :| k in rest;
      UpdateMerge(old(response.headers), done, k, Show(m[k]));
      response.Set(k, Show(m[k]));
      done := done[k := Show(m[k])];
      rest := rest - {k};
    }
    assert done == Shown(m);
  }

  /** `_response_cache`. */
  method ResponseCache(cache: FileCache) returns (r: Result<Response, Fault>)
    ensures var reply := CachedReply(cache.Get(MetaKey), cache.Get(ContentKey), cache.files);
            && (r.Ok? <==> reply.Ok?)
            && (r.Err? ==> r.error == reply.error)
            && (r.Ok? ==> fresh(r.value) && r.value.headers == reply.value.headers && r.value.body == reply.value.body)
  {
    var meta := cache.Get(MetaKey);
    if meta.None? {
      return Err(Missing);
    }
    if !meta.value.Record? {
      return Err(NotRecord);
    }
    var m := meta.value.fields;
    if "content-type" in m && !m["content-type"].Str? {
      return Err(BadContentType);
    }
    var body := CachedBody(m, cache.Get(ContentKey), cache.files);
    if body.Err? {
      return Err(body.error);
    }
    var response := new Response(body.value);
    SetStoredHeaders(response, m);
    EmptyMerge(Shown(m));
    SetupResponseHeaders(response, m);
    r := Ok(response);
  }

  /** The request `_response_web` forwards: same method, the path as URL,
      and the client's headers without the excluded ones. */
  ghost predicate SentFor(req: Request, o: Outbound)
  {
    && o.verb == req.verb && o.url == req.path
    && exists h :: HeadersOf(req.meta, h) && o.headers == ExcludeBy(h, RequestExcludes)
  }

  /** The forwarded request never carries an excluded header, and carries the
      client's `Referer` exactly when the client sent one. */
  lemma SentHeaders(req: Request, o: Outbound)
    requires SentFor(req, o)
    ensures forall i :: 0 <= i < |RequestExcludes| ==> RequestExcludes[i] !in o.headers
    ensures "HTTP_REFERER" in req.meta <==> RefererKey in o.headers
    ensures "HTTP_REFERER" in req.meta ==> o.headers[RefererKey] == req.meta["HTTP_REFERER"]
  {
    var h :| HeadersOf(req.meta, h) && o.headers == ExcludeBy(h, RequestExcludes);
    RefererPassesThrough(req.meta, h);
    assert RefererKey !in RequestExcludes by {
      assert RefererKey[0] == 'R';
      assert forall i :: 0 <= i < |RequestExcludes| ==> RequestExcludes[i][0] != 'R';
    }
  }

  /** The branch that writes the origin's body through to a cache file: an
      image (text takes precedence, and an image is never text). */
  predicate Stores(origin: OriginReply)
  {
    !IsText(origin.headers) && IsCacheable(origin.headers)
  }

  /** The origin headers `copy_headers` is given: in the text branch, without
      `content-length` and `content-encoding`. */
  function Forwarded(origin: OriginReply): map<string, string>
  {
    if IsText(origin.headers) then ExcludeBy(origin.headers, ResponseExcludes) else origin.headers
  }

  /** The client's headers as the proxy holds them after the branch: a
      `stream` entry set to `True` in the storing branch. */
  function LocalHeaders(origin: OriginReply, sent: map<string, string>): map<string, Field>
  {
    if Stores(origin) then Lift(sent)[StreamKey := Flag(true)] else Lift(sent)
  }

  /** The `meta` record a miss writes. */
  function MissMeta(origin: OriginReply, sent: map<string, string>): map<string, Field>
  {
    var local := LocalHeaders(origin, sent);
    Lift(EndToEnd(Forwarded(origin)))[StreamKey := GetOr(local, StreamKey, Flag(false))][RefererKey := GetOr(local, RefererKey, Null)]
  }

  /** The body of a miss. */
  function MissBody(origin: OriginReply): Body
  {
    if IsText(origin.headers) then Buffered(origin.decoded)
    else if IsCacheable(origin.headers) then Streamed(WriteThrough(origin.raw))
    else Streamed(Relay(origin.raw))
  }

  /** The response of a miss that forwarded `sent`. */
  function MissReply(origin: OriginReply, sent: map<string, string>): Reply
  {
    Reply(WithFrameOption(EndToEnd(Forwarded(origin)), LocalHeaders(origin, sent)), MissBody(origin))
  }

  /** The store after a miss in scope `scope`. */
  function MissStore(store: map<string, Value>, scope: string, origin: OriginReply, sent: map<string, string>): map<string, Value>
  {
    var s := if IsText(origin.headers) then AddIfAbsent(store, Colon(scope, ContentKey), Bytes(origin.decoded)) else store;
    AddIfAbsent(s, Colon(scope, MetaKey), Record(MissMeta(origin, sent)))
  }

  /** The `meta` record of a miss holds the end-to-end origin headers (the
      text branch having dropped `content-length` and `content-encoding`),
      the stream flag (`True` in the storing branch, else the client's
      `stream` header or `False`) and the client's `REFERER` (or `None`). */
  lemma MissMetaEntries(origin: OriginReply, sent: map<string, string>)
    ensures var meta := MissMeta(origin, sent);
            && StreamKey in meta && RefererKey in meta
            && meta[StreamKey] == (if Stores(origin) then Flag(true) else GetOr(Lift(sent), StreamKey, Flag(false)))
            && meta[RefererKey] == GetOr(Lift(sent), RefererKey, Null)
            && (forall k :: k in meta && k != StreamKey && k != RefererKey ==>
                  k in origin.headers && !IsHopByHop(k) && meta[k] == Str(origin.headers[k]))
            && (forall k :: k in origin.headers && !IsHopByHop(k) && k != StreamKey && k != RefererKey ==>
                  (k in meta <==> !IsText(origin.headers) || k !in ResponseExcludes))
  {
    assert StreamKey != RefererKey by {
      assert StreamKey[0] != RefererKey[0];
    }
  }

  /** The response of a miss carries every end-to-end header the origin sent
      (but `content-length` and `content-encoding` on text), and its body is
      the decoded text in one piece, the origin's bytes written through to the
      cache (an image), or the origin's bytes relayed. */
  lemma MissReplyShape(origin: OriginReply, sent: map<string, string>)
    ensures var reply := MissReply(origin, sent);
            && (forall k :: k in origin.headers && !IsHopByHop(k) && k != FrameHeader && (!IsText(origin.headers) || k !in ResponseExcludes) ==>
                  k in reply.headers && reply.headers[k] == origin.headers[k])
            && (IsText(origin.headers) ==> reply.body == Buffered(origin.decoded))
            && (Stores(origin) ==> reply.body == Streamed(WriteThrough(origin.raw)))
            && (!IsText(origin.headers) && !Stores(origin) ==> reply.body == Streamed(Relay(origin.raw)))
  {
  }

  /** The request `_response_web` forwards. */
  method Forward(req: Request) returns (sent: Outbound)
    ensures SentFor(req, sent)
  {
    var clientHeaders := GetRequestHeaders(req.meta);
    sent := Outbound(req.verb, req.path, ExcludeBy(clientHeaders, RequestExcludes));
  }

  /** `_response_web`, from the point where the origin has answered. */
  method ResponseWeb(cache: FileCache, req: Request, origin: OriginReply) returns (resp: Response, sent: Outbound)
    modifies cache`store
    ensures fresh(resp)
    ensures SentFor(req, sent)
    ensures resp.headers == MissReply(origin, sent.headers).headers && resp.body == MissReply(origin, sent.headers).body
    ensures cache.store == MissStore(old(cache.store), cache.scope, origin, sent.headers)
  {
    sent := Forward(req);
    var local := Lift(sent.headers);
    var responseHeaders := origin.headers;
    if IsText(origin.headers) {
      responseHeaders := ExcludeBy(origin.headers, ResponseExcludes);
      resp := new Response(Buffered(origin.decoded));
      cache.Set(ContentKey, Bytes(origin.decoded));
    } else if IsCacheable(origin.headers) {
      resp := new Response(Streamed(WriteThrough(origin.raw)));
      local := local[StreamKey := Flag(true)];
    } else {
      resp := new Response(Streamed(Relay(origin.raw)));
    }
    var headers := CopyHeaders(responseHeaders, resp);
    EmptyMerge(headers);
    var meta := Lift(headers)[StreamKey := GetOr(local, StreamKey, Flag(false))][RefererKey := GetOr(local, RefererKey, Null)];
    cache.Set(MetaKey, Record(meta));
    SetupResponseHeaders(resp, local);
  }

  /** The stored entry under `name` in scope `scope`. */
  function Lookup(store: map<string, Value>, scope: string, name: string): (r: Option<Value>)
    ensures r.Some? <==> Colon(scope, name) in store
    ensures r.Some? ==> r.value == store[Colon(scope, name)]
  {
    if Colon(scope, name) in store then Some(store[Colon(scope, name)]) else None
  }

  /** A request is served from the cache when both entries exist and
      `_response_cache` does not raise. */
  function HitReply(store: map<string, Value>, scope: string, files: map<string, seq<byte>>): (r: Result<Reply, Fault>)
    ensures r.Ok? ==> Colon(scope, MetaKey) in store && Colon(scope, ContentKey) in store
  {
    if Colon(scope, MetaKey) in store && Colon(scope, ContentKey) in store
    then CachedReply(Lookup(store, scope, MetaKey), Lookup(store, scope, ContentKey), files)
    else Err(Missing)
  }

  /** `process_request`: selects the scope of the request, answers from the
      cache when both entries exist and reading them does not raise, and
      otherwise asks the origin (whose reply is `origin`). */
  method ProcessRequest(cache: FileCache, req: Request, origin: OriginReply) returns (resp: Response, sent: Option<Outbound>)
    modifies cache`scope, cache`store
    ensures cache.scope == cache.digest(ScopeKey(req))
    ensures fresh(resp)
    ensures var hit := HitReply(old(cache.store), cache.scope, cache.files);
            if hit.Ok? then
              sent.None? && cache.store == old(cache.store) && resp.headers == hit.value.headers && resp.body == hit.value.body
            else
              && sent.Some? && SentFor(req, sent.value)
              && cache.store == MissStore(old(cache.store), cache.scope, origin, sent.value.headers)
              && resp.headers == MissReply(origin, sent.value.headers).headers
              && resp.body == MissReply(origin, sent.value.headers).body
  {
    cache.SetScope(ScopeKey(req));
    if cache.HasKey(MetaKey) && cache.HasKey(ContentKey) {
      var r := ResponseCache(cache);
      if r.Ok? {
        resp, sent := r.value, None;
        return;
      }
    }
    var o;
    resp, o := ResponseWeb(cache, req, origin);
    sent := Some(o);
  }

  /** The bytes a streamed body is read from. */
  function SourceData(s: Source): seq<byte>
  {
    match s
    case FileSource(_, d) => d
    case MemorySource(d) => d
    case Relay(d) => d
    case WriteThrough(d) => d
  }

  /** The server draining a streamed body: the consumer takes up to `demand`
      chunks, the i-th read taking `clock(i)` seconds; reads from the origin
      are bounded by `limit`, cached bytes and files are read in full. A
      written-through body is `iter_set_stream` over the origin's bytes. */
  method Serve(cache: FileCache, source: Source, demand: nat, clock: nat -> real, limit: nat -> nat)
    returns (chunks: seq<seq<byte>>, tmp: Option<string>)
    modifies cache`store, cache`files
    ensures Reader.Concat(chunks) <= SourceData(source)
    ensures forall i :: 0 <= i < |chunks| ==> 1 <= |chunks[i]| <= Reader.MaxBlock
    ensures |chunks| <= demand
    ensures (source.FileSource? || source.MemorySource?) && |chunks| < demand ==> Reader.Concat(chunks) == SourceData(source)
    ensures (forall i :: limit(i) > 0) && |chunks| < demand ==> Reader.Concat(chunks) == SourceData(source)
    ensures !source.WriteThrough? ==> tmp.None? && cache.store == old(cache.store) && cache.files == old(cache.files)
    ensures source.WriteThrough? ==> (demand == 0 <==> tmp.None?)
    ensures tmp.Some? ==> tmp.value !in old(cache.files) && InContentDir(cache.streamDir, tmp.value)
    ensures tmp.Some? ==> cache.files == old(cache.files)[tmp.value := Reader.Concat(chunks)]
    ensures tmp.Some? ==> cache.store == AddIfAbsent(old(cache.store), cache.Join(ContentKey), Record(StreamRecord(map[], tmp.value)))
  {
    var data := SourceData(source);
    if source.WriteThrough? {
      var src := new Reader.ByteSource(data, limit);
      chunks, tmp := cache.IterSetStream(src, map[], demand, clock);
    } else {
      var src := new Reader.ByteSource(data, if source.Relay? then limit else Reader.FullReads);
      var reader := new Reader.ChunkReader(src);
      chunks := Reader.Take(reader, demand, clock);
      tmp := None;
    }
  }

  // Properties of the whole request cycle.

  /** A text reply is served from the cache the next time: its body is the
      decoded body the origin sent, and it keeps the content type. */
  lemma TextMissThenHit(store: map<string, Value>, scope: string, origin: OriginReply, sent: map<string, string>,
                        files: map<string, seq<byte>>)
    requires IsText(origin.headers)
    requires Colon(scope, MetaKey) !in store && Colon(scope, ContentKey) !in store
    ensures var hit := HitReply(MissStore(store, scope, origin, sent), scope, files);
            && hit.Ok? && hit.value.body == Buffered(origin.decoded)
            && ("content-type" in origin.headers ==>
                  "content-type" in hit.value.headers && hit.value.headers["content-type"] == origin.headers["content-type"])
  {
    var after := MissStore(store, scope, origin, sent);
    var meta := MissMeta(origin, sent);
    ContentTypeKept(origin, sent);
    MetaAndContentKeysDiffer(scope);
    assert Lookup(after, scope, MetaKey) == Some(Record(meta));
    assert Lookup(after, scope, ContentKey) == Some(Bytes(origin.decoded));
    assert IsText(TextFields(meta));
  }

  /** An image reply whose stream was drained is served from its cache file
      the next time. */
  lemma StoredImageThenHit(store: map<string, Value>, scope: string, origin: OriginReply, sent: map<string, string>,
                           files: map<string, seq<byte>>, tmp: string)
    requires IsCacheable(origin.headers)
    requires Colon(scope, MetaKey) !in store && Colon(scope, ContentKey) !in store
    requires tmp in files
    ensures var after := AddIfAbsent(MissStore(store, scope, origin, sent), Colon(scope, ContentKey), Record(StreamRecord(map[], tmp)));
            var hit := HitReply(after, scope, files);
            hit.Ok? && hit.value.body == Streamed(FileSource(tmp, files[tmp]))
  {
    ImageIsNotText(ContentType(origin.headers));
    var meta := MissMeta(origin, sent);
    ContentTypeKept(origin, sent);
    MetaAndContentKeysDiffer(scope);
    var after := AddIfAbsent(MissStore(store, scope, origin, sent), Colon(scope, ContentKey), Record(StreamRecord(map[], tmp)));
    assert Lookup(after, scope, MetaKey) == Some(Record(meta));
    assert Lookup(after, scope, ContentKey) == Some(Record(StreamRecord(map[], tmp)));
    assert !IsText(TextFields(meta));
    assert IsFileObj(meta);
  }

  /** A reply that is neither text nor an image is never stored: the next
      request for it misses again. */
  lemma RelayedMissStaysMiss(store: map<string, Value>, scope: string, origin: OriginReply, sent: map<string, string>,
                             files: map<string, seq<byte>>)
    requires !IsText(origin.headers) && !IsCacheable(origin.headers)
    requires Colon(scope, ContentKey) !in store
    ensures Colon(scope, ContentKey) !in MissStore(store, scope, origin, sent)
    ensures HitReply(MissStore(store, scope, origin, sent), scope, files).Err?
  {
    MetaAndContentKeysDiffer(scope);
  }

  /** Every miss leaves a `meta` record; a new one carries the stream flag
      (set by the storing branch, otherwise taken from the client's headers)
      and the client's `REFERER`. The text branch also leaves the body. */
  lemma MissWritesMeta(store: map<string, Value>, scope: string, origin: OriginReply, sent: map<string, string>)
    ensures var after := MissStore(store, scope, origin, sent);
            && Colon(scope, MetaKey) in after
            && (Colon(scope, MetaKey) !in store ==> after[Colon(scope, MetaKey)] == Record(MissMeta(origin, sent)))
            && (IsText(origin.headers) && Colon(scope, ContentKey) !in store ==> after[Colon(scope, ContentKey)] == Bytes(origin.decoded))
            && (!IsText(origin.headers) ==> (Colon(scope, ContentKey) in after <==> Colon(scope, ContentKey) in store))
    ensures StreamKey !in sent ==> MissMeta(origin, sent)[StreamKey] == Flag(Stores(origin))
    ensures MissMeta(origin, sent)[RefererKey] == (if RefererKey in sent then Str(sent[RefererKey]) else Null)
  {
    MetaAndContentKeysDiffer(scope);
  }

  /** An image whose origin sent a header named `path` gets a `meta` record
      that `_delete` takes for a file-backed record naming that path. */
  lemma OriginPathReachesMeta(origin: OriginReply, sent: map<string, string>)
    requires IsCacheable(origin.headers) && FilePathKey in origin.headers
    ensures BackingFile(Some(Record(MissMeta(origin, sent)))) == Some(Str(origin.headers[FilePathKey]))
  {
    ImageIsNotText(ContentType(origin.headers));
    PathIsEndToEnd();
    var meta := MissMeta(origin, sent);
    assert meta[StreamKey] == Flag(true);
    assert meta[FilePathKey] == Str(origin.headers[FilePathKey]);
  }

  /** `path` is an end-to-end header name, distinct from the two entries a
      miss adds to its `meta` record. */
  lemma PathIsEndToEnd()
    ensures !IsHopByHop(FilePathKey) && FilePathKey != StreamKey && FilePathKey != RefererKey
  {
    var p := FilePathKey;
    assert Lower(p) == p;
    assert p !in HopByHop by {
      assert p[0] == 'p' && |p| == 4;
      assert forall i :: 0 <= i < |HopByHop| ==> HopByHop[i][0] != 'p' || |HopByHop[i]| != 4;
    }
    assert p[0] != StreamKey[0] && p[0] != RefererKey[0];
  }

  /** The meta and content entries of one scope are distinct keys. */
  lemma MetaAndContentKeysDiffer(scope: string)
    ensures Colon(scope, MetaKey) != Colon(scope, ContentKey)
  {
    assert Colon(scope, MetaKey)[|scope| + 1] == 'm';
    assert Colon(scope, ContentKey)[|scope| + 1] == 'c';
  }

  /** A miss copies the origin's content type into the `meta` record. */
  lemma ContentTypeKept(origin: OriginReply, sent: map<string, string>)
    ensures var meta := MissMeta(origin, sent);
            && ("content-type" in meta <==> "content-type" in origin.headers)
            && ("content-type" in meta ==> meta["content-type"] == Str(origin.headers["content-type"]))
            && ContentType(TextFields(meta)) == ContentType(origin.headers)
  {
    var ct := "content-type";
    assert Lower(ct) == ct;
    assert ct !in HopByHop by {
      assert ct[0] == 'c' && |ct| == 12;
      assert forall i :: 0 <= i < |HopByHop| ==> HopByHop[i][0] != 'c' || |HopByHop[i]| != 12;
    }
    assert ct !in ResponseExcludes by {
      assert ct[8] == 't';
      assert forall i :: 0 <= i < |ResponseExcludes| ==> |ResponseExcludes[i]| < 9 || ResponseExcludes[i][8] != 't';
    }
    assert ct != StreamKey && ct != RefererKey by {
      assert ct[0] != StreamKey[0] && ct[0] != RefererKey[0];
    }
  }

  /** An image fetched into an empty scope and streamed to the end by a
      server whose origin reads never stall is served from the cache file
      the next time, with exactly the bytes the origin sent. */
  method ImageRoundTrip(cache: FileCache, req: Request, origin: OriginReply, clock: nat -> real, limit: nat -> nat)
    returns (hit: Result<Reply, Fault>)
    requires IsCacheable(origin.headers)
    requires forall i :: limit(i) > 0
    requires Colon(cache.digest(ScopeKey(req)), MetaKey) !in cache.store
    requires Colon(cache.digest(ScopeKey(req)), ContentKey) !in cache.store
    modifies cache`scope, cache`store, cache`files
    ensures hit == HitReply(cache.store, cache.scope, cache.files)
    ensures hit.Ok? && hit.value.body.Streamed? && hit.value.body.source.FileSource?
    ensures hit.value.body.source.data == origin.raw
  {
    ghost var before := cache.store;
    var resp, sent := ProcessRequest(cache, req, origin);
    ImageIsNotText(ContentType(origin.headers));
    assert resp.body == Streamed(WriteThrough(origin.raw));
    var chunks, tmp := Serve(cache, resp.body.source, |origin.raw| + 1, clock, limit);
    Reader.ConcatLength(chunks);
    StoredImageThenHit(before, cache.scope, origin, sent.value.headers, cache.files, tmp.value);
    hit := HitReply(cache.store, cache.scope, cache.files);
  }
}
