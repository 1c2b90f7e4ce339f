# proxyme cache core, modelled in Dafny

proxyme is a Django caching proxy. For every request it computes a scope
from the method and path. It answers from a file-based cache when both the
`meta` and the `content` entries of that scope exist. Otherwise it forwards
the request to the origin, relays the reply, and stores what is worth
storing:

- text replies are stored inline;
- images are written through to a temporary file while they stream, then
  recorded as `{stream: True, path: <file>}`;
- everything else is relayed and never stored.

Streams are read by an adaptive reader. Each read size is derived from
the throughput of the previous read.

The model has seven modules. Each is one file:

- `Values` (values.dfy): bytes, `Option`/`Result`/`Outcome`, and the Python values the cache
  records hold (strings, booleans and `None`), with Python truthiness and `str()`.
- `Text` (text.dfy): ASCII lower-casing (`re.I`), and the tail that a `.*$` pattern
  accepts. Also `a + ":" + b`, the form of both the scope key and the store key.
- `Reader` (reader.dfy): `Iterator` and `best_block_size`. The reader is a class with a
  mutable read size over a byte-source object. `Take` drives it for a consumer
  that takes a given number of chunks.
- `Store` (store.dfy): `FileBasedCache` as a class. The parent key/value
  store is a `map` field, and the filesystem is a `map` from path to bytes. The scope can be
  changed. The temporary file of a written-through stream is given its bytes once,
  when the generator closes.
- `Classifier` (classifier.dfy): the `SmartCache` predicates. They are pure functions of a
  header map.
- `HttpUtils` (utils.dfy): `filter_by`, `get_request_headers`, `get_absolute_url`
  and `get_request_absolute_url`. `filter_by` and `get_request_headers` are loops;
  `get_absolute_url` builds the URL step by step.
- `Proxy` (proxy.dfy): `ProxyRequest`, from the point where the origin has answered. It
  covers the hit/miss test, the choice of body on a hit, and the cache writes on a miss.
  It also covers hop-by-hop filtering and `X-Frame-Options`. The response is an object
  whose headers are set one by one. A further method, `Serve`, models a server draining
  a streamed body (this is what commits a written-through image).

Inputs the source reads from its environment are parameters here:

| Input | Where it comes from in the model |
|---|---|
| the origin's reply | `OriginReply`: headers, raw bytes, decoded bytes |
| `utils.get_path(request)` | `Request.path` |
| `hashlib.md5(utils.ascii(.))` | `FileCache.digest` |
| `os.environ` and `request.META` | maps |
| the time each read takes | `clock` |
| the origin's short reads | `ByteSource.limit` |
| paths whose removal fails with an error other than ENOENT | `FileCache.denied` |
| `tempfile`'s choice of name | `Store.FreshName`, a name that no existing file has |

`utils.exclude_by` is called but not defined in proxy/utils.py. It is taken
to drop exactly the listed keys and keep the rest unchanged (`HttpUtils.ExcludeBy`).
This is an assumption.

A stream whose consumer stops early still commits its record. One might
expect an abandoned stream to commit nothing and leave the scope a miss. But
the `finally` block of `iter_set_stream` adds the record whenever the
generator is closed, so a truncated file is committed. The model follows the
code: `Store.FileCache.IterSetStream` adds the record for any `demand > 0`,
whatever number of chunks was read. A generator that is never started
(`demand == 0`) runs no `finally` and commits nothing.

## Model

| member | source | states |
|---|---|---|
| Reader.BestBlockSize | proxy/cache/backend.py:39-50 | For chunks of at most 8 MiB the next size lies in [1, 4 MiB]. Below a millisecond it is exactly min(max(2·bytes, 1), 4 MiB). It is never below max(bytes/2, 1) and never above the doubling cap, and between those limits it is the floor of the observed rate. |
| Reader.BlockSizeClamps | proxy/cache/backend.py:45-49 | A rate above the doubling cap gives exactly that cap. For chunks of at most 8 MiB, a rate below the halving limit gives exactly max(bytes/2, 1). |
| Reader.ChunkReader.constructor | proxy/cache/backend.py:28 | The first read asks for 1024 bytes, and the reader starts unfinished. |
| Reader.ChunkReader.Next | proxy/cache/backend.py:29-36 | One generator step. A non-empty read of at most the current size is yielded, and the bytes it removes from the source are exactly the chunk. The next size is fed back from the elapsed time and the chunk length, and it stays in [1, 4 MiB]. An empty read ends the reader and consumes nothing. |
| Reader.ByteSource.Read | proxy/cache/backend.py:31 | `read(n)` returns a prefix of the remaining bytes, at most `n` long and bounded by the source's limit for this call. The rest is what remains after it. |
| Reader.Take | proxy/cache/backend.py:27-37 | The yielded chunks, concatenated, are exactly the bytes read from the source, and each chunk is 1 to 4 MiB long. Fewer chunks than demanded means the reader ended, at the end of the source or on a stalled read. An empty source yields nothing. |
| Store.AddIfAbsent | proxy/cache/backend.py:87-88 | The parent store's `add`: the key ends up present, holding its old value if it had one and the new value otherwise. Every other key is unchanged. |
| Store.FirstWriterWins | proxy/cache/backend.py:87-88 | A second add to the same key changes nothing: the first writer wins. |
| Store.BackingFile | proxy/cache/backend.py:128 | A stored value names a file to remove exactly when it is a dictionary with a truthy `stream` entry and a `path` entry. |
| Store.RemovePath | proxy/cache/backend.py:103-111 | Removal succeeds exactly for a string path that is not denied. A missing file is not an error. Only that path disappears, and other files keep their bytes. |
| Store.InlineBytes | proxy/middleware.py:118-119 | What `HttpResponse` is given on a text hit: the stored bytes. A missing entry or a dictionary is a fault. |
| Store.StringIOBytes | proxy/cache/backend.py:93-95 | What `StringIO` reads in `iter`: the stored bytes, or `str(None)` for a missing entry. Only a dictionary is a fault. |
| Store.FileBacked | proxy/cache/backend.py:97-98 | What `iter_fileobj` opens: it succeeds exactly when the entry is a dictionary whose `path` is a string naming an existing file, and yields that file's bytes. |
| Store.FreshName | proxy/cache/backend.py:139 | The new temporary name is used by no existing file and lies directly inside the content directory. |
| Store.FileCache.constructor | proxy/cache/backend.py:63-72 | The scope is the digest of the initial scope name, and the content directory is `<dir>/djfiles`. |
| Store.FileCache.SetScope | proxy/cache/backend.py:74-75 | `__call__`: the scope becomes the digest of the new name. |
| Store.FileCache.Get | proxy/cache/backend.py:84-85 | `__getitem__` finds a value exactly when `has_key` holds, and it is the value stored under `scope:name`. |
| Store.FileCache.Add | proxy/cache/backend.py:88 | It reports whether the key was absent, and the store is the add-if-absent update. |
| Store.FileCache.Set | proxy/cache/backend.py:87-88 | `__setitem__` is an add under `scope:name`. A present value is never overwritten, and `Get` afterwards sees the old value or the new one. |
| Store.FileCache.Iter | proxy/cache/backend.py:93-95 | It fails exactly when the entry is a dictionary. Otherwise it returns a fresh reader that reads in full, over the stored bytes, or over `None` when the entry is missing. |
| Store.FileCache.Join | proxy/cache/backend.py:81-82 | The store key is the scope, one colon, then the name. |
| Store.FileCache.HasKey | proxy/cache/backend.py:90-91 | True exactly when the key `scope:name` is stored. |
| Store.FileCache.IterFileObj | proxy/cache/backend.py:97-98 | It fails exactly when the record names no existing file. Otherwise it returns a fresh reader over that file's bytes. |
| Store.FileCache.HasFileObj | proxy/cache/backend.py:100-101 | True exactly when the record's file exists. It is false, not an error, for a path that names no file, and it raises for a missing entry, a non-dictionary, no `path`, or a `path` that is not a string. |
| Store.FileCache.RemoveFilePath | proxy/cache/backend.py:103-111 | It removes the path or reports the error, and leaves the files unchanged on error. |
| Store.FileCache.Delete | proxy/cache/backend.py:125-131 | `_delete`, corrected (see Findings). The entry and its own backing file in the content directory go. On a removal error other than ENOENT, nothing changes and the error propagates. |
| Store.FileCache.Clear | proxy/cache/backend.py:133-136 | The store becomes empty, so no name is found in any scope. Every file under the content directory goes, and no other file. |
| Store.FileCache.IterSetStream | proxy/cache/backend.py:138-153 | The relayed chunks are the source's bytes in order. The new temporary file holds exactly their concatenation. The `finally` block adds `{stream: True, path: <temp>}` under the scoped content key, with add-if-absent, whether the stream ended or the consumer stopped. An unstarted generator changes nothing. |
| Store.StreamRecord | proxy/cache/backend.py:148-151 | The committed record has `stream` set to True and `path` set to the temporary name, and it keeps every other keyword entry. |
| Store.StreamRecordIsFileBacked | proxy/cache/backend.py:125-151 | A committed record is one that `_delete` treats as file-backed, and `iter_fileobj` opens its file. |
| Store.OwnBackingFile | proxy/cache/backend.py:128 | The file the corrected `_delete` removes: a backing file only when it lies in the content directory. |
| Store.DeleteCorrected | proxy/cache/backend.py:125-131 | Deleting any entry keeps every file outside the content directory, with its bytes. |
| Store.DeleteRemovesAnyPath | proxy/cache/backend.py:125-131 | As written, a cached image's `meta` record with an origin `path` header removes that file, wherever it is. Corrected, it keeps every file. |
| Store.DeleteRemovesOwnFile | proxy/cache/backend.py:125-131 | Corrected, deleting a committed stream record still removes its own temporary file and nothing else. |
| Store.DeleteAsWritten | proxy/cache/backend.py:125-131 | `_delete` as written. It fails exactly when the entry names a backing file that is no string or cannot be removed. Otherwise exactly that path, wherever it is, leaves the files, and every other file keeps its bytes. |
| Classifier.ContentType | proxy/middleware.py:24-26 | The exact `content-type` entry, defaulting to the empty string. |
| Classifier.TransferEncoding | proxy/middleware.py:28-30 | The exact `transfer-encoding` entry, defaulting to the empty string. |
| Classifier.IsTextType | proxy/middleware.py:52-54 | An empty content type is text. |
| Classifier.IsText | proxy/middleware.py:52-54 | A missing or empty content type classifies as text. |
| Classifier.IsImage | proxy/middleware.py:32-34 | True exactly when a `content-type` header is present and starts with `image`. |
| Classifier.IsChunked | proxy/middleware.py:36-38 | True exactly when the `transfer-encoding` header is present and is `chunked`. |
| Classifier.IsApplication | proxy/middleware.py:44-46 | True exactly when a `content-type` header is present and starts with `application/octet-stream` or `application/x-shockwave`, or is `font` followed by one line. |
| Classifier.IsMedia | proxy/middleware.py:48-50 | True exactly when a `content-type` header is present and is `video/` or `audio/` followed by one line. |
| Classifier.IsIterable | proxy/middleware.py:56-57 | `is_iterable` holds when the reply is chunked or has an image, application or media type. Without a `content-type` header, it holds exactly when the reply is chunked. The proxy chooses its bodies by the text and image tests and never consults it. A chunked reply without a type is text and is buffered. |
| Classifier.IsCacheable | proxy/middleware.py:56-60 | `is_cacheable` holds exactly when `is_image` does, and it implies `is_iterable`. |
| Classifier.TextIgnoresCase | proxy/middleware.py:17-54 | The text test gives the same answer for a type and its lower-cased form. |
| Classifier.BinaryTestsKeepCase | proxy/middleware.py:16-50 | A type starting with a capital letter passes none of the image, media and application tests. |
| Classifier.OtherTestsKeepCase | proxy/middleware.py:16-50 | The image, media and `font` tests accept the lower-case prefix and reject a capitalised one, while the text test accepts `Text/HTML`. |
| Classifier.ImageIsNotText | proxy/middleware.py:17-34 | No image type matches the text pattern, so the storing branch of a miss is reachable. |
| Classifier.CapitalisedHeaderIsText | proxy/middleware.py:24-26 | The header is looked up under the exact key: `Content-Type: image/png` classifies as text, and as neither cacheable nor iterable. |
| Values.Show | proxy/middleware.py:126-127 | `str()` of a stored field: a string is itself, and a truthy field never shows as empty. |
| Values.Lift | proxy/middleware.py:164-168 | A string map as a record: the same keys, each value a string field. |
| Text.Colon | proxy/cache/backend.py:81-82 | The joined key is the first part, one colon, then the second part. |
| Text.ColonInjective | proxy/cache/backend.py:81-82 | When the first part holds no colon, two equal keys have equal parts. |
| HttpUtils.FilterBy | proxy/utils.py:61-66 | Exactly the listed keys present in `items`, each with its value from `items`. |
| HttpUtils.ExcludeBy | proxy/middleware.py:137 | Assumed meaning: exactly the keys not listed, with their values. |
| HttpUtils.FilterExcludeSplit | proxy/utils.py:61-66 | Filtering and excluding by the same list split a map into two disjoint halves whose union is the map. |
| HttpUtils.Kept | proxy/utils.py:43-52 | Every `HTTP_` key with a non-empty rest and no line break is kept. A kept key not starting with `HTTP_` is `CONTENT_TYPE` or `CONTENT_LENGTH`, allowing one final line break. |
| HttpUtils.HeaderName | proxy/utils.py:54-55 | A leading `HTTP_` is removed and each `_` becomes `-`, so no `_` is left. |
| HttpUtils.GetRequestHeaders | proxy/utils.py:41-58 | The names are exactly the renamed META keys matching `^HTTP_.+$`, `^CONTENT_TYPE$` or `^CONTENT_LENGTH$`. Each value is that of a key with that name. |
| HttpUtils.OnlyRefererKeyNamesReferer | proxy/utils.py:43-57 | Only the META key `HTTP_REFERER` is renamed to `REFERER`. |
| HttpUtils.RefererPassesThrough | proxy/utils.py:41-58 | The headers contain `REFERER` exactly when META has `HTTP_REFERER`, with its value unchanged. |
| HttpUtils.ClientHeaderNames | proxy/utils.py:43-57 | `HTTP_USER_AGENT` becomes `USER-AGENT` and `CONTENT_TYPE` becomes `CONTENT-TYPE`. `HTTP_`, `SERVER_NAME` and a key with an inner line break are not kept. |
| HttpUtils.HostPart | proxy/utils.py:13-22 | `HTTP_HOST` when it is non-empty, else `SERVER_NAME`, defaulting to `localhost`. |
| HttpUtils.AbsoluteUrl | proxy/utils.py:8-30 | The step-by-step URL equals scheme, `://`, host, then the port suffix unless the port is the scheme's default. |
| HttpUtils.PortShownUnlessDefault | proxy/utils.py:24-29 | `:port` is appended exactly when the port is not 443 under https, or not 80 under any other scheme. |
| HttpUtils.EmptyEnvironmentUrl | proxy/utils.py:12-30 | With an empty environment the URL is `http://localhost:8000`. |
| HttpUtils.RequestAbsoluteUrl | proxy/utils.py:33-38 | It succeeds exactly when `SERVER_NAME`, `REQUEST_URI` and `wsgi.url_scheme` are all present, giving `scheme://server` + uri. Otherwise the `KeyError` names the first missing key, in the order `SERVER_NAME`, `REQUEST_URI`, `wsgi.url_scheme`. |
| Proxy.ScopeKey | proxy/middleware.py:94-96 | The scope key is `method:path`. |
| Proxy.ScopeKeysDiffer | proxy/middleware.py:94-96 | Requests differing in method or path get different scope keys, when methods hold no colon. |
| Proxy.EndToEnd | proxy/middleware.py:68-78 | The kept headers are exactly those whose lower-cased name is not hop-by-hop, with their values unchanged. |
| Proxy.HopByHopIgnoresCase | proxy/middleware.py:68-78 | `Transfer-Encoding` is dropped although it is capitalised. |
| Proxy.CopyHeaders | proxy/middleware.py:179-186 | The returned set is exactly the end-to-end headers, every one of them is set on the response, and nothing else changes. |
| Proxy.FrameOption | proxy/middleware.py:174-177 | A value exists exactly when `REFERER` is present and truthy, and it is `ALLOW-FROM ` + str(REFERER). |
| Proxy.WithFrameOption | proxy/middleware.py:174-177 | `X-Frame-Options` is set to that value when it exists. Otherwise the headers are unchanged. |
| Proxy.SetupResponseHeaders | proxy/middleware.py:173-177 | The response's headers are updated in that way, and nothing else changes. |
| Proxy.TextFields | proxy/middleware.py:116 | The string entries of a stored record, which the classifier reads; every other entry is dropped. |
| Proxy.Shown | proxy/middleware.py:126-127 | Each stored header becomes a response header holding its `str()`. |
| Proxy.CachedReply | proxy/middleware.py:113-130 | A cache answer requires a dictionary `meta`. Its headers are every stored header as a string, plus the frame option. A text answer has the stored bytes as its body. Otherwise a truthy `stream` flag streams the file the content record names, which must exist. Without that flag the stored bytes are streamed, or the bytes of `None` when `content` is missing. It succeeds exactly when `meta` is a dictionary whose `content-type`, if any, is a string, and the body of the chosen branch can be read. |
| Proxy.IsFileObj | proxy/middleware.py:40-42 | True exactly when the record has a truthy `stream` entry. |
| Proxy.SetStoredHeaders | proxy/middleware.py:126-127 | Every stored header is set on the response as a string, over whatever it already held. Nothing else changes. |
| Proxy.ResponseCache | proxy/middleware.py:113-130 | It raises exactly when the cache answer has no value, with that fault. Otherwise the new response has the cache answer's headers and body. |
| Proxy.SentHeaders | proxy/middleware.py:80-137 | The forwarded request never carries `CONTENT-LENGTH`, `IF-MODIFIED-SINCE`, `IF-NONE-MATCH` or `HOST`. It carries the client's `REFERER` exactly when the client sent one. |
| Proxy.MissMetaEntries | proxy/middleware.py:149-168 | The `meta` record of a miss holds the origin's end-to-end headers (the text branch drops `content-length` and `content-encoding`). Its `stream` flag is True in the storing branch, and otherwise the client's `stream` header or False. `REFERER` is the client's, or None. |
| Proxy.MissReplyShape | proxy/middleware.py:149-171 | A miss response carries every end-to-end origin header with its value (other than `X-Frame-Options`, and on text other than `content-length` and `content-encoding`). Its body is the decoded text for text, a write-through stream for an image, and a relay otherwise. |
| Proxy.Forward | proxy/middleware.py:136-141 | The forwarded request has the same method, the path as its URL, and the client's headers less the excluded ones. |
| Proxy.ResponseWeb | proxy/middleware.py:132-171 | The response and the store after a miss: text adds its body under `content`, every branch adds `meta`, and no other key is written. |
| Proxy.Lookup | proxy/cache/backend.py:84-85 | The value stored under `scope:name`, if any. |
| Proxy.HitReply | proxy/middleware.py:101-104 | A hit requires both the `meta` and the `content` entry. |
| Proxy.ProcessRequest | proxy/middleware.py:98-111 | The scope becomes the digest of `method:path`. When both entries exist and reading them does not raise, the cached answer is served, nothing is forwarded, and the store is unchanged. Otherwise, including when reading raises, the miss path runs. |
| Proxy.Serve | proxy/cache/backend.py:138-153 | Draining a streamed body yields a prefix of its bytes. A file or cached body consumed to the end yields all of it, and so does a relayed or written-through body whose origin reads never stall. Only a written-through body changes the cache: it commits its temporary file and record. |
| Proxy.TextMissThenHit | proxy/middleware.py:113-168 | After a text miss in an empty scope, the next request is a hit. It answers the decoded body in one piece, with the same content type. |
| Proxy.StoredImageThenHit | proxy/middleware.py:121-168 | After an image miss whose stream was drained, the next request is a hit streamed from the committed file. |
| Proxy.ImageRoundTrip | proxy/middleware.py:98-168 | An image miss in an empty scope, streamed to the end with no stalled read, is followed by a hit that streams exactly the origin's bytes from the cache file. |
| Proxy.RelayedMissStaysMiss | proxy/middleware.py:101-168 | A reply that is neither text nor an image never writes `content`, so the next request misses again. |
| Proxy.MissWritesMeta | proxy/middleware.py:149-168 | Every miss leaves a `meta` entry (the first writer's record). Text also leaves its body under `content`, and other branches leave `content` as it was. |
| Proxy.OriginPathReachesMeta | proxy/middleware.py:158-168 | An image whose origin sent a `path` header gets a `meta` record that `_delete` takes for a file-backed record naming that path. |
| Proxy.PathIsEndToEnd | proxy/middleware.py:68-78 | `path` is not a hop-by-hop header, so `copy_headers` keeps it, and it is neither `stream` nor `REFERER`. |
| Proxy.MetaAndContentKeysDiffer | proxy/cache/backend.py:81-82 | The `meta` and `content` entries of one scope are different store keys. |
| Proxy.ContentTypeKept | proxy/middleware.py:149-168 | A miss copies the origin's `content-type` into `meta` unchanged, so the hit classifies the reply the same way. |

## Left out

- Network: the `requests` session, redirects, proxies and the request body (`request.POST`) are not modelled. The origin's reply is an input.
- Django response objects: the default `Content-Type` that `HttpResponse` adds, the case-insensitive header lookup of a response, and how a buffered body is written out. Response headers are a map with exact keys.
- The content bytes of a hit are read when the response is built. `Iterator(open(path))` reads the file later, when the body is served.
- When cached content that should be bytes is a dictionary, `HttpResponse(dict)` and `StringIO(dict)` accept it in Python and serve its keys or its `str()`. The model reports a fault instead. That fault makes `process_request` fall back to the origin.
- The Django parent store: expiry, culling, filename hashing, versions, pickle and zlib, and the compatibility double read of `get_content`. The store is a map, and `_delete` is given a store key rather than a cache file name.
- The constructor's `os.makedirs` of the content directory. The filesystem is a map and directories are not modelled. `Clear` removes the files under the content directory, which stands for `shutil.rmtree`.
- `get_cache(..., scope=...)` builds a new cache object per request. The model re-scopes one `FileCache` with `SetScope`. This has the same effect on keys as long as nothing re-scopes the cache between a miss and the draining of its stream: `Proxy.Serve` commits under the scope current when it runs, while the source's generator keeps its own per-request cache object.
- Timing: `time.time()` is the `clock` parameter, and float rounding in `best_block_size` is not modelled (real arithmetic with `Floor`).
- Store.FirstWriterWins: this models the add-if-absent the parent store promises. Django's file-based `add` tests `self.has_key(key)`, which this class overrides to join the scope again, so as dispatched it would test `scope:scope:name` and overwrite. Likewise the parent's `clear` and culling dispatch to the overridden `_delete`. The parent's code is not part of this model, and this dispatch is not modelled.
- Concurrency: races between processes on `add` and on files are not modelled. The model is single-threaded add-if-absent.
- Logging: `print(e)` in `process_request` is not modelled.
- Store.InlineBytes: `HttpResponse(None)` on a missing `content` entry is a fault in the model. Django would serve the text `None`. This case cannot be reached from `process_request`, which checks `has_key` first.
- Store.FileCache.Iter: a dictionary entry is a fault. Python 2's `StringIO` would read its `str()`, whose order depends on the dictionary.
- `SmartCache(cache, **headers)` raises `TypeError` when the origin's headers, or a stored record, hold a key named exactly `cache` or `self`. It collides with a parameter of `__init__`. The model classifies every header map, so `Proxy.ResponseWeb` cannot fail this way. In the source, that miss raises out of `process_request`.
- A read that raises inside `iter_set_stream` still runs its `finally` block. The record of the partial file is committed and the error reaches the consumer. `Reader.ByteSource.Read` cannot fail in the model: a stalled read is a read that returns nothing.
- `_response_web` returns a streamed response over `req.raw` after `with closing(...)` has closed `req`. Depending on the library version, later reads may return nothing. A written-through image would then commit an empty file. The model can express this, as a source whose `limit(0)` is 0, but it does not decide which happens.
- Reader.ChunkReader.Next: a read of size 0 cannot happen, because the size stays in [1, 4 MiB]. The code's `and counter` guard therefore never matters.
- Store.FileCache.IterSetStream: the file is given its bytes once, when the generator closes, rather than chunk by chunk. Nothing reads it earlier.
- HttpUtils.GetRequestHeaders: which value wins when two META keys rename to the same name depends on dictionary order. The contract says only that it is one of them.
- `utils.get_path` and `utils.ascii` are not part of this model. The path is an input, and `ascii` is folded into the opaque digest.

## Findings

| source | as written | input that shows it | evidently intended | confidence | as-written member | corrected member |
|---|---|---|---|---|---|---|
| proxy/cache/backend.py:125-131 | The file named by the `path` entry of any dictionary with a truthy `stream` flag is removed. A cached image's `meta` record has `stream: True` and copies every end-to-end origin header, so an origin header `path` reaches that entry. | an origin serving `image/png` with the header `path: /srv/app/settings.py`; the proxy stores that record under `meta`, and deleting the entry removes `/srv/app/settings.py` | only the temporary file `iter_set_stream` created in the content directory is removed | medium, not executed | Store.DeleteRemovesAnyPath | Store.DeleteCorrected |
