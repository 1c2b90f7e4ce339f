/** The header and URL helpers of proxy/utils.py. The process environment
    and the WSGI `META` dictionary are passed in as string maps. */
module HttpUtils {
  import opened Values
  import opened Text

  /** What `filter_by(items, *options)` returns: the listed keys that `items`
      has, with their values. */
  ghost function Filtered<V>(items: map<string, V>, options: seq<string>): (r: map<string, V>)
  {
    map k | k in items && k in options :: items[k]
  }

  /** `filter_by`: walks the options in order, copying each present one. */
  method FilterBy<V>(items: map<string, V>, options: seq<string>) returns (r: map<string, V>)
    ensures r.Keys == set h | h in options && h in items
    ensures forall k :: k in r ==> r[k] == items[k]
    ensures r == Filtered(items, options)
  {
    r := map[];
    for i := 0 to |options|
      invariant r.Keys == set h | h in options[..i] && h in items
      invariant forall k :: k in r ==> k in items && r[k] == items[k]
    {
      assert options[..i + 1] == options[..i] + [options[i]];
      if options[i] in items {
        r := r[options[i] := items[options[i]]];
      }
    }
    assert options[..|options|] == options;
  }

  /** `exclude_by(items, *options)`, which proxy/utils.py does not define:
      taken to drop the listed keys and keep everything else unchanged. */
  function ExcludeBy<V>(items: map<string, V>, options: seq<string>): (r: map<string, V>)
    ensures r.Keys == items.Keys - set h | h in options
    ensures forall k :: k in r ==> r[k] == items[k]
  {
    map k | k in items && k !in options :: items[k]
  }

  /** Filtering and excluding by the same options split a map in two. */
  lemma FilterExcludeSplit<V>(items: map<string, V>, options: seq<string>)
    ensures Filtered(items, options).Keys !! ExcludeBy(items, options).Keys
    ensures Filtered(items, options) + ExcludeBy(items, options) == items
  {
    var f, e := Filtered(items, options), ExcludeBy(items, options);
    assert (f + e).Keys == items.Keys;
  }

  /** `^HTTP_.+$`, `^CONTENT_TYPE$` or `^CONTENT_LENGTH$` matches the key. */
  predicate Kept(k: string)
    ensures "HTTP_" <= k && |k| > 5 && '\n' !in k ==> Kept(k)
    ensures Kept(k) && !("HTTP_" <= k) ==> LinePart(k) == "CONTENT_TYPE" || LinePart(k) == "CONTENT_LENGTH"
    ensures Kept(k) ==> |k| > 5
  {
    ("HTTP_" <= k && |LinePart(k[5..])| > 0 && RestOfLine(k[5..])) ||
    k == "CONTENT_TYPE" || k == "CONTENT_TYPE\n" ||
    k == "CONTENT_LENGTH" || k == "CONTENT_LENGTH\n"
  }

  /** The header name of a kept key: its leading `HTTP_` removed, then every
      `_` replaced by `-`. */
  function HeaderName(k: string): (r: string)
    ensures "HTTP_" <= k ==> r == ReplaceChar(k[5..], '_', '-')
    ensures !("HTTP_" <= k) ==> r == ReplaceChar(k, '_', '-')
    ensures '_' !in r
  {
    ReplaceChar(if "HTTP_" <= k then k[5..] else k, '_', '-')
  }

  /** What `get_request_headers` returns for `meta`: one entry per header
      name of a kept key, holding the value of one of the keys with that name
      (which one, when several keys rename alike, depends on the
      dictionary's iteration order). */
  ghost predicate HeadersOf(meta: map<string, string>, r: map<string, string>)
  {
    && r.Keys == (set k | k in meta && Kept(k) :: HeaderName(k))
    && forall n :: n in r ==> exists k :: k in meta && Kept(k) && HeaderName(k) == n && r[n] == meta[k]
  }

  /** `get_request_headers`. */
  method GetRequestHeaders(meta: map<string, string>) returns (r: map<string, string>)
    ensures HeadersOf(meta, r)
  {
    r := map[];
    var rest := meta.Keys;
    while rest != {}
      invariant rest <= meta.Keys
      invariant r.Keys == (set k | k in meta && k !in rest && Kept(k) :: HeaderName(k))
      invariant forall n :: n in r ==> exists k :: k in meta && k !in rest && Kept(k) && HeaderName(k) == n && r[n] == meta[k]
      decreases |rest|
    {
      var k :| k in rest;
      if Kept(k) {
        r := r[HeaderName(k) := meta[k]];
      }
      rest := rest - {k};
    }
  }

  /** Only `HTTP_REFERER` renames to `REFERER`. */
  lemma OnlyRefererKeyNamesReferer(k: string)
    requires Kept(k) && HeaderName(k) == "REFERER"
    ensures k == "HTTP_REFERER"
  {
    var n := HeaderName(k);
    if "HTTP_" <= k {
      var t := k[5..];
      assert |t| == 7;
      forall i | 0 <= i < 7
        ensures t[i] == "REFERER"[i]
      {
        assert n[i] == (if t[i] == '_' then '-' else t[i]);
      }
      assert t == "REFERER";
      assert k == k[..5] + t;
    }
  }

  /** The client's `Referer` passes through under the name `REFERER`, and
      nothing else is ever named so. */
  lemma RefererPassesThrough(meta: map<string, string>, r: map<string, string>)
    requires HeadersOf(meta, r)
    ensures "HTTP_REFERER" in meta <==> "REFERER" in r
    ensures "HTTP_REFERER" in meta ==> r["REFERER"] == meta["HTTP_REFERER"]
  {
    var k := "HTTP_REFERER";
    if k in meta {
      assert k[5..] == "REFERER";
      assert Kept(k);
      assert HeaderName(k) == "REFERER" by {
        assert ReplaceChar(k[5..], '_', '-') == "REFERER";
      }
      assert "REFERER" in r;
      var j :| j in meta && Kept(j) && HeaderName(j) == "REFERER" && r["REFERER"] == meta[j];
      OnlyRefererKeyNamesReferer(j);
    }
    if "REFERER" in r {
      var j :| j in meta && Kept(j) && HeaderName(j) == "REFERER";
      OnlyRefererKeyNamesReferer(j);
    }
  }

  /** The names Django's `META` carries for the usual headers. */
  lemma ClientHeaderNames()
    ensures Kept("HTTP_USER_AGENT") && HeaderName("HTTP_USER_AGENT") == "USER-AGENT"
    ensures Kept("CONTENT_TYPE") && HeaderName("CONTENT_TYPE") == "CONTENT-TYPE"
    ensures !Kept("HTTP_") && !Kept("SERVER_NAME") && !Kept("HTTP_A\nB")
  {
    assert "HTTP_USER_AGENT"[5..] == "USER_AGENT";
    assert ReplaceChar("USER_AGENT", '_', '-') == "USER-AGENT";
    assert ReplaceChar("CONTENT_TYPE", '_', '-') == "CONTENT-TYPE";
    assert "HTTP_"[5..] == "";
    assert "SERVER_NAME"[0] != "HTTP_"[0];
    assert "HTTP_A\nB"[5..] == "A\nB" && LinePart("A\nB")[1] == '\n';
  }

  /** The environment entry, or its default (`os.environ.get`). */
  function Scheme(env: map<string, string>): string { GetOr(env, "wsgi.url_scheme", "http") }
  function ServerPort(env: map<string, string>): string { GetOr(env, "SERVER_PORT", "8000") }

  /** The host part: `HTTP_HOST` when set and non-empty, else `SERVER_NAME`
      (default `localhost`). */
  function HostPart(env: map<string, string>): (r: string)
    ensures GetOr(env, "HTTP_HOST", "") != "" ==> r == env["HTTP_HOST"]
    ensures GetOr(env, "HTTP_HOST", "") == "" ==> r == GetOr(env, "SERVER_NAME", "localhost")
  {
    var h := GetOr(env, "HTTP_HOST", "");
    if h != "" then h else GetOr(env, "SERVER_NAME", "localhost")
  }

  /** The port the scheme implies, which the URL leaves out. */
  predicate DefaultPort(scheme: string, port: string)
  {
    (scheme == "https" && port == "443") || (scheme != "https" && port == "80")
  }

  /** The site URL `get_absolute_url` builds, as one expression. */
  function SiteUrl(env: map<string, string>): (r: string)
  {
    Scheme(env) + "://" + HostPart(env) +
    (if DefaultPort(Scheme(env), ServerPort(env)) then "" else ":" + ServerPort(env))
  }

  /** `get_absolute_url`, building the URL step by step. */
  method AbsoluteUrl(env: map<string, string>) returns (url: string)
    ensures url == SiteUrl(env)
  {
    var scheme := GetOr(env, "wsgi.url_scheme", "http");
    var httpHost := GetOr(env, "HTTP_HOST", "");
    var serverName := GetOr(env, "SERVER_NAME", "localhost");
    var serverPort := GetOr(env, "SERVER_PORT", "8000");
    url := scheme + "://";
    if httpHost != "" {
      url := url + httpHost;
    } else {
      url := url + serverName;
    }
    if scheme == "https" {
      if serverPort != "443" {
        url := url + ":" + serverPort;
      }
    } else if serverPort != "80" {
      url := url + ":" + serverPort;
    }
  }

  /** The port is shown exactly when it is not the scheme's default. */
  lemma PortShownUnlessDefault(env: map<string, string>)
    ensures var base := Scheme(env) + "://" + HostPart(env);
            && (DefaultPort(Scheme(env), ServerPort(env)) <==> SiteUrl(env) == base)
            && (!DefaultPort(Scheme(env), ServerPort(env)) <==> SiteUrl(env) == base + ":" + ServerPort(env))
  {
    var base := Scheme(env) + "://" + HostPart(env);
    assert |base + ":" + ServerPort(env)| > |base|;
  }

  /** With nothing in the environment the URL is the development server's. */
  lemma EmptyEnvironmentUrl()
    ensures SiteUrl(map[]) == "http://localhost:8000"
  {
    assert !DefaultPort("http", "8000") by {
      assert "8000"[0] != "80"[1];
    }
  }

  /** `get_request_absolute_url`: a `KeyError` names the first of
      `SERVER_NAME`, `REQUEST_URI` and `wsgi.url_scheme` that is missing. */
  function RequestAbsoluteUrl(meta: map<string, string>): (r: Result<string, string>)
    ensures r.Ok? <==> "SERVER_NAME" in meta && "REQUEST_URI" in meta && "wsgi.url_scheme" in meta
    ensures r.Ok? ==> r.value == meta["wsgi.url_scheme"] + "://" + meta["SERVER_NAME"] + meta["REQUEST_URI"]
    ensures r.Err? ==> r.error !in meta
    ensures r.Err? && "SERVER_NAME" !in meta ==> r.error == "SERVER_NAME"
    ensures "SERVER_NAME" in meta && "REQUEST_URI" !in meta ==> r == Err("REQUEST_URI")
    ensures "SERVER_NAME" in meta && "REQUEST_URI" in meta && "wsgi.url_scheme" !in meta ==> r == Err("wsgi.url_scheme")
  {
    if "SERVER_NAME" !in meta then Err("SERVER_NAME")
    else if "REQUEST_URI" !in meta then Err("REQUEST_URI")
    else if "wsgi.url_scheme" !in meta then Err("wsgi.url_scheme")
    else Ok(meta["wsgi.url_scheme"] + "://" + meta["SERVER_NAME"] + meta["REQUEST_URI"])
  }
}
