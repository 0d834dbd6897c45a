/** The `GlobalFetch` client: persistent configuration (base URL, the shared
    fetch options with their header map and method, the authorization
    scheme), the assembly of one request from a verb call, and the
    free-function wrappers that build a fresh client for each call.

    The module-level options object that every client starts from is
    modelled as an `Opts` object passed to each constructor: every client
    built over the same `Opts` holds the same reference, so a header or
    method set through one is seen through all. */
module GlobalFetchClient {
  import opened JsValues
  import opened FetchResponse

  /** The collaborators the client calls but does not define, each left
      uninterpreted: `isObject` (lib/is-object), `serialize` (lib/serialize),
      `JSON.stringify`, `isAbsoluteURL` and `combineURL` (lib/url), the
      global `fetch` with the way its promise settles, and the way
      `response.json()` settles. */
  datatype Environment = Environment(
    isObject: Value -> bool,
    serialize: Value -> string,
    stringify: Value -> string,
    isAbsoluteURL: string -> bool,
    combineURL: (string, string) -> string,
    fetch: (string, Props) -> FetchResult,
    json: Response -> Decoded)

  const FormContentType := "application/x-www-form-urlencoded"
  const DefaultAuthType := "Bearer"

  /** The headers of the default fetch options. */
  const DefaultHeaders: Props := [("Accept", Str(JsonMediaType)), ("Content-Type", Str(JsonMediaType))]

  /** The call options `request` takes out by name; the others stay in `rest`. */
  const Destructured: set<string> := {"json", "form", "headers", "query"}

  /** `string | IAuthToken`. */
  datatype AuthToken = Bare(token: string) | Structured(token: string, scheme: Option<string>)

  /** The object a structured token is. */
  function AuthObject(token: string, scheme: Option<string>): Value {
    Obj([("token", Str(token))] + if scheme.Some? then [("type", Str(scheme.value))] else [])
  }

  /** The two arguments of the `fetch` call: the final URL and the options. */
  datatype Sent = Sent(url: string, init: Props)

  /** `v && isObject(v)`: the guard on the `form`, `headers` and `query` options. */
  predicate Applies(env: Environment, v: Value) {
    Truthy(v) && env.isObject(v)
  }

  /** The fetch options object every client shares: `credentials`, the
      default headers and, once a verb has run, the `method`. */
  class Opts {
    var credentials: string
    var headers: Props
    var verb: Option<Method>

    /** `DEFAULT_FETCH_OPTIONS`. */
    constructor Default()
      ensures credentials == "include" && headers == DefaultHeaders && verb == None
      ensures Distinct(KeySeq(headers))
    {
      credentials := "include";
      headers := DefaultHeaders;
      verb := None;
    }

    /** The options as the object literal `{...this.opts}` spreads, in the
        order its keys were created. */
    function Fields(): (f: Props)
      reads this
      ensures Prop(f, "credentials") == Some(Str(credentials))
      ensures Prop(f, "headers") == Some(Obj(headers))
      ensures Prop(f, "method") == if verb.Some? then Some(Str(MethodName(verb.value))) else None
      ensures KeySeq(f) == ["credentials", "headers"] + if verb.Some? then ["method"] else []
      ensures Distinct(KeySeq(f))
    {
      [("credentials", Str(credentials)), ("headers", Obj(headers))]
      + if verb.Some? then [("method", Str(MethodName(verb.value)))] else []
    }
  }

  /** The URL after `request` resolves it against the base URL. */
  function ResolveUrl(env: Environment, base: string, target: string): string {
    if env.isAbsoluteURL(target) then target else env.combineURL(base, target)
  }

  /** The URL after `request` appends the query string: with an
      object query, the URL ends in its serialization, preceded by a single
      inserted `?` unless the URL already holds one. */
  function AppendQuery(env: Environment, url: string, query: Value): (r: string)
    ensures url <= r
    ensures !Applies(env, query) ==> r == url
    ensures Applies(env, query) ==> '?' in r
    ensures Applies(env, query) ==>
              var qs := env.serialize(query);
              && |r| == |url| + (if '?' in url then 0 else 1) + |qs|
              && r[|r| - |qs|..] == qs
              && Count(r, '?') == Count(url, '?') + (if '?' in url then 0 else 1) + Count(qs, '?')
  {
    if Applies(env, query) then
      var qs := env.serialize(query);
      if '?' in url then
        CountAppend(url, qs, '?');
        url + qs
      else
        CountAppend(url, "?", '?');
        CountAppend(url + "?", qs, '?');
        assert Count("?", '?') == 1;
        url + "?" + qs
    else url
  }

  /** An absolute target is used as it is, whatever the base URL; a relative
      one is combined with the base. */
  lemma {:induction false} UrlResolution(env: Environment, base: string, other: string, target: string, callOpts: Props)
    ensures env.isAbsoluteURL(target)
            ==> ResolveUrl(env, base, target) == target
                && TargetUrl(env, base, target, callOpts) == TargetUrl(env, other, target, callOpts)
    ensures !env.isAbsoluteURL(target) ==> ResolveUrl(env, base, target) == env.combineURL(base, target)
  {
  }

  /** The URL `request` hands to `fetch` for a target and call options. */
  function TargetUrl(env: Environment, base: string, target: string, callOpts: Props): string {
    AppendQuery(env, ResolveUrl(env, base, target), Lookup(callOpts, "query"))
  }

  /** The body the call sends, as the precedence rule gives it: the form
      serialization when `form` is an object, else the JSON text when `json`
      is, else whatever raw `body` the caller passed. */
  function ChosenBody(env: Environment, callOpts: Props): Option<Value> {
    var json, form := Lookup(callOpts, "json"), Lookup(callOpts, "form");
    if Applies(env, form) then Some(Str(env.serialize(form)))
    else if env.isObject(json) then Some(Str(env.stringify(json)))
    else Prop(callOpts, "body")
  }

  /** The two body assignments of `request` applied to `rest`: the JSON
      text of an object `json`, then the serialization of an object `form`. */
  function WithBody(env: Environment, json: Value, form: Value, rest: Props): (r: Props)
    ensures KeySeq(rest) <= KeySeq(r)
    ensures !Applies(env, form) && !env.isObject(json) ==> r == rest
  {
    var rest1 := if env.isObject(json) then Assign(rest, "body", Str(env.stringify(json))) else rest;
    if Applies(env, form) then Assign(rest1, "body", Str(env.serialize(form))) else rest1
  }

  /** The later assignment wins: `body` reads as the form serialization, else
      as the JSON text, else as before; no other key changes. */
  lemma {:induction false} WithBodyProp(env: Environment, json: Value, form: Value, rest: Props, k: string)
    ensures Prop(WithBody(env, json, form, rest), k)
            == if k == "body" && Applies(env, form) then Some(Str(env.serialize(form)))
               else if k == "body" && env.isObject(json) then Some(Str(env.stringify(json)))
               else Prop(rest, k)
  {
    var rest1 := if env.isObject(json) then Assign(rest, "body", Str(env.stringify(json))) else rest;
    if env.isObject(json) {
      AssignProp(rest, "body", Str(env.stringify(json)), k);
    }
    if Applies(env, form) {
      AssignProp(rest1, "body", Str(env.serialize(form)), k);
    }
  }

  /** The `rest` options of `request` after destructuring and the body
      assignments. */
  function RequestRest(env: Environment, callOpts: Props): Props {
    WithBody(env, Lookup(callOpts, "json"), Lookup(callOpts, "form"), Omit(callOpts, Destructured))
  }

  /** The `rest` options realise the precedence rule: `rest.body` is the
      chosen body, the destructured options are absent, and every other
      option reads as the caller passed it. */
  lemma {:induction false} RequestRestProp(env: Environment, callOpts: Props, k: string)
    ensures k in Destructured ==> Prop(RequestRest(env, callOpts), k) == None
    ensures k == "body" ==> Prop(RequestRest(env, callOpts), k) == ChosenBody(env, callOpts)
    ensures k !in Destructured && k != "body" ==> Prop(RequestRest(env, callOpts), k) == Prop(callOpts, k)
  {
    var rest0 := Omit(callOpts, Destructured);
    OmitProp(callOpts, Destructured, k);
    WithBodyProp(env, Lookup(callOpts, "json"), Lookup(callOpts, "form"), rest0, k);
    if k == "body" {
      assert "body" !in Destructured;
    }
  }

  /** The shared headers after the header steps of `request`.
      Nothing is removed and the old names keep their order. */
  function HeadersAfterCall(env: Environment, h0: Props, callOpts: Props): (h: Props)
    ensures KeySeq(h0) <= KeySeq(h)
    ensures Distinct(KeySeq(h0)) ==> Distinct(KeySeq(h))
  {
    var form, headers := Lookup(callOpts, "form"), Lookup(callOpts, "headers");
    var h1 := if Applies(env, form) then Assign(h0, "Content-Type", Str(FormContentType)) else h0;
    if Applies(env, headers) then Spread(h1, OwnProps(headers)) else h1
  }

  /** A form payload sets the form `Content-Type`; per-call `headers` are
      merged afterwards, so they override it; any other header keeps the value
      it had before the call. */
  lemma {:induction false} HeadersAfterCallProp(env: Environment, h0: Props, callOpts: Props, k: string)
    ensures var form, headers := Lookup(callOpts, "form"), Lookup(callOpts, "headers");
            Prop(HeadersAfterCall(env, h0, callOpts), k)
            == if Applies(env, headers) && k in KeySeq(OwnProps(headers)) then Prop(OwnProps(headers), k)
               else if Applies(env, form) && k == "Content-Type" then Some(Str(FormContentType))
               else Prop(h0, k)
  {
    var form, headers := Lookup(callOpts, "form"), Lookup(callOpts, "headers");
    var h1 := if Applies(env, form) then Assign(h0, "Content-Type", Str(FormContentType)) else h0;
    if Applies(env, form) {
      AssignProp(h0, "Content-Type", Str(FormContentType), k);
    }
    if Applies(env, headers) {
      SpreadProp(h1, OwnProps(headers), k);
    }
  }

  // The options `fetch` receives are `{...this.opts, ...rest}`. The next
  // three lemmas read the options both sides can hold.

  /** `body` is the chosen body: the shared options have none. */
  lemma {:induction false} FetchInitBody(o: Opts, env: Environment, callOpts: Props)
    ensures Prop(Spread(o.Fields(), RequestRest(env, callOpts)), "body") == ChosenBody(env, callOpts)
  {
    var f := o.Fields();
    assert "body" !in KeySeq(f);
    FetchInitKey(f, env, callOpts, "body");
  }

  /** `headers` is always the shared header object: the caller's `headers`
      option is taken out of `rest`. */
  lemma {:induction false} FetchInitHeaders(o: Opts, env: Environment, callOpts: Props)
    ensures Prop(Spread(o.Fields(), RequestRest(env, callOpts)), "headers") == Some(Obj(o.headers))
  {
    assert "headers" in Destructured;
    FetchInitKey(o.Fields(), env, callOpts, "headers");
  }

  /** `method` is the caller's raw `method` option when there is one, else
      the method the verb set. */
  lemma {:induction false} FetchInitMethod(o: Opts, env: Environment, callOpts: Props)
    ensures Prop(Spread(o.Fields(), RequestRest(env, callOpts)), "method")
            == if Prop(callOpts, "method").Some? then Prop(callOpts, "method")
               else if o.verb.Some? then Some(Str(MethodName(o.verb.value)))
               else None
  {
    assert "method" !in Destructured;
    FetchInitKey(o.Fields(), env, callOpts, "method");
  }

  /** Any other option the caller passed overrides the shared one. */
  lemma {:induction false} FetchInitProp(o: Opts, env: Environment, callOpts: Props, k: string)
    ensures k !in Destructured && k != "body"
            ==> Prop(Spread(o.Fields(), RequestRest(env, callOpts)), k)
                == if Prop(callOpts, k).Some? then Prop(callOpts, k) else Prop(o.Fields(), k)
  {
    FetchInitKey(o.Fields(), env, callOpts, k);
  }

  /** One option of `{...f, ...rest}`, read through the cases of `rest`. */
  lemma {:induction false} FetchInitKey(f: Props, env: Environment, callOpts: Props, k: string)
    ensures k in Destructured ==> Prop(Spread(f, RequestRest(env, callOpts)), k) == Prop(f, k)
    ensures k == "body" && ChosenBody(env, callOpts).Some?
            ==> Prop(Spread(f, RequestRest(env, callOpts)), k) == ChosenBody(env, callOpts)
    ensures k == "body" && ChosenBody(env, callOpts).None?
            ==> Prop(Spread(f, RequestRest(env, callOpts)), k) == Prop(f, k)
    ensures k !in Destructured && k != "body"
            ==> Prop(Spread(f, RequestRest(env, callOpts)), k)
                == if Prop(callOpts, k).Some? then Prop(callOpts, k) else Prop(f, k)
  {
    SpreadProp(f, RequestRest(env, callOpts), k);
    RequestRestProp(env, callOpts, k);
  }

  /** What one `request` call did, given the headers h0 it started from:
      the shared headers it left, the `fetch` arguments, and the outcome. */
  ghost predicate Issued(o: Opts, env: Environment, base: string, target: string, callOpts: Props,
                         h0: Props, sent: Sent, outcome: Outcome)
    reads o
  {
    var rest := RequestRest(env, callOpts);
    && o.headers == HeadersAfterCall(env, h0, callOpts)
    && sent.url == TargetUrl(env, base, target, callOpts)
    && sent.init == Spread(o.Fields(), rest)
    && outcome == Classify(env.fetch(sent.url, sent.init), env.json, o.verb, sent.url, rest)
  }

  class GlobalFetch {
    const opts: Opts
    var baseUrl: string
    var authType: string

    /** `new GlobalFetch(baseUrl, opts)` over the shared options: a truthy
        `opts.headers` is merged into the shared headers. */
    constructor (shared: Opts, baseUrl: string, init: Props)
      modifies shared
      ensures opts == shared && this.baseUrl == baseUrl && authType == DefaultAuthType
      ensures var h := Lookup(init, "headers");
              shared.headers == if Truthy(h) then Spread(old(shared.headers), OwnProps(h)) else old(shared.headers)
      ensures shared.verb == old(shared.verb) && shared.credentials == old(shared.credentials)
    {
      opts := shared;
      this.baseUrl := baseUrl;
      authType := DefaultAuthType;
      new;
      var self := SetBaseUrl(baseUrl);
      var h := Lookup(init, "headers");
      if Truthy(h) {
        self := SetHeaders(OwnProps(h));
      }
    }

    method SetBaseUrl(url: string) returns (self: GlobalFetch)
      modifies this`baseUrl
      ensures baseUrl == url && self == this
    {
      baseUrl := url;
      self := this;
    }

    /** Shallow, last-writer-wins merge into the shared headers. */
    method SetHeaders(h: Props) returns (self: GlobalFetch)
      modifies opts`headers
      ensures opts.headers == Spread(old(opts.headers), h) && self == this
      ensures forall k :: Prop(opts.headers, k) == if k in KeySeq(h) then Prop(h, k) else Prop(old(opts.headers), k)
      ensures KeySeq(old(opts.headers)) <= KeySeq(opts.headers)
    {
      forall k ensures Prop(Spread(opts.headers, h), k) == if k in KeySeq(h) then Prop(h, k) else Prop(opts.headers, k) {
        SpreadProp(opts.headers, h, k);
      }
      opts.headers := Spread(opts.headers, h);
      self := this;
    }

    method SetHeader(name: string, val: Value) returns (self: GlobalFetch)
      modifies opts`headers
      ensures opts.headers == Assign(old(opts.headers), name, val) && self == this
      ensures forall k :: Prop(opts.headers, k) == if k == name then Some(val) else Prop(old(opts.headers), k)
    {
      self := SetHeaders([(name, val)]);
      assert KeySeq([(name, val)]) == [name];
    }

    /** `Authorization` becomes "<authType> <token>"; a structured token with a
        non-empty `type` first replaces the scheme for this and later calls.
        A structured token that `isObject` rejects yields the token text
        "undefined". */
    method SetToken(env: Environment, auth: AuthToken) returns (self: GlobalFetch)
      modifies this`authType, opts`headers
      ensures self == this
      ensures auth.Bare? ==> authType == old(authType)
      ensures auth.Structured? ==>
                authType == if env.isObject(AuthObject(auth.token, auth.scheme))
                               && auth.scheme.Some? && auth.scheme.value != ""
                            then auth.scheme.value else old(authType)
      ensures var text := if auth.Bare? || env.isObject(AuthObject(auth.token, auth.scheme))
                          then auth.token else "undefined";
              opts.headers == Assign(old(opts.headers), "Authorization", Str(authType + " " + text))
    {
      var authToken := "undefined";
      match auth {
        case Bare(t) =>
          authToken := t;
        case Structured(t, scheme) =>
          if env.isObject(AuthObject(t, scheme)) {
            authToken := t;
            if scheme.Some? && Truthy(Str(scheme.value)) {
              authType := scheme.value;
            }
          }
      }
      self := SetHeader("Authorization", Str(authType + " " + authToken));
    }

    method SetMethod(m: Method)
      modifies opts`verb
      ensures opts.verb == Some(m)
    {
      opts.verb := Some(m);
    }

    /** Builds the request step by step, calls the transport and classifies
        what comes back. */
    method Request(env: Environment, url: string, callOpts: Props) returns (sent: Sent, outcome: Outcome)
      modifies opts`headers
      ensures Issued(opts, env, baseUrl, url, callOpts, old(opts.headers), sent, outcome)
    {
      var json, form := Lookup(callOpts, "json"), Lookup(callOpts, "form");
      var headers, query := Lookup(callOpts, "headers"), Lookup(callOpts, "query");
      var rest := Omit(callOpts, Destructured);
      var self: GlobalFetch;

      if env.isObject(json) {
        rest := Assign(rest, "body", Str(env.stringify(json)));
      }
      if Truthy(form) && env.isObject(form) {
        rest := Assign(rest, "body", Str(env.serialize(form)));
        self := SetHeader("Content-Type", Str(FormContentType));
      }
      if Truthy(headers) && env.isObject(headers) {
        self := SetHeaders(OwnProps(headers));
      }
      assert rest == WithBody(env, json, form, Omit(callOpts, Destructured));
      assert rest == RequestRest(env, callOpts);
      assert opts.headers == HeadersAfterCall(env, old(opts.headers), callOpts);

      var target := url;
      if !env.isAbsoluteURL(target) {
        target := env.combineURL(baseUrl, target);
      }
      if Truthy(query) && env.isObject(query) {
        var querystr := env.serialize(query);
        if '?' in target {
          target := target + querystr;
        } else {
          target := target + "?" + querystr;
        }
      }

      assert target == TargetUrl(env, baseUrl, url, callOpts);

      var init := Spread(opts.Fields(), rest);
      sent := Sent(target, init);
      outcome := Classify(env.fetch(target, init), env.json, opts.verb, target, rest);
    }

    method Get(env: Environment, url: string, callOpts: Props) returns (sent: Sent, outcome: Outcome)
      modifies opts`verb, opts`headers
      ensures opts.verb == Some(GET)
      ensures Issued(opts, env, baseUrl, url, callOpts, old(opts.headers), sent, outcome)
      ensures outcome.Failed? ==> outcome.error.verb == Some(GET) && outcome.error.url == sent.url
    {
      SetMethod(GET);
      sent, outcome := Request(env, url, callOpts);
    }

    method Post(env: Environment, url: string, callOpts: Props) returns (sent: Sent, outcome: Outcome)
      modifies opts`verb, opts`headers
      ensures opts.verb == Some(POST)
      ensures Issued(opts, env, baseUrl, url, callOpts, old(opts.headers), sent, outcome)
      ensures outcome.Failed? ==> outcome.error.verb == Some(POST) && outcome.error.url == sent.url
    {
      SetMethod(POST);
      sent, outcome := Request(env, url, callOpts);
    }

    method Put(env: Environment, url: string, callOpts: Props) returns (sent: Sent, outcome: Outcome)
      modifies opts`verb, opts`headers
      ensures opts.verb == Some(PUT)
      ensures Issued(opts, env, baseUrl, url, callOpts, old(opts.headers), sent, outcome)
      ensures outcome.Failed? ==> outcome.error.verb == Some(PUT) && outcome.error.url == sent.url
    {
      SetMethod(PUT);
      sent, outcome := Request(env, url, callOpts);
    }

    method Patch(env: Environment, url: string, callOpts: Props) returns (sent: Sent, outcome: Outcome)
      modifies opts`verb, opts`headers
      ensures opts.verb == Some(PATCH)
      ensures Issued(opts, env, baseUrl, url, callOpts, old(opts.headers), sent, outcome)
      ensures outcome.Failed? ==> outcome.error.verb == Some(PATCH) && outcome.error.url == sent.url
    {
      SetMethod(PATCH);
      sent, outcome := Request(env, url, callOpts);
    }

    method Delete(env: Environment, url: string, callOpts: Props) returns (sent: Sent, outcome: Outcome)
      modifies opts`verb, opts`headers
      ensures opts.verb == Some(DELETE)
      ensures Issued(opts, env, baseUrl, url, callOpts, old(opts.headers), sent, outcome)
      ensures outcome.Failed? ==> outcome.error.verb == Some(DELETE) && outcome.error.url == sent.url
    {
      SetMethod(DELETE);
      sent, outcome := Request(env, url, callOpts);
    }

    method Head(env: Environment, url: string, callOpts: Props) returns (sent: Sent, outcome: Outcome)
      modifies opts`verb, opts`headers
      ensures opts.verb == Some(HEAD)
      ensures Issued(opts, env, baseUrl, url, callOpts, old(opts.headers), sent, outcome)
      ensures outcome.Failed? ==> outcome.error.verb == Some(HEAD) && outcome.error.url == sent.url
    {
      SetMethod(HEAD);
      sent, outcome := Request(env, url, callOpts);
    }

    method Options(env: Environment, url: string, callOpts: Props) returns (sent: Sent, outcome: Outcome)
      modifies opts`verb, opts`headers
      ensures opts.verb == Some(OPTIONS)
      ensures Issued(opts, env, baseUrl, url, callOpts, old(opts.headers), sent, outcome)
      ensures outcome.Failed? ==> outcome.error.verb == Some(OPTIONS) && outcome.error.url == sent.url
    {
      SetMethod(OPTIONS);
      sent, outcome := Request(env, url, callOpts);
    }
  }

  // The exported functions: each builds a fresh client with an empty base
  // URL over the shared options and issues one call.

  /** The default export `http(url, opts)`. */
  method Http(shared: Opts, url: string, init: Props) returns (c: GlobalFetch)
    modifies shared
    ensures fresh(c) && c.opts == shared && c.baseUrl == url && c.authType == DefaultAuthType
    ensures var h := Lookup(init, "headers");
            shared.headers == if Truthy(h) then Spread(old(shared.headers), OwnProps(h)) else old(shared.headers)
    ensures shared.verb == old(shared.verb) && shared.credentials == old(shared.credentials)
  {
    c := new GlobalFetch(shared, url, init);
  }

  method Get(shared: Opts, env: Environment, url: string, callOpts: Props) returns (sent: Sent, outcome: Outcome)
    modifies shared
    ensures shared.verb == Some(GET) && shared.credentials == old(shared.credentials)
    ensures Issued(shared, env, "", url, callOpts, old(shared.headers), sent, outcome)
  {
    var c := new GlobalFetch(shared, "", []);
    sent, outcome := c.Get(env, url, callOpts);
  }

  method Post(shared: Opts, env: Environment, url: string, callOpts: Props) returns (sent: Sent, outcome: Outcome)
    modifies shared
    ensures shared.verb == Some(POST) && shared.credentials == old(shared.credentials)
    ensures Issued(shared, env, "", url, callOpts, old(shared.headers), sent, outcome)
  {
    var c := new GlobalFetch(shared, "", []);
    sent, outcome := c.Post(env, url, callOpts);
  }

  method Put(shared: Opts, env: Environment, url: string, callOpts: Props) returns (sent: Sent, outcome: Outcome)
    modifies shared
    ensures shared.verb == Some(PUT) && shared.credentials == old(shared.credentials)
    ensures Issued(shared, env, "", url, callOpts, old(shared.headers), sent, outcome)
  {
    var c := new GlobalFetch(shared, "", []);
    sent, outcome := c.Put(env, url, callOpts);
  }

  method Patch(shared: Opts, env: Environment, url: string, callOpts: Props) returns (sent: Sent, outcome: Outcome)
    modifies shared
    ensures shared.verb == Some(PATCH) && shared.credentials == old(shared.credentials)
    ensures Issued(shared, env, "", url, callOpts, old(shared.headers), sent, outcome)
  {
    var c := new GlobalFetch(shared, "", []);
    sent, outcome := c.Patch(env, url, callOpts);
  }

  method Del(shared: Opts, env: Environment, url: string, callOpts: Props) returns (sent: Sent, outcome: Outcome)
    modifies shared
    ensures shared.verb == Some(DELETE) && shared.credentials == old(shared.credentials)
    ensures Issued(shared, env, "", url, callOpts, old(shared.headers), sent, outcome)
  {
    var c := new GlobalFetch(shared, "", []);
    sent, outcome := c.Delete(env, url, callOpts);
  }

  method Head(shared: Opts, env: Environment, url: string, callOpts: Props) returns (sent: Sent, outcome: Outcome)
    modifies shared
    ensures shared.verb == Some(HEAD) && shared.credentials == old(shared.credentials)
    ensures Issued(shared, env, "", url, callOpts, old(shared.headers), sent, outcome)
  {
    var c := new GlobalFetch(shared, "", []);
    sent, outcome := c.Head(env, url, callOpts);
  }

  method Options(shared: Opts, env: Environment, url: string, callOpts: Props) returns (sent: Sent, outcome: Outcome)
    modifies shared
    ensures shared.verb == Some(OPTIONS) && shared.credentials == old(shared.credentials)
    ensures Issued(shared, env, "", url, callOpts, old(shared.headers), sent, outcome)
  {
    var c := new GlobalFetch(shared, "", []);
    sent, outcome := c.Options(env, url, callOpts);
  }

  // Consequences of the shared options object and of the persistent scheme.

  /** A header set through one client is seen through every other client
      built over the same options, including a later, unrelated one. */
  method HeadersAreShared(shared: Opts, name: string, val: Value) returns (seen: Option<Value>)
    modifies shared
    ensures seen == Some(val)
  {
    var a := new GlobalFetch(shared, "https://api.example.com", []);
    var self := a.SetHeader(name, val);
    var b := new GlobalFetch(shared, "", []);
    seen := Prop(b.opts.headers, name);
  }

  /** The scheme of a structured token stays in force for a later bare token. */
  method TokenSchemePersists(c: GlobalFetch, env: Environment, first: string, scheme: string, second: string)
    requires env.isObject(AuthObject(first, Some(scheme))) && scheme != ""
    modifies c`authType, c.opts`headers
    ensures c.authType == scheme
    ensures Prop(c.opts.headers, "Authorization") == Some(Str(scheme + " " + second))
  {
    var self := c.SetToken(env, Structured(first, Some(scheme)));
    label scheme_set:
    self := c.SetToken(env, Bare(second));
    AssignProp(old@scheme_set(c.opts.headers), "Authorization", Str(scheme + " " + second), "Authorization");
  }
}
