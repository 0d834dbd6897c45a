# global-fetch in Dafny

A model of the `GlobalFetch` HTTP client of `global-fetch.ts`. It covers three parts:

- **Persistent configuration.** A client holds a base URL and an authorization scheme (default `Bearer`). It also holds a reference to one fetch-options object. That object is the module-level `DEFAULT_FETCH_OPTIONS`: `credentials`, the default headers, and the `method` that the last verb set. Every client shares it, including the throwaway clients behind the exported free functions. The setters `setBaseUrl`, `setHeaders`, `setHeader`, `setToken` and `setMethod` change this state in place.
- **Request building.** `request` destructures the call options, picks the body (`json`, then `form`, then a raw `body`), changes the shared headers, resolves the URL, appends the query string with its `?`-or-nothing separator, and builds the fetch options `{...this.opts, ...rest}`.
- **Classification.** The settled fetch becomes one of: `null` (204, 205), the decoded JSON value, the response itself, or an error record `{method, url, body: rest, error}`.

Files:

- `js_values.dfy` (module `JsValues`): JavaScript values and objects. An object is an ordered list of key/value pairs. The module has property reads, property assignment, the shallow spread `{...a, ...b}`, rest-destructuring, `String.prototype.includes`, and the lemmas about them.
- `fetch_response.dfy` (module `FetchResponse`): methods, responses, the settled-promise datatypes, and `Classify`, the `.then`/`.catch` decision table.
- `global_fetch.dfy` (module `GlobalFetchClient`): the collaborators record `Environment`, the shared options class `Opts`, the class `GlobalFetch`, the request-building specification functions, and the exported free functions.

Helpers the client calls but does not define are fields of the `Environment` datatype. Each is a function value with no assumed properties. They are `isObject`, `serialize`, `JSON.stringify`, `isAbsoluteURL`, `combineURL`, the settled `fetch` and the settled `response.json()`. Every operation that uses one takes the environment as a parameter. lib/is-object, lib/serialize and lib/url are not part of this model.

Behaviour worth noting:

- A failure of `response.json()` is wrapped into the error record like any other failure, because the `.catch` handler follows the `.then` handler (global-fetch.ts:153-175).
- Per-call `headers` are merged after the form `Content-Type` override, so they win over it (global-fetch.ts:130-137).
- An object `query` always adds a `?` when the URL has none, even when its serialization is empty (global-fetch.ts:148).
- The client has no `responseType` and never moves a GET or HEAD body into the query string.

## Model

| member | source | states |
|---|---|---|
| `JsValues.Spread` | global-fetch.ts:58-61 | The keys of the first object keep their order as a prefix of the merged keys, so nothing is removed or reordered. An object without repeated keys stays so. |
| `JsValues.SpreadProp` | global-fetch.ts:58-61 | Shallow last-writer-wins merge. A key of the second object reads as its value there, and any other key reads as in the first. The merged keys are exactly the keys of both. |
| `JsValues.Assign` | global-fetch.ts:127 | Property assignment: an existing key keeps its position, and a new key goes last. |
| `JsValues.AssignProp` | global-fetch.ts:127 | After `o[k] = v`, k reads v, and every other key reads as before. |
| `JsValues.OmitProp` | global-fetch.ts:124 | The `...rest` of a destructuring lacks exactly the destructured keys. Every other key reads as in the call options. |
| `JsValues.IncludesIsSubstring` | global-fetch.ts:160 | `includes` holds exactly when the needle occurs at some index of the string. |
| `FetchResponse.JsonContentTypeMeans` | global-fetch.ts:159-160 | The content-type test holds exactly when the header is present and contains `application/json`. |
| `FetchResponse.Classify` | global-fetch.ts:153-175 | Only a 2xx response resolves. 204 and 205 give `null` whatever the content type. A JSON content type gives the decoded value. Any other ok response gives the response. A non-ok response, a rejected fetch or a failed decode gives an error record holding the method, the final URL, `rest` and the failure as it was. |
| `GlobalFetchClient.Opts.Default` | global-fetch.ts:28-34 | The default options: `credentials: 'include'`, `Accept` and `Content-Type` both `application/json`, and no method. |
| `GlobalFetchClient.Opts.Fields` | global-fetch.ts:152 | The options object that is spread carries the current credentials, the current headers and, once set, the current method, each key once. |
| `GlobalFetchClient.UrlResolution` | global-fetch.ts:139-141 | An absolute target is left unchanged, and the final URL does not depend on the base. A relative target becomes `combineURL(base, target)`. |
| `GlobalFetchClient.AppendQuery` | global-fetch.ts:143-150 | Without an object query the URL is unchanged. With one, the URL keeps its prefix and ends in the serialization. The result holds a `?`. Exactly one `?` is inserted when the URL had none, and none is inserted when it had one. |
| `GlobalFetchClient.WithBody` | global-fetch.ts:126-131 | The body assignments never drop or reorder an option of `rest`. Without an object `json` or an applicable `form` they leave `rest` as it is. |
| `GlobalFetchClient.WithBodyProp` | global-fetch.ts:126-131 | The later assignment wins: `body` is the form serialization if `form` applies, else the JSON text if `json` is an object, else unchanged. No other option changes. |
| `GlobalFetchClient.RequestRestProp` | global-fetch.ts:124-131 | An object `form` gives `serialize(form)` as the body, whatever `json` is. Failing that, an object `json` gives `JSON.stringify(json)`. Failing both, the caller's raw `body` passes through unchanged. The destructured keys are absent, and every other option reads as the caller passed it. |
| `GlobalFetchClient.HeadersAfterCall` | global-fetch.ts:130-137 | The header steps of a call never remove or reorder a header, and headers without repeated names stay so. |
| `GlobalFetchClient.HeadersAfterCallProp` | global-fetch.ts:130-137 | A form payload sets `Content-Type` to `application/x-www-form-urlencoded`. Per-call headers are merged afterwards and win, including over that `Content-Type`. Any other header keeps its value from before the call. |
| `GlobalFetchClient.FetchInitBody` | global-fetch.ts:124-152 | The options passed to `fetch` carry the chosen body: the form text, else the JSON text, else the caller's raw `body`, else none. |
| `GlobalFetchClient.FetchInitHeaders` | global-fetch.ts:124-152 | The options passed to `fetch` always carry the shared header object, because the caller's `headers` option is taken out of `rest`. |
| `GlobalFetchClient.FetchInitMethod` | global-fetch.ts:152 | The options passed to `fetch` carry the caller's raw `method` option when there is one, else the method the verb set, else none. |
| `GlobalFetchClient.FetchInitProp` | global-fetch.ts:124-152 | Any other option the caller passed that is not destructured overrides the shared option. Otherwise the shared option is used. |
| `GlobalFetchClient.GlobalFetch.constructor` | global-fetch.ts:36-50 | A new client holds the shared options object, the given base URL and the `Bearer` scheme. A truthy `headers` option is merged into the shared headers. |
| `GlobalFetchClient.GlobalFetch.SetBaseUrl` | global-fetch.ts:52-55 | Replaces the base URL unconditionally and returns the client. |
| `GlobalFetchClient.GlobalFetch.SetHeaders` | global-fetch.ts:57-63 | The shared headers become the merge of the old headers with the argument. Each argument key reads the argument's value, every other old header keeps its value, and no key is removed. |
| `GlobalFetchClient.GlobalFetch.SetHeader` | global-fetch.ts:65-68 | One header is set; the others are unchanged. |
| `GlobalFetchClient.GlobalFetch.SetToken` | global-fetch.ts:70-82 | `Authorization` becomes `"<authType> <token>"`. A string token leaves the scheme alone. A structured token with a non-empty `type` first replaces the scheme, persistently. A structured token that `isObject` rejects gives the token text `undefined`. |
| `GlobalFetchClient.GlobalFetch.SetMethod` | global-fetch.ts:119-121 | Sets the method on the shared options. |
| `GlobalFetchClient.GlobalFetch.Request` | global-fetch.ts:123-176 | The shared headers become `HeadersAfterCall`. `fetch` receives `TargetUrl` and the merge of the options with `RequestRest`, where every field of `rest`, `body` and `method` included, overrides. The outcome is `Classify` of what fetch settles to, with the method then in the options. |
| `GlobalFetchClient.GlobalFetch.Get` | global-fetch.ts:84-87 | Sets `GET`, then does what `Request` does. An error names `GET` and the final URL. |
| `GlobalFetchClient.GlobalFetch.Post` | global-fetch.ts:89-92 | The same with `POST`. |
| `GlobalFetchClient.GlobalFetch.Put` | global-fetch.ts:94-97 | The same with `PUT`. |
| `GlobalFetchClient.GlobalFetch.Patch` | global-fetch.ts:99-102 | The same with `PATCH`. |
| `GlobalFetchClient.GlobalFetch.Delete` | global-fetch.ts:104-107 | The same with `DELETE`. |
| `GlobalFetchClient.GlobalFetch.Head` | global-fetch.ts:109-112 | The same with `HEAD`. |
| `GlobalFetchClient.GlobalFetch.Options` | global-fetch.ts:114-117 | The same with `OPTIONS`. |
| `GlobalFetchClient.Http` | global-fetch.ts:179-181 | The default export builds a fresh client over the shared options with the given base URL. |
| `GlobalFetchClient.Get` | global-fetch.ts:182 | A fresh client with an empty base URL issues a `GET` over the shared options. That call's header and method changes stay in the shared options. |
| `GlobalFetchClient.Post` | global-fetch.ts:183 | The same with `POST`. |
| `GlobalFetchClient.Put` | global-fetch.ts:184 | The same with `PUT`. |
| `GlobalFetchClient.Patch` | global-fetch.ts:185 | The same with `PATCH`. |
| `GlobalFetchClient.Del` | global-fetch.ts:186 | The same with `DELETE`. |
| `GlobalFetchClient.Head` | global-fetch.ts:187 | The same with `HEAD`. |
| `GlobalFetchClient.Options` | global-fetch.ts:188 | The same with `OPTIONS`. |
| `GlobalFetchClient.HeadersAreShared` | global-fetch.ts:38 | A header set through one client is seen through another client built later over the same options. |
| `GlobalFetchClient.TokenSchemePersists` | global-fetch.ts:76-80 | After a structured token with scheme S, a later bare token t gives `Authorization: S t`. |

## Left out

- The `fetch` call itself, `isomorphic-fetch` and the promise sequencing. The settled result is the environment's `fetch` function applied to the URL and options. So the model assumes that the same request always settles the same way.
- `response.json()` and `JSON.stringify`: both are uninterpreted environment functions.
- `combineURL`, `isAbsoluteURL`, `serialize` and `isObject`: uninterpreted environment functions with no assumed properties, such as slash collapsing or key order.
- Interleaving of concurrent calls on the shared options. The error record reads the method from the options when the promise settles, and another call may have changed it by then. The model covers a single call, where that read gives the method the verb set.
- Synchronous throws. The collaborators are total functions here, so every call reaches `fetch`. In JavaScript, a throw before `fetch` escapes the verb call unwrapped and never becomes an error record. Examples are `JSON.stringify` of a cyclic `json`, a throwing `serialize`, `isObject`, `isAbsoluteURL` or `combineURL`, and a missing options argument to `request`.
- `credentials: 'include': kept as a field of the options and passed through, with no logic.
- Numbers are integers: no NaN, no fractions, and no decimal text of numbers.
- OwnProps: spreading a string (a truthy non-object `headers` option of the constructor) contributes no keys here. JavaScript would contribute its characters under index keys.
- JavaScript orders integer-like keys of an object before the others. The model keeps plain insertion order for every key.
- `setToken` takes the declared `string | IAuthToken`. A value of another runtime type, or a non-string `type`, is not modelled.
