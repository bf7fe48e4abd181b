# Tradescan / TradeHub Python client — verified model of its core

This Dafny project models the parts of the `switcheo-tradescan-python`
client that hold logic of their own:

- **Transport wrapper** (`tradescan.dfy`, module `Tradescan`): the `Request`
  class keeps the API base URL with its trailing slashes stripped
  (`rstrip('/')`) and the timeout. Each GET and POST targets `url + path`.
  A failed POST raises `TradescanApiException`, built from the `error_code`,
  `error_message` and `error` keys of the error body. A missing key gives
  `None`.
- **Token catalog** (`tradehub.dfy`, module `Tradehub`): the `PublicClient`
  class. Its constructor caches the list of token denoms. `get_token_list`
  builds that list in a loop. `get_token` lower-cases the query, checks it
  against the cache, and returns the first fetched token record with that
  denom. Otherwise it returns `None`.
- **Structure checker of the test suite** (`structure_check.dfy`, module
  `StructureCheck`): `assertDictStructure` is modelled as a predicate that
  compares an expected schema with a JSON object. `path_to_dict_path` renders
  a key path as `['k1']['k2']…`.

Shared values live in `wrappers.dfy` (`Option`, `Result`) and
`json_values.dfy` (`Json`, the parsed JSON document; `Null` also stands for
Python's `None`).

Network calls are not made. Each GET and POST returns the request it would
send (`HttpCall`) and takes the server's parsed reply (`Response`) as a
parameter. The token records that `get_tokens` would fetch are passed in as
the sequence `fetched`.

What the code does at its edges:

- A failed POST whose error body is not JSON raises from `r.json()`
  itself, before any `TradescanApiException` is built.
- A POST error body that is JSON but not an object makes `.get` raise. This
  is `PostFailure.ErrorBodyNotObject`.
- `raise_for_status` raises only for status codes 400–599. This is the rule
  of the HTTP library.
- The timeout is stored as given. Nothing checks that it is positive.
- The exception's message is `None` when the body has no `error_message`.
- `get_token` scans a freshly fetched record list, not the cache. The lookup
  therefore takes the cache and the scanned records separately.
- `PublicClient.__init__` takes one argument, `api_url`, with the default
  `https://tradescan.switcheo.org`. It always builds its `Request` with
  timeout 30. `Request.__init__` defaults to `https://switcheo.org` and 30.

## Model

| member | source | states |
|---|---|---|
| `Tradescan.RStripSlash` | tradescan/utils.py:14 | `rstrip('/')`: the result is a prefix of the input, does not end with `/`, and only `/` characters were removed. An input not ending in `/` is returned unchanged. |
| `Tradescan.RStripSlashUnique` | tradescan/utils.py:14 | Those three properties determine the stripped URL: any prefix without a trailing `/` from which only slashes were cut is it. |
| `Tradescan.RStripSlashIdempotent` | tradescan/utils.py:14 | Stripping an already stripped URL changes nothing. |
| `Tradescan.RStripSlashAbsorbsSlashes` | tradescan/utils.py:14 | Appending any run of `/` to a URL does not change its stripped form. |
| `Tradescan.Request.constructor` | tradescan/utils.py:13-15 | The stored `url` is the stripped `api_url` and so never ends with `/`. The timeout is stored unchanged. The defaults are `https://switcheo.org` and 30. |
| `Tradescan.Request.Get` | tradescan/utils.py:17-21 | The GET targets exactly `url + path` with the stored timeout and the given params. A 4xx/5xx reply is a generic HTTP error carrying the status, with no structured fields. Any other reply yields the parsed body. |
| `Tradescan.Request.Post` | tradescan/utils.py:23-30 | The POST targets exactly `url + path` with the stored timeout, forwarding data, json and params. A 4xx/5xx reply with an object body raises the exception built by `ApiErrorOf`. A non-object body fails on `.get`. Any other reply yields the parsed body. |
| `Tradescan.TargetUrlJoin` | tradescan/utils.py:14-25 | For a path starting with `/`, the target URL is an `api_url` prefix without a trailing `/`, followed by the path unchanged. So every slash at the join comes from the path: one for a path like `/x`, two for `//x`. |
| `Tradescan.TargetUrlIgnoresTrailingSlashes` | tradescan/utils.py:14-25 | Trailing slashes on `api_url` never change a target URL. |
| `Tradescan.BodyGet` | tradescan/utils.py:29 | `dict.get`: a present key gives its bound value, an absent key gives `None`. |
| `Tradescan.ApiErrorOf` | tradescan/utils.py:29 | The exception's `error_code`, message and `error` are the body's `error_code`, `error_message` and `error`. Each is `None` when its key is missing. |
| `Tradescan.ApiErrorOfIgnoresOtherKeys` | tradescan/utils.py:29 | Adding or changing any other key of the error body leaves the exception unchanged. |
| `Tradescan.ApiErrorOfDeterminedByErrorKeys` | tradescan/utils.py:29 | Bodies that agree on the three error keys raise equal exceptions. |
| `Tradescan.ApiErrorExample` | tradescan/utils.py:6-9 | `{"error_code":7,"error_message":"bad request","error":"detail"}` gives the exception (7, "bad request", "detail"). An empty body gives (None, None, None). |
| `Tradehub.Lower` | tradehub/public_client.py:34-36 | `token.lower()` on ASCII letters: same length, and each character is lower-cased on its own. |
| `Tradehub.LowerIdempotent` | tradehub/public_client.py:34 | Lower-casing a lower-cased query changes nothing. |
| `Tradehub.Denoms` | tradehub/public_client.py:39-44 | The denom list has the same length as the record list, and element `i` is the denom of record `i`, so order is kept. |
| `Tradehub.DenomsMembership` | tradehub/public_client.py:39-44 | A denom is in the denom list exactly when some record carries it. |
| `Tradehub.DenomsAppend` | tradehub/public_client.py:39-44 | The denom list of concatenated record lists is the concatenation of their denom lists. |
| `Tradehub.FirstIndex` | tradehub/public_client.py:35-37 | The scan yields the position of the first record whose denom matches. It yields nothing exactly when no record matches. |
| `Tradehub.Lookup` | tradehub/public_client.py:29-37 | `get_token(None)` is `None`. A query whose lower-cased form is not cached gives `None`. A result is a fetched record whose denom is the lower-cased query, and it is the first such record. `None` after a cache hit means no fetched record matches. |
| `Tradehub.LookupComplete` | tradehub/public_client.py:34-44 | When the cache is the denom list of the scanned records, a query is found exactly when its lower-cased form is cached. |
| `Tradehub.LookupCaseInsensitive` | tradehub/public_client.py:34-36 | `get_token(t)` equals `get_token(t.lower())` for the same cache and records. |
| `Tradehub.LookupReturnsFirst` | tradehub/public_client.py:35-37 | A later duplicate denom is never returned in place of an earlier record. |
| `Tradehub.LookupExample` | tradehub/public_client.py:29-37 | With a catalog holding `swth`, the query `SWTH` returns that record and an unknown denom returns `None`, not an error. |
| `Tradehub.PublicClient.constructor` | tradehub/public_client.py:9-18 | The client owns a fresh request on the stripped `api_url` with timeout 30. `api_url` defaults to `https://tradescan.switcheo.org`. It caches the denom list of the records fetched at construction. |
| `Tradehub.PublicClient.GetTokenList` | tradehub/public_client.py:39-44 | The appending loop yields exactly the denom list of the fetched records. |
| `Tradehub.PublicClient.GetToken` | tradehub/public_client.py:29-37 | The guarded linear search with early return computes `Lookup` over the cached `tokens` and the fetched records. |
| `StructureCheck.DictStructure` | tests/__init__.py:19-42 | `assertDictStructure` passes exactly when the key sets are equal and every actual value passes its schema entry. A passing document has equal key sets, and each value has the type its entry asks for. |
| `StructureCheck.EntryConforms` | tests/__init__.py:22-42 | A dict entry needs a dict that passes recursively. A list entry needs a list and a first schema element, and every element must pass against that first element. A type entry needs a value of that type. A passing value has the entry's type, and a passing list entry has a first element. |
| `StructureCheck.ElementConforms` | tests/__init__.py:31-38 | A list element passes a dict first element by recursion and a type first element by a type check. A list as first element raises, so it never passes. A passing element has the type the first element asks for. |
| `StructureCheck.ConformingValueHasSchemaType` | tests/__init__.py:22-42 | A value that passes an entry is a dict for a dict schema, a list for a list schema, and of the named type for a type schema. For a type schema the converse holds too. |
| `StructureCheck.KeySetsMustMatch` | tests/__init__.py:19-20 | Validation fails whenever the key sets of the expected and actual dicts differ. |
| `StructureCheck.FailureHasKey` | tests/__init__.py:21-42 | With equal key sets, a failure is a failure at some key. |
| `StructureCheck.EmptyListSchemaFails` | tests/__init__.py:31 | A list schema with no first element rejects every value, because `expect[key][0]` is read. |
| `StructureCheck.EmptyListPasses` | tests/__init__.py:32-35 | An empty actual list passes any list schema that has a first element. |
| `StructureCheck.ListSchemaUsesFirstOnly` | tests/__init__.py:31-38 | Only the first element of a list schema is consulted. |
| `StructureCheck.ListConformsSplit` | tests/__init__.py:32-38 | A list passes exactly when both halves of any split of it pass, since each element is checked on its own against the first schema element. |
| `StructureCheck.UpdateKeepsStructure` | tests/__init__.py:19-42 | Replacing a value by one that passes its entry keeps the document passing. |
| `StructureCheck.RemoveKeepsStructure` | tests/__init__.py:19-42 | Dropping a key from both the schema and the document keeps it passing. |
| `StructureCheck.MergeKeepsStructure` | tests/__init__.py:19-42 | Passing documents over disjoint key sets merge into a passing document for the merged schema. |
| `StructureCheck.InstanceConforms` | tests/__init__.py:6-42 | For every well-formed schema, the document built from it passes the checker. Well-formed means list schemas are non-empty and do not start with a list. Every recursive step is on a strictly smaller schema. |
| `StructureCheck.Decimal` | tests/__init__.py:33-37 | `str(i)` for a list position `i`: a non-empty string of decimal digits whose value is `i`, with no leading zero unless `i` is 0. This is the only string with those properties. |
| `StructureCheck.DictPath` | tests/__init__.py:55 | `path_to_dict_path`: the `['key']` segments joined in order. The output is `len(str(key)) + 4` characters long per step. |
| `StructureCheck.DictPathEmpty` | tests/__init__.py:55 | The empty path renders as the empty string. |
| `StructureCheck.DictPathAppend` | tests/__init__.py:55 | Rendering `p + q` is rendering `p` followed by rendering `q`. |
| `StructureCheck.DictPathExtend` | tests/__init__.py:55 | Extending a path by a key appends exactly `['key']`. |
| `StructureCheck.DictPathExample` | tests/__init__.py:49-50 | `["layer1","layer2","key"]` renders as `['layer1']['layer2']['key']`. |
| `StructureCheck.DictPathIndexExample` | tests/__init__.py:55 | A list position renders in decimal: `["data", 12]` gives `['data']['12']`. |

## Left out

- HTTP traffic is not modelled: `requests.get`/`requests.post`, redirects,
  timeouts firing and JSON parsing of reply bodies. Replies are parameters,
  already parsed.
- A POST error body that is not valid JSON is not modelled. There `r.json()`
  raises, and a `Json` value cannot represent such a body.
- `Request.status` (tradescan/utils.py:32-35) is not modelled. It is a bare
  GET on the base URL.
- `get_tokens` (tradehub/public_client.py:46-47) is represented by the
  `fetched` parameter. Construction failing because that fetch fails is not
  modelled: the constructor receives the fetched records.
- The commented-out endpoints and bootstrap lines
  (tradehub/public_client.py:16-17, 21-27) are dead code and are not modelled.
- Token records always have a string `denom`. A record without one (a
  `KeyError` in `token["denom"]`) is not represented.
- Tradehub.Lookup: queries are strings or `None`. A non-string query, which
  would fail on `.lower()`, is not represented.
- Tradehub.Lower: only ASCII letters are lower-cased. Python's full Unicode
  case mapping is not modelled.
- StructureCheck.ConformingValueHasSchemaType: type checks compare type tags
  exactly. Python's subclassing is not modelled, so `isinstance(True, int)`
  being true is not captured.
- The assertion messages of `assertDictStructure` are not modelled. So is its
  `path` argument, which is used only to build those messages.
- The model does not say which failing key is reported first, because that
  depends on dict iteration order.
- Only string keys are represented, as in parsed JSON.
