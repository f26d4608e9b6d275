# DitchCarbon API clients: request construction

This project models how the DitchCarbon client library turns a call into an HTTP request.
The repository holds three near-copies of the client:

- `DitchCarbonClient` in `src/ditchcarbon/ditchcarbon.py`, the documented class (module `PackageClient`);
- a second `DitchCarbonClient` in `src/DitchCarbon/main.py` (module `SrcClient`);
- module-level functions in `main.py` that send no API key (module `ScriptClient`).

Every operation except `get_activity` (`activity` in `main.py`) works the same way. It snapshots
its parameters with `locals()`. In the two class variants that snapshot also holds `self`, first.
`get_activity` passes an empty dict instead. The operation hands the snapshot or dict to
`_call_ditch_carbon`, which serialises it with `args_gen` and builds the URL
`BASE_URL + "/" + endpoint + "?" + query`. The request itself goes through `requests.get`,
which is not modelled. What the model produces is the URL and the header dict.

Shared modules:

- `Query` is `args_gen`. A dict is a sequence of `(name, value)` entries in insertion order, and a
  value is a `str()`-rendered string or `None`. `args_gen` emits `name=value` for every non-`None`
  entry, in order, joined by `&`, with no percent-encoding. The three copies of `args_gen`
  (`src/ditchcarbon/ditchcarbon.py:31-36`, `src/DitchCarbon/main.py:15-20`, `main.py:8-13`) are the
  same text, so they are modelled once. `Query.Parse` is the partner: it reads a query string back
  into its pairs. `Query.Assign` is Python's `d[key] = value` on a dict: an existing key keeps its
  place.
- `Http` holds `BASE_URL` (the literal `https://api.ditchcarbon.com/v1.0` in all three files), the
  URL builder `Compose`, and its inverse `Split` and `Decode`. `Str` renders an id in an f-string
  path, so `None` becomes `"None"`.
- `Text` holds Python's `'&'.join`, which is all the clients use. It also holds `str.split` and
  cutting a string at its first `=` or `?`, which only the model's readers use (`Query.Parse`,
  `Http.Split`).

Operations are Dafny functions that return an `Http.Request`. Parameter defaults are Dafny
default parameter values, so `c.GetExpense(Some(s), Some(a))` is the two-argument Python call. The two
operations that mutate their snapshot (`locals_['id'] = None`) are methods. Each one keeps the
snapshot in a local variable and reassigns it with `Query.Assign`. The clients' `__init__`
becomes `NewClient`. It returns `Err(AssertionError)` for a missing key and otherwise a fresh
`Client` whose `apiKey` is the key unchanged.

Behaviour of the code worth noting:

- The code never checks required parameters. A caller may pass `None` for one, and it is then
  left out of the query. No `InvalidArgument` error exists.
- The path id is not always kept out of the query. `get_server` passes `locals()` unchanged, so in
  the class variants the id is both in the path and in the query. In `main.py` the path is the
  literal `servers/id`, and the id goes only into the query.
- In the class variants every query that comes from `locals()` starts with `self=<repr of the
  client>`.
- The `get_expense` defaults differ between the copies. They are `GBP` and `US` in
  `src/ditchcarbon/ditchcarbon.py` and `None` in `src/DitchCarbon/main.py`. `main.py` also names the
  first parameter `supplier_`. In `main.py`, `categories(q, page)` has no defaults, and neither
  has `server_emissions`, whose `: None` after `region` and `server_farm_size` are annotations.
- `BASE_URL` is a module constant, not a per-client setting.
- The id is written into the path unescaped (`f"servers/{id}"`, `f"activities/{id}"`). An id
  containing `?` therefore ends the path early, and the rest of the id is read as part of the
  query.

## Model

| member | source | states |
|---|---|---|
| `Query.ArgsGen` | src/ditchcarbon/ditchcarbon.py:31-36 | the query is empty exactly when no entry has a value: an empty or all-`None` dict gives `""` |
| `Query.Pieces` | src/ditchcarbon/ditchcarbon.py:31-35 | the comprehension yields one piece per entry with a value and none for a `None` entry; `Query.PiecesRender` states what each piece is |
| `Query.PiecesRender` | src/ditchcarbon/ditchcarbon.py:31-35 | the comprehension emits `key=value` for exactly the entries with a value, in dict order, and nothing for `None` entries |
| `Query.PresentMember` | src/ditchcarbon/ditchcarbon.py:33-34 | a pair `(k, v)` is carried exactly when some entry is `k` with value `v` (both directions) |
| `Query.PresentAppend` | src/DitchCarbon/main.py:15-19 | filtering keeps enumeration order: the pairs of `a + b` are the pairs of `a` followed by those of `b` |
| `Query.ParseArgsGen` | src/ditchcarbon/ditchcarbon.py:31-36 | reading back the serialised query yields exactly the non-`None` pairs in order, when names contain no `&` or `=` and values no `&` |
| `Query.ArgsGenSeparators` | main.py:8-13 | for a well-formed dict (no `&` or `=` in a name, no `&` in a value), a query of n pairs holds exactly n - 1 `&` separators, and none when it is empty |
| `Query.ArgsGenCons` | src/ditchcarbon/ditchcarbon.py:31-36 | a first entry with a value leads the query as `key=value`, then `&` and the rest if there is any; a `None` first entry is skipped |
| `Query.ArgsGenSkipsNone` | src/ditchcarbon/ditchcarbon.py:34 | an entry whose value is `None` leaves the query unchanged wherever it stands |
| `Query.Assign` | src/ditchcarbon/ditchcarbon.py:163 | `d[key] = value` keeps the key order (a new key goes last), stores the pair, and leaves every other entry in place |
| `Query.AssignNone` | src/ditchcarbon/ditchcarbon.py:162-164 | overwriting a present key with `None` gives the same pairs and the same query as removing that key |
| `Query.WithoutPresent` | src/DitchCarbon/main.py:53-55 | removing a key keeps exactly the pairs with other names (both directions) |
| `Text.Join` | src/ditchcarbon/ditchcarbon.py:36 | `'&'.join(result)`; it has no contract of its own, and `Text.SplitJoin` and `Text.JoinSeparators` state its behaviour |
| `Text.SplitJoin` | src/ditchcarbon/ditchcarbon.py:36 | splitting at `&` undoes `'&'.join` when no piece contains `&` |
| `Text.JoinSeparators` | src/ditchcarbon/ditchcarbon.py:36 | joining n separator-free pieces writes exactly n - 1 separators |
| `Http.Compose` | src/ditchcarbon/ditchcarbon.py:54 | `BASE_URL + f"/{endpoint}?{args}"`, where `BASE_URL` is the constant `Http.BaseUrl` of line 3 in each file; it has no contract of its own, and `Http.SplitCompose` states that the endpoint and the query can be read back from the URL |
| `Http.Str` | src/ditchcarbon/ditchcarbon.py:146 | `f"{id}"` in a path: a string renders as itself, and the result is `"None"` exactly for `None` or the string `"None"`, so the two cannot be told apart in the URL |
| `Http.Split` | src/ditchcarbon/ditchcarbon.py:54 | every URL it accepts is `BASE_URL/<endpoint>?<query>` with an endpoint free of `?` |
| `Http.SplitCompose` | src/ditchcarbon/ditchcarbon.py:54 | a URL built from an endpoint without `?` splits back into that endpoint and query; the `?` is always written |
| `Http.DecodeCompose` | src/ditchcarbon/ditchcarbon.py:49-54 | the URL built from a `?`-free endpoint and a well-formed dict decodes to the endpoint and exactly the dict's present pairs in order |
| `PackageClient.NewClient` | src/ditchcarbon/ditchcarbon.py:16-18 | construction fails with `AssertionError` exactly when the key is `None`; otherwise the key is stored unchanged |
| `PackageClient.Client.constructor` | src/ditchcarbon/ditchcarbon.py:18 | the new client holds the given key and its `self` rendering |
| `PackageClient.Client.CallDitchCarbon` | src/ditchcarbon/ditchcarbon.py:49-54 | headers are exactly `accept: application/json` and `authorization: Bearer <key>`; the URL is `BASE_URL/<endpoint>?<args_gen(args)>` and, for a `?`-free endpoint and a well-formed dict, decodes back to the endpoint and the present pairs |
| `PackageClient.Client.GetExpense` | src/ditchcarbon/ditchcarbon.py:58-73 | targets `calculate`; the query carries the present ones of `self, supplier, amount, description, amount_currency, date, region`, in that order |
| `PackageClient.Client.GetSupplier` | src/ditchcarbon/ditchcarbon.py:75-89 | targets `supplier` with `self, name, currency, country, date, category` |
| `PackageClient.Client.GetProduct` | src/ditchcarbon/ditchcarbon.py:91-110 | targets `product` with `self, name, manufacturer, category_name, unit, price_cents, price_currency, months, country` |
| `PackageClient.Client.FindServer` | src/ditchcarbon/ditchcarbon.py:112-133 | targets `servers` with `self, manufacturer_name, model, ram_bytes, cpu_name, os_name, cpu_count, core_count, thread_count, is_virtual, disk_count` |
| `PackageClient.Client.GetServer` | src/ditchcarbon/ditchcarbon.py:135-146 | targets `servers/<id>` and the query still carries `self` and `id` |
| `PackageClient.Client.GetServerEmissions` | src/ditchcarbon/ditchcarbon.py:148-164 | targets `servers/<id>`; the request equals the one for a dict of `self, hours, region, server_farm_size` alone, so no `id` pair is sent |
| `PackageClient.Client.GetEmissions` | src/ditchcarbon/ditchcarbon.py:166-181 | targets `emissions` with `self, q, unit, region, date, quantity` |
| `PackageClient.Client.GetCategories` | src/ditchcarbon/ditchcarbon.py:183-194 | targets `categories` with `self, q, page` |
| `PackageClient.Client.GetActivityCategories` | src/ditchcarbon/ditchcarbon.py:196-206 | targets `activities/top-level` with `self, region` |
| `PackageClient.Client.GetActivities` | src/ditchcarbon/ditchcarbon.py:208-220 | targets `activities` with `self, region, name, page` |
| `PackageClient.Client.GetActivity` | src/ditchcarbon/ditchcarbon.py:222-232 | the URL is exactly `BASE_URL/activities/<id>?`, with an empty query |
| `PackageClient.Client.GetActivityAssessment` | src/ditchcarbon/ditchcarbon.py:234-249 | targets `activities/<id>`; the request equals the one for `self, region, year, declared_unit` alone, so no `id` pair is sent |
| `PackageClient.ExpenseDefaults` | src/ditchcarbon/ditchcarbon.py:58 | a two-argument call sends `self`, `supplier`, `amount`, `amount_currency=GBP`, `region=US` and nothing else |
| `PackageClient.SupplierDefaults` | src/ditchcarbon/ditchcarbon.py:75 | a one-argument call sends `self`, `name` and `currency=USD` |
| `PackageClient.FindServerRequiredOnly` | src/ditchcarbon/ditchcarbon.py:112-114 | a call with only the three required arguments sends no optional parameter |
| `PackageClient.ServerKeepsId` | src/ditchcarbon/ditchcarbon.py:146 | the URL is `BASE_URL/servers/<id>?self=<repr>&id=<id>` |
| `SrcClient.NewClient` | src/DitchCarbon/main.py:8-10 | construction fails with `AssertionError` exactly when the key is `None`; otherwise the key is stored unchanged |
| `SrcClient.Client.constructor` | src/DitchCarbon/main.py:10 | the new client holds the given key and its `self` rendering |
| `SrcClient.Client.CallDitchCarbon` | src/DitchCarbon/main.py:22-30 | headers are exactly `accept: application/json` and `authorization: Bearer <key>`; the URL is `BASE_URL/<endpoint>?<args_gen(args)>` and, for a `?`-free endpoint and a well-formed dict, decodes back |
| `SrcClient.Client.GetExpense` | src/DitchCarbon/main.py:32-34 | targets `calculate` with `self, supplier, amount, description, amount_currency, date, region` |
| `SrcClient.Client.GetSupplier` | src/DitchCarbon/main.py:36-37 | targets `supplier` with `self, name, currency, country, date, category` |
| `SrcClient.Client.GetProduct` | src/DitchCarbon/main.py:39-42 | targets `product` with `self` and the eight product parameters in order |
| `SrcClient.Client.FindServer` | src/DitchCarbon/main.py:44-47 | targets `servers` with `self` and the ten server parameters in order |
| `SrcClient.Client.GetServer` | src/DitchCarbon/main.py:49-50 | targets `servers/<id>` and the query still carries `self` and `id` |
| `SrcClient.Client.GetServerEmissions` | src/DitchCarbon/main.py:52-55 | targets `servers/<id>`; the request equals the one without an `id` entry |
| `SrcClient.Client.GetEmissions` | src/DitchCarbon/main.py:57-58 | targets `emissions` with `self, q, unit, region, date, quantity` |
| `SrcClient.Client.GetCategories` | src/DitchCarbon/main.py:60-61 | targets `categories` with `self, q, page` |
| `SrcClient.Client.GetActivityCategories` | src/DitchCarbon/main.py:63-64 | targets `activities/top-level` with `self, region` |
| `SrcClient.Client.GetActivities` | src/DitchCarbon/main.py:66-67 | targets `activities` with `self, region, name, page` |
| `SrcClient.Client.GetActivity` | src/DitchCarbon/main.py:69-70 | the URL is exactly `BASE_URL/activities/<id>?` |
| `SrcClient.Client.GetActivityAssessment` | src/DitchCarbon/main.py:72-75 | targets `activities/<id>`; the request equals the one without an `id` entry |
| `SrcClient.ExpenseDefaults` | src/DitchCarbon/main.py:32 | a two-argument call sends only `self`, `supplier` and `amount` |
| `SrcClient.SupplierDefaults` | src/DitchCarbon/main.py:36 | a one-argument call sends `self`, `name` and `currency=USD` |
| `SrcClient.FindServerRequiredOnly` | src/DitchCarbon/main.py:44-46 | a call with only the three required arguments sends no optional parameter |
| `SrcClient.ServerKeepsId` | src/DitchCarbon/main.py:50 | the URL is `BASE_URL/servers/<id>?self=<repr>&id=<id>` |
| `ScriptClient.CallDitchCarbon` | main.py:16-21 | the only header is `accept: application/json`, with no `authorization`; the URL is `BASE_URL/<endpoint>?<args_gen(args)>` and, for a `?`-free endpoint and a well-formed dict, decodes back |
| `ScriptClient.Expense` | main.py:24-25 | targets `calculate` with `supplier_, amount, description, amount_currency, date, region` |
| `ScriptClient.Supplier` | main.py:28-29 | targets `supplier` with `name, currency, country, date, category` |
| `ScriptClient.Product` | main.py:32-34 | targets `product` with the eight product parameters in order |
| `ScriptClient.FindServer` | main.py:37-39 | targets `servers` with the ten server parameters in order |
| `ScriptClient.GetServer` | main.py:42-43 | the path is the literal `servers/id` whatever the argument; the query is `id=<id>`, or empty for `None` |
| `ScriptClient.ServerEmissions` | main.py:46-49 | targets `servers/<id>`; the request equals the one for `hours, region, server_farm_size` alone |
| `ScriptClient.Emissions` | main.py:52-53 | targets `emissions` with `q, unit, region, date, quantity` |
| `ScriptClient.Categories` | main.py:56-57 | the query is `q=<q>` and `page=<page>`, each only when not `None`, joined by `&` |
| `ScriptClient.ActivityCategories` | main.py:60-61 | targets `activities/top-level` with `region` |
| `ScriptClient.Activities` | main.py:64-65 | targets `activities` with `region, name, page` |
| `ScriptClient.Activity` | main.py:68-69 | the URL is exactly `BASE_URL/activities/<id>?` |
| `ScriptClient.ActivityAssessment` | main.py:72-75 | targets `activities/<id>`; the request equals the one for `region, year, declared_unit` alone |
| `ScriptClient.ExpenseFirstKey` | main.py:24-25 | a two-argument call sends `supplier_=<supplier>&amount=<amount>` and nothing else |
| `ScriptClient.SupplierDefaults` | main.py:28 | a one-argument call sends `name` and `currency=USD` |
| `ScriptClient.FindServerRequiredOnly` | main.py:37-39 | a call with only the three required arguments sends no optional parameter |

Every per-operation contract states the exact header map: the JSON `accept` header, plus the
bearer `authorization` header in the class variants. The remaining function contracts differ
by operation.

- Operations whose query comes from their dict state the exact URL,
  `Http.Compose(endpoint, Query.ArgsGen(dict))`, for their own dict. They also state the decoded
  view (endpoint and pairs). The decoded view holds under two conditions. The parameter names
  and values must be readable back: no `&` or `=` in a name and no `&` in a value. And for an
  operation with the id in its path (`GetServer`), the id must contain no `?`.
- Five functions state their exact URL in closed form instead, and no decoded view:
  `PackageClient.Client.GetActivity`, `SrcClient.Client.GetActivity`, `ScriptClient.Activity`,
  `ScriptClient.GetServer` and `ScriptClient.Categories`.
- The methods state that their request equals `CallDitchCarbon` on the dict without `id`. They
  therefore carry `CallDitchCarbon`'s facts: exact headers, exact URL and decoded view. The
  decoded view holds under the same conditions, and the id in their path must contain no `?`
  either.

## Left out

- `requests.get` and the `Response` it returns are network I/O through a library this model cannot see. The model stops at the URL and the header dict.
- The text of `self`'s repr (`<... object at 0x...>`) depends on the runtime address. It is the opaque `selfRepr` string, fixed when the client is created.
- `print(locals())` in `get_expense` of `src/DitchCarbon/main.py` (line 33) only prints, so it is not modelled.
- `str()` formatting of ints, bools and dates inside the f-strings is not modelled. Values reach the model as strings that have already been rendered, or `None`.
- Python's `TypeError` for a missing positional argument has no Dafny counterpart. Required parameters are parameters without a default, so every caller supplies them.
- `PackageClient.NewClient` and `SrcClient.NewClient` fail exactly when the key is `None` only while assertions run. Under `python -O` the `assert` in `__init__` is removed, construction succeeds, and the first call raises `TypeError` at `"Bearer " + None`. The model does not cover optimised mode.
- A non-string API key would make `"Bearer " + self.api_key` raise `TypeError`. The model's key is always a string.
- Percent-encoding is left out because the code does none. `Query.Parse` reads back only queries whose names contain no `&` or `=` and whose values contain no `&`. Outside that range the query is ambiguous, and the code does nothing about it.
