/** The module-level functions of main.py: the same operations as the client class,
    without an API key. Every function except `activity` snapshots its parameters with
    `locals()` and hands them to `_call_ditch_carbon`; `activity` passes an empty dict. */
module ScriptClient {
  import opened Wrappers
  import Text
  import Query
  import Http

  /** `_call_ditch_carbon`, up to the call into the HTTP library: the URL is the endpoint
      and the serialised dict; the only header asks for JSON, and nothing authenticates. */
  function CallDitchCarbon(endpoint: string, args: Query.Bag): (r: Http.Request)
    ensures r.headers.Keys == {"accept"} && r.headers["accept"] == "application/json"
    ensures "authorization" !in r.headers
    ensures r.url == Http.Compose(endpoint, Query.ArgsGen(args))
    ensures '?' !in endpoint && Query.WellFormed(args) ==>
      Http.Decode(r.url) == Some((endpoint, Query.Present(args)))
  {
    Http.DecodeCompose(endpoint, args);
    Http.Request(Http.Compose(endpoint, Query.ArgsGen(args)), map["accept" := "application/json"])
  }

  /** `expense`: endpoint `calculate`; its first parameter is named `supplier_`, and so
      is its query pair. */
  function Expense(supplier: Option<string>, amount: Option<string>,
                   description: Option<string> := None, amountCurrency: Option<string> := None,
                   date: Option<string> := None, region: Option<string> := None): (r: Http.Request)
    ensures r.headers == map["accept" := "application/json"]
    ensures var args := [("supplier_", supplier), ("amount", amount), ("description", description),
                         ("amount_currency", amountCurrency), ("date", date), ("region", region)];
      r.url == Http.Compose("calculate", Query.ArgsGen(args)) &&
      (Query.WellFormed(args) ==> Http.Decode(r.url) == Some(("calculate", Query.Present(args))))
  {
    CallDitchCarbon("calculate",
      [("supplier_", supplier), ("amount", amount), ("description", description),
       ("amount_currency", amountCurrency), ("date", date), ("region", region)])
  }

  /** `supplier`: endpoint `supplier`; `currency` defaults to `USD`. */
  function Supplier(name: Option<string>, currency: Option<string> := Some("USD"),
                    country: Option<string> := None, date: Option<string> := None,
                    category: Option<string> := None): (r: Http.Request)
    ensures r.headers == map["accept" := "application/json"]
    ensures var args := [("name", name), ("currency", currency), ("country", country), ("date", date),
                         ("category", category)];
      r.url == Http.Compose("supplier", Query.ArgsGen(args)) &&
      (Query.WellFormed(args) ==> Http.Decode(r.url) == Some(("supplier", Query.Present(args))))
  {
    CallDitchCarbon("supplier",
      [("name", name), ("currency", currency), ("country", country), ("date", date), ("category", category)])
  }

  /** `product`: endpoint `product`. */
  function Product(name: Option<string>, manufacturer: Option<string>,
                   categoryName: Option<string> := None, unit: Option<string> := None,
                   priceCents: Option<string> := None, priceCurrency: Option<string> := None,
                   months: Option<string> := None, country: Option<string> := None): (r: Http.Request)
    ensures r.headers == map["accept" := "application/json"]
    ensures var args := [("name", name), ("manufacturer", manufacturer), ("category_name", categoryName),
                         ("unit", unit), ("price_cents", priceCents), ("price_currency", priceCurrency),
                         ("months", months), ("country", country)];
      r.url == Http.Compose("product", Query.ArgsGen(args)) &&
      (Query.WellFormed(args) ==> Http.Decode(r.url) == Some(("product", Query.Present(args))))
  {
    CallDitchCarbon("product",
      [("name", name), ("manufacturer", manufacturer), ("category_name", categoryName),
       ("unit", unit), ("price_cents", priceCents), ("price_currency", priceCurrency),
       ("months", months), ("country", country)])
  }

  /** `find_server`: endpoint `servers`. */
  function FindServer(manufacturerName: Option<string>, model: Option<string>, ramBytes: Option<string>,
                      cpuName: Option<string> := None, osName: Option<string> := None,
                      cpuCount: Option<string> := None, coreCount: Option<string> := None,
                      threadCount: Option<string> := None, isVirtual: Option<string> := None,
                      diskCount: Option<string> := None): (r: Http.Request)
    ensures r.headers == map["accept" := "application/json"]
    ensures var args := [("manufacturer_name", manufacturerName), ("model", model), ("ram_bytes", ramBytes),
                         ("cpu_name", cpuName), ("os_name", osName), ("cpu_count", cpuCount),
                         ("core_count", coreCount), ("thread_count", threadCount),
                         ("is_virtual", isVirtual), ("disk_count", diskCount)];
      r.url == Http.Compose("servers", Query.ArgsGen(args)) &&
      (Query.WellFormed(args) ==> Http.Decode(r.url) == Some(("servers", Query.Present(args))))
  {
    CallDitchCarbon("servers",
      [("manufacturer_name", manufacturerName), ("model", model), ("ram_bytes", ramBytes),
       ("cpu_name", cpuName), ("os_name", osName), ("cpu_count", cpuCount),
       ("core_count", coreCount), ("thread_count", threadCount),
       ("is_virtual", isVirtual), ("disk_count", diskCount)])
  }

  /** `get_server`: the path is the literal `servers/id`, whatever the argument; the id
      travels only as the query pair `id=<id>`. */
  function GetServer(id: Option<string>): (r: Http.Request)
    ensures r.headers == map["accept" := "application/json"]
    ensures r.url == Http.Compose("servers/id", Text.Join(if id.Some? then ["id=" + id.value] else [], '&'))
  {
    var args: Query.Bag := [("id", id)];
    assert Query.Pieces(args) == (if id.Some? then ["id=" + id.value] else []) by {
      assert "id" + "=" == "id=";
      assert Query.PiecesAt(args, 1) == [];
      Query.PiecesAtSuffix(args, 0);
      assert args[0..] == args;
    }
    CallDitchCarbon("servers/id", args)
  }

  /** `server_emissions`: all four parameters are required. The id goes into the path,
      and the snapshot has its `id` overwritten with `None`, so the request is the one a
      dict without `id` would give. */
  method ServerEmissions(id: Option<string>, hours: Option<string>, region: Option<string>,
                         serverFarmSize: Option<string>)
    returns (r: Http.Request)
    ensures r.headers == map["accept" := "application/json"]
    ensures r == CallDitchCarbon("servers/" + Http.Str(id),
                   [("hours", hours), ("region", region), ("server_farm_size", serverFarmSize)])
  {
    var locals := [("id", id), ("hours", hours), ("region", region), ("server_farm_size", serverFarmSize)];
    ghost var snapshot := locals;
    locals := Query.Assign(locals, "id", None);
    var rest := [("hours", hours), ("region", region), ("server_farm_size", serverFarmSize)];
    assert snapshot[0].0 == "id" && snapshot[1..] == rest;
    assert locals == [] + [("id", None)] + rest;
    Query.ArgsGenSkipsNone([], "id", rest);
    assert [] + rest == rest;
    r := CallDitchCarbon("servers/" + Http.Str(id), locals);
  }

  /** `emissions`: endpoint `emissions`. */
  function Emissions(q: Option<string>, unit: Option<string> := None, region: Option<string> := None,
                     date: Option<string> := None, quantity: Option<string> := None): (r: Http.Request)
    ensures r.headers == map["accept" := "application/json"]
    ensures var args := [("q", q), ("unit", unit), ("region", region), ("date", date), ("quantity", quantity)];
      r.url == Http.Compose("emissions", Query.ArgsGen(args)) &&
      (Query.WellFormed(args) ==> Http.Decode(r.url) == Some(("emissions", Query.Present(args))))
  {
    CallDitchCarbon("emissions", [("q", q), ("unit", unit), ("region", region), ("date", date), ("quantity", quantity)])
  }

  /** `categories`: both parameters are required, and each is sent only when it is
      not `None`. */
  function Categories(q: Option<string>, page: Option<string>): (r: Http.Request)
    ensures r.headers == map["accept" := "application/json"]
    ensures r.url == Http.Compose("categories",
      Text.Join((if q.Some? then ["q=" + q.value] else []) + (if page.Some? then ["page=" + page.value] else []), '&'))
  {
    var args: Query.Bag := [("q", q), ("page", page)];
    assert Query.Pieces(args) ==
      (if q.Some? then ["q=" + q.value] else []) + (if page.Some? then ["page=" + page.value] else []) by {
      assert "q" + "=" == "q=" && "page" + "=" == "page=";
      assert Query.PiecesAt(args, 2) == [];
      assert Query.PiecesAt(args, 1) == (if page.Some? then ["page=" + page.value] else []);
      Query.PiecesAtSuffix(args, 0);
      assert args[0..] == args;
    }
    CallDitchCarbon("categories", args)
  }

  /** `activity_categories`: endpoint `activities/top-level`. */
  function ActivityCategories(region: Option<string> := None): (r: Http.Request)
    ensures r.headers == map["accept" := "application/json"]
    ensures var args := [("region", region)];
      r.url == Http.Compose("activities/top-level", Query.ArgsGen(args)) &&
      (Query.WellFormed(args) ==> Http.Decode(r.url) == Some(("activities/top-level", Query.Present(args))))
  {
    CallDitchCarbon("activities/top-level", [("region", region)])
  }

  /** `activities`: endpoint `activities`. */
  function Activities(region: Option<string> := None, name: Option<string> := None,
                      page: Option<string> := None): (r: Http.Request)
    ensures r.headers == map["accept" := "application/json"]
    ensures var args := [("region", region), ("name", name), ("page", page)];
      r.url == Http.Compose("activities", Query.ArgsGen(args)) &&
      (Query.WellFormed(args) ==> Http.Decode(r.url) == Some(("activities", Query.Present(args))))
  {
    CallDitchCarbon("activities", [("region", region), ("name", name), ("page", page)])
  }

  /** `activity`: passes an empty dict, so the URL ends in a bare `?`. */
  function Activity(id: Option<string>): (r: Http.Request)
    ensures r.headers == map["accept" := "application/json"]
    ensures r.url == Http.BaseUrl + "/activities/" + Http.Str(id) + "?"
  {
    assert Query.ArgsGen([]) == "";
    assert Http.Compose("activities/" + Http.Str(id), "") == Http.BaseUrl + "/activities/" + Http.Str(id) + "?";
    CallDitchCarbon("activities/" + Http.Str(id), [])
  }

  /** `activity_assessment`: the id is in the path and overwritten with `None` in the
      snapshot. */
  method ActivityAssessment(id: Option<string>, region: Option<string> := None,
                            year: Option<string> := None, declaredUnit: Option<string> := None)
    returns (r: Http.Request)
    ensures r.headers == map["accept" := "application/json"]
    ensures r == CallDitchCarbon("activities/" + Http.Str(id),
                   [("region", region), ("year", year), ("declared_unit", declaredUnit)])
  {
    var locals := [("id", id), ("region", region), ("year", year), ("declared_unit", declaredUnit)];
    ghost var snapshot := locals;
    locals := Query.Assign(locals, "id", None);
    var rest := [("region", region), ("year", year), ("declared_unit", declaredUnit)];
    assert snapshot[0].0 == "id" && snapshot[1..] == rest;
    assert locals == [] + [("id", None)] + rest;
    Query.ArgsGenSkipsNone([], "id", rest);
    assert [] + rest == rest;
    r := CallDitchCarbon("activities/" + Http.Str(id), locals);
  }

  /** A two-argument `expense` sends its first parameter under the name `supplier_`. */
  lemma ExpenseFirstKey(supplier: string, amount: string)
    ensures Expense(Some(supplier), Some(amount)).url ==
      Http.Compose("calculate", Text.Join(["supplier_=" + supplier, "amount=" + amount], '&'))
  {
    var args: Query.Bag := [("supplier_", Some(supplier)), ("amount", Some(amount)), ("description", None), ("amount_currency", None), ("date", None), ("region", None)];
    assert Query.Pieces(args) == ["supplier_=" + supplier, "amount=" + amount] by {
      assert "supplier_" + "=" == "supplier_=" && "amount" + "=" == "amount=";
      assert Query.PiecesAt(args, 6) == [];
      assert Query.PiecesAt(args, 5) == [];
      assert Query.PiecesAt(args, 4) == [];
      assert Query.PiecesAt(args, 3) == [];
      assert Query.PiecesAt(args, 2) == [];
      assert Query.PiecesAt(args, 1) == ["amount=" + amount];
      Query.PiecesAtSuffix(args, 0);
      assert args[0..] == args;
    }
    assert Query.ArgsGen(args) == Text.Join(Query.Pieces(args), '&');
  }

  /** A one-argument `supplier` sends the default currency `USD`. */
  lemma SupplierDefaults(name: string)
    ensures Supplier(Some(name)).url ==
      Http.Compose("supplier", Text.Join(["name=" + name, "currency=USD"], '&'))
  {
    var args: Query.Bag := [("name", Some(name)), ("currency", Some("USD")), ("country", None), ("date", None), ("category", None)];
    assert Query.Pieces(args) == ["name=" + name, "currency=USD"] by {
      assert "name" + "=" == "name=" && "currency" + "=" + "USD" == "currency=USD";
      assert Query.PiecesAt(args, 5) == [];
      assert Query.PiecesAt(args, 4) == [];
      assert Query.PiecesAt(args, 3) == [];
      assert Query.PiecesAt(args, 2) == [];
      assert Query.PiecesAt(args, 1) == ["currency=USD"];
      Query.PiecesAtSuffix(args, 0);
      assert args[0..] == args;
    }
    assert Query.ArgsGen(args) == Text.Join(Query.Pieces(args), '&');
  }

  /** `find_server` with only its three required arguments sends no optional parameter. */
  lemma FindServerRequiredOnly(manufacturerName: string, model: string, ramBytes: string)
    ensures FindServer(Some(manufacturerName), Some(model), Some(ramBytes)).url ==
      Http.Compose("servers", Text.Join(["manufacturer_name=" + manufacturerName, "model=" + model, "ram_bytes=" + ramBytes], '&'))
  {
    var args: Query.Bag := [("manufacturer_name", Some(manufacturerName)), ("model", Some(model)), ("ram_bytes", Some(ramBytes)), ("cpu_name", None), ("os_name", None), ("cpu_count", None), ("core_count", None), ("thread_count", None), ("is_virtual", None), ("disk_count", None)];
    assert Query.Pieces(args) == ["manufacturer_name=" + manufacturerName, "model=" + model, "ram_bytes=" + ramBytes] by {
      assert "manufacturer_name" + "=" == "manufacturer_name=" && "model" + "=" == "model=" && "ram_bytes" + "=" == "ram_bytes=";
      assert Query.PiecesAt(args, 10) == [];
      assert Query.PiecesAt(args, 9) == [];
      assert Query.PiecesAt(args, 8) == [];
      assert Query.PiecesAt(args, 7) == [];
      assert Query.PiecesAt(args, 6) == [];
      assert Query.PiecesAt(args, 5) == [];
      assert Query.PiecesAt(args, 4) == [];
      assert Query.PiecesAt(args, 3) == [];
      assert Query.PiecesAt(args, 2) == ["ram_bytes=" + ramBytes];
      assert Query.PiecesAt(args, 1) == ["model=" + model, "ram_bytes=" + ramBytes];
      Query.PiecesAtSuffix(args, 0);
      assert args[0..] == args;
    }
    assert Query.ArgsGen(args) == Text.Join(Query.Pieces(args), '&');
  }
}
