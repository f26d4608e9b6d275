/** The documented client class, `DitchCarbonClient` in src/ditchcarbon/ditchcarbon.py.
    Every operation except `get_activity` snapshots its parameters with `locals()`, which
    also captures `self` as the first entry, and hands them to `_call_ditch_carbon`;
    `get_activity` passes an empty dict. */
module PackageClient {
  import opened Wrappers
  import Text
  import Query
  import Http

  /** What `__init__` raises when no API key is given. */
  datatype InitError = AssertionError

  class Client {
    /** `self.api_key`, sent as the bearer credential. */
    var apiKey: string
    /** What `f"{self}"` renders: the default repr of the object, fixed by the runtime
        when the object is allocated. */
    const selfRepr: string

    constructor (selfRepr: string, apiKey: string)
      ensures this.selfRepr == selfRepr && this.apiKey == apiKey
    {
      this.selfRepr := selfRepr;
      this.apiKey := apiKey;
    }

    /** `_call_ditch_carbon`, up to the call into the HTTP library: the URL is the
        endpoint and the serialised dict, the headers ask for JSON and carry the key. */
    function CallDitchCarbon(endpoint: string, args: Query.Bag): (r: Http.Request)
      reads this
      ensures r.headers.Keys == {"accept", "authorization"}
      ensures r.headers["accept"] == "application/json"
      ensures r.headers["authorization"] == "Bearer " + apiKey
      ensures r.url == Http.Compose(endpoint, Query.ArgsGen(args))
      ensures '?' !in endpoint && Query.WellFormed(args) ==>
        Http.Decode(r.url) == Some((endpoint, Query.Present(args)))
    {
      Http.DecodeCompose(endpoint, args);
      Http.Request(Http.Compose(endpoint, Query.ArgsGen(args)),
                   map["accept" := "application/json", "authorization" := "Bearer " + apiKey])
    }

    /** `get_expense`: endpoint `calculate`; `amount_currency` defaults to `GBP`
        and `region` to `US`. */
    function GetExpense(supplier: Option<string>, amount: Option<string>,
                        description: Option<string> := None, amountCurrency: Option<string> := Some("GBP"),
                        date: Option<string> := None, region: Option<string> := Some("US")): (r: Http.Request)
      reads this
      ensures r.headers == map["accept" := "application/json", "authorization" := "Bearer " + apiKey]
      ensures var args := [("self", Some(selfRepr)), ("supplier", supplier), ("amount", amount),
                           ("description", description), ("amount_currency", amountCurrency),
                           ("date", date), ("region", region)];
        r.url == Http.Compose("calculate", Query.ArgsGen(args)) &&
        (Query.WellFormed(args) ==> Http.Decode(r.url) == Some(("calculate", Query.Present(args))))
    {
      CallDitchCarbon("calculate",
        [("self", Some(selfRepr)), ("supplier", supplier), ("amount", amount),
         ("description", description), ("amount_currency", amountCurrency),
         ("date", date), ("region", region)])
    }

    /** `get_supplier`: endpoint `supplier`; `currency` defaults to `USD`. */
    function GetSupplier(name: Option<string>, currency: Option<string> := Some("USD"),
                         country: Option<string> := None, date: Option<string> := None,
                         category: Option<string> := None): (r: Http.Request)
      reads this
      ensures r.headers == map["accept" := "application/json", "authorization" := "Bearer " + apiKey]
      ensures var args := [("self", Some(selfRepr)), ("name", name), ("currency", currency),
                           ("country", country), ("date", date), ("category", category)];
        r.url == Http.Compose("supplier", Query.ArgsGen(args)) &&
        (Query.WellFormed(args) ==> Http.Decode(r.url) == Some(("supplier", Query.Present(args))))
    {
      CallDitchCarbon("supplier",
        [("self", Some(selfRepr)), ("name", name), ("currency", currency),
         ("country", country), ("date", date), ("category", category)])
    }

    /** `get_product`: endpoint `product`. */
    function GetProduct(name: Option<string>, manufacturer: Option<string>,
                        categoryName: Option<string> := None, unit: Option<string> := None,
                        priceCents: Option<string> := None, priceCurrency: Option<string> := None,
                        months: Option<string> := None, country: Option<string> := None): (r: Http.Request)
      reads this
      ensures r.headers == map["accept" := "application/json", "authorization" := "Bearer " + apiKey]
      ensures var args := [("self", Some(selfRepr)), ("name", name), ("manufacturer", manufacturer),
                           ("category_name", categoryName), ("unit", unit), ("price_cents", priceCents),
                           ("price_currency", priceCurrency), ("months", months), ("country", country)];
        r.url == Http.Compose("product", Query.ArgsGen(args)) &&
        (Query.WellFormed(args) ==> Http.Decode(r.url) == Some(("product", Query.Present(args))))
    {
      CallDitchCarbon("product",
        [("self", Some(selfRepr)), ("name", name), ("manufacturer", manufacturer),
         ("category_name", categoryName), ("unit", unit), ("price_cents", priceCents),
         ("price_currency", priceCurrency), ("months", months), ("country", country)])
    }

    /** `find_server`: endpoint `servers`. */
    function FindServer(manufacturerName: Option<string>, model: Option<string>, ramBytes: Option<string>,
                        cpuName: Option<string> := None, osName: Option<string> := None,
                        cpuCount: Option<string> := None, coreCount: Option<string> := None,
                        threadCount: Option<string> := None, isVirtual: Option<string> := None,
                        diskCount: Option<string> := None): (r: Http.Request)
      reads this
      ensures r.headers == map["accept" := "application/json", "authorization" := "Bearer " + apiKey]
      ensures var args := [("self", Some(selfRepr)), ("manufacturer_name", manufacturerName), ("model", model),
                           ("ram_bytes", ramBytes), ("cpu_name", cpuName), ("os_name", osName),
                           ("cpu_count", cpuCount), ("core_count", coreCount), ("thread_count", threadCount),
                           ("is_virtual", isVirtual), ("disk_count", diskCount)];
        r.url == Http.Compose("servers", Query.ArgsGen(args)) &&
        (Query.WellFormed(args) ==> Http.Decode(r.url) == Some(("servers", Query.Present(args))))
    {
      CallDitchCarbon("servers",
        [("self", Some(selfRepr)), ("manufacturer_name", manufacturerName), ("model", model),
         ("ram_bytes", ramBytes), ("cpu_name", cpuName), ("os_name", osName),
         ("cpu_count", cpuCount), ("core_count", coreCount), ("thread_count", threadCount),
         ("is_virtual", isVirtual), ("disk_count", diskCount)])
    }

    /** `get_server`: the id goes into the path and, since `locals()` is passed as it is,
        into the query too. */
    function GetServer(id: Option<string>): (r: Http.Request)
      reads this
      ensures r.headers == map["accept" := "application/json", "authorization" := "Bearer " + apiKey]
      ensures var args := [("self", Some(selfRepr)), ("id", id)];
        r.url == Http.Compose("servers/" + Http.Str(id), Query.ArgsGen(args)) &&
        ('?' !in Http.Str(id) && Query.WellFormed(args) ==>
          Http.Decode(r.url) == Some(("servers/" + Http.Str(id), Query.Present(args))))
    {
      CallDitchCarbon("servers/" + Http.Str(id), [("self", Some(selfRepr)), ("id", id)])
    }

    /** `get_server_emissions`: the id goes into the path, and the snapshot of the
        parameters has its `id` overwritten with `None`, so the request is the one a
        dict without `id` would give. */
    method GetServerEmissions(id: Option<string>, hours: Option<string>,
                              region: Option<string> := None, serverFarmSize: Option<string> := None)
      returns (r: Http.Request)
      ensures r.headers == map["accept" := "application/json", "authorization" := "Bearer " + apiKey]
      ensures r == CallDitchCarbon("servers/" + Http.Str(id),
                     [("self", Some(selfRepr)), ("hours", hours), ("region", region),
                      ("server_farm_size", serverFarmSize)])
    {
      var locals := [("self", Some(selfRepr)), ("id", id), ("hours", hours), ("region", region),
                     ("server_farm_size", serverFarmSize)];
      ghost var snapshot := locals;
      locals := Query.Assign(locals, "id", None);
      var rest := [("hours", hours), ("region", region), ("server_farm_size", serverFarmSize)];
      assert snapshot[0].0 != "id" && snapshot[1..][0].0 == "id" && snapshot[1..][1..] == rest;
      assert Query.Assign(snapshot[1..], "id", None) == [("id", None)] + rest;
      assert locals == [("self", Some(selfRepr))] + [("id", None)] + rest;
      Query.ArgsGenSkipsNone([("self", Some(selfRepr))], "id", rest);
      r := CallDitchCarbon("servers/" + Http.Str(id), locals);
    }

    /** `get_emissions`: endpoint `emissions`. */
    function GetEmissions(q: Option<string>, unit: Option<string> := None, region: Option<string> := None,
                          date: Option<string> := None, quantity: Option<string> := None): (r: Http.Request)
      reads this
      ensures r.headers == map["accept" := "application/json", "authorization" := "Bearer " + apiKey]
      ensures var args := [("self", Some(selfRepr)), ("q", q), ("unit", unit), ("region", region),
                           ("date", date), ("quantity", quantity)];
        r.url == Http.Compose("emissions", Query.ArgsGen(args)) &&
        (Query.WellFormed(args) ==> Http.Decode(r.url) == Some(("emissions", Query.Present(args))))
    {
      CallDitchCarbon("emissions",
        [("self", Some(selfRepr)), ("q", q), ("unit", unit), ("region", region),
         ("date", date), ("quantity", quantity)])
    }

    /** `get_categories`: endpoint `categories`; both parameters are optional. */
    function GetCategories(q: Option<string> := None, page: Option<string> := None): (r: Http.Request)
      reads this
      ensures r.headers == map["accept" := "application/json", "authorization" := "Bearer " + apiKey]
      ensures var args := [("self", Some(selfRepr)), ("q", q), ("page", page)];
        r.url == Http.Compose("categories", Query.ArgsGen(args)) &&
        (Query.WellFormed(args) ==> Http.Decode(r.url) == Some(("categories", Query.Present(args))))
    {
      CallDitchCarbon("categories", [("self", Some(selfRepr)), ("q", q), ("page", page)])
    }

    /** `get_activity_categories`: endpoint `activities/top-level`. */
    function GetActivityCategories(region: Option<string> := None): (r: Http.Request)
      reads this
      ensures r.headers == map["accept" := "application/json", "authorization" := "Bearer " + apiKey]
      ensures var args := [("self", Some(selfRepr)), ("region", region)];
        r.url == Http.Compose("activities/top-level", Query.ArgsGen(args)) &&
        (Query.WellFormed(args) ==> Http.Decode(r.url) == Some(("activities/top-level", Query.Present(args))))
    {
      CallDitchCarbon("activities/top-level", [("self", Some(selfRepr)), ("region", region)])
    }

    /** `get_activities`: endpoint `activities`. */
    function GetActivities(region: Option<string> := None, name: Option<string> := None,
                           page: Option<string> := None): (r: Http.Request)
      reads this
      ensures r.headers == map["accept" := "application/json", "authorization" := "Bearer " + apiKey]
      ensures var args := [("self", Some(selfRepr)), ("region", region), ("name", name), ("page", page)];
        r.url == Http.Compose("activities", Query.ArgsGen(args)) &&
        (Query.WellFormed(args) ==> Http.Decode(r.url) == Some(("activities", Query.Present(args))))
    {
      CallDitchCarbon("activities", [("self", Some(selfRepr)), ("region", region), ("name", name), ("page", page)])
    }

    /** `get_activity`: passes an empty dict, so the URL ends in a bare `?`. */
    function GetActivity(id: Option<string>): (r: Http.Request)
      reads this
      ensures r.headers == map["accept" := "application/json", "authorization" := "Bearer " + apiKey]
      ensures r.url == Http.BaseUrl + "/activities/" + Http.Str(id) + "?"
    {
      assert Query.ArgsGen([]) == "";
      assert Http.Compose("activities/" + Http.Str(id), "") == Http.BaseUrl + "/activities/" + Http.Str(id) + "?";
      CallDitchCarbon("activities/" + Http.Str(id), [])
    }

    /** `get_activity_assessment`: like `get_server_emissions`, the id is in the path
        and overwritten with `None` in the snapshot. */
    method GetActivityAssessment(id: Option<string>, region: Option<string> := None,
                                 year: Option<string> := None, declaredUnit: Option<string> := None)
      returns (r: Http.Request)
      ensures r.headers == map["accept" := "application/json", "authorization" := "Bearer " + apiKey]
      ensures r == CallDitchCarbon("activities/" + Http.Str(id),
                     [("self", Some(selfRepr)), ("region", region), ("year", year),
                      ("declared_unit", declaredUnit)])
    {
      var locals := [("self", Some(selfRepr)), ("id", id), ("region", region), ("year", year),
                     ("declared_unit", declaredUnit)];
      ghost var snapshot := locals;
      locals := Query.Assign(locals, "id", None);
      var rest := [("region", region), ("year", year), ("declared_unit", declaredUnit)];
      assert snapshot[0].0 != "id" && snapshot[1..][0].0 == "id" && snapshot[1..][1..] == rest;
      assert Query.Assign(snapshot[1..], "id", None) == [("id", None)] + rest;
      assert locals == [("self", Some(selfRepr))] + [("id", None)] + rest;
      Query.ArgsGenSkipsNone([("self", Some(selfRepr))], "id", rest);
      r := CallDitchCarbon("activities/" + Http.Str(id), locals);
    }
  }

  /** `DitchCarbonClient(api_key)`: refuses a missing key, otherwise stores it unchanged. */
  method NewClient(selfRepr: string, apiKey: Option<string> := None) returns (r: Result<Client, InitError>)
    ensures apiKey.None? <==> r.Err?
    ensures r.Err? ==> r.error == AssertionError
    ensures r.Ok? ==> fresh(r.value) && r.value.apiKey == apiKey.value && r.value.selfRepr == selfRepr
  {
    if apiKey.None? {
      return Err(AssertionError);
    }
    var c := new Client(selfRepr, apiKey.value);
    return Ok(c);
  }

  /** A two-argument `get_expense` still sends the default currency `GBP` and region `US`. */
  lemma ExpenseDefaults(c: Client, supplier: string, amount: string)
    ensures c.GetExpense(Some(supplier), Some(amount)).url ==
      Http.Compose("calculate", Text.Join(["self=" + c.selfRepr, "supplier=" + supplier, "amount=" + amount, "amount_currency=GBP", "region=US"], '&'))
  {
    var args: Query.Bag := [("self", Some(c.selfRepr)), ("supplier", Some(supplier)), ("amount", Some(amount)), ("description", None), ("amount_currency", Some("GBP")), ("date", None), ("region", Some("US"))];
    assert Query.Pieces(args) == ["self=" + c.selfRepr, "supplier=" + supplier, "amount=" + amount, "amount_currency=GBP", "region=US"] by {
      assert "self" + "=" == "self=" && "supplier" + "=" == "supplier=" && "amount" + "=" == "amount=";
      assert "amount_currency" + "=" + "GBP" == "amount_currency=GBP" && "region" + "=" + "US" == "region=US";
      assert Query.PiecesAt(args, 7) == [];
      assert Query.PiecesAt(args, 6) == ["region=US"];
      assert Query.PiecesAt(args, 5) == ["region=US"];
      assert Query.PiecesAt(args, 4) == ["amount_currency=GBP", "region=US"];
      assert Query.PiecesAt(args, 3) == ["amount_currency=GBP", "region=US"];
      assert Query.PiecesAt(args, 2) == ["amount=" + amount, "amount_currency=GBP", "region=US"];
      assert Query.PiecesAt(args, 1) == ["supplier=" + supplier, "amount=" + amount, "amount_currency=GBP", "region=US"];
      Query.PiecesAtSuffix(args, 0);
      assert args[0..] == args;
    }
    assert Query.ArgsGen(args) == Text.Join(Query.Pieces(args), '&');
  }

  /** A one-argument `get_supplier` sends the default currency `USD`. */
  lemma SupplierDefaults(c: Client, name: string)
    ensures c.GetSupplier(Some(name)).url ==
      Http.Compose("supplier", Text.Join(["self=" + c.selfRepr, "name=" + name, "currency=USD"], '&'))
  {
    var args: Query.Bag := [("self", Some(c.selfRepr)), ("name", Some(name)), ("currency", Some("USD")), ("country", None), ("date", None), ("category", None)];
    assert Query.Pieces(args) == ["self=" + c.selfRepr, "name=" + name, "currency=USD"] by {
      assert "self" + "=" == "self=" && "name" + "=" == "name=" && "currency" + "=" + "USD" == "currency=USD";
      assert Query.PiecesAt(args, 6) == [];
      assert Query.PiecesAt(args, 5) == [];
      assert Query.PiecesAt(args, 4) == [];
      assert Query.PiecesAt(args, 3) == [];
      assert Query.PiecesAt(args, 2) == ["currency=USD"];
      assert Query.PiecesAt(args, 1) == ["name=" + name, "currency=USD"];
      Query.PiecesAtSuffix(args, 0);
      assert args[0..] == args;
    }
    assert Query.ArgsGen(args) == Text.Join(Query.Pieces(args), '&');
  }

  /** `find_server` with only its three required arguments sends no optional parameter. */
  lemma FindServerRequiredOnly(c: Client, manufacturerName: string, model: string, ramBytes: string)
    ensures c.FindServer(Some(manufacturerName), Some(model), Some(ramBytes)).url ==
      Http.Compose("servers", Text.Join(["self=" + c.selfRepr, "manufacturer_name=" + manufacturerName, "model=" + model, "ram_bytes=" + ramBytes], '&'))
  {
    var args: Query.Bag := [("self", Some(c.selfRepr)), ("manufacturer_name", Some(manufacturerName)), ("model", Some(model)), ("ram_bytes", Some(ramBytes)), ("cpu_name", None), ("os_name", None), ("cpu_count", None), ("core_count", None), ("thread_count", None), ("is_virtual", None), ("disk_count", None)];
    assert Query.Pieces(args) == ["self=" + c.selfRepr, "manufacturer_name=" + manufacturerName, "model=" + model, "ram_bytes=" + ramBytes] by {
      assert "self" + "=" == "self=" && "manufacturer_name" + "=" == "manufacturer_name=" && "model" + "=" == "model=";
      assert "ram_bytes" + "=" == "ram_bytes=";
      assert Query.PiecesAt(args, 11) == [];
      assert Query.PiecesAt(args, 10) == [];
      assert Query.PiecesAt(args, 9) == [];
      assert Query.PiecesAt(args, 8) == [];
      assert Query.PiecesAt(args, 7) == [];
      assert Query.PiecesAt(args, 6) == [];
      assert Query.PiecesAt(args, 5) == [];
      assert Query.PiecesAt(args, 4) == [];
      assert Query.PiecesAt(args, 3) == ["ram_bytes=" + ramBytes];
      assert Query.PiecesAt(args, 2) == ["model=" + model, "ram_bytes=" + ramBytes];
      assert Query.PiecesAt(args, 1) == ["manufacturer_name=" + manufacturerName, "model=" + model, "ram_bytes=" + ramBytes];
      Query.PiecesAtSuffix(args, 0);
      assert args[0..] == args;
    }
    assert Query.ArgsGen(args) == Text.Join(Query.Pieces(args), '&');
  }

  /** `get_server` names the id twice: in the path and as the pair `id=<id>`. */
  lemma ServerKeepsId(c: Client, id: string)
    ensures c.GetServer(Some(id)).url ==
      Http.Compose("servers/" + id, Text.Join(["self=" + c.selfRepr, "id=" + id], '&'))
  {
    var args: Query.Bag := [("self", Some(c.selfRepr)), ("id", Some(id))];
    assert Query.Pieces(args) == ["self=" + c.selfRepr, "id=" + id] by {
      assert "self" + "=" == "self=" && "id" + "=" == "id=";
      assert Query.PiecesAt(args, 2) == [];
      assert Query.PiecesAt(args, 1) == ["id=" + id];
      Query.PiecesAtSuffix(args, 0);
      assert args[0..] == args;
    }
    assert Query.ArgsGen(args) == Text.Join(Query.Pieces(args), '&');
  }
}
