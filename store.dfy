/**
 * The audit operations store: an asynchronous Cosmos DB store over several
 * containers (vendors, invoices, payments). Settings come from an environment
 * map, the Cosmos account is a function from (endpoint, database, container,
 * query) to the documents its iterator yields, and the SDK's client,
 * credential, database and container proxies are opaque objects.
 */
module AuditStore {
  import opened Wrappers
  import opened Text

  datatype StoreError = ValueError(message: string)

  /** A JSON document as Cosmos returns it. */
  datatype Document = Document(fields: map<string, string>)

  /** A query parameter value: a string, or an amount in cents. */
  datatype ParamValue = Str(s: string) | Num(cents: int)

  datatype Param = Param(name: string, value: ParamValue)

  /** The query text and parameter list passed to `query_items`. */
  datatype SqlQuery = SqlQuery(text: string, parameters: seq<Param>)

  /** The documents the account yields for (endpoint, database, container, query), in iteration order. */
  type CosmosService = (string, string, string, SqlQuery) -> seq<Document>

  // ---------------------------------------------------------------------------
  // Settings
  // ---------------------------------------------------------------------------

  const EndpointVar: string := "COSMOS_ENDPOINT"
  const DatabaseVar: string := "COSMOS_DATABASE"
  const ContainerVar: string := "COSMOS_CONTAINER"

  /** `os.getenv(name)`. */
  function GetEnv(env: map<string, string>, name: string): Option<string> {
    if name in env then Some(env[name]) else None
  }

  /** Python truthiness of an optional string: present and non-empty. */
  predicate Truthy(o: Option<string>) {
    o.Some? && o.value != ""
  }

  /** The required settings that are absent or empty, in the order endpoint, database. */
  function MissingVariables(env: map<string, string>): (r: seq<string>)
    ensures forall x :: x in r <==> (x == EndpointVar || x == DatabaseVar) && !Truthy(GetEnv(env, x))
    ensures |r| <= 2 && (|r| == 2 ==> r == [EndpointVar, DatabaseVar])
  {
    (if Truthy(GetEnv(env, EndpointVar)) then [] else [EndpointVar])
    + (if Truthy(GetEnv(env, DatabaseVar)) then [] else [DatabaseVar])
  }

  const MissingPrefix: string := "Missing environment variables: "

  /** The ValueError `__init__` raises, if any: raised when a setting is missing, and introduced by `MissingPrefix`. */
  function InitError(env: map<string, string>): (r: Option<StoreError>)
    ensures r.None? <==> Truthy(GetEnv(env, EndpointVar)) && Truthy(GetEnv(env, DatabaseVar))
    ensures r.Some? ==> StartsWith(r.value.message, MissingPrefix)
  {
    if !Truthy(GetEnv(env, EndpointVar)) || !Truthy(GetEnv(env, DatabaseVar)) then
      ConcatAffixes(MissingPrefix, Join(MissingVariables(env), ", "));
      Some(ValueError(MissingPrefix + Join(MissingVariables(env), ", ")))
    else
      None
  }

  /** `__init__` fails exactly when a required setting is missing, and names exactly the missing ones. */
  lemma InitErrorMessages(env: map<string, string>)
    ensures InitError(env) == None <==> Truthy(GetEnv(env, EndpointVar)) && Truthy(GetEnv(env, DatabaseVar))
    ensures !Truthy(GetEnv(env, EndpointVar)) && !Truthy(GetEnv(env, DatabaseVar)) ==>
      InitError(env) == Some(ValueError(MissingPrefix + EndpointVar + ", " + DatabaseVar))
    ensures !Truthy(GetEnv(env, EndpointVar)) && Truthy(GetEnv(env, DatabaseVar)) ==>
      InitError(env) == Some(ValueError(MissingPrefix + EndpointVar))
    ensures Truthy(GetEnv(env, EndpointVar)) && !Truthy(GetEnv(env, DatabaseVar)) ==>
      InitError(env) == Some(ValueError(MissingPrefix + DatabaseVar))
  {
    var endpointSet, databaseSet := Truthy(GetEnv(env, EndpointVar)), Truthy(GetEnv(env, DatabaseVar));
    if !endpointSet && !databaseSet {
      assert MissingVariables(env) == [EndpointVar, DatabaseVar];
      assert Join([EndpointVar, DatabaseVar], ", ") == EndpointVar + ", " + Join([DatabaseVar], ", ");
      assert Join([DatabaseVar], ", ") == DatabaseVar;
      assert MissingPrefix + (EndpointVar + ", " + DatabaseVar) == MissingPrefix + EndpointVar + ", " + DatabaseVar;
    } else if !endpointSet {
      assert MissingVariables(env) == [EndpointVar];
    } else if !databaseSet {
      assert MissingVariables(env) == [DatabaseVar];
    }
  }

  // ---------------------------------------------------------------------------
  // The SDK objects
  // ---------------------------------------------------------------------------

  class DefaultAzureCredential {
    constructor ()
    {
    }
  }

  class CosmosClient {
    const endpoint: string
    const credential: DefaultAzureCredential
    const service: CosmosService

    constructor (endpoint: string, credential: DefaultAzureCredential, service: CosmosService)
      ensures this.endpoint == endpoint && this.credential == credential && this.service == service
    {
      this.endpoint := endpoint;
      this.credential := credential;
      this.service := service;
    }

    method GetDatabaseClient(name: string) returns (db: DatabaseProxy)
      ensures fresh(db) && db.client == this && db.name == name
    {
      db := new DatabaseProxy(this, name);
    }
  }

  class DatabaseProxy {
    const client: CosmosClient
    const name: string

    constructor (client: CosmosClient, name: string)
      ensures this.client == client && this.name == name
    {
      this.client := client;
      this.name := name;
    }

    method GetContainerClient(name: string) returns (c: ContainerProxy)
      ensures fresh(c) && c.database == this && c.name == name
    {
      c := new ContainerProxy(this, name);
    }
  }

  class ContainerProxy {
    const database: DatabaseProxy
    const name: string

    constructor (database: DatabaseProxy, name: string)
      ensures this.database == database && this.name == name
    {
      this.database := database;
      this.name := name;
    }

    /** `query_items(query, parameters)`: the documents the account yields for this container. */
    function QueryItems(q: SqlQuery): seq<Document> {
      database.client.service(database.client.endpoint, database.name, name, q)
    }
  }

  // ---------------------------------------------------------------------------
  // Consuming the async iterator
  // ---------------------------------------------------------------------------

  /** The single-item getters: the first document the iterator yields, or None. */
  method FirstOrNone(items: seq<Document>) returns (r: Option<Document>)
    ensures items == [] ==> r == None
    ensures items != [] ==> r == Some(items[0])
  {
    for i := 0 to |items|
      invariant i == 0
    {
      return Some(items[i]);
    }
    return None;
  }

  /** The list getters: every document the iterator yields, in iteration order. */
  method CollectAll(items: seq<Document>) returns (results: seq<Document>)
    ensures |results| == |items|
    ensures forall k :: 0 <= k < |items| ==> results[k] == items[k]
  {
    results := [];
    for i := 0 to |items|
      invariant results == items[..i]
    {
      results := results + [items[i]];
    }
  }

  // ---------------------------------------------------------------------------
  // Query construction
  // ---------------------------------------------------------------------------

  /** A filter given as an optional string counts only when truthy. */
  function TextFilter(o: Option<string>): (r: Option<ParamValue>)
    ensures r.Some? <==> Truthy(o)
    ensures r.Some? ==> r.value == Str(o.value)
  {
    if o.Some? && o.value != "" then Some(Str(o.value)) else None
  }

  /** An amount filter counts whenever it is not None, so 0 counts. */
  function AmountFilter(o: Option<int>): (r: Option<ParamValue>)
    ensures r.Some? <==> o.Some?
    ensures r.Some? ==> r.value == Num(o.value)
  {
    match o
    case None => None
    case Some(x) => Some(Num(x))
  }

  predicate Increasing(s: seq<nat>) {
    forall i, j :: 0 <= i < j < |s| ==> s[i] < s[j]
  }

  /** The positions below `m` whose filter has a value, in table order. */
  function ActiveSlots(values: seq<Option<ParamValue>>, m: nat): (r: seq<nat>)
    requires m <= |values|
    ensures |r| <= m
    ensures forall i :: 0 <= i < |r| ==> r[i] < m && values[r[i]].Some?
    ensures m > 0 && values[0].Some? ==> |r| > 0 && r[0] == 0
    decreases m
  {
    if m == 0 then [] else ActiveSlots(values, m - 1) + (if values[m - 1].Some? then [m - 1] else [])
  }

  /** The active positions are increasing and are exactly the positions with a value. */
  lemma {:induction false} ActiveSlotsExact(values: seq<Option<ParamValue>>, m: nat)
    requires m <= |values|
    ensures Increasing(ActiveSlots(values, m))
    ensures forall k :: 0 <= k < m ==> (k in ActiveSlots(values, m) <==> values[k].Some?)
    decreases m
  {
    if m > 0 {
      ActiveSlotsExact(values, m - 1);
      var prev := ActiveSlots(values, m - 1);
      var r := ActiveSlots(values, m);
      if values[m - 1].Some? {
        assert r == prev + [m - 1];
        forall i, j | 0 <= i < j < |r|
          ensures r[i] < r[j]
        {
          assert r[i] == prev[i];
          if j < |prev| {
            assert r[j] == prev[j];
          }
        }
        forall k | 0 <= k < m
          ensures k in r <==> values[k].Some?
        {
          if k < m - 1 {
            assert k in prev <==> k in r;
          } else {
            assert r[|prev|] == k;
          }
        }
      } else {
        assert r == prev;
      }
    }
  }

  /**
   * `where` and `params` were built in lockstep from the first `m` rows of a
   * table of candidate clauses: `slots` lists, in table order, the positions
   * whose filter has a value, and the i-th clause and parameter come from the
   * i-th of them.
   */
  ghost predicate BuiltUpTo(where: seq<string>, params: seq<Param>, slots: seq<nat>,
                            clauses: seq<string>, names: seq<string>, values: seq<Option<ParamValue>>, m: nat)
  {
    && |clauses| == |names| == |values|
    && m <= |values|
    && slots == ActiveSlots(values, m)
    && |where| == |params| == |slots|
    && (forall i :: 0 <= i < |slots| ==>
          where[i] == clauses[slots[i]] && params[i] == Param(names[slots[i]], values[slots[i]].value))
  }

  /** The whole table has been considered. */
  ghost predicate BuiltFrom(where: seq<string>, params: seq<Param>, slots: seq<nat>,
                            clauses: seq<string>, names: seq<string>, values: seq<Option<ParamValue>>)
  {
    BuiltUpTo(where, params, slots, clauses, names, values, |values|)
  }

  /**
   * One `if` of the builders: `clause` and its parameter are appended exactly
   * when the filter has a value. Row `m` of the table is the one considered.
   */
  method AppendIfSet(where: seq<string>, params: seq<Param>, ghost slots: seq<nat>,
                     clause: string, name: string, value: Option<ParamValue>,
                     ghost clauses: seq<string>, ghost names: seq<string>, ghost values: seq<Option<ParamValue>>,
                     ghost m: nat)
    returns (where': seq<string>, params': seq<Param>, ghost slots': seq<nat>)
    requires BuiltUpTo(where, params, slots, clauses, names, values, m) && m < |values|
    requires clauses[m] == clause && names[m] == name && values[m] == value
    ensures BuiltUpTo(where', params', slots', clauses, names, values, m + 1)
    ensures value.None? ==> where' == where && params' == params
    ensures value.Some? ==> where' == where + [clause] && params' == params + [Param(name, value.value)]
  {
    assert ActiveSlots(values, m + 1) == slots + (if value.Some? then [m] else []);
    if value.Some? {
      where', params', slots' := where + [clause], params + [Param(name, value.value)], slots + [m];
    } else {
      where', params', slots' := where, params, slots;
    }
  }

  /** The lockstep description fixes the clause and parameter lists completely. */
  lemma BuiltFromIsUnique(where: seq<string>, params: seq<Param>, slots: seq<nat>,
                          where': seq<string>, params': seq<Param>, slots': seq<nat>,
                          clauses: seq<string>, names: seq<string>, values: seq<Option<ParamValue>>)
    requires BuiltFrom(where, params, slots, clauses, names, values)
    requires BuiltFrom(where', params', slots', clauses, names, values)
    ensures where == where' && params == params' && slots == slots'
  {
    assert forall i :: 0 <= i < |where| ==> where[i] == where'[i];
    assert forall i :: 0 <= i < |params| ==> params[i] == params'[i];
  }

  /** A built clause list selects exactly the filters that have a value, each clause binding its own parameter. */
  lemma BuiltFromSelectsActive(where: seq<string>, params: seq<Param>, slots: seq<nat>,
                               clauses: seq<string>, names: seq<string>, values: seq<Option<ParamValue>>)
    requires BuiltFrom(where, params, slots, clauses, names, values)
    requires BindsItsParameter(clauses, names)
    ensures Increasing(slots)
    ensures forall k :: 0 <= k < |values| ==> (k in slots <==> values[k].Some?)
    ensures forall i :: 0 <= i < |where| ==> EndsWith(where[i], params[i].name)
    ensures values != [] && values[0].Some? ==>
      |where| >= 1 && where[0] == clauses[0] && params[0] == Param(names[0], values[0].value)
  {
    ActiveSlotsExact(values, |values|);
  }

  /** Each clause ends with the name of the parameter it binds. */
  predicate BindsItsParameter(clauses: seq<string>, names: seq<string>) {
    |clauses| == |names| && forall k :: 0 <= k < |clauses| ==> EndsWith(clauses[k], names[k])
  }

  const InvoiceClauses: seq<string> := [
    "c.engagement_id = @engagement_id",
    "c.invoice_date >= @date_from",
    "c.invoice_date <= @date_to",
    "c.vendor_id = @vendor_id",
    "c.status = @status",
    "c.amount >= @min_amount",
    "c.amount <= @max_amount"
  ]

  const InvoiceParamNames: seq<string> :=
    ["@engagement_id", "@date_from", "@date_to", "@vendor_id", "@status", "@min_amount", "@max_amount"]

  /** The optional filters of `query_invoices`. */
  datatype InvoiceFilters = InvoiceFilters(
    engagementId: string,
    dateFrom: Option<string>,
    dateTo: Option<string>,
    vendorId: Option<string>,
    status: Option<string>,
    minAmount: Option<int>,
    maxAmount: Option<int>)

  /** The value each of the seven invoice clauses would bind, None where the clause is left out. */
  function InvoiceFilterValues(f: InvoiceFilters): (r: seq<Option<ParamValue>>)
    ensures |r| == 7 && r[0] == Some(Str(f.engagementId))
  {
    [Some(Str(f.engagementId)), TextFilter(f.dateFrom), TextFilter(f.dateTo), TextFilter(f.vendorId),
     TextFilter(f.status), AmountFilter(f.minAmount), AmountFilter(f.maxAmount)]
  }

  /** The WHERE clauses and parameters of `query_invoices`, appended filter by filter. */
  method BuildInvoiceFilter(f: InvoiceFilters) returns (where: seq<string>, params: seq<Param>, ghost slots: seq<nat>)
    ensures BuiltFrom(where, params, slots, InvoiceClauses, InvoiceParamNames, InvoiceFilterValues(f))
    ensures Increasing(slots)
    ensures forall k :: 0 <= k < 7 ==> (k in slots <==> InvoiceFilterValues(f)[k].Some?)
    ensures |where| == |params| && 1 <= |where| <= 7
    ensures where[0] == "c.engagement_id = @engagement_id" && params[0] == Param("@engagement_id", Str(f.engagementId))
    ensures forall i :: 0 <= i < |where| ==> EndsWith(where[i], params[i].name)
  {
    ghost var c, n, v := InvoiceClauses, InvoiceParamNames, InvoiceFilterValues(f);
    where, params, slots := ["c.engagement_id = @engagement_id"], [Param("@engagement_id", Str(f.engagementId))], [0];
    assert ActiveSlots(v, 1) == [0];
    ghost var m := 1;
    where, params, slots := AppendIfSet(where, params, slots, "c.invoice_date >= @date_from", "@date_from", TextFilter(f.dateFrom), c, n, v, m);
    m := m + 1;
    where, params, slots := AppendIfSet(where, params, slots, "c.invoice_date <= @date_to", "@date_to", TextFilter(f.dateTo), c, n, v, m);
    m := m + 1;
    where, params, slots := AppendIfSet(where, params, slots, "c.vendor_id = @vendor_id", "@vendor_id", TextFilter(f.vendorId), c, n, v, m);
    m := m + 1;
    where, params, slots := AppendIfSet(where, params, slots, "c.status = @status", "@status", TextFilter(f.status), c, n, v, m);
    m := m + 1;
    where, params, slots := AppendIfSet(where, params, slots, "c.amount >= @min_amount", "@min_amount", AmountFilter(f.minAmount), c, n, v, m);
    m := m + 1;
    where, params, slots := AppendIfSet(where, params, slots, "c.amount <= @max_amount", "@max_amount", AmountFilter(f.maxAmount), c, n, v, m);
    m := m + 1;
    InvoiceFilterSelects(f, where, params, slots);
  }

  /** Every invoice clause ends with the name of the parameter it is paired with. */
  lemma InvoiceClausesBindParameters()
    ensures BindsItsParameter(InvoiceClauses, InvoiceParamNames)
  {
    assert EndsWith(InvoiceClauses[0], InvoiceParamNames[0]);
    assert EndsWith(InvoiceClauses[1], InvoiceParamNames[1]);
    assert EndsWith(InvoiceClauses[2], InvoiceParamNames[2]);
    assert EndsWith(InvoiceClauses[3], InvoiceParamNames[3]);
    assert EndsWith(InvoiceClauses[4], InvoiceParamNames[4]);
    assert EndsWith(InvoiceClauses[5], InvoiceParamNames[5]);
    assert EndsWith(InvoiceClauses[6], InvoiceParamNames[6]);
  }

  /** The invoice clauses selected are exactly the filters that are set, in table order, each binding its own parameter. */
  lemma InvoiceFilterSelects(f: InvoiceFilters, where: seq<string>, params: seq<Param>, slots: seq<nat>)
    requires BuiltFrom(where, params, slots, InvoiceClauses, InvoiceParamNames, InvoiceFilterValues(f))
    ensures Increasing(slots)
    ensures forall k :: 0 <= k < 7 ==> (k in slots <==> InvoiceFilterValues(f)[k].Some?)
    ensures forall i :: 0 <= i < |where| ==> EndsWith(where[i], params[i].name)
    ensures |where| == |params| && 1 <= |where| <= 7
    ensures where[0] == "c.engagement_id = @engagement_id" && params[0] == Param("@engagement_id", Str(f.engagementId))
  {
    InvoiceClausesBindParameters();
    BuiltFromSelectsActive(where, params, slots, InvoiceClauses, InvoiceParamNames, InvoiceFilterValues(f));
  }

  const PaymentClauses: seq<string> := [
    "c.engagement_id = @engagement_id",
    "c.paid_at >= @date_from",
    "c.paid_at <= @date_to",
    "c.vendor_id = @vendor_id",
    "c.invoice_id = @invoice_id"
  ]

  const PaymentParamNames: seq<string> :=
    ["@engagement_id", "@date_from", "@date_to", "@vendor_id", "@invoice_id"]

  /** The optional filters of `query_payments`. */
  datatype PaymentFilters = PaymentFilters(
    engagementId: string,
    dateFrom: Option<string>,
    dateTo: Option<string>,
    vendorId: Option<string>,
    invoiceId: Option<string>)

  /** The value each of the five payment clauses would bind, None where the clause is left out. */
  function PaymentFilterValues(f: PaymentFilters): (r: seq<Option<ParamValue>>)
    ensures |r| == 5 && r[0] == Some(Str(f.engagementId))
  {
    [Some(Str(f.engagementId)), TextFilter(f.dateFrom), TextFilter(f.dateTo), TextFilter(f.vendorId),
     TextFilter(f.invoiceId)]
  }

  /** The WHERE clauses and parameters of `query_payments`, appended filter by filter. */
  method BuildPaymentFilter(f: PaymentFilters) returns (where: seq<string>, params: seq<Param>, ghost slots: seq<nat>)
    ensures BuiltFrom(where, params, slots, PaymentClauses, PaymentParamNames, PaymentFilterValues(f))
    ensures Increasing(slots)
    ensures forall k :: 0 <= k < 5 ==> (k in slots <==> PaymentFilterValues(f)[k].Some?)
    ensures |where| == |params| && 1 <= |where| <= 5
    ensures where[0] == "c.engagement_id = @engagement_id" && params[0] == Param("@engagement_id", Str(f.engagementId))
    ensures forall i :: 0 <= i < |where| ==> EndsWith(where[i], params[i].name)
  {
    ghost var c, n, v := PaymentClauses, PaymentParamNames, PaymentFilterValues(f);
    where, params, slots := ["c.engagement_id = @engagement_id"], [Param("@engagement_id", Str(f.engagementId))], [0];
    assert ActiveSlots(v, 1) == [0];
    ghost var m := 1;
    where, params, slots := AppendIfSet(where, params, slots, "c.paid_at >= @date_from", "@date_from", TextFilter(f.dateFrom), c, n, v, m);
    m := m + 1;
    where, params, slots := AppendIfSet(where, params, slots, "c.paid_at <= @date_to", "@date_to", TextFilter(f.dateTo), c, n, v, m);
    m := m + 1;
    where, params, slots := AppendIfSet(where, params, slots, "c.vendor_id = @vendor_id", "@vendor_id", TextFilter(f.vendorId), c, n, v, m);
    m := m + 1;
    where, params, slots := AppendIfSet(where, params, slots, "c.invoice_id = @invoice_id", "@invoice_id", TextFilter(f.invoiceId), c, n, v, m);
    m := m + 1;
    PaymentFilterSelects(f, where, params, slots);
  }

  /** Every payment clause ends with the name of the parameter it is paired with. */
  lemma PaymentClausesBindParameters()
    ensures BindsItsParameter(PaymentClauses, PaymentParamNames)
  {
  }

  /** The payment clauses selected are exactly the filters that are set, in table order, each binding its own parameter. */
  lemma PaymentFilterSelects(f: PaymentFilters, where: seq<string>, params: seq<Param>, slots: seq<nat>)
    requires BuiltFrom(where, params, slots, PaymentClauses, PaymentParamNames, PaymentFilterValues(f))
    ensures Increasing(slots)
    ensures forall k :: 0 <= k < 5 ==> (k in slots <==> PaymentFilterValues(f)[k].Some?)
    ensures forall i :: 0 <= i < |where| ==> EndsWith(where[i], params[i].name)
    ensures |where| == |params| && 1 <= |where| <= 5
    ensures where[0] == "c.engagement_id = @engagement_id" && params[0] == Param("@engagement_id", Str(f.engagementId))
  {
    PaymentClausesBindParameters();
    BuiltFromSelectsActive(where, params, slots, PaymentClauses, PaymentParamNames, PaymentFilterValues(f));
  }

  /**
   * An empty date filter adds no clause while a zero amount does: with
   * `date_from=""` and `min_amount=0` the invoice query filters on the
   * engagement and the minimum amount only.
   */
  lemma EmptyStringVersusZero(engagementId: string, where: seq<string>, params: seq<Param>, slots: seq<nat>)
    requires BuiltFrom(where, params, slots, InvoiceClauses, InvoiceParamNames,
                       InvoiceFilterValues(InvoiceFilters(engagementId, Some(""), None, None, None, Some(0), None)))
    ensures where == ["c.engagement_id = @engagement_id", "c.amount >= @min_amount"]
    ensures params == [Param("@engagement_id", Str(engagementId)), Param("@min_amount", Num(0))]
  {
    var values := InvoiceFilterValues(InvoiceFilters(engagementId, Some(""), None, None, None, Some(0), None));
    var w := [InvoiceClauses[0], InvoiceClauses[5]];
    var p := [Param(InvoiceParamNames[0], values[0].value), Param(InvoiceParamNames[5], values[5].value)];
    var s: seq<nat> := [0, 5];
    assert values[1] == None && values[2] == None && values[3] == None && values[4] == None && values[6] == None;
    assert BuiltFrom(w, p, s, InvoiceClauses, InvoiceParamNames, values);
    BuiltFromIsUnique(where, params, slots, w, p, s, InvoiceClauses, InvoiceParamNames, values);
  }

  const QueryHead: string := "\n        SELECT * FROM c\n        WHERE "
  const LimitClause: string := "\n        OFFSET 0 LIMIT "
  const QueryEnd: string := "\n        "
  /** The separator `query_invoices` and `query_payments` put between clauses. */
  const AndSep: string := " AND "

  /** The text of `query_invoices` and `query_payments`: the clauses joined by " AND ", then the limit. */
  function RenderQuery(where: seq<string>, limit: int): (r: string)
    ensures StartsWith(r, QueryHead)
    ensures EndsWith(r, LimitClause + IntToDecimal(limit) + QueryEnd)
  {
    var clauses, tail := Join(where, AndSep), LimitClause + IntToDecimal(limit) + QueryEnd;
    ThreePartAffixes(QueryHead, clauses, tail);
    QueryHead + clauses + tail
  }

  /** The `width` characters that end `back` characters before the end of `r` are the text of `value`. */
  predicate ReadsBackAsInt(r: string, back: nat, width: nat, value: int) {
    back + width <= |r| && var digits := r[|r| - back - width .. |r| - back];
    IsIntegerText(digits) && ParseInt(digits) == value
  }

  /** The limit can be read back from the end of the rendered text. */
  lemma RenderedLimitReadsBack(where: seq<string>, limit: int)
    ensures ReadsBackAsInt(RenderQuery(where, limit), |QueryEnd|, |IntToDecimal(limit)|, limit)
  {
    var d := IntToDecimal(limit);
    assert RenderQuery(where, limit) == QueryHead + Join(where, AndSep) + (LimitClause + d + QueryEnd);
    SliceBeforeSuffix(RenderQuery(where, limit), QueryHead + Join(where, AndSep), LimitClause, d, QueryEnd);
    IntRoundTrip(limit);
  }

  /** Between the head and the limit, the rendered text is the clauses joined by " AND ". */
  lemma RenderedClausesReadBack(where: seq<string>, limit: int)
    ensures var r := RenderQuery(where, limit);
      var tail := LimitClause + IntToDecimal(limit) + QueryEnd;
      |QueryHead| + |tail| <= |r| && r[|QueryHead| .. |r| - |tail|] == Join(where, AndSep)
  {
    var clauses, tail := Join(where, AndSep), LimitClause + IntToDecimal(limit) + QueryEnd;
    assert RenderQuery(where, limit) == QueryHead + clauses + tail;
    MiddleSlice(QueryHead, clauses, tail, 0, |clauses|);
    assert clauses[0..|clauses|] == clauses;
  }

  /** The i-th clause appears in the rendered text at its offset after the head. */
  lemma RenderedClauseAt(where: seq<string>, limit: int, i: nat)
    requires i < |where|
    ensures OccursAt(RenderQuery(where, limit), |QueryHead| + JoinOffset(where, AndSep, i), where[i])
  {
    var clauses, tail := Join(where, AndSep), LimitClause + IntToDecimal(limit) + QueryEnd;
    JoinPieceAt(where, AndSep, i);
    assert RenderQuery(where, limit) == QueryHead + clauses + tail;
    var o := JoinOffset(where, AndSep, i);
    PieceInMiddle(RenderQuery(where, limit), QueryHead, clauses, tail, |QueryHead| + o, o, where[i]);
  }

  /** Each clause but the last is followed by " AND ", and the next clause starts right after it. */
  lemma RenderedSeparatorAt(where: seq<string>, limit: int, i: nat)
    requires i + 1 < |where|
    ensures OccursAt(RenderQuery(where, limit), |QueryHead| + JoinOffset(where, AndSep, i) + |where[i]|, AndSep)
    ensures JoinOffset(where, AndSep, i + 1) == JoinOffset(where, AndSep, i) + |where[i]| + |AndSep|
  {
    var clauses, tail := Join(where, AndSep), LimitClause + IntToDecimal(limit) + QueryEnd;
    JoinSeparatorAt(where, AndSep, i);
    assert RenderQuery(where, limit) == QueryHead + clauses + tail;
    var o := JoinOffset(where, AndSep, i) + |where[i]|;
    PieceInMiddle(RenderQuery(where, limit), QueryHead, clauses, tail, |QueryHead| + o, o, AndSep);
  }

  /** Ties `query` to the rendering of some clause list built in lockstep from `values`. */
  ghost predicate RendersFilter(query: SqlQuery, limit: int, clauses: seq<string>, names: seq<string>,
                                values: seq<Option<ParamValue>>)
  {
    exists where: seq<string>, slots: seq<nat> ::
      BuiltFrom(where, query.parameters, slots, clauses, names, values) && query.text == RenderQuery(where, limit)
  }

  /**
   * The fixed two-parameter queries of the single-item getters and
   * `get_payments_for_invoice`: `select` from the container, filtered on the
   * engagement and on `field`, each compared with a parameter bound to the
   * caller's value.
   */
  function KeyQuery(select: string, field: string, engagementId: string, key: string): (r: SqlQuery)
    ensures r.parameters == [Param("@engagement_id", Str(engagementId)), Param("@" + field, Str(key))]
    ensures StartsWith(r.text, "\n        " + select + " FROM c\n")
    ensures OccursAt(r.text, |"\n        " + select + " FROM c\n" + "        WHERE "|,
                     "c.engagement_id = " + r.parameters[0].name)
    ensures EndsWith(r.text, "AND c." + field + " = " + r.parameters[1].name + "\n        ")
  {
    var head := "\n        " + select + " FROM c\n";
    var clause := "c.engagement_id = " + "@engagement_id";
    var last := "AND c." + field + " = " + "@" + field + "\n        ";
    KeyQueryLayout(head, "        WHERE ", clause, "\n          ", last);
    SqlQuery(head + ("        WHERE " + clause + "\n          ") + last,
             [Param("@engagement_id", Str(engagementId)), Param("@" + field, Str(key))])
  }

  /** The text of a key query opens with its head, holds the engagement clause after `WHERE ` and ends with the key filter. */
  lemma KeyQueryLayout(head: string, where: string, clause: string, gap: string, last: string)
    ensures StartsWith(head + (where + clause + gap) + last, head)
    ensures OccursAt(head + (where + clause + gap) + last, |head + where|, clause)
    ensures EndsWith(head + (where + clause + gap) + last, last)
  {
    ThreePartAffixes(head, where + clause + gap, last);
    NestedPieceAt(head, where, clause, gap, last);
  }

  const MissingContainerMessage: string :=
    "Container name not provided and COSMOS_CONTAINER is not set. Pass container_name explicitly (e.g., 'invoices')."

  /** `container_name or self._default_container_name`, checked for truthiness. */
  function ContainerName(given: Option<string>, fallback: Option<string>): (r: Option<string>)
    ensures r.Some? <==> Truthy(given) || Truthy(fallback)
    ensures r.Some? ==> r.value != ""
    ensures Truthy(given) ==> r == given
    ensures !Truthy(given) && Truthy(fallback) ==> r == fallback
  {
    if Truthy(given) then given else if Truthy(fallback) then fallback else None
  }

  // ---------------------------------------------------------------------------
  // The store
  // ---------------------------------------------------------------------------

  class AuditOperationsStore {
    const endpoint: string
    const dbName: string
    const defaultContainerName: Option<string>
    const service: CosmosService
    var client: CosmosClient?
    var credential: DefaultAzureCredential?
    var database: DatabaseProxy?
    /** Container proxies cached by name. */
    var containers: map<string, ContainerProxy>

    ghost predicate Valid()
      reads this
    {
      && endpoint != "" && dbName != ""
      && (client == null <==> credential == null)
      && (client == null <==> database == null)
      && (client != null ==>
            && client.endpoint == endpoint && client.credential == credential && client.service == service
            && database.client == client && database.name == dbName)
      && (client == null ==> containers == map[])
      && (forall n :: n in containers ==> containers[n].name == n && containers[n].database == database)
    }

    /** What a cached container yields for a query on this store's account and database. */
    lemma CachedContainerQueries(name: string, q: SqlQuery)
      requires Valid() && name in containers
      ensures containers[name].QueryItems(q) == service(endpoint, dbName, name, q)
    {
    }

    constructor Init(env: map<string, string>, service: CosmosService)
      requires InitError(env) == None
      ensures Valid()
      ensures endpoint == env[EndpointVar] && dbName == env[DatabaseVar]
      ensures defaultContainerName == GetEnv(env, ContainerVar) && this.service == service
      ensures client == null && credential == null && database == null && containers == map[]
    {
      endpoint := env[EndpointVar];
      dbName := env[DatabaseVar];
      defaultContainerName := GetEnv(env, ContainerVar);
      this.service := service;
      client := null;
      credential := null;
      database := null;
      containers := map[];
    }

    /** `AuditOperationsStore()`: raises ValueError when a required setting is missing. */
    static method Open(env: map<string, string>, service: CosmosService)
      returns (r: Result<AuditOperationsStore, StoreError>)
      ensures r.Failure? <==> InitError(env).Some?
      ensures r.Failure? ==> r.error == InitError(env).value
      ensures r.Success? ==> fresh(r.value) && r.value.Valid()
      ensures r.Success? ==> r.value.client == null && r.value.containers == map[]
      ensures r.Success? ==> r.value.endpoint == env[EndpointVar] && r.value.dbName == env[DatabaseVar]
      ensures r.Success? ==> r.value.defaultContainerName == GetEnv(env, ContainerVar)
      ensures r.Success? ==> r.value.service == service
    {
      var err := InitError(env);
      if err.Some? {
        return Failure(err.value);
      }
      var store := new AuditOperationsStore.Init(env, service);
      return Success(store);
    }

    /** `_ensure_client`: creates credential, client and database once. */
    method EnsureClient()
      requires Valid()
      modifies this
      ensures Valid() && client != null && containers == old(containers)
      ensures ClientSetUp()
    {
      if client == null {
        var cred := new DefaultAzureCredential();
        var c := new CosmosClient(endpoint, cred, service);
        credential := cred;
        client := c;
        database := c.GetDatabaseClient(dbName);
      }
    }

    /** `_get_container`: the cached proxy for the resolved name, created on first use. */
    method GetContainer(containerName: Option<string>) returns (r: Result<ContainerProxy, StoreError>)
      requires Valid()
      modifies this
      ensures Valid() && client != null
      ensures ClientSetUp()
      ensures r.Failure? <==> ContainerName(containerName, defaultContainerName) == None
      ensures r.Failure? ==> r.error == ValueError(MissingContainerMessage) && containers == old(containers)
      ensures r.Success? ==>
        var name := ContainerName(containerName, defaultContainerName).value;
        && name in containers && r.value == containers[name] && r.value.name == name
        && (name in old(containers) ==> containers == old(containers))
        && (name !in old(containers) ==> fresh(r.value) && containers == old(containers)[name := r.value])
    {
      EnsureClient();
      var name := ContainerName(containerName, defaultContainerName);
      if name.None? {
        return Failure(ValueError(MissingContainerMessage));
      }
      if name.value !in containers {
        var c := database.GetContainerClient(name.value);
        containers := containers[name.value := c];
      }
      return Success(containers[name.value]);
    }

    /** Between two states the client, credential and database were kept, or were created fresh when unset. */
    twostate predicate ClientSetUp()
      reads this
    {
      && (old(client) != null ==>
            client == old(client) && credential == old(credential) && database == old(database))
      && (old(client) == null ==> fresh(client) && fresh(credential) && fresh(database))
    }

    /**
     * Between two states the cache gained an entry for `name` only if it had
     * none: an existing proxy is kept and every other entry is unchanged.
     */
    twostate predicate CacheKeeps(name: string)
      reads this
    {
      && name in containers
      && (name in old(containers) ==> containers == old(containers))
      && (name !in old(containers) ==>
            fresh(containers[name]) && containers == old(containers)[name := containers[name]])
    }

    /** `_get_container` with a literal, non-empty container name. */
    method NamedContainer(name: string) returns (c: ContainerProxy)
      requires Valid() && name != ""
      modifies this
      ensures Valid() && name in containers && c == containers[name]
      ensures ClientSetUp() && CacheKeeps(name)
    {
      var r := GetContainer(Some(name));
      c := r.value;
    }

    /** `get_invoice`. */
    method GetInvoice(engagementId: string, invoiceId: string) returns (r: Option<Document>)
      requires Valid()
      modifies this
      ensures Valid() && ClientSetUp() && CacheKeeps("invoices")
      ensures var items := service(endpoint, dbName, "invoices", KeyQuery("SELECT TOP 1 *", "invoice_id", engagementId, invoiceId));
        r == if items == [] then None else Some(items[0])
    {
      var container := NamedContainer("invoices");
      CachedContainerQueries("invoices", KeyQuery("SELECT TOP 1 *", "invoice_id", engagementId, invoiceId));
      r := FirstOrNone(container.QueryItems(KeyQuery("SELECT TOP 1 *", "invoice_id", engagementId, invoiceId)));
    }

    /** `get_vendor`. */
    method GetVendor(engagementId: string, vendorId: string) returns (r: Option<Document>)
      requires Valid()
      modifies this
      ensures Valid() && ClientSetUp() && CacheKeeps("vendors")
      ensures var items := service(endpoint, dbName, "vendors", KeyQuery("SELECT TOP 1 *", "vendor_id", engagementId, vendorId));
        r == if items == [] then None else Some(items[0])
    {
      var container := NamedContainer("vendors");
      CachedContainerQueries("vendors", KeyQuery("SELECT TOP 1 *", "vendor_id", engagementId, vendorId));
      r := FirstOrNone(container.QueryItems(KeyQuery("SELECT TOP 1 *", "vendor_id", engagementId, vendorId)));
    }

    /** `get_payment`. */
    method GetPayment(engagementId: string, paymentId: string) returns (r: Option<Document>)
      requires Valid()
      modifies this
      ensures Valid() && ClientSetUp() && CacheKeeps("payments")
      ensures var items := service(endpoint, dbName, "payments", KeyQuery("SELECT TOP 1 *", "payment_id", engagementId, paymentId));
        r == if items == [] then None else Some(items[0])
    {
      var container := NamedContainer("payments");
      CachedContainerQueries("payments", KeyQuery("SELECT TOP 1 *", "payment_id", engagementId, paymentId));
      r := FirstOrNone(container.QueryItems(KeyQuery("SELECT TOP 1 *", "payment_id", engagementId, paymentId)));
    }

    /** `get_payments_for_invoice`: every payment document yielded, in order. */
    method GetPaymentsForInvoice(engagementId: string, invoiceId: string) returns (results: seq<Document>)
      requires Valid()
      modifies this
      ensures Valid() && ClientSetUp() && CacheKeeps("payments")
      ensures results == service(endpoint, dbName, "payments", KeyQuery("SELECT *", "invoice_id", engagementId, invoiceId))
    {
      var container := NamedContainer("payments");
      var q := KeyQuery("SELECT *", "invoice_id", engagementId, invoiceId);
      CachedContainerQueries("payments", q);
      results := CollectAll(container.QueryItems(q));
    }

    /** `query_invoices(engagement_id, ..., limit)`. */
    method QueryInvoices(f: InvoiceFilters, limit: int) returns (results: seq<Document>, ghost query: SqlQuery)
      requires Valid()
      modifies this
      ensures Valid() && ClientSetUp() && CacheKeeps("invoices")
      ensures RendersFilter(query, limit, InvoiceClauses, InvoiceParamNames, InvoiceFilterValues(f))
      ensures results == service(endpoint, dbName, "invoices", query)
    {
      var container := NamedContainer("invoices");
      var where, params, slots := BuildInvoiceFilter(f);
      var q := SqlQuery(RenderQuery(where, limit), params);
      query := q;
      CachedContainerQueries("invoices", q);
      results := CollectAll(container.QueryItems(q));
    }

    /** `query_payments(engagement_id, ..., limit)`. */
    method QueryPayments(f: PaymentFilters, limit: int) returns (results: seq<Document>, ghost query: SqlQuery)
      requires Valid()
      modifies this
      ensures Valid() && ClientSetUp() && CacheKeeps("payments")
      ensures RendersFilter(query, limit, PaymentClauses, PaymentParamNames, PaymentFilterValues(f))
      ensures results == service(endpoint, dbName, "payments", query)
    {
      var container := NamedContainer("payments");
      var where, params, slots := BuildPaymentFilter(f);
      var q := SqlQuery(RenderQuery(where, limit), params);
      query := q;
      CachedContainerQueries("payments", q);
      results := CollectAll(container.QueryItems(q));
    }
  }
}
