# Audit data generator and audit operations store, in Dafny

This project models two parts of an accounts-payable audit proof of concept.

- **The synthetic data generator** (`src/data_generator/generate.py`). It builds the vendors, invoices and payments of one engagement. It then injects the "anchor exceptions" every demo relies on: a duplicate invoice pair, and a paid invoice with no purchase order. It also builds the policy-snippet documents that are indexed for retrieval.
- **The audit operations store** (`src/MCP/audit/audit_operations_store.py`). This is an asynchronous Cosmos DB store over the `vendors`, `invoices` and `payments` containers:
  - it checks its settings on construction;
  - it creates the SDK client lazily, and caches container clients by name;
  - it builds parameterised SQL queries from optional filters;
  - it returns the first query result, or all of them.

Files:

- `wrappers.dfy`, module `Wrappers`: `Option` and `Result`. `Result` stands for the exceptions the Python code raises.
- `text.dfy`, module `Text`: the string operations the code uses.
  - `str()` of an integer, with a read-back round trip.
  - `str.join`, and `str.replace` of one character by another.
  - Prefix and suffix facts.
- `lists.dfy`, module `Lists`: `RecordList<T>`, a Python list owned by a caller and changed in place with `insert` and `append`.
- `generate.dfy`, module `DataGenerator`: the generator.
  - The three list builders are loops.
  - `inject_anchor_exceptions` changes the caller's two `RecordList`s in place.
  - The policy documents are functions.
- `store.dfy`, module `AuditStore`: the store.
  - `AuditOperationsStore` is a class. Its fields are the client, credential and database fields and the container cache, and the methods update them.
  - The SDK's credential, client, database proxy and container proxy are small classes, so that the cache can be stated in terms of object identity.
  - The where/params builders append clause by clause, as the source does.

How the model treats the outside world:

- **Randomness.** Every generated record reads its own bundle of raw oracle values. `random.choice(xs)` picks `xs[pick % |xs|]`. `random.randint(a, b)` is `a + pick % (b - a + 1)`. `random.random()` is a real in [0, 1).
- **Dates and amounts.** Timestamps are whole days since 1970-01-01 at UTC midnight. Amounts are integer cents.
- **The environment** is a `map<string, string>` passed to the store's factory.
- **The Cosmos account** is a function from (endpoint, database, container, query) to the sequence of documents its async iterator yields.

## Model

| member | source | states |
|---|---|---|
| Text.ReplaceChar | src/data_generator/generate.py:29 | same length; every "." becomes "-" and every other character is kept; the result has no "." |
| Text.NatToDecimal | src/data_generator/generate.py:56 | `str(n)` of a natural number: at least one decimal digit, with no leading zero unless the number is 0 |
| Text.DecimalRoundTrip | src/data_generator/generate.py:65 | reading the digits of `str(n)` back gives `n` |
| Text.DecimalInjective | src/data_generator/generate.py:56 | different numbers have different decimal texts |
| Text.IntToDecimal | src/MCP/audit/audit_operations_store.py:184 | `str(i)` of an integer: at least one character, starting with "-" exactly when `i` is negative |
| Text.IntRoundTrip | src/MCP/audit/audit_operations_store.py:184 | the text of an integer is well formed and reads back as that integer |
| Text.JoinAffixes | src/MCP/audit/audit_operations_store.py:39 | `sep.join(xs)` is empty for no strings; otherwise it starts with the first string and ends with the last |
| Text.JoinAppend | src/MCP/audit/audit_operations_store.py:183 | joining one more string appends the separator and that string |
| Text.JoinLength | src/MCP/audit/audit_operations_store.py:183 | the joined text ends right after the last string, at its offset |
| Text.JoinPieceAt | src/MCP/audit/audit_operations_store.py:183 | the i-th string can be read back from the joined text at its offset |
| Text.JoinSeparatorAt | src/MCP/audit/audit_operations_store.py:183 | every string but the last is followed by the separator, and the next string starts right after it |
| Lists.RecordList.Insert | src/data_generator/generate.py:156-157 | `list.insert(i, x)`: `x` goes at position `i`, or at the end when `i` is past it; everything else keeps its order |
| Lists.RecordList.Append | src/data_generator/generate.py:160-181 | `list.append(x)`: the old list, then `x` |
| DataGenerator.Choice | src/data_generator/generate.py:62-63 | `random.choice` returns an element of its list |
| DataGenerator.RandInt | src/data_generator/generate.py:65 | `random.randint(lo, hi)` lies in [lo, hi] |
| DataGenerator.SectionKey | src/data_generator/generate.py:29 | the section key is the section id with every "." replaced by "-", and has no "." |
| DataGenerator.PolicyContent | src/data_generator/generate.py:19-25 | the template text begins with the `Policy:` line, holds the section title right after `Section: ` and the effective date right after `Effective Date: `, and ends with a blank line, the policy text and a newline |
| DataGenerator.GeneratePolicyDoc | src/data_generator/generate.py:27-44 | id `doc-policy-{e}-{policy_id}-{section_key}`, with no "." in its section-key tail; doc_type `policy_snippet`; engagement, policy id and effective date copied; `section` is the title; content from the template |
| DataGenerator.PolicyDocIdsDiffer | src/data_generator/generate.py:32 | two documents of one engagement get different ids when their policy ids have equal length and differ, or when their policy ids are equal and their section keys differ |
| DataGenerator.SectionIdsCollide | src/data_generator/generate.py:29-32 | section ids "3.1" and "3-1" give the same document id |
| DataGenerator.GeneratePolicySnippets | src/data_generator/generate.py:213-240 | exactly three documents, one per table row in order, with pairwise distinct ids |
| DataGenerator.PolicySnippetIdsDistinct | src/data_generator/generate.py:214-240 | the three policy rows give three different document ids |
| DataGenerator.VendorIdsDiffer | src/data_generator/generate.py:56-58 | vendors at different positions get different vendor ids and document ids |
| DataGenerator.MakeVendor | src/data_generator/generate.py:56-66 | vendor id `VEN-{1000+i}` and id `{e}:{vendor_id}`; type `vendor`, created 2024-11-15; a listed name and risk tier; a bank hash `ba_` followed by the digits of a number from 10000 to 99999 |
| DataGenerator.GenerateVendors | src/data_generator/generate.py:52-67 | `len(range(n))` vendors; the i-th is built from draw i; vendor id `VEN-{1000+i}`, id `{e}:{vendor_id}`; name and risk tier drawn from their lists; ids pairwise distinct |
| DataGenerator.InvoiceIdsDiffer | src/data_generator/generate.py:73-79 | invoices at different positions get different invoice ids and document ids |
| DataGenerator.TaggedDraw | src/data_generator/generate.py:87-88 | a prefix followed by the digits of a drawn number in the given range |
| DataGenerator.MakeInvoice | src/data_generator/generate.py:72-90 | invoice id `INV-{7000+i}` and id `{e}:{invoice_id}`; type `invoice`, currency USD; a listed vendor's id; a date within 92 days of start; one of the six fixed amounts or a whole number of dollars from 300 to 15000; a `PO-` number from 8000 to 8999 exactly when its roll is below 0.75, and a `RCPT-` number from 9000 to 9999 exactly when its roll is below 0.70; a listed status |
| DataGenerator.GenerateInvoices | src/data_generator/generate.py:69-91 | IndexError exactly when n > 0 and there are no vendors; otherwise `len(range(n))` invoices, the i-th built from draw i, with id `INV-{7000+i}`, a date within 92 days of start, a listed status, a listed vendor's id, and distinct invoice ids |
| DataGenerator.MakePayment | src/data_generator/generate.py:99-113 | a payment has id `PAY-{invoice_id}` and type `payment`; it copies the invoice id, vendor and amount; it is paid 1 to 60 days after the invoice date, by a listed method |
| DataGenerator.GeneratePayments | src/data_generator/generate.py:93-114 | at most one payment per invoice, in invoice order; an invoice is paid exactly when its roll is not above `pay_rate`; each payment is the one built from its invoice; every payment references an invoice; rate ≥ 1 pays all, rate < 0 pays none |
| DataGenerator.DuplicatePair | src/data_generator/generate.py:128-154 | INV-ANCHOR-001 and -002: the same vendor, amount, PO and receipt (both present), both Paid, dated two days apart |
| DataGenerator.DuplicatePairPayments | src/data_generator/generate.py:160-181 | one payment per duplicate, matching its invoice's id, vendor and amount, paid after the invoice date |
| DataGenerator.NoPoInvoice | src/data_generator/generate.py:184-196 | INV-ANCHOR-NOPO: no PO, no receipt, status Paid, for the given vendor |
| DataGenerator.NoPoPayment | src/data_generator/generate.py:198-208 | the NOPO payment matches its invoice, is paid after it, by Wire |
| DataGenerator.AnchorInvoices | src/data_generator/generate.py:125-197 | the three anchors in front order 001, 002, NOPO; the pair uses `vendors[0]` and NOPO uses `vendors[1]`; distinct invoice ids |
| DataGenerator.AnchorPayments | src/data_generator/generate.py:160-208 | three payments, each matching the anchor at the same position; exactly the third references NOPO |
| DataGenerator.InjectAnchorExceptions | src/data_generator/generate.py:119-208 | with ≥ 2 vendors: invoices become the three anchors followed by the old invoices in order, and payments become the old payments followed by the three anchor payments; with one vendor the pair and its payments go in and then IndexError; with none nothing changes and IndexError |
| DataGenerator.PrependAnchorsKeepsReferences | src/data_generator/generate.py:156-208 | placing vendor-referencing invoices in front, and appending payments of those invoices, keeps both reference invariants |
| DataGenerator.AnchorsKeepReferences | src/data_generator/generate.py:119-208 | after injection every invoice names a listed vendor and every payment a listed invoice |
| DataGenerator.AnchorIdsAreFresh | src/data_generator/generate.py:129-197 | the anchor invoice ids never collide with generated `INV-{7000+i}` ids |
| DataGenerator.AddAnchors | src/data_generator/generate.py:119-208 | the injection step on the generated lists: IndexError exactly when there are fewer than two vendors; otherwise the anchors in front of the invoices and their payments after the payments, keeping both reference invariants and distinct invoice ids |
| DataGenerator.GenerateStructuredData | src/data_generator/generate.py:259-265 | vendors, invoices, payments, then injection; fails exactly when fewer than two vendors are asked for; otherwise `n+3` invoices with the anchors at 0, 1, 2, between 3 and `n+3` payments, both reference invariants, and distinct invoice ids |
| AuditStore.MissingVariables | src/MCP/audit/audit_operations_store.py:30-38 | exactly the absent or empty required settings, endpoint before database |
| AuditStore.InitError | src/MCP/audit/audit_operations_store.py:30-39 | no error exactly when endpoint and database are both non-empty; an error message starts with `Missing environment variables: ` |
| AuditStore.InitErrorMessages | src/MCP/audit/audit_operations_store.py:30-39 | ValueError exactly when endpoint or database is absent or empty, with the message listing exactly the missing names in order |
| AuditStore.AuditOperationsStore.Open | src/MCP/audit/audit_operations_store.py:23-46 | construction fails with that ValueError, or yields a fresh store with the settings read, no client, an empty cache and the account it was given, so every later query goes to that account |
| AuditStore.AuditOperationsStore.Init | src/MCP/audit/audit_operations_store.py:24-46 | settings read from the environment (the container name optional); client, credential and database unset; cache empty |
| AuditStore.AuditOperationsStore.EnsureClient | src/MCP/audit/audit_operations_store.py:48-52 | creates fresh credential, client and database only when there is no client; otherwise changes nothing; the cache is untouched |
| AuditStore.ContainerName | src/MCP/audit/audit_operations_store.py:61-62 | the given name if non-empty, else the default if non-empty, else none |
| AuditStore.AuditOperationsStore.GetContainer | src/MCP/audit/audit_operations_store.py:54-71 | ensures the client first, even on error; ValueError exactly when neither name is set, with the cache unchanged; otherwise returns the proxy cached under the name; a hit returns the existing object with the cache unchanged; a miss adds one fresh proxy and leaves other entries unchanged |
| AuditStore.AuditOperationsStore.NamedContainer | src/MCP/audit/audit_operations_store.py:75 | `_get_container` with a literal name: returns the proxy cached under it, with the client kept or freshly set up and the cache kept or extended by that one fresh entry |
| AuditStore.KeyQuery | src/MCP/audit/audit_operations_store.py:78-86 | two parameters, `@engagement_id` bound to the engagement and `@{field}` bound to the key, in that order; the text selects from `c`, filters right after `WHERE` on `c.engagement_id` compared with the first parameter, and ends with the filter `c.{field}` compared with the second |
| AuditStore.FirstOrNone | src/MCP/audit/audit_operations_store.py:88-90 | the first document the iterator yields, or None when it yields none |
| AuditStore.CollectAll | src/MCP/audit/audit_operations_store.py:139-142 | every document the iterator yields, in iteration order |
| AuditStore.TextFilter | src/MCP/audit/audit_operations_store.py:162-173 | a string filter contributes a parameter exactly when it is truthy (present and non-empty) |
| AuditStore.AmountFilter | src/MCP/audit/audit_operations_store.py:174-179 | an amount filter contributes a parameter exactly when it is not None, zero included |
| AuditStore.ActiveSlotsExact | src/MCP/audit/audit_operations_store.py:159-179 | the clause positions used are increasing and are exactly the filters that have a value |
| AuditStore.AppendIfSet | src/MCP/audit/audit_operations_store.py:162-164 | one filter step appends its clause and its `@`-parameter together exactly when the filter has a value |
| AuditStore.BuiltFromIsUnique | src/MCP/audit/audit_operations_store.py:159-179 | the filters determine the clause and parameter lists completely |
| AuditStore.BuiltFromSelectsActive | src/MCP/audit/audit_operations_store.py:159-179 | a built list selects, in table order, exactly the filters that have a value; each clause ends with its parameter's name |
| AuditStore.BuildInvoiceFilter | src/MCP/audit/audit_operations_store.py:159-179 | where and params built in lockstep over the seven clauses in fixed order; equal lengths from 1 to 7; the engagement clause and `@engagement_id` first; each clause binds its own parameter |
| AuditStore.InvoiceFilterSelects | src/MCP/audit/audit_operations_store.py:162-179 | an invoice clause is present exactly when its filter is set, in table order |
| AuditStore.InvoiceClausesBindParameters | src/MCP/audit/audit_operations_store.py:159-179 | every invoice clause ends with the name of the parameter it binds |
| AuditStore.BuildPaymentFilter | src/MCP/audit/audit_operations_store.py:203-217 | the same lockstep shape over the five payment clauses (engagement, paid_at ≥, paid_at ≤, vendor, invoice); lengths from 1 to 5 |
| AuditStore.PaymentFilterSelects | src/MCP/audit/audit_operations_store.py:206-217 | a payment clause is present exactly when its filter is truthy, in table order |
| AuditStore.PaymentClausesBindParameters | src/MCP/audit/audit_operations_store.py:203-217 | every payment clause ends with the name of the parameter it binds |
| AuditStore.EmptyStringVersusZero | src/MCP/audit/audit_operations_store.py:162-176 | `date_from=""` adds no clause while `min_amount=0` adds one: the query filters on engagement and minimum amount only |
| AuditStore.RenderQuery | src/MCP/audit/audit_operations_store.py:181-185 | the text starts with `SELECT * FROM c WHERE` (with the source's whitespace) and ends with `OFFSET 0 LIMIT {limit}` |
| AuditStore.RenderedClausesReadBack | src/MCP/audit/audit_operations_store.py:181-185 | between the head and the limit line the text is exactly the clauses joined by " AND " |
| AuditStore.RenderedClauseAt | src/MCP/audit/audit_operations_store.py:183 | each clause can be read back from the query text, in order, at its offset after the head |
| AuditStore.RenderedSeparatorAt | src/MCP/audit/audit_operations_store.py:183 | each clause but the last is followed by " AND ", ending where the next clause starts |
| AuditStore.RenderedLimitReadsBack | src/MCP/audit/audit_operations_store.py:184 | the limit can be read back unchanged from the rendered text |
| AuditStore.AuditOperationsStore.GetInvoice | src/MCP/audit/audit_operations_store.py:75-90 | caches `invoices`; returns the first document of the TOP 1 query on engagement and invoice id, or None; the client, credential and database are kept when a client existed and created fresh otherwise; the container is cached under its name, a cached proxy kept and a new one added with every other entry unchanged |
| AuditStore.AuditOperationsStore.GetVendor | src/MCP/audit/audit_operations_store.py:92-107 | caches `vendors`; returns the first document of the TOP 1 query on engagement and vendor id, or None; the client, credential and database are kept when a client existed and created fresh otherwise; the container is cached under its name, a cached proxy kept and a new one added with every other entry unchanged |
| AuditStore.AuditOperationsStore.GetPayment | src/MCP/audit/audit_operations_store.py:109-124 | caches `payments`; returns the first document of the TOP 1 query on engagement and payment id, or None; the client, credential and database are kept when a client existed and created fresh otherwise; the container is cached under its name, a cached proxy kept and a new one added with every other entry unchanged |
| AuditStore.AuditOperationsStore.GetPaymentsForInvoice | src/MCP/audit/audit_operations_store.py:126-142 | caches `payments`; returns every document of the engagement and invoice-id query, in order; the client, credential and database are kept when a client existed and created fresh otherwise; the container is cached under its name, a cached proxy kept and a new one added with every other entry unchanged |
| AuditStore.AuditOperationsStore.QueryInvoices | src/MCP/audit/audit_operations_store.py:146-190 | the query sent is the rendering of a lockstep-built invoice filter with the limit; all its documents are returned in order; the client, credential and database are kept when a client existed and created fresh otherwise; the container is cached under its name, a cached proxy kept and a new one added with every other entry unchanged |
| AuditStore.AuditOperationsStore.QueryPayments | src/MCP/audit/audit_operations_store.py:192-228 | the same for payments, with the state kept and the `payments` container cached in the same way |

## Left out

- `src/MCP/audit/app.py`, `src/data_generator/search_index.py` and `src/data_generator/cosmos_store.py` are not part of this model. They are MCP and SDK plumbing: logging wrappers, the search index schema, embeddings, and upserts.
- The I/O steps of `main` in `generate.py` are left out: environment loading, printing, the Cosmos and Search calls, and the fixed counts 50 and 400 and rate 0.7. `GenerateStructuredData` takes the counts, the rate and the start day as parameters.
- `utc_iso` and ISO timestamp parsing are left out: dates are day numbers, so the `...T00:00:00Z` text form is not modelled.
- Floating-point amounts are whole cents. The random amount choice is `randint(300, 15000)` dollars. `min_amount` and `max_amount` are integer cents too.
- The random number generator and `random.seed(42)` are replaced by per-record oracle values. The model does not capture that the Python code draws all records from one shared stream.
- `async`/`await` and concurrency are left out, as are credentials and Cosmos SQL evaluation. A query's result is whatever the account function yields.
- `load_dotenv` is left out. The environment is an input map.
- Lists.RecordList.Insert: takes only non-negative indices (Python's negative `list.insert` indices are not modelled); the source only inserts at 0, 1 and 2.
- `int(limit)` is the identity here because `limit` is an integer. A float limit would be truncated by Python, and that is not modelled.
- The infrastructure provisioning (Terraform) has no source here and is not modelled.
- Default arguments are not modelled as such. The callers of `query_invoices` and `query_payments` pass every filter and the limit (`limit: int = 200` at `src/MCP/audit/audit_operations_store.py:155` and `:199`; the filters default to None, which is `None` in the model). `GeneratePayments` takes the rate explicitly (`pay_rate: float = 0.70` at `src/data_generator/generate.py:93`).
- SDK constructors and calls never raise in the model. In the source, if `CosmosClient(...)` raised after the credential was created (`src/MCP/audit/audit_operations_store.py:50-51`), the store would keep a credential with no client. `Valid()` rules that half-set-up state out, and `EnsureClient` always sets all three.
- The caller's `vendors` list is a sequence value in the model, so `inject_anchor_exceptions` cannot change it; no separate frame is stated for it.
