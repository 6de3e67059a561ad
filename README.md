# Metrobus card client: a Dafny model of its portal scraping

The Metrobus card client looks up a Panama Metrobus card on the card
operator's web portal. For each operation it sends a session-lookup request
for the card number. The page that comes back carries a session token (the
KSI form field). The ledger operations then send a "comerciales" query
carrying that token. The client reads its answer out of HTML tables found
by their label text.

This project models that core:

- the two table extractors of `utils.py`;
- the movements extractor of `get_movements`;
- the builders of the request parameters;
- the five operations of the `TarjetaMetrobusPanama` class (`__init__.py`);
- the module-level twins of those operations in `tarjeta_metrobus.py`.

The HTML, the network and the clock are inputs. The model proves what each
operation returns and which requests it puts on the wire.

Modules, one per file:

| file | module | what it holds |
|---|---|---|
| `wrappers.dfy` | `Wrappers` | `Option`, and `Result` (a value, or the exception raised instead, named by a `Fault`) |
| `text.dfy` | `Text` | Python's `str.strip()` over the characters `str.isspace()` accepts |
| `clock.dfy` | `Clock` | `strftime('%Y%m%d%H%M%S')` and its inverse |
| `models.dfy` | `Models` | the records of `models.py`, `to_dict`, and `from_dict` as a partial read |
| `soup.dfy` | `Soup` | a parsed page: the KSI element, and the cell texts of the table each label text leads to |
| `utils.dfy` | `Utils` | `bs_table_to_dict` (an imperative loop proved against a function) and `table_to_data` |
| `movements.dfy` | `Movements` | the header/row pairing `get_movements` does with pandas |
| `portal.dfy` | `Portal` | requests, their query strings, the session/request log and the ledger triples |
| `scrape.dfy` | `Scrape` | what each operation reads from the one page it parses |
| `operations.dfy` | `Operations` | each operation end to end, given the portal's answers |
| `client.dfy` | `Client` | the class of `__init__.py`, which replaces its session before every request |
| `module_client.dfy` | `ModuleClient` | the functions of `tarjeta_metrobus.py`, which share one global session |

How the model maps the source:

- **The portal** is a function `Serve` from a request to the page it answers.
- **A request** is the session lookup of a card number, or a ledger query with
  its parameter set. `Query()` gives the query string sent for it.
- **Sessions** are never seen by the portal function; each client object
  holds them, in its session fields and in its log. The log holds `Prime(s)`
  for opening and priming session `s`, and `Send(s, request)` for a request
  sent on it.
- **Exceptions** become `Raise(fault)`.
- **`None`** becomes `Ok(None)`.

Two points where the code does something other than its annotations and
tests suggest. The model follows the code in both:

- The return annotations and the `if ksi_input is None` test suggest that a
  missing KSI gives `None`. But the code subscripts the KSI element before
  testing it for `None`. So the model raises: `NoKsiElement` when the element
  is missing, `NoKsiValue` when it has no `value` attribute. The `None` tests
  that follow are unreachable. This is why `get_comerciales_params` never
  returns `None` (`Scrape.ParamsNeverNone`). It is also why no ledger
  operation returns `None` for missing parameters.
- The extractors have no error handling. They raise `IndexError` on short
  tables and on odd cell counts. They raise on a pandas width mismatch, and on
  `CardMovement(**row)` with the wrong keywords. The model raises in each of
  these cases too.

## Model

| member | source | states |
|---|---|---|
| Text.StripSpec | src/tarjeta_metrobus/utils.py:21 | `strip()` keeps a contiguous slice of the string that neither starts nor ends with whitespace, and removes only whitespace on either side |
| Text.TrimStartSpec | src/tarjeta_metrobus/utils.py:21 | the leading whitespace run, and all of it, is what `lstrip` removes |
| Text.TrimEndSpec | src/tarjeta_metrobus/utils.py:21 | the trailing whitespace run, and all of it, is what `rstrip` removes |
| Text.StripUntrimmed | src/tarjeta_metrobus/utils.py:32 | a string already free of edge whitespace is left unchanged by `strip()` |
| Text.StripIdempotent | src/tarjeta_metrobus/utils.py:32 | stripping twice is stripping once |
| Clock.Digits | src/tarjeta_metrobus/__init__.py:88 | zero-padded decimal field: exactly `width` characters, all digits |
| Clock.Timestamp | src/tarjeta_metrobus/__init__.py:87-88 | the formatted time is fourteen characters, all digits |
| Clock.ParseDigitsOfDigits | src/tarjeta_metrobus/__init__.py:88 | reading a zero-padded field back gives the number |
| Clock.TimestampRoundTrip | src/tarjeta_metrobus/__init__.py:87-88 | the fourteen-digit `fechalogeo` determines the instant: parsing it gives the instant back |
| Models.ComercialesParams.ToDict | src/tarjeta_metrobus/models.py:25-36 | `to_dict()` has exactly the seven portal parameter names, each holding its field (the primitive itself, written as its contract) |
| Models.CardInfoOf | src/tarjeta_metrobus/models.py:48-57 | `CardInfo.from_dict` succeeds exactly when all four snake_case keys are present, reads each field from its key, and ignores extra keys |
| Models.CardInfoResumeOf | src/tarjeta_metrobus/models.py:60-69 | the same for `CardInfoResume` and its four keys |
| Soup.Page.Find | src/tarjeta_metrobus/utils.py:27-31 | finding a label gives a table exactly when the label is on the page, and then the table it leads to (the primitive itself, written as its contract) |
| Utils.BsTableToDict | src/tarjeta_metrobus/utils.py:15-23 | the pair-by-pair loop returns what `TableToDict` specifies, raising at the same points (the copy at tarjeta_metrobus.py:146-164 is identical) |
| Utils.TableToDictOutcome | src/tarjeta_metrobus/utils.py:16-21 | raises exactly when there are fewer than two rows or the first two rows hold an odd number of cells; rows after the second never matter; at most one key per pair |
| Utils.PairDictKeys | src/tarjeta_metrobus/utils.py:20-21 | a key is present exactly when some pair's label (unstripped) slugifies to it |
| Utils.PairDictLastWins | src/tarjeta_metrobus/utils.py:20-21 | a pair that no later pair overrides gives its key its stripped value |
| Utils.PairDictSize | src/tarjeta_metrobus/utils.py:15-21 | the dictionary has at most as many keys as pairs |
| Utils.Rest | src/tarjeta_metrobus/utils.py:36 | `row[1:]` is one shorter, or empty for an empty row, and shifts the cells by one (the primitive itself, written as its contract) |
| Utils.Zip3Shape | src/tarjeta_metrobus/utils.py:36 | `zip` of three lists is as long as the shortest, and element k is the triple of the k-th elements |
| Utils.StripRow | src/tarjeta_metrobus/utils.py:32 | every cell of a row, stripped, in order |
| Utils.StatRecords | src/tarjeta_metrobus/utils.py:35-38 | one `{month, amount, count}` record per zipped column, in order |
| Utils.StatsFromTable | src/tarjeta_metrobus/utils.py:32-38 | the rows after the title: `IndexError` exactly when fewer than three remain; otherwise one record per column of the shortest of rows 1–3 less its first cell, record k holding cell k+1 of each of the three rows, stripped |
| Utils.TableToDataSpec | src/tarjeta_metrobus/utils.py:26-38 | `None` without the label; `IndexError` with fewer than three rows after the title; otherwise a record per column of the shortest of rows 1–3 (cell count minus one), record k holding cell k+1 of rows 1, 2, 3 stripped; later rows ignored (the nested copy at tarjeta_metrobus.py:353-365 is identical) |
| Movements.StripTable | src/tarjeta_metrobus/__init__.py:223 | every cell of every row stripped |
| Movements.SlugAll | src/tarjeta_metrobus/__init__.py:225 | each header cell slugified, in order |
| Movements.Header | src/tarjeta_metrobus/__init__.py:223-225 | the column labels are the placeholder `to_drop` followed by the slugified stripped cells of header row 1 after its first, one label per header cell (just `to_drop` for an empty header row) |
| Movements.MaxWidthSpec | src/tarjeta_metrobus/__init__.py:228 | the frame's width is the width of some row and no row is wider |
| Movements.KeptCount | src/tarjeta_metrobus/__init__.py:230 | dropping `to_drop` leaves the count of every other label unchanged |
| Movements.KeptFieldsInHeader | src/tarjeta_metrobus/__init__.py:230-236 | when the kept labels are `CardMovement`'s fields, each field labels exactly one column |
| Movements.FieldOfMovement | src/tarjeta_metrobus/__init__.py:236 | a record's field is the cell of its row under that field's column |
| Movements.RecordsShape | src/tarjeta_metrobus/__init__.py:236 | one record per data row, record k built from row k |
| Movements.RecordField | src/tarjeta_metrobus/__init__.py:225-236 | field `header[j]` of record k is cell j of row k |
| Movements.MovementsOk | src/tarjeta_metrobus/__init__.py:222-236 | a successful extraction had a header row, rows as wide as the header, and `CardMovement`'s fields as kept labels |
| Movements.MovementsOkWhen | src/tarjeta_metrobus/__init__.py:222-236 | extraction succeeds when there is a data row, every data row is as wide as the header, and the kept labels are exactly the fields |
| Movements.MovementsKeyedByHeader | src/tarjeta_metrobus/__init__.py:218-236 | one record per row from index 2, in table order; each field is the stripped cell under the slugified header naming it, with the leading column dropped |
| Movements.EmptyHistoryRaises | src/tarjeta_metrobus/__init__.py:227-229 | with no data row the frame has no columns and the header assignment raises |
| Movements.FieldsKept | src/tarjeta_metrobus/__init__.py:230 | no field of `CardMovement` is called `to_drop`, so the drop keeps them all |
| Movements.UsualHeader | src/tarjeta_metrobus/__init__.py:225-230 | a header naming the six fields after a throwaway cell is accepted |
| Movements.UsualRecord | src/tarjeta_metrobus/__init__.py:230-236 | under the usual header, record k holds cells 1 to 6 of its row |
| Movements.MovementsUsualLayout | src/tarjeta_metrobus/tarjeta_metrobus.py:292-310 | for the usual layout, one movement per data row, made of cells 1 to 6 stripped |
| Portal.SessionLookupParams | src/tarjeta_metrobus/__init__.py:150-159 | the lookup query has exactly the eight names: `accion` 6, `NumDistribuidor` 99, `NomUsuario` `usuInternet`, `NomHost` `AFT`, `NonDominio` `aft.cl`, `RutUsuario` `0`, `bloqueable` empty, and the card number under `NumTarjeta` |
| Portal.SessionLookupVariesInCardOnly | src/tarjeta_metrobus/__init__.py:150-164 | the lookup goes to `SesionPortalServlet`; two lookups differ only in `NumTarjeta`, and send the same query exactly when the cards are equal; `accion=6`, `NumDistribuidor=99` |
| Portal.LedgerQueryCarries | src/tarjeta_metrobus/__init__.py:87-98 | the ledger query goes to `ComercialesPortalServlet` with exactly the token, the triple as given, `DiasMov=45`, an empty start date and the fourteen-digit clock, which gives the clock back |
| Scrape.ReadKsi | src/tarjeta_metrobus/__init__.py:170-171 | the token is read exactly when the element exists and has a value |
| Scrape.TokenLookup | src/tarjeta_metrobus/__init__.py:170-179 | with `only_ksi` the reply depends on the KSI element alone (no table, no slugify); a missing element or value raises; otherwise the reply is the token |
| Scrape.MissingKsiRaises | src/tarjeta_metrobus/__init__.py:170-174 | the subscript before the `None` test raises in the full lookup too |
| Scrape.CardInfoOutcome | src/tarjeta_metrobus/__init__.py:181-193 | the full lookup is `None` exactly when the two-space label is absent; otherwise it is `from_dict` of `bs_table_to_dict` of its table, with their errors |
| Scrape.CardInfoUsualLayout | src/tarjeta_metrobus/__init__.py:181-193 | on the usual two-row balance table, each `CardInfo` field is the stripped cell right of the label that slugifies to its name |
| Scrape.ParamsNeverNone | src/tarjeta_metrobus/__init__.py:82-98 | parameter building raises exactly when the token lookup does, with the same fault, and otherwise gives the ledger parameters of the token; it never gives `None` |
| Scrape.ResumeOutcome | src/tarjeta_metrobus/__init__.py:124-136 | the resume is `None` exactly when the one-space label is absent; otherwise it is `from_dict` of the pairs of its table |
| Scrape.MovementsOutcome | src/tarjeta_metrobus/__init__.py:218-236 | movements are `None` exactly when `Saldos y movimientos` is absent; otherwise they are what the extractor makes of its table |
| Scrape.StatsOutcome | src/tarjeta_metrobus/__init__.py:260-264 | statistics never come out `None`: `uses` from `Monto utilizado`, `charges` from `Monto cargado`, raising only on a short table, in this model (see `schema().load` under Left out) |
| Operations.LedgerFollowsToken | src/tarjeta_metrobus/__init__.py:110-118 | a ledger request is sent exactly when the lookup page holds a token, and it carries that token, the triple and the clock |
| Operations.MissingTokenRaises | src/tarjeta_metrobus/__init__.py:170-174 | without a token every operation raises the lookup's fault and no ledger request goes out |
| Operations.ResumeReadsLedgerPage | src/tarjeta_metrobus/__init__.py:101-136 | get_card_resume raises the lookup's fault without a token; with one it is the reading of the ledger page answered for that token, and a record comes back exactly when the one-space label is there and its table decodes |
| Operations.MovementsReadHistoryPage | src/tarjeta_metrobus/__init__.py:196-236 | get_movements raises the lookup's fault without a token; a list comes back exactly when the token is there, the history label is on the page answered for it and the extractor accepts the table, and it is the extractor's list |
| Operations.StatsReadLedgerPage | src/tarjeta_metrobus/__init__.py:239-264 | get_card_resume_uses_charges raises, in this model, only for a missing token or a short table (see `schema().load` under Left out); it succeeds exactly when both `table_to_data` readings of the ledger page succeed, and answers them as `uses` and `charges` |
| Operations.NoneMeansNoAnchor | src/tarjeta_metrobus/__init__.py:110-136 | no operation gets `None` from parameter building, nor from statistics; the others give `None` exactly when the token is there and their label is missing from the page they read |
| Client.AppendNewer | src/tarjeta_metrobus/__init__.py:161-164 | appending events on sessions newer than every logged one keeps one request per session |
| Client.ReadCardInfo | src/tarjeta_metrobus/__init__.py:166-193 | the executable read of the lookup page, running the `BsTableToDict` loop, gives what the function `CardInfoFromPage` specifies |
| Client.ReadResume | src/tarjeta_metrobus/__init__.py:120-136 | the executable read of the ledger page, running the `BsTableToDict` loop, gives what the function `ResumeFromPage` specifies |
| Client.TarjetaMetrobusPanama.constructor | src/tarjeta_metrobus/__init__.py:51-52 | construction opens and primes session 0 |
| Client.TarjetaMetrobusPanama.GetSession | src/tarjeta_metrobus/__init__.py:55-66 | each call opens a new, higher-numbered session and primes it; called on its own it keeps the object valid, so every operation can still be called afterwards |
| Client.TarjetaMetrobusPanama.GetCardInfo | src/tarjeta_metrobus/__init__.py:139-193 | replaces the session, sends the lookup on the new one, and returns `InfoOutcome`; the log keeps one request per session |
| Client.TarjetaMetrobusPanama.GetComercialesParams | src/tarjeta_metrobus/__init__.py:69-98 | one fresh session and lookup; the result is `ParamsOutcome` for the triple given |
| Client.TarjetaMetrobusPanama.SendLedger | src/tarjeta_metrobus/__init__.py:115-118 | a fresh session, then the ledger request on it |
| Client.TarjetaMetrobusPanama.GetCardResume | src/tarjeta_metrobus/__init__.py:101-136 | two sessions when a ledger request is made (lookup then ledger query, in that order), one otherwise; `self.session` ends as the last session opened; the result is `ResumeOutcome` |
| Client.TarjetaMetrobusPanama.GetMovements | src/tarjeta_metrobus/__init__.py:196-236 | the same with the history query; the result is `MovementsOutcome` |
| Client.TarjetaMetrobusPanama.GetCardResumeUsesCharges | src/tarjeta_metrobus/__init__.py:239-264 | the same with the statistics query; the result is `StatsOutcome` |
| ModuleClient.TarjetaMetrobus.constructor | src/tarjeta_metrobus/tarjeta_metrobus.py:44-58 | the global session is opened and primed once, when the module is loaded |
| ModuleClient.TarjetaMetrobus.Fetch | src/tarjeta_metrobus/tarjeta_metrobus.py:226 | a request goes out on the global session, which is never replaced |
| ModuleClient.TarjetaMetrobus.GetCardInfo | src/tarjeta_metrobus/tarjeta_metrobus.py:203-255 | the lookup on the global session; the same result as the class's `get_card_info` |
| ModuleClient.TarjetaMetrobus.GetComercialesParams | src/tarjeta_metrobus/tarjeta_metrobus.py:81-110 | one lookup on the global session; the result is `ParamsOutcome` |
| ModuleClient.TarjetaMetrobus.GetCardResume | src/tarjeta_metrobus/tarjeta_metrobus.py:167-200 | lookup, then the ledger request (if any), both on the global session; the result is `ResumeOutcome` |
| ModuleClient.TarjetaMetrobus.GetMovements | src/tarjeta_metrobus/tarjeta_metrobus.py:272-310 | the same with triple (3000, 2, 1); the result is `MovementsOutcome` |
| ModuleClient.TarjetaMetrobus.GetCardResumeUsesCharges | src/tarjeta_metrobus/tarjeta_metrobus.py:334-371 | the same with triple (2000, 1, 6); the result is `StatsOutcome` |

## Left out

- HTTP transport is not modelled: `requests.Session`, the default headers, the
  15-second timeouts and transport errors. The portal is a function from
  request to page, and a session is a number in the request log.
- The portal's answers do not depend on the session. A portal that answers
  differently on different sessions, for example one that expires the token,
  is not modelled.
- HTML parsing and the `.parent.parent.parent(.parent)` walks are not
  modelled. A page maps each label text it contains to the cell texts of the
  table the walk reaches. A walk that reaches `None` partway (the `if
  card_info_table is None` test) is not represented.
- `slugify` (python-slugify) is an uninterpreted function parameter. Its
  transliteration is not modelled.
- Movements.MovementsFromTable deviates from pandas on ragged rows. pandas
  pads a row shorter than the widest with `None`; the model raises
  `RaggedRow` instead.
- Models.CardInfoOf and Models.CardInfoResumeOf read snake_case keys and do
  not model the camelCase letter-case option of `dataclasses_json`.
- A missing field in those two is not told apart by exception type: it is
  one fault, `RecordShape`.
- `CardStat.schema().load(..., many=True)` is not modelled. What it does with
  `None` is library behaviour. The statistics keep each side as the
  extractor's `Option` of records.
- The clock is an input instant with the fields a `datetime` guarantees. The
  America/Panama time zone, `datetime.now`, and `strftime`'s rendering of years
  below 1000 on some platforms are not modelled; years are padded to four
  digits.
- The Flask façade (`src/apis/`, `src/main.py`) is not part of this model. It
  only maps `None` to 404.
- The singleton metaclass (`src.core.singleton`) is not part of this model.
  Each client object here is one instance.
- The `__main__` block of `tarjeta_metrobus.py` only prints. It is not
  modelled.
