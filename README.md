# Helius transactions viewer: page collector and summary normaliser

This project models the logic core of `streamlit_helius_txns.py`, a Streamlit viewer for a Solana wallet's transaction history fetched from the Helius API. It proves properties of that model. The core has two parts.

- **The page collector** (`collect_pages`, together with the request `helius_fetch_page` builds). It is a cursor-driven loop. Each iteration fetches one page and finds the item list in the reply (`"transactions"`, then `"result"`, then the first list-valued entry, or the reply itself when it is a list). It then finds the next cursor (the first truthy one of `"cursor"`, `"next"`, `"nextCursor"`, `"next_cursor"`). The loop stops when the page budget is spent, when a page has no items, or when a page names no next cursor.
- **The summary normaliser** (`flatten_summary`, with the `None` path of `epoch_to_iso`). It builds one fixed-shape row per raw record. Fields are chosen by alias chains written with Python's `or`.

Files:

- `json.dfy` (module `Json`): decoded JSON values. It gives Python truthiness, `dict.get` (`Lookup`), `key in d` (`HasKey`) and `or` (`Or`). `JNull` also plays Python's `None`.
- `fetch.dfy` (module `Fetch`): the GET request for one page (`PageRequest`: URL, query parameters, headers). The server is modelled as a script of replies (`Respond`). Request `n` of a run is answered by element `n` of the script. A request past the end of the script gets a transport error, so every run does a bounded number of fetches.
- `collector.dfy` (module `Collector`): how one reply is read, as functions (`ItemList`, `NextCursor`) and as the source's loops (`ScanForList`, `ScanForCursor`, `ReadPage`).
  - `Loop` and `Collect` are the reference semantics of the pagination loop.
  - The imperative `CollectPages` is proved equal to `Collect`. It returns the outcome and the list of requests issued.
  - The remaining lemmas state what a run does: the page budget, cursor threading, the returned cursor, accumulation, and fetch failure.
  - `Collect(q, script, maxPages)` is the run `Loop(q, replies, maxPages, [], JNull, 0, [])` over `replies == Replies(script)`, the way the loop reads each reply of the script. `StopsOnData`, `ReturnedCursor` and `Accumulation` are stated for that run over any sequence of read replies, so they hold for every script.
- `summary.dfy` (module `Summary`): one record becomes one `Row` with `SummarizeRecord`, or the exception Python raises.
  - `SummaryRows` applies it to a whole list, through the generic `MapRecords`.
  - `FlattenSummary` is the loop, proved equal to `SummaryRows`.
  - The `*Field` lemmas state each column's alias chain and default.
  - `EpochToIso`, `FeeSol` and `TransferCount` model the helpers the row uses.

`Truthy`, `HasKey`, `PageRequest`, `Respond`, `Replies`, `ReadReply`, `Gathered`, `Loop`, `Collect`, `Len`, `SummaryRows`, `EpochToIso` and `FeeSol` are definitions. They state what the source computes; any `ensures` they have only unfold their own body. The lemmas and methods below carry the properties.

## Model

| member | source | states |
|---|---|---|
| Json.Lookup | streamlit_helius_txns.py:94-103 | `d.get(key)` of a key that is absent is None |
| Json.LookupFound | streamlit_helius_txns.py:62-65 | a value `d.get` finds is the value of an entry with that key |
| Json.LookupFirstMatch | streamlit_helius_txns.py:72-73 | `d.get(key)` / `d[key]` is the value stored under that key |
| Json.Or | streamlit_helius_txns.py:94-103 | `a or b` is one of its operands, and it is truthy exactly when one of them is |
| Json.PresentAndTruthy | streamlit_helius_txns.py:72 | `k in data and data[k]` is the truthiness of `data.get(k)` |
| Fetch.PageRequestParams | streamlit_helius_txns.py:37-41 | the `cursor` parameter is sent exactly when the cursor is truthy, and then with its value; `limit` and `api-key` are always sent with the caller's values |
| Collector.FirstList | streamlit_helius_txns.py:67-70 | the `data.values()` scan finds a list exactly when some value is a list, the list is one of the values, and the first list wins |
| Collector.ItemList | streamlit_helius_txns.py:59-76 | a list body is its own item list; no item list exactly when the body is neither a list nor an object with a list value; an object's item list is one of its values |
| Collector.ItemListOrder | streamlit_helius_txns.py:61-70 | for an object: a list under "transactions" is the item list; otherwise a list under "result"; otherwise the first list-valued entry |
| Collector.ItemListEntries | streamlit_helius_txns.py:62-65 | the same precedence through the entries: the first "transactions" entry holding a list wins, and the first "result" entry holding a list wins when "transactions" holds none |
| Collector.ItemListPrecedence | streamlit_helius_txns.py:61-70 | examples: "transactions" wins over an earlier list entry and an earlier "result" list; "result" wins over an earlier list entry when "transactions" is a string; otherwise the first list entry wins |
| Collector.CursorAmong | streamlit_helius_txns.py:71-74 | the next cursor is the value under the first key (in the given order) whose value is truthy, and None when there is no such key |
| Collector.NextCursor | streamlit_helius_txns.py:60-76 | a body that is not an object names no next cursor; a next cursor is always None or truthy |
| Collector.ScanForList | streamlit_helius_txns.py:67-70 | the loop with `break` returns the first list among the values |
| Collector.ScanForCursor | streamlit_helius_txns.py:71-74 | the loop over the four cursor keys returns the `CursorAmong` cursor |
| Collector.ReadPage | streamlit_helius_txns.py:59-76 | the normalisation step gives exactly `ItemList` and `NextCursor` of the reply |
| Collector.CollectPages | streamlit_helius_txns.py:46-89 | the imperative loop's outcome and issued requests equal the reference run `Collect` |
| Collector.StepReached | streamlit_helius_txns.py:53-86 | an iteration that goes on (budget left, items and a next cursor) keeps the reached-state invariant: collected items, cursor, request log |
| Collector.LoopRequests | streamlit_helius_txns.py:53-57 | from a reached state, request i carries the cursor of reply i-1; every request but the last followed a page that let the loop go on; the budget bounds the number of requests |
| Collector.LoopOutcome | streamlit_helius_txns.py:53-89 | from a reached state, a successful run returns as many pages as requests, the concatenated items, and a cursor that matches one of the stop cases; a failed run failed on its last request |
| Collector.GatheredPlacesPage | streamlit_helius_txns.py:81 | `extend`: page i's items appear unchanged and in order after the items of the pages before it |
| Collector.RepliesAt | streamlit_helius_txns.py:57-76 | reply i as the loop sees it is the normalisation of the i-th server reply |
| Collector.AnswerRefused | streamlit_helius_txns.py:42-44 | the loop sees request i refused exactly when the server's reply i is a failure, and then with that failure's error |
| Collector.AnswerReads | streamlit_helius_txns.py:57 | the loop's view of request i is how it reads reply i |
| Collector.PageBudget | streamlit_helius_txns.py:54-57 | `pages` counts the fetches issued; a positive `max_pages` bounds them; a negative one stops before any fetch with nothing collected |
| Collector.StopsOnData | streamlit_helius_txns.py:78-86 | with no budget, or a budget not used up, a successful run ends only on a reply that is a fetched page (not a failure) and has no items or no next cursor |
| Collector.FinishedEarly | streamlit_helius_txns.py:53-86 | a run that stops under a non-negative budget it has not used up stopped on a fetched page that does not let the loop go on |
| Collector.FinishedCases | streamlit_helius_txns.py:78-89 | the stop cases one by one: after a page without items the cursor is the one that asked for it; after a page naming no next cursor it is None; a page that lets the loop go on is last only when the budget is spent, and its next cursor is returned |
| Collector.CursorThreading | streamlit_helius_txns.py:39-40 | the first request has no `cursor` parameter; request i > 0 carries reply i-1's next cursor |
| Collector.ReturnedCursor | streamlit_helius_txns.py:78-89 | the returned cursor: None with no fetch or when the last page named no next cursor; the unconsumed next cursor when the budget ran out; the cursor that requested the last page when it had no items |
| Collector.Accumulation | streamlit_helius_txns.py:78-81 | the returned items are the in-order concatenation of the fetched pages' item lists; a final page without items adds nothing |
| Collector.RunFetchFailure | streamlit_helius_txns.py:53-57 | over any read replies, the run fails exactly when one of its requests was refused; that is then the last request and its error is the run's |
| Collector.FetchFailure | streamlit_helius_txns.py:42-44 | the run fails exactly when one of its fetches failed; that fetch is the last one and its error is the run's |
| Collector.TwoPageRun | streamlit_helius_txns.py:46-89 | address ABC, limit 100, budget 2, pages of 100 items with cursor "X" then 5 items and no cursor: 105 items, cursor None, 2 pages; the second request carries "X" |
| Collector.EmptyFirstPage | streamlit_helius_txns.py:78-79 | a first page with no items ends the run after one page with nothing collected, leaving budget unused |
| Collector.ListResponse | streamlit_helius_txns.py:75-76 | a body that is a list is the item list and names no next cursor, so the run ends after it |
| Collector.CursorKeyOrder | streamlit_helius_txns.py:71-74 | "next" wins over "nextCursor" in both entry orders; "nextCursor" is used when it is the only truthy key; an empty-string "cursor" is no cursor |
| Summary.TransferCount | streamlit_helius_txns.py:100-101 | `len(v or [])` is 0 for a falsy value and the length of a list; it raises exactly on a truthy number or boolean |
| Summary.SummarizeRecord | streamlit_helius_txns.py:93-103 | one record gives a row exactly when it is a dict and both transfer values have a length; otherwise the AttributeError or the first TypeError it raises |
| Summary.MapRecords | streamlit_helius_txns.py:92-117 | a per-record step over the list succeeds exactly when it succeeds on every record, giving one result per record in order; otherwise it gives the first record's error |
| Summary.MapRecordsLoop | streamlit_helius_txns.py:92-117 | the loop that appends one result per record and stops at the first error gives `MapRecords` |
| Summary.FlattenSummary | streamlit_helius_txns.py:91-118 | the loop that appends a row per record gives `SummaryRows`: one row per record, in order, or the first error |
| Summary.SignatureField | streamlit_helius_txns.py:94 | signature is `signature`, else `txHash`, else `transactionHash`, first truthy wins |
| Summary.TimestampField | streamlit_helius_txns.py:96 | timestamp is `timestamp`, else `blockTime`, else `block_time`, first truthy wins |
| Summary.TimeUtcField | streamlit_helius_txns.py:28-30 | `time_utc` is None for a None timestamp and the formatter's result otherwise |
| Summary.FeeField | streamlit_helius_txns.py:97-98 | `fee_lamports` is the fee when truthy, else 0 (giving 0.0 SOL); `fee_sol` exists exactly for an int, float or bool fee |
| Summary.TransferFields | streamlit_helius_txns.py:100-101 | the transfer counts are 0 for a falsy value and the list's length for a list |
| Summary.ErrorField | streamlit_helius_txns.py:102-114 | `error` is the serialised `transactionError` exactly when that value is truthy |
| Summary.DescriptionField | streamlit_helius_txns.py:95-103 | description is `description`, else `type`, else `""`; `slot` and `feePayer` are copied as they are |
| Summary.EmptyRecordRow | streamlit_helius_txns.py:93-116 | an empty dict gives the all-default row: no signature, slot, time or timestamp, fee 0 (0.0 SOL), zero counts, no error, empty description |
| Summary.FeeConversion | streamlit_helius_txns.py:98 | 1 000 000 000 lamports are 1.0 SOL; 0 lamports are 0.0 SOL |

## Left out

- The Streamlit page (lines 24-25 and 120 onwards) is left out as presentation. That covers the form, the environment-variable API key, the table and detail view, and the CSV/JSON downloads. `pd.DataFrame` is modelled as the sequence of rows it is built from.
- The HTTP exchange in `helius_fetch_page` (`requests.get`, `raise_for_status`, `r.json()`) is replaced by the scripted server. Each reply is a decoded body or one of three failures: an HTTP status error, a transport error or timeout, or a body that is not JSON. The 30-second timeout value is not modelled.
- Unbounded runs: with `max_pages == 0` and a server that keeps returning items and a cursor, `collect_pages` loops forever. The model cannot: its server is a finite script, and the first request past the script fails with a transport error, so such a run ends in `FetchFailed(TransportError)`.
- `time.sleep(0.12)` between pages is left out, because it has no effect on the result.
- `epoch_to_iso`'s formatting of a timestamp that is not None (`datetime.utcfromtimestamp(...).isoformat() + "Z"`, with its exception handler) is a parameter `convert`. `json.dumps` is a parameter `dumps`. Only the None path is modelled exactly.
- Summary.FeeSol: the division by `1e9` is exact real division, not IEEE floating point. A very large int fee that would overflow a float is not modelled.
- JSON objects are taken to have distinct keys, as decoded Python dicts have. `Lookup` returns the first entry with the key.
- Python's `len` is modelled for lists, strings and dicts. Those are the only JSON values that have one.

In these places the code behaves in ways a reader may not expect; the model follows the code:

- The normaliser is not total. A record that is not a dict raises (`tx.get`). A truthy number or boolean under `nativeTransfers` or `tokenTransfers` raises a TypeError from `len`. A string or dict there is counted by its length, not as 0.
- A record with no fee gets `fee_lamports` 0 and `fee_sol` 0.0, not None. Any falsy fee becomes 0. A boolean fee is numeric, because a Python bool is an int.
- `error` is set only when `transactionError` is truthy. An empty dict or list there gives None.
- A negative `max_pages` is truthy, so the run stops before the first fetch with nothing collected.
- When a page has no items, the returned cursor is the one that requested that page, not None.
