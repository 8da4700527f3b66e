# PDV — a verified model of the point-of-sale core

PDV is a point-of-sale app for events: kegs of beer sold by the litre,
plus ordinary products. One tablet acts as the *master*. The others are
*clients* that sync with it over the local network. An operator moves each
event through a fixed series of stages:

1. name the event;
2. register its products;
3. confirm the adjustments (payment methods, printing);
4. open the cash box;
5. sell;
6. close the cash box and get the event report.

This project models that core in Dafny and proves what the code promises
about its results. Each source file of the core is one Dafny module:

| module | file | models |
|---|---|---|
| `EventoFlow` | src/domain/eventoFlow.js | the stage an event is in, and which tabs it allows |
| `Pos` | src/domain/pos.js | cart lines and totals, the per-event sale totals, the cash box's expected amount and the sales CSV |
| `PdvStore` | src/state/pdvStore.js | sales kept locally without duplicates, their summaries, the catalog snapshot served to clients, and the pending queue whose entries are removed once synced |
| `PdvServer` | src/net/pdvServer.js | the master's HTTP handler: /health, /handshake and /snapshot, with CORS |
| `Connectivity` | src/net/connectivity.js | the master's POST handler, its per-IP rate limiter, the PIN and event gate, and the table of connected clients |
| `EventIdentity` | src/rede/eventIdentity.js | the event code and the six-digit PIN, created once and reused |
| `App` | src/app/App.jsx | tab navigation by event stage, the master/client session, the products sync loop |
| `Venda` | src/pages/Venda.jsx | the cart (including litre kegs), payment, change due, finishing a sale |
| `Caixa` | src/pages/Caixa.jsx | the money mask, payment normalisation, aggregation per item and per device, withdrawals (sangria), closing the cash box |
| `Produtos` | src/pages/Produtos.jsx | the product catalogue editor: add, edit, remove, the litre combo and its shortcuts |
| `Evento` | src/pages/Evento.jsx | opening and closing an event, name normalisation, the event history |
| `EventoCaixa` | src/pages/Evento.jsx | the event's cash summary (calcularCaixaDoEvento): sales, withdrawals and items sold |
| `Ajustes` | src/pages/Ajustes.jsx | the adjustments screen: payment methods and print options |
| `ConfigProvider` | src/config/ConfigProvider.jsx | the stored settings, defaults and merging of updates |
| `PrintService` | src/services/printService.js | thermal printing: width, blocks of lines, Android or browser output |
| `ReportText` | src/services/reportText.js | the plain-text event report |
| `TicketBuilder` | src/print/ticketBuilder.js | the lines of a sale ticket |
| `Relatorio` | src/pages/Relatorio.jsx | the report screen's totals and item grouping |

Four shared modules support them:

- `JsValue` covers JavaScript values and their operators: truthiness, `||`,
  `??`, `Number`, `String`, `===` and spread.
- `Text` covers the string primitives.
- `Seqs` covers filter, sums and a stable sort.
- `Storage` covers the persistent key-value store that loadJSON and saveJSON
  read and write.

Where the code mutates state, the model does so too. The classes are
`Navigator`, `Session`, `ProdutosSync`, `RateLimiter`, `MasterServer`,
`MasterHost`, `LocalStorage`, `PdvHandle`, `PdvHost`, `Store` and
`CartState`. Their fields are updated under `modifies` clauses. Everything the
code computes as a value is a function, and lemmas about it state what it
promises.

Where the written description of the app and its code disagree, the model
follows the code. The main cases:

- The report screen's final cash balance (Relatorio.jsx:92-105) adds total
  sales, not only the cash sales, to the opening float.
  `Relatorio.TotaisCalculados` states that behaviour.
- `enqueuePendingSale` (pdvStore.js:160-172) recognises an entry by
  `summary.id`, `sale.id` or its own `id`, but stores only `summary` and
  `sale`. An entry carrying only its own `id` is therefore stored without
  it, and queueing it again adds a second copy. Its one caller passes
  `{summary, sale}`. `PdvStore.IdOnlyEntryQueuedTwice` states the
  consequence.
- Navigating to the tab that is already open leaves the navigation state
  unchanged, because the current step is never empty and so `prev || tab`
  always yields `prev`.

## Model

| member | source | states |
|---|---|---|
| EventoFlow.EncerradoMeta | src/domain/eventoFlow.js:9-13 | no closing record for a blank name; otherwise the first stored record whose trimmed name equals the trimmed name, or null |
| EventoFlow.GetFlowState | src/domain/eventoFlow.js:15-37 | the stage of the event: no event for a blank name, closed when the cash box or the stored record has a closing time, then items not finished, no products, adjustments not confirmed, cash box not open, and open, in that order |
| EventoFlow.AllTabsComplete | src/domain/eventoFlow.js:40 | the base tab list holds each of the six screens exactly once |
| EventoFlow.GetAllowedTabs | src/domain/eventoFlow.js:39-58 | every screen when no event is open or the stage is no-event or closed; otherwise exactly the screens of the stage, always including evento and relatorio |
| EventoFlow.ClosedWinsOverFlags | src/domain/eventoFlow.js:24-25 | a cash box with a closing time gives the closed stage whatever the event's flags and product list are |
| EventoFlow.StoredCloseRecordCloses | src/domain/eventoFlow.js:23-25 | a stored closing record with a closing time for the event's name closes the event even when the cash box has none |
| EventoFlow.MetaClosingTimeCloses | src/domain/eventoFlow.js:23-25 | a truthy closing time in the record found for the name gives the closed stage |
| EventoFlow.FindMetaFirst | src/domain/eventoFlow.js:12 | the record found is the first with the name: no earlier record has it |
| EventIdentity.BuildKeyInjective | src/rede/eventIdentity.js:8-10 | distinct ids get distinct storage slots under one prefix |
| EventIdentity.KeyAndPinSlotsDistinct | src/rede/eventIdentity.js:1-10 | an event-key slot is never a PIN slot, whatever the two ids |
| EventIdentity.FillTemplate | src/rede/eventIdentity.js:13-18 | each x of the template becomes a hexadecimal digit of its random nibble, each y a digit among 8, 9, a, b, and every other character stays |
| EventIdentity.GenerateUuid | src/rede/eventIdentity.js:21-26 | the platform's UUID when it has one; otherwise a 36-character version-4 UUID with its hyphens, the version digit 4 and a variant digit of 8, 9, a or b |
| EventIdentity.UuidFallback | src/rede/eventIdentity.js:12-19 | a 36-character version-4 UUID: hyphens at 8, 13, 18 and 23, the digit 4 at 14, a variant digit 8, 9, a or b at 19, hexadecimal digits elsewhere |
| EventIdentity.GeneratePin | src/rede/eventIdentity.js:28-30 | six decimal digits whose value lies between 100000 and 999999, for every random value in [0, 1) |
| EventIdentity.ShortId | src/rede/eventIdentity.js:60-62 | at most eight characters, a prefix of the text of the key |
| EventIdentity.GetOrCreate | src/rede/eventIdentity.js:32-44 | nothing and no change without storage or for a blank id; the stored value when the slot holds one; otherwise the new value, stored in the slot |
| EventIdentity.GetOrCreateFrame | src/rede/eventIdentity.js:37-42 | no slot other than the id's is ever written |
| EventIdentity.GetOrCreateIdempotent | src/rede/eventIdentity.js:38-39 | a second call for the same id returns what the first returned and changes nothing, whatever new value it is offered |
| EventIdentity.LocalStorage.GetOrCreateEventoKey | src/rede/eventIdentity.js:32-44 | the event's key and the new storage are those of the get-or-create step under the event-key prefix, with a new UUID offered |
| EventIdentity.LocalStorage.GetOrCreateEventoPin | src/rede/eventIdentity.js:46-58 | the key's PIN and the new storage are those of the get-or-create step under the PIN prefix, with a new PIN offered |
| EventIdentity.CreatedPinIsSixDigits | src/rede/eventIdentity.js:46-58 | a PIN created by the call is six digits |
| ReportText.CenterText | src/services/reportText.js:6-11 | "" for blank text; otherwise the trimmed text after max(0, floor((width - length) / 2)) spaces |
| ReportText.CenterTextFits | src/services/reportText.js:9-10 | the centred text is no wider than the width unless the text is, and the left padding never exceeds the room on the right |
| ReportText.FormatRow | src/services/reportText.js:13-22 | the label alone without a value; label and value on one line of exactly the width when a space fits; otherwise the label and the value right-aligned to the width on a second line |
| ReportText.FormatRowWithinWidth | src/services/reportText.js:13-22 | when label and value each fit the width, every line of the row fits it |
| ReportText.FormatSectionTitle | src/services/reportText.js:24-28 | the trimmed text in upper case, "" for blank text |
| ReportText.FormatSectionTitleIdempotent | src/services/reportText.js:24-28 | formatting a title twice gives the same as formatting it once |
| ReportText.JoinLines | src/services/reportText.js:30-33 | the entries that are not undefined, null or "" joined with newlines; "" for a non-array |
| ReportText.DroppedEntryLeavesNoTrace | src/services/reportText.js:32 | removing an entry that is dropped from anywhere in the list leaves the text unchanged |
| ReportText.JoinLinesSplits | src/services/reportText.js:30-33 | splitting the result at newlines gives back the kept entries when none contains a newline |
| PdvStore.NormalizeVendaForStorage | src/state/pdvStore.js:18-39 | an object that keeps the sale's id when it is truthy (else the fresh id), dates falling back to each other and to now, the trimmed event name, total Number(total ?? valorTotal) or 0, pagamento defaulting to "dinheiro", itens [] unless an array, and the device fields or null |
| PdvStore.InsertSale | src/state/pdvStore.js:44-49 | the sale is added exactly when no stored sale has its id text, and then at the front; otherwise the list is unchanged |
| PdvStore.NormalizedIdText | src/state/pdvStore.js:25-45 | a normalised sale is compared on the same id text it is stored under |
| PdvStore.InsertSaleKeepsIdsUnique | src/state/pdvStore.js:41-55 | with unique ids before, the ids stay unique, the sale's id is stored, and the list grows by one exactly when the sale was added |
| PdvStore.InsertSaleTwice | src/state/pdvStore.js:45-48 | persisting the same sale a second time adds nothing |
| PdvStore.PersistSale | src/state/pdvStore.js:41-55 | the returned sale is the normalised one, added says whether it was new, and the stored list is the insertion result |
| PdvStore.BuildTotals | src/state/pdvStore.js:80-84 | the count is the length of the list; the sum is the reduction that adds every sale's Number(total or 0) or 0, which is the same as summing those amounts over the list; a non-list gives zero sales and zero |
| PdvStore.ReduceAddsAmounts | src/state/pdvStore.js:80-84 | the reduce that adds the amounts, begun at any start value, ends at that value plus the sum of the amounts |
| PdvStore.SumTotalsIsSumOf | src/state/pdvStore.js:82 | the sum of the amounts taken from the head is the same as the sum over the list in order |
| PdvStore.SumTotalsAppend | src/state/pdvStore.js:82 | the sum over two lists together is the sum of the two sums |
| PdvStore.BuildTotalsAfterInsert | src/state/pdvStore.js:49-84 | adding a sale adds one to the count and its total to the sum; a duplicate changes neither |
| PdvStore.NormalizedTotalCounted | src/state/pdvStore.js:33-82 | the totals count a stored sale at the number it was normalised to |
| PdvStore.ProdutosSnapshot | src/state/pdvStore.js:57-67 | the trimmed event name, the stored products or [] and the stored change time or now |
| PdvStore.ProdutosSnapshotDelta | src/state/pdvStore.js:69-78 | the whole snapshot, except exactly when since is given and the change time parses and is not later than since, which gives only the change time |
| PdvStore.ItemSubtotal | src/state/pdvStore.js:91 | the item's own subtotal as a number or 0 when it has one; qtd * unitario otherwise |
| PdvStore.NormalizeItensResumo | src/state/pdvStore.js:86-102 | one summary item per input item, in order, with its numbers filled in; [] for a non-array |
| PdvStore.BuildSaleSummaryFromSale | src/state/pdvStore.js:104-125 | null for a missing sale, otherwise an object summary |
| PdvStore.SummaryFields | src/state/pdvStore.js:108-116 | the summary id is (deviceId or "device") + ":" + saleId, saleId is the sale's own id when it has one, and deviceId is null when none is given |
| PdvStore.InsertSummary | src/state/pdvStore.js:136-147 | the summary is prepended exactly when it is present, its key is non-empty and no stored summary has that key by id or saleId; otherwise the list is unchanged |
| PdvStore.InsertSummaryKeepsKeysUnique | src/state/pdvStore.js:136-147 | with unique keys before, the stored summaries keep at most one per key |
| PdvStore.PersistSaleSummary | src/state/pdvStore.js:136-147 | the stored list and the added flag are those of the insertion |
| PdvStore.Enqueue | src/state/pdvStore.js:158-175 | the queue is unchanged for an empty key or a key already queued; otherwise it grows by one, the new entry first |
| PdvStore.PendingEntryKey | src/state/pdvStore.js:160-170 | an entry identified by its summary or sale keeps its key once queued |
| PdvStore.EnqueueKeepsKeysUnique | src/state/pdvStore.js:158-175 | queueing keeps at most one entry per key, and the entry's key is queued afterwards |
| PdvStore.IdOnlyEntryQueuedTwice | src/state/pdvStore.js:160-172 | an entry identified only by its own id is stored without it, so queueing it twice gives two entries |
| PdvStore.EnqueuePendingSale | src/state/pdvStore.js:158-175 | the returned and stored queue are the enqueue result; nothing is written when it is unchanged |
| PdvStore.RemovePending | src/state/pdvStore.js:177-191 | an entry stays exactly when it is kept by the matching rule |
| PdvStore.RemoveEmptyTargetKeepsAll | src/state/pdvStore.js:183 | an empty target removes nothing |
| PdvStore.RemovedExactlyMatching | src/state/pdvStore.js:181-186 | an entry is removed exactly when its summary id or sale id equals the target, or both are non-empty and the summary id ends with ":" + target |
| PdvStore.RemoveKeepsOrder | src/state/pdvStore.js:179-188 | removal works piece by piece on any split of the queue, so the remaining entries keep their order |
| PdvStore.RemoveBySaleIdRemovesSummary | src/state/pdvStore.js:165-186 | a queued entry whose summary carries a sale id is removed by that sale id |
| PdvStore.RemovePendingSaleById | src/state/pdvStore.js:177-191 | the returned and stored queue are the removal result |
| PdvServer.FindPair | src/net/pdvServer.js:29 | the index of the first pair whose name, lower-cased, is the target, or -1 when no pair has it |
| PdvServer.FindKey | src/net/pdvServer.js:33-34 | the index of the first object key that, lower-cased, is the target, or -1 when none is |
| PdvServer.ReadHeader | src/net/pdvServer.js:25-38 | "" for missing headers and for headers that are neither an array nor an object |
| PdvServer.ReadHeaderIgnoresKeyCase | src/net/pdvServer.js:27 | the lookup gives the same result whatever the case of the name asked for |
| PdvServer.ReadHeaderFindsObjectEntry | src/net/pdvServer.js:32-35 | in an object, the first key in key order that matches up to case gives the value |
| PdvServer.ReadHeaderMissing | src/net/pdvServer.js:30-37 | a header that no name matches reads as "" |
| PdvServer.ReadHeaderFindsPair | src/net/pdvServer.js:28-30 | in an array of pairs, the first pair whose name matches up to case gives the value |
| PdvServer.MissingMethodIsGet | src/net/pdvServer.js:42 | a request without a method is handled as GET |
| PdvServer.Handle | src/net/pdvServer.js:40-56 | OPTIONS gets 200 with the CORS headers and an empty body; any other method but GET gets 405 |
| PdvServer.GetRoutes | src/net/pdvServer.js:58-105 | on GET, /health and /handshake always answer 200, /snapshot answers 200 exactly when authorised and then with the PIN masked as "***" and the products defaulting to [], else 401, and other paths get 404 |
| PdvServer.NoPinNoSnapshot | src/net/pdvServer.js:80-88 | a state without a PIN, or no state, never serves the snapshot |
| PdvServer.PdvHost.StartPdvServer | src/net/pdvServer.js:161-178 | the running server is returned as it is; without an adapter, or when the adapter's start throws, the call fails and nothing runs; otherwise a new server is started and recorded |
| PdvServer.PdvHost.StopPdvServer | src/net/pdvServer.js:180-187 | afterwards no server runs; nothing is stopped when none ran, otherwise exactly the running one is stopped, once |
| Connectivity.NormalizePath | src/net/connectivity.js:11-21 | "/" for an empty path; an absolute URL becomes its pathname, or "/" when that is empty or the URL does not parse; any other path is kept; the result is never empty |
| Connectivity.ReadBodyPayload | src/net/connectivity.js:23-36 | {} for a falsy body; a string body is its JSON parse, or {} when that fails; an object or array body is itself; booleans and numbers give {} |
| Connectivity.GetRequestIp | src/net/connectivity.js:38-46 | ip when it is truthy, else remoteAddress when truthy, else remoteAddr when truthy, else clientIp when truthy, else "unknown"; always truthy |
| Connectivity.MissingMethodIsPost | src/net/connectivity.js:210 | a request without a method is handled as POST |
| Connectivity.NextBucket | src/net/connectivity.js:51-58 | a missing bucket starts at now; a bucket restarts at now only when strictly more than the window has passed since its start; the count then goes up by one, so every call counts |
| Connectivity.Verdict | src/net/connectivity.js:59-62 | a call is allowed exactly when its count is at most max; a refusal carries ceil(windowMs / 1000) |
| Connectivity.RateLimiter.RateLimit | src/net/connectivity.js:48-64 | the key's bucket is advanced whether or not the call is refused, no other bucket changes, and the verdict is read from the new count |
| Connectivity.FeedWithinWindow | src/net/connectivity.js:51-58 | calls for a new key all within the window of the first leave one bucket that started at the first call and counts them all |
| Connectivity.DefaultLimitWithinWindow | src/net/connectivity.js:48-62 | with the defaults of 10000 ms and 30, calls 1 to 30 inside one window pass and call 31 on is refused with a 10-second retry |
| Connectivity.BucketResetsOnlyAfterWindow | src/net/connectivity.js:53-56 | a bucket's start changes, or its count restarts, only when the call comes strictly more than windowMs after the start |
| Connectivity.Authorize | src/net/connectivity.js:240-258 | a request passes exactly when its PIN is non-empty and equals the server's and, when the server has an event id, its event id equals it; a bad PIN gives 401, otherwise a refusal is 403 |
| Connectivity.ClientId | src/net/connectivity.js:261-263 | the device id when it is non-empty, else "client-" followed by the time |
| Connectivity.JoinReply | src/net/connectivity.js:271-287 | reports the client id and the table size; the snapshot is the result's snapshot when truthy, and null with no ticket model when there is no result |
| Connectivity.SaleReply | src/net/connectivity.js:305-316 | applied is false exactly when the callback returned applied === false; the server sale id is the result's, else the sale's own id |
| Connectivity.SyncReply | src/net/connectivity.js:320-340 | the callback's snapshotDelta when truthy; with no result, an empty delta with no products stamped now |
| Connectivity.MasterServer.Serve | src/net/connectivity.js:209-348 | the reply, the new limiter buckets and the new client table are those of the handler as a function of the state before the request |
| Connectivity.OptionsAnsweredFirst | src/net/connectivity.js:214-216 | OPTIONS gets 200 with the CORS headers and an empty body, and neither the buckets nor the clients change |
| Connectivity.OtherMethodsRefused | src/net/connectivity.js:218-224 | a method other than OPTIONS and POST gets 405 and changes nothing |
| Connectivity.RateLimitedBeforePin | src/net/connectivity.js:226-239 | a POST the limiter refuses gets 429 with a Retry-After header and leaves the client table unchanged |
| Connectivity.MalformedBodyUnauthorized | src/net/connectivity.js:23-36 | a body that is not valid JSON reads as {} and is always refused with 401 |
| Connectivity.EmptyServerPinRefusesAll | src/net/connectivity.js:244 | a master with an empty PIN refuses every POST that passes the limiter with 401 |
| Connectivity.PostStatus | src/net/connectivity.js:240-347 | the status of a POST that passes the limiter: 401 for a bad PIN, then 403 for a wrong event id, then 200 on /join, /sale and /sync, and 404 elsewhere |
| Connectivity.Route | src/net/connectivity.js:260-347 | /join, /sale and /sync answer 200 and any other path 404; only /join changes the client table, adding or replacing exactly the client's id with its device id and IP and keeping every other entry |
| Connectivity.JoinUpsertsClient | src/net/connectivity.js:260-287 | an accepted /join adds exactly the client's id to the table, answers 200 with that id and the table size, and a repeated id does not grow the table |
| Connectivity.SaleAlwaysOk | src/net/connectivity.js:290-317 | an accepted /sale answers 200 with ok true, applied false exactly when the callback says applied === false, and the client table unchanged |
| Connectivity.SyncWithoutCallback | src/net/connectivity.js:319-341 | without a sync callback, an accepted /sync answers 200 with a delta whose products are null |
| Connectivity.MasterHost.StartMasterServer | src/net/connectivity.js:191-352 | the running server is returned as it is; without an adapter or on a non-native platform the call fails and nothing runs; when the adapter's start rejects the call fails and no server is recorded; otherwise a new server with an empty client table is started and recorded |
| Connectivity.MasterHost.StopMasterServer | src/net/connectivity.js:355-362 | afterwards no server runs; nothing is stopped when none ran, otherwise exactly the running one is stopped, once |
| App.GetFlowTargetTab | src/app/App.jsx:45-52 | the screen a stage leads to is always allowed at that stage; it is evento exactly for no event and closed, produtos exactly for the two stages before the catalog is finished, ajustes once the catalog is finished, caixa once the ticket settings are confirmed, and venda once the cash box is open |
| App.GetTabBlockReason | src/app/App.jsx:208-230 | "products already finished" is only given for the products screen, and "finish the products first" only at the two stages before the catalog is finished |
| App.BlockReasonExplainsExactlyBlockedTabs | src/app/App.jsx:208-230 | with an event open, a screen gets a specific notice exactly when its stage does not allow it |
| App.GoTo | src/app/App.jsx:193-206 | the same screen changes nothing; another screen becomes current and the step, and the old screen is pushed onto the history when asked |
| App.Back | src/app/App.jsx:340-352 | nothing changes when going back is not possible or the history is empty; otherwise the last history entry is popped and becomes current |
| App.BackUndoesGoTo | src/app/App.jsx:193-206 | going back right after moving to another screen returns to the start with the history as it was |
| App.HistoryAfterMoves | src/app/App.jsx:193-206 | after a run of moves the screen shown is the last one moved to and the history is the old one followed by every screen a move left, in order; a move to the screen already shown adds nothing |
| App.OpenedEvento | src/app/App.jsx:247-262 | the event opened under the given name, with modo defaulting to "local", rede to null, and every stage flag false |
| App.NewCaixa | src/app/App.jsx:264-268 | the cash box of a new event has no opening amount, no closing time and no movements |
| App.OpenedEventoAwaitsProducts | src/app/App.jsx:243-272 | a newly opened event is at the items-not-finished stage, whose screen is produtos, unless a closing record under its name is stored |
| App.Navigator.GoToTab | src/app/App.jsx:193-206 | the screen, the step and the history become those of the move; the notice is unchanged |
| App.Navigator.HandleTabClick | src/app/App.jsx:232-241 | a screen the stage does not allow only sets the block notice and leaves the screen and history; an allowed one is a move with a history entry |
| App.Navigator.HandleVoltar | src/app/App.jsx:340-352 | the screen, step and history become those of going back |
| App.Navigator.FollowFlow | src/app/App.jsx:177-185 | when the stage changes, its screen becomes current without a history entry and is allowed at that stage; otherwise nothing changes |
| App.Session.AbrirEvento | src/app/App.jsx:243-273 | a blank trimmed name changes nothing; otherwise a new event, an empty catalog and an empty cash box, and the products screen after clearing the history |
| App.OpenedHistory | src/app/App.jsx:271-272 | after opening an event the history holds only the screen left behind, and nothing when that was already produtos |
| App.SyncConnection | src/app/App.jsx:354-364 | a connection only with multi-device on, the client role and an event name, and then with trimmed non-empty host, port, PIN and event id |
| App.SyncConnectionStarts | src/app/App.jsx:354-364 | the connection is made whenever every condition holds |
| App.TickSummary | src/app/App.jsx:370-375 | the entry's own summary when it has one; none when it has neither a summary nor a sale |
| App.Flush | src/app/App.jsx:366-392 | a tick never adds an entry to the queue, sends at most one summary per entry, and every summary it records was truthy and accepted |
| App.FlushSkips | src/app/App.jsx:375 | an entry without a summary is skipped |
| App.FlushPosts | src/app/App.jsx:376-387 | an accepted summary removes its entries by saleId or id, and the tick goes on with the next entry |
| App.FlushStops | src/app/App.jsx:388-390 | the first refused post ends the tick with the queue as it is |
| App.FlushOnlyRemoves | src/app/App.jsx:366-392 | a tick never adds an entry to the queue |
| App.FlushStopsAtFirstFailure | src/app/App.jsx:369-391 | the entries from the first refused one on neither are sent nor change the queue |
| App.FlushRemovesPosted | src/app/App.jsx:387 | no entry that an accepted summary's id removes is left in the queue |
| App.FlushPostsAtMostOnePerEntry | src/app/App.jsx:369-391 | at most one summary is sent per entry, and every one recorded was accepted |
| App.FlushTick | src/app/App.jsx:366-392 | an empty queue changes nothing; otherwise the stored queue and the accepted summaries are those of the tick over the queue read at its start |
| App.ProdutosSync.Tick | src/app/App.jsx:419-449 | a cancelled tick does nothing; a failed request changes nothing; a delta with a product array replaces the catalog and records its time or now; one with only a time records that; the event and cash box never change |
| Pos.SumByFinite | src/domain/pos.js:3-5 | a sum is a number exactly when every amount in it is |
| Pos.SumWhereIsSumOfFilter | src/domain/pos.js:55-61 | summing the amounts of the kept elements is summing over the filtered list |
| Pos.TotalDoCarrinho | src/domain/pos.js:3-5 | a missing cart totals 0 |
| Pos.VendaItem | src/domain/pos.js:9-27 | a sale item whose quantity and price are numbers (0 when missing), whose subtotal is qtd * unitario when the line has none, and whose tipo and isBarril default to "unitario" and false |
| Pos.VendaItens | src/domain/pos.js:9 | one sale item per cart line, in order |
| Pos.BuildVenda | src/domain/pos.js:7-44 | the items of the cart, the total as the sum of the item subtotals, the id kept, both dates now, pagamento defaulting to "dinheiro", and eventoId, recebido and troco to null, eventoNome to "" |
| Pos.BuildVendaTotalIsCartTotal | src/domain/pos.js:3-29 | a built sale's total is a finite number, and the cart total of its items gives the same number |
| Pos.ResumoFinanceiroPorEvento | src/domain/pos.js:46-64 | qtd is the number of sales, total the sum of all totals, and the three buckets the sums over the pix, cartao and all other sales |
| Pos.BucketsAddUp | src/domain/pos.js:55-61 | the cash, pix and card buckets add up to the total |
| Pos.CalcularCaixaEsperado | src/domain/pos.js:66-82 | the sums of the reforco and sangria movements and the expected cash: opening amount plus cash sales plus top-ups minus withdrawals |
| Pos.OtherMovementIgnored | src/domain/pos.js:71-75 | a movement of any other type changes neither sum |
| Pos.QuoteCell | src/domain/pos.js:119 | a cell always starts and ends with a double quote |
| Pos.UnescapeEscape | src/domain/pos.js:119 | undoubling the doubled quotes gives the text back |
| Pos.QuoteCellRoundTrip | src/domain/pos.js:119 | every quoted cell reads back as String(c ?? ""), whatever quotes, commas or newlines it holds |
| Pos.Cells | src/domain/pos.js:86-114 | every row, header or item, has the eleven columns |
| Pos.ItemRows | src/domain/pos.js:101-115 | one row per item of the sale, in order |
| Pos.SalesRowsShape | src/domain/pos.js:100-116 | there is one row per item of every sale, each an item row of one of the sales |
| Pos.PushItemRows | src/domain/pos.js:101-115 | the rows of one sale's items are appended after the rows so far |
| Pos.CsvRows | src/domain/pos.js:85-116 | the header row first, then the rows of every sale's items, sale after sale |
| Pos.CsvLine | src/domain/pos.js:119 | a line of at least one cell starts and ends with a double quote; no cells give the empty line |
| Pos.CsvText | src/domain/pos.js:118-120 | no rows give the empty text; otherwise the text starts and ends with a double quote, whatever the cells hold |
| Pos.ExportarCsvVendas | src/domain/pos.js:84-120 | the text is the quoted header line followed by one quoted line per item of every sale |
| TicketBuilder.ItemSubtotal | src/print/ticketBuilder.js:51-53 | the stated subtotal when it is a non-zero number; quantity times unit price when it is missing or 0 |
| TicketBuilder.NormalizeItem | src/print/ticketBuilder.js:41-61 | an item exactly for an object with a non-blank trimmed name and a positive quantity, holding that name, the quantity, the unit price and the subtotal kept |
| TicketBuilder.NormalizedNameTrimmed | src/print/ticketBuilder.js:43 | a normalized item's name is already trimmed |
| TicketBuilder.NormalizeItems | src/print/ticketBuilder.js:65 | no more items than were given, each with a non-empty name and a positive quantity |
| TicketBuilder.NonBlankLines | src/print/ticketBuilder.js:26-30 | no more lines than pieces, none of them empty |
| TicketBuilder.BuildHeaderLines | src/print/ticketBuilder.js:22-39 | the trimmed non-empty lines of the top text, then the name only when it is non-blank and not already one of those lines |
| TicketBuilder.HeaderHasNameOnce | src/print/ticketBuilder.js:33-36 | every header line is non-empty, a non-blank name is always among them, and only once when the top text does not hold it |
| TicketBuilder.ItemLines | src/print/ticketBuilder.js:82-84 | one line per item |
| TicketBuilder.TicketTotal | src/print/ticketBuilder.js:86-88 | the sale's own total when it is a non-zero number; otherwise the sum of the item subtotals |
| TicketBuilder.FinishEnding | src/print/ticketBuilder.js:96-97 | the finished text ends with exactly one newline and no white space before it |
| TicketBuilder.TicketText | src/print/ticketBuilder.js:63-98 | every ticket ends with exactly one newline and no white space before it |
| TicketBuilder.TicketTextEnding | src/print/ticketBuilder.js:63-98 | every ticket ends with exactly one newline and no white space before it |
| TicketBuilder.LayoutShape | src/print/ticketBuilder.js:67-94 | the header, the date, the terminal line only for a named terminal, a 32-dash rule, one line per item, a rule, the total, and the footer only when there is one |
| TicketBuilder.PushItemLines | src/print/ticketBuilder.js:82-84 | the item lines are appended in order |
| TicketBuilder.PushTicketLines | src/print/ticketBuilder.js:67-94 | the lines pushed are the ticket's layout |
| TicketBuilder.BuildTicketText | src/print/ticketBuilder.js:63-98 | the lines of the layout joined with newlines, trailing white space cut, and one newline added |
| TicketBuilder.UnitVendaFields | src/print/ticketBuilder.js:113-117 | the sale of one unit lists that unit alone and has the unit value as its total |
| TicketBuilder.UnitItemNormalizes | src/print/ticketBuilder.js:115 | the unit item normalizes to quantity 1 with the unit value as price and subtotal |
| TicketBuilder.UnitTicketHoldsOneUnit | src/print/ticketBuilder.js:108-117 | a unit ticket lists the one unit with quantity 1 and the unit value as price and subtotal, and prints the unit value as total |
| TicketBuilder.Copies | src/print/ticketBuilder.js:110-122 | n copies of the ticket, none for n <= 0 |
| TicketBuilder.Units | src/print/ticketBuilder.js:105-123 | every unit printed is one of the items |
| TicketBuilder.UnitsCount | src/print/ticketBuilder.js:105-123 | ceil(qtd) units are printed for each item |
| TicketBuilder.WholeQuantitiesOneTicketPerUnit | src/print/ticketBuilder.js:100-126 | with whole quantities the number of tickets is the sum of the quantities |
| TicketBuilder.PushTicketCopies | src/print/ticketBuilder.js:110-122 | the counted loop appends ceil(qtd) copies of the unit ticket |
| TicketBuilder.PushUnitTickets | src/print/ticketBuilder.js:106-122 | one unit ticket per whole or started unit of the item is appended |
| TicketBuilder.PushAllUnitTickets | src/print/ticketBuilder.js:105-123 | the tickets are those of the units of the items, in order |
| TicketBuilder.BuildTicketsPerItem | src/print/ticketBuilder.js:100-126 | for each valid item, in order, one ticket per unit, each listing that unit alone |
| Venda.FindKeyExcept | src/pages/Venda.jsx:261 | the first line other than the excluded one with the key, or -1 when there is none |
| Venda.RemoveAt | src/pages/Venda.jsx:275 | the cart without the line at i, the others in order |
| Venda.CartQtdUpdate | src/pages/Venda.jsx:239-241 | replacing a line moves the unit count by the difference of the two quantities |
| Venda.CartQtdRemove | src/pages/Venda.jsx:275 | removing a line takes its units away |
| Venda.KeysUniqueRemoveAt | src/pages/Venda.jsx:237 | removing a line keeps one line per key |
| Venda.KeysUniqueSameKey | src/pages/Venda.jsx:205 | replacing a line by one with the same key keeps one line per key |
| Venda.NewLine | src/pages/Venda.jsx:194-226 | a new line holds one unit under the product's key; a keg is named "Barril 30L" and priced per litre times 30 with 30 litres; another product keeps its name and price and has no litres |
| Venda.WithProduto | src/pages/Venda.jsx:191-228 | nothing for a missing product; the line with the product's key gets one unit more and its subtotal recomputed, all other lines unchanged; otherwise a new line is appended |
| Venda.IsBarrilProdutoCases | src/pages/Venda.jsx:182-188 | a product is a keg exactly when it is flagged with true itself, or priced per litre, or some stretch of its name reads "barril" in any letter case |
| Venda.AddProdutoKeepsKeysUnique | src/pages/Venda.jsx:191-228 | adding a product keeps one line per key, and a line with the product's key is there afterwards |
| Venda.AddProdutoAddsOneUnit | src/pages/Venda.jsx:199-226 | adding a product adds exactly one unit to the cart |
| Venda.WithQtd | src/pages/Venda.jsx:230-244 | an unknown key leaves the cart; a quantity that falls to 0 or below removes the line; otherwise the quantity is set and the subtotal becomes quantity times unit price |
| Venda.FilterKeyRemovesOne | src/pages/Venda.jsx:237 | with one line per key, filtering by key removes just that line and keeps the others in order |
| Venda.AlterarQtdKeeps | src/pages/Venda.jsx:239-242 | a change that keeps the line keeps one line per key and moves the unit count by delta |
| Venda.AlterarQtdRemoves | src/pages/Venda.jsx:236-237 | a change to 0 or below removes that line alone, with its units, and its key is gone |
| Venda.AlterarQtdKeepsKeysUnique | src/pages/Venda.jsx:230-244 | a quantity change keeps one line per key |
| Venda.WithLitros | src/pages/Venda.jsx:246-253 | an unknown key or a line that is not a keg leaves the cart as it is |
| Venda.MergeInto | src/pages/Venda.jsx:262-276 | a merge leaves one line fewer |
| Venda.MergeIntoKeeps | src/pages/Venda.jsx:262-276 | merging keeps one line per key and the unit count, and the merged line carries both quantities at the new price |
| Venda.AlterarLitrosMerges | src/pages/Venda.jsx:261-277 | when another line has the new key, the keg line is merged into it: one line fewer, the same units, one line per key, the merged line repriced for the new litres |
| Venda.AlterarLitrosRekeys | src/pages/Venda.jsx:279-289 | otherwise the line is re-keyed and repriced in place: the same length, the same units, one line per key, every other line unchanged |
| Venda.AlterarLitrosKeepsKeysUnique | src/pages/Venda.jsx:246-291 | a litre change keeps one line per key |
| Venda.CartState.AddProduto | src/pages/Venda.jsx:191-228 | the cart becomes the add-product result and keeps one line per key |
| Venda.CartState.AlterarQtd | src/pages/Venda.jsx:230-244 | the cart becomes the quantity-change result and keeps one line per key |
| Venda.CartState.AlterarLitros | src/pages/Venda.jsx:246-291 | the cart becomes the litre-change result and keeps one line per key |
| Venda.CartState.Limpar | src/pages/Venda.jsx:293-297 | the cart and the received amount are emptied and the payment goes back to "dinheiro" |
| Venda.Troco | src/pages/Venda.jsx:90-93 | change only for a cash payment with a positive amount received; then max(0, received - total) |
| Venda.SemEventoAbertoBlank | src/pages/Venda.jsx:179-181 | there is no open event exactly when the event's name has nothing but white space, which includes a missing or falsy name |
| Venda.FinalizarVenda | src/pages/Venda.jsx:388-415 | nothing while printing; refused without an open event, then with an empty cart; otherwise a draft of the cart with its total, the payment chosen, the event's id (null when it has none) and name, and, only for cash, the change and the amount received as typed |
| Venda.HasConnectionFilled | src/pages/Venda.jsx:471-478 | the device can reach the master exactly when the host, the port, the PIN and the event id each hold text other than white space |
| Venda.ClientOfNormalizedConfig | src/pages/Venda.jsx:470 | with normalised settings, the device is a client exactly when several devices are allowed and the stored mode is the string "client" |
| Venda.PortOfNormalizedConfig | src/config/ConfigProvider.jsx:43-44 | in normalised settings, a port not stored as a string reads as "5179" |
| Venda.HostOfNormalizedConfig | src/pages/Venda.jsx:471-478 | in normalised settings, a host not stored as a string leaves the device without a connection |
| Venda.SaleDelivery | src/pages/Venda.jsx:470-500 | a device that is not a client keeps the sale locally; a client posts it when it has every connection parameter and the post succeeds, and queues it otherwise |
| Venda.DeliverSale | src/pages/Venda.jsx:470-500 | a queued sale is enqueued as its summary and the sale; nothing is written otherwise |
| Caixa.MaskBRLFromDigits | src/pages/Caixa.jsx:22-31 | the mask always ends in a comma and two cent digits |
| Caixa.GroupThousands | src/pages/Caixa.jsx:28 | up to three digits are left alone; a longer integer part keeps its last three digits after a dot, and grouping never shortens it |
| Caixa.GroupThousandsDigits | src/pages/Caixa.jsx:28 | grouping adds only dots: removing them gives back the digits |
| Caixa.GroupThousandsGroups | src/pages/Caixa.jsx:28 | the dots split the integer part into a first group of one to three digits followed by groups of exactly three |
| Caixa.MaskKeepsAmount | src/pages/Caixa.jsx:19-31 | the digits of the mask read back as the amount typed |
| Caixa.MaskOfCents | src/pages/Caixa.jsx:344-348 | a stored opening amount in cents is shown as exactly that amount |
| Caixa.MaskFiveCents | src/pages/Caixa.jsx:22-31 | typing the single digit 5 shows "0,05", the field's own example |
| Caixa.MaskFiveHundred | src/pages/Caixa.jsx:22-31 | typing 5, 0, 0, 0, 0 shows "500,00", the field's own example |
| Caixa.NormalizePayment | src/pages/Caixa.jsx:59-67 | pix exactly when the text mentions pix; a card exactly when it mentions no pix but a card word; cash otherwise, an empty or missing payment included |
| Caixa.CashWordsMentionNothing | src/pages/Caixa.jsx:61 | the words for cash mention neither pix nor a card, so the early cash return agrees with the later tests |
| Caixa.StoredPaymentNamesAgree | src/pages/Caixa.jsx:59-67 | the payment names the app stores are read the same way by this screen and by the event's financial summary |
| Caixa.ItemQtd | src/pages/Caixa.jsx:95 | the quantity of an item is never 0 |
| Caixa.PriceAndTotal | src/pages/Caixa.jsx:96-110 | a stated total or price is kept; a missing one is derived so that price times quantity is the total |
| Caixa.ItemFrom | src/pages/Caixa.jsx:109-117 | an item is kept exactly when it has a name and a price or a total; its name is the trimmed name and its total is non-zero |
| Caixa.ExtractItensFromVenda | src/pages/Caixa.jsx:85-119 | at most one item per element of the sale's list, and every item kept has a non-zero quantity and total |
| Caixa.ExtractedItemsCount | src/pages/Caixa.jsx:85-119 | every item kept has a non-zero quantity and total |
| Caixa.AddKeyed | src/pages/Caixa.jsx:126-137 | the group with the key takes the item's quantity and total, or a new group opens with the item's name and price |
| Caixa.GroupItemsSummarizes | src/pages/Caixa.jsx:122-139 | the groups hold one entry per name-and-price key, one for every item, each with the quantity and total of all the items with that key |
| Caixa.GroupItemsKeepsTotal | src/pages/Caixa.jsx:122-139 | the group totals add up to the item totals |
| Caixa.GroupOrderIsTotalPreorder | src/pages/Caixa.jsx:141-145 | the order by total, then quantity, then name is a total preorder |
| Caixa.AddItem | src/pages/Caixa.jsx:125-138 | the Map update for one item is the summary step |
| Caixa.AddItens | src/pages/Caixa.jsx:125-138 | the inner loop folds one sale's items into the summary |
| Caixa.AggregateItens | src/pages/Caixa.jsx:122-146 | the grouped summary of all the sales' items, stably sorted |
| Caixa.AggregateKeepsTiedOrder | src/pages/Caixa.jsx:122-146 | the sort is stable: groups tied on total, quantity and name keep the order in which their keys first appeared |
| Caixa.AggregateIsSortedSummary | src/pages/Caixa.jsx:122-146 | the result is sorted, a rearrangement of the groups, and each group sums its key's items |
| Caixa.GetDeviceInfo | src/pages/Caixa.jsx:148-165 | a sale naming no device, or an empty one, is on "local" / "Local"; a non-empty name is kept |
| Caixa.NoDeviceMeansLocal | src/pages/Caixa.jsx:148-165 | a sale without device fields belongs to the local device |
| Caixa.SummaryKeepsDevice | src/pages/Caixa.jsx:148-165 | a summary a client sends is filed under that client's id and name |
| Caixa.VendasEvento | src/pages/Caixa.jsx:267-281 | the sales that belong to the event by id or by normalised name, in their order and multiplicity, from the given list (empty when none is given) or, when what is given is not an array, the stored one |
| Caixa.TotalFallback | src/pages/Caixa.jsx:283-294 | a non-zero stated total is the sale's total; without one and without lines the total is 0 |
| Caixa.Bump | src/pages/Caixa.jsx:300 | adding to one bucket adds the amount to the sum of the buckets |
| Caixa.PagamentosGeral | src/pages/Caixa.jsx:296-309 | each bucket sums exactly the sales paid that way, and the three buckets add up to the total of all sales |
| Caixa.PagamentosGeralBuckets | src/pages/Caixa.jsx:296-309 | each bucket sums exactly the sales paid that way and the total sold counts each sale once |
| Caixa.Sangrias | src/pages/Caixa.jsx:360-362 | exactly the movements of type sangria |
| Caixa.TotalNoCaixaAgora | src/pages/Caixa.jsx:356-368 | the cash in the box is the opening amount plus the cash sales minus the withdrawals |
| Caixa.CashInBox | src/pages/Caixa.jsx:356-368 | the cash in the box is the opening plus the cash sales minus the withdrawals |
| Caixa.TotalSangriasAppend | src/pages/Caixa.jsx:363-365 | one more movement adds its value to the total withdrawn |
| Caixa.DevicesSummarize | src/pages/Caixa.jsx:313-330 | one record per machine, one for every sale's machine, each with exactly that machine's sales, total and payment buckets |
| Caixa.DevicesKeepTotal | src/pages/Caixa.jsx:313-330 | the machine totals add up to the total sold |
| Caixa.Reports | src/pages/Caixa.jsx:332-339 | one report line per machine record |
| Caixa.DeviceOrderIsTotalPreorder | src/pages/Caixa.jsx:340 | ordering machines by total sold is a total preorder |
| Caixa.AddSale | src/pages/Caixa.jsx:316-329 | the record update for one sale is the fold step |
| Caixa.CountSales | src/pages/Caixa.jsx:314-330 | the forEach builds the machine records |
| Caixa.BuildReports | src/pages/Caixa.jsx:332-339 | the map over the records builds the report lines |
| Caixa.PorDevice | src/pages/Caixa.jsx:313-341 | the report lines of the machine records, stably sorted by total |
| Caixa.MachinesAddUpToTotal | src/pages/Caixa.jsx:307-341 | the machines' totals add up to the event's total sold |
| Caixa.PorDeviceSorted | src/pages/Caixa.jsx:313-341 | the report is sorted by total and is a rearrangement of one line per machine |
| Caixa.PorDeviceKeepsTiedOrder | src/pages/Caixa.jsx:313-341 | machines with equal totals keep the order in which their first sales came |
| Caixa.WithMovimentos | src/pages/Caixa.jsx:420-423 | only the movements change; every other field is kept |
| Caixa.AdicionarSangria | src/pages/Caixa.jsx:402-428 | nothing when disabled; the three alerts in order; saved exactly with an open event, an opening amount and a positive value, with one sangria movement appended |
| Caixa.AdicionarSangriaAndSave | src/pages/Caixa.jsx:402-428 | the saved cash box is written to the store and nothing else |
| Caixa.SangriaLowersCash | src/pages/Caixa.jsx:366-428 | an accepted withdrawal lowers the cash in the box by its amount |
| Caixa.SangriasAppendSangria | src/pages/Caixa.jsx:360-422 | an appended withdrawal adds its value to the total withdrawn |
| Caixa.RemoverSangria | src/pages/Caixa.jsx:430-445 | nothing when disabled; otherwise exactly the movements with another id stay, in their order and multiplicity, and every other field is kept |
| Caixa.RemoverSangriaAndSave | src/pages/Caixa.jsx:430-445 | the new cash box is written to the store and nothing else |
| Caixa.RemoveUnknownIdKeepsAll | src/pages/Caixa.jsx:437 | removing an id no movement has keeps every movement |
| Caixa.RemoveUndoesAdd | src/pages/Caixa.jsx:402-445 | removing a withdrawal just added under a fresh id restores the movements and the cash |
| Caixa.SameCash | src/pages/Caixa.jsx:366-368 | the cash depends only on the opening amount and the movements |
| Caixa.UpsertMeta | src/pages/Caixa.jsx:503-511 | the new record comes first; after it come exactly the stored records with another name, in their stored order and multiplicity |
| Caixa.UpsertMetaKeepsNamesUnique | src/pages/Caixa.jsx:503-511 | the stored list keeps one record per name |
| Caixa.Finalizar | src/pages/Caixa.jsx:447-516 | nothing when disabled; the two alerts in order; otherwise the records are upserted and the cash box gets its closing time |
| Caixa.FinalizarCaixa | src/pages/Caixa.jsx:447-516 | the records are read from the store and the upserted list written back |
| Caixa.ClosingClosesEvent | src/pages/Caixa.jsx:503-516 | after closing, the event's flow state is closed |
| Produtos.DigitsToBRL | src/pages/Produtos.jsx:39-45 | the text is digits with a comma before exactly two cent digits |
| Produtos.TypedDigitsExample | src/pages/Produtos.jsx:39-45 | typing 8, 0, 0 shows "8,00" |
| Produtos.BrlToNumber | src/pages/Produtos.jsx:47-53 | blank text reads as 0 |
| Produtos.AmountTextReads | src/pages/Produtos.jsx:47-53 | a text "w,cc" reads as w plus cc hundredths |
| Produtos.PriceRoundTrip | src/pages/Produtos.jsx:216-217 | formatting the typed digits and reading them back gives the amount in cents divided by 100 |
| Produtos.PricePositiveIffTyped | src/pages/Produtos.jsx:216-221 | the price is positive exactly when a non-zero amount was typed |
| Produtos.PodeAdicionarCases | src/pages/Produtos.jsx:219-222 | the form can add a product exactly when the name has a character other than white space, a non-zero amount of cents was typed, and a combo has a typed quantity of at least 2 |
| Produtos.BarrilAtualCases | src/pages/Produtos.jsx:225-228 | the form is on a keg exactly when the barrel shortcut was chosen or some stretch of the name reads "barril" in any letter case |
| Produtos.QtdCombo | src/pages/Produtos.jsx:305-306 | a combo size exactly for a combo, never below 2 |
| Produtos.AcceptedComboKeepsQuantity | src/pages/Produtos.jsx:219-306 | a combo the form accepts keeps exactly the quantity typed |
| Produtos.VarKey | src/pages/Produtos.jsx:307 | the key holds at least both separators |
| Produtos.VarKeyInjective | src/pages/Produtos.jsx:303-307 | two variants the form can produce share a key only with the same name, kind and combo size |
| Produtos.IconKeyForItem | src/pages/Produtos.jsx:272-277 | a name matching no library entry gets the shortcut last chosen |
| Produtos.FormOf | src/pages/Produtos.jsx:303-309 | the form's variant is valid, its key is built from its name, kind and size, and its icon is never empty |
| Produtos.Payload | src/pages/Produtos.jsx:315-326 | the product record has the properties of the payload, in their order |
| Produtos.PayloadFields | src/pages/Produtos.jsx:315-326 | the record holds the id, the trimmed name, the price, active, the kind, the size, the key and the icon of the form |
| Produtos.MergedPayload | src/pages/Produtos.jsx:330 | the merged record has the payload's properties and the old record's elsewhere |
| Produtos.Upsert | src/pages/Produtos.jsx:311-337 | the list keeps its length or grows by one |
| Produtos.UpsertUpdatesInPlace | src/pages/Produtos.jsx:313-332 | an existing variant is overwritten in place under its own id and nothing else changes |
| Produtos.UpsertAppendsNew | src/pages/Produtos.jsx:334-336 | a new variant is appended under the fresh id and nothing else changes |
| Produtos.UpsertFinds | src/pages/Produtos.jsx:311-337 | afterwards the variant key finds a product with the form's name and price |
| Produtos.UpsertKeepsVarKeysUnique | src/pages/Produtos.jsx:311-337 | the upsert never creates a second product with the same variant key |
| Produtos.ResubmitUpdates | src/pages/Produtos.jsx:311-337 | submitting the same form twice does not add a second product |
| Produtos.Submit | src/pages/Produtos.jsx:311-337 | the new list is the upsert, "atualizado" when the variant was there and "adicionado" when the list grew by one |
| Produtos.AdicionarItem | src/pages/Produtos.jsx:293-340 | blocked editing and an incomplete form are refused with their warnings, in that order; otherwise the form is submitted |
| Produtos.AddKeepsVarKeysUnique | src/pages/Produtos.jsx:293-340 | adding keeps one product per variant key |
| Produtos.AcceptedFormIsListed | src/pages/Produtos.jsx:219-337 | an accepted form leaves an active product with the trimmed name and the typed price findable by its variant key |
| Produtos.ToggleAll | src/pages/Produtos.jsx:355-358 | the map keeps the length and switches each product on its own |
| Produtos.ToggleAtivo | src/pages/Produtos.jsx:353-360 | nothing when blocked; otherwise only the products with the id get their active flag negated |
| Produtos.ToggleTwiceRestores | src/pages/Produtos.jsx:353-360 | switching twice restores the active state and every other property |
| Produtos.RemoverItem | src/pages/Produtos.jsx:342-351 | a removal happens exactly when not blocked, a product on screen has the id and the user confirms; then exactly the products with another id stay, in their order and multiplicity |
| Produtos.RemoveUndoesAdd | src/pages/Produtos.jsx:311-351 | removing a product just added under a fresh id restores the list |
| Evento.FirstPresent | src/pages/Evento.jsx:52-58 | undefined exactly when the object is falsy or no key holds a value that counts; otherwise a value that counts |
| Evento.FirstPresentIs | src/pages/Evento.jsx:54-56 | the value picked is the one under the first key, in order, whose value counts |
| Evento.PickField | src/pages/Evento.jsx:52-58 | the loop with its early return gives the first value that counts |
| Evento.NumberOrNull | src/pages/Evento.jsx:60-69 | null for undefined, null and ""; a number is kept exactly when it is finite |
| Evento.CommaDecimalReads | src/pages/Evento.jsx:62-65 | "w,f" reads as the decimal w.f |
| Evento.SpacesIgnored | src/pages/Evento.jsx:63 | white space anywhere in the text is ignored |
| Evento.BlankTextIsZero | src/pages/Evento.jsx:61-65 | text of white space only is not "" and reads as 0 |
| Evento.NormalizeNameKey | src/pages/Evento.jsx:71-76 | the key has the words of the lower-cased name, in order, with single spaces between them and no white space at either end, and no upper-case letter |
| Evento.NormalizeNameKeySameWords | src/pages/Evento.jsx:71-76 | two names get the same key exactly when, lower-cased, they have the same words |
| Evento.NormalizeNameKeyIdempotent | src/pages/Evento.jsx:71-76 | a name key is its own name key |
| Evento.QtdOf | src/pages/Evento.jsx:95 | the quantity is never 0 |
| Evento.PrecoETotal | src/pages/Evento.jsx:96-100 | a known price or total is kept and a missing total is the price times the quantity |
| Evento.ExtractItem | src/pages/Evento.jsx:90-109 | an item is skipped exactly when its trimmed name is blank or it has neither price nor total; otherwise it has that name and quantity, its known price and total, and a derived one where missing |
| Evento.ExtractedNamed | src/pages/Evento.jsx:91-93 | every item read has a trimmed, non-blank name |
| Evento.ExtractOfItemValue | src/pages/Evento.jsx:90-109 | an item stored in the extracted shape reads back unchanged |
| Evento.FirstArray | src/pages/Evento.jsx:79-87 | no object, or no key holding an array, gives no items |
| Evento.FirstArrayIs | src/pages/Evento.jsx:81-85 | the list is the first array in key order |
| Evento.ReadItem | src/pages/Evento.jsx:90-109 | the loop body reads one item as the item function does |
| Evento.ExtractItensFromVenda | src/pages/Evento.jsx:78-112 | the items found under the first list key, read in order with the skipped ones left out |
| Evento.VendasDoEvento | src/pages/Evento.jsx:554 | exactly the sales whose trimmed event name is the given one |
| Evento.MovedToFront | src/pages/Evento.jsx:293-294 | the entry at i comes first, those before it move down one place, those after it stay |
| Evento.MovedToFrontPermutes | src/pages/Evento.jsx:293-294 | moving to the front is a rearrangement |
| Evento.AtualPrimeiro | src/pages/Evento.jsx:289-296 | the history after the move is a rearrangement of the sorted one |
| Evento.AtualHeadsHistory | src/pages/Evento.jsx:289-296 | the open event, when listed, heads the history |
| Evento.AtualPrimeiroKeepsOthers | src/pages/Evento.jsx:289-296 | the other entries keep their order |
| Evento.NewerIsTotalPreorder | src/pages/Evento.jsx:283-287 | newest first is a total preorder |
| Evento.MovedToFrontRestSorted | src/pages/Evento.jsx:283-296 | with one entry moved to the front, the rest stays sorted |
| Evento.Historico | src/pages/Evento.jsx:283-298 | the history is a rearrangement of the entries, as many as there are |
| Evento.HistoricoPermutes | src/pages/Evento.jsx:283-298 | the history holds every entry as often as it occurs |
| Evento.HistoricoAtualFirst | src/pages/Evento.jsx:289-296 | an open event with an entry heads the history |
| Evento.HistoricoRestNewestFirst | src/pages/Evento.jsx:283-296 | after its head the history runs newest first |
| Evento.HistoricoKeepsTiedOrder | src/pages/Evento.jsx:283-296 | the sort by date is stable: entries with the same date, such as those without one, keep their stored order |
| Evento.MoveToFront | src/pages/Evento.jsx:293-294 | splice and unshift in place move the entry to the front |
| Evento.OrdenarHistorico | src/pages/Evento.jsx:283-298 | a fresh array holding the history stably sorted newest first, with the open event moved to the front |
| Evento.CaixaLimpa | src/pages/Evento.jsx:562-566 | the cleared cash box has no opening amount and no movements |
| Evento.ConfirmarExcluir | src/pages/Evento.jsx:541-575 | nothing without a selected event; a wrong password only sets the error "Senha incorreta."; with the password "123456" the event's sales and closing records go, the others staying in their order and multiplicity, and the cash box is cleared only for the open event |
| Evento.ExcluidoSemVendas | src/pages/Evento.jsx:550-556 | after the deletion the event has no sales left |
| Evento.ExcluirTwice | src/pages/Evento.jsx:541-575 | deleting the same event again removes nothing more |
| Evento.ConfirmarExcluirAndSave | src/pages/Evento.jsx:541-575 | the closing records are read from the store and written back only on a deletion |
| EventoCaixa.VendaValor | src/pages/Evento.jsx:336 | a sale's amount is its total when that is not nullish, else its valorTotal when that is not nullish, else 0; a value that is not a number counts 0 |
| EventoCaixa.MeioDe | src/pages/Evento.jsx:339-342 | the cash bucket exactly for "dinheiro", pix exactly for "pix", the card bucket exactly for "cartao" or "cartão", each after lower-casing |
| EventoCaixa.MeioIgnoresCase | src/pages/Evento.jsx:339-342 | the payment word is lower-cased first, accented capitals included |
| EventoCaixa.Totalizar | src/pages/Evento.jsx:327-349 | the loop counts the sales, sums their totals and sums each payment bucket |
| EventoCaixa.ResumoDoEvento | src/pages/Evento.jsx:327-349 | the event's count, total and per-bucket sums |
| EventoCaixa.MeiosSomam | src/pages/Evento.jsx:335-343 | the total is the three buckets plus the sales paid some other way |
| EventoCaixa.CaixaAtual | src/pages/Evento.jsx:351-359 | the cash box counts exactly for the open event and is then the stored one |
| EventoCaixa.BalancoDoEvento | src/pages/Evento.jsx:361-370 | the expected cash is opening plus cash sales plus top-ups minus withdrawals; another event's summary shows only its cash sales |
| EventoCaixa.ExcluidoZeraSaldo | src/pages/Evento.jsx:541-575 | after the open event is deleted its summary shows no opening, no movements and no sales |
| EventoCaixa.Fixed2 | src/pages/Evento.jsx:382 | a non-negative price's key reads back as the price rounded to whole cents |
| EventoCaixa.Fixed2Reads | src/pages/Evento.jsx:382 | a price's key reads back as the price rounded to whole cents |
| EventoCaixa.PricedKeyIsNotSemPreco | src/pages/Evento.jsx:382 | a priced key never collides with the key of an unpriced item |
| EventoCaixa.ExtractProdutoInfo | src/pages/Evento.jsx:114-123 | nothing for a non-object or a product without a name; otherwise its trimmed name |
| EventoCaixa.RegistrarItem | src/pages/Evento.jsx:376-396 | an item without a name changes nothing; a named item records its name key as sold and leaves a line for its key |
| EventoCaixa.RegistrarProduto | src/pages/Evento.jsx:417-433 | a product never changes the sold names or the existing lines, adds at most one empty line, and leaves a line for its key unless it has no price and its name was sold |
| EventoCaixa.ProdutosLista | src/pages/Evento.jsx:408-415 | the open event's own products for the open event; otherwise only products of the closing record, taken from its list or from its close |
| EventoCaixa.Agrupar | src/pages/Evento.jsx:373-433 | every sold item's key has a line |
| EventoCaixa.AgruparPorChave | src/pages/Evento.jsx:373-415 | every sold item's key has a line, and each line's quantity and total are the sums over exactly the named sold items with its key, name key and price |
| EventoCaixa.AgruparUnique | src/pages/Evento.jsx:373-433 | the summary has one line per key |
| EventoCaixa.RegistrarProdutoSums | src/pages/Evento.jsx:417-433 | a catalog product adds only empty lines |
| EventoCaixa.AgruparKeepsSums | src/pages/Evento.jsx:373-433 | the lines' quantities and totals add up to those of the sold items |
| EventoCaixa.SoldNameHidesUnpricedProduct | src/pages/Evento.jsx:424-428 | an unpriced product is not listed when an item of the same name was sold |
| EventoCaixa.ListedKeyUnchanged | src/pages/Evento.jsx:430 | a product whose key has a line changes nothing |
| EventoCaixa.NewProductLine | src/pages/Evento.jsx:430-432 | any other product opens an empty line for its key at the end |
| EventoCaixa.VendidosAreSoldNames | src/pages/Evento.jsx:393-395 | the names recorded as sold are exactly those of the sold items |
| EventoCaixa.RegistrarVendas | src/pages/Evento.jsx:398-403 | the loop registers every item of every sale in order |
| EventoCaixa.RegistrarCatalogo | src/pages/Evento.jsx:417-433 | the loop applies the product rule to every product that reads |
| EventoCaixa.AgruparItens | src/pages/Evento.jsx:373-433 | the two loops build the grouped summary |
| EventoCaixa.OrdemIsTotalPreorder | src/pages/Evento.jsx:435-441 | the order by total, then quantity, then name is a total preorder |
| EventoCaixa.EncerradoDe | src/pages/Evento.jsx:207-216 | nothing is found exactly when the name is empty or no record has that trimmed name; otherwise the record found has the name and no later record has it, so the last record with the name wins |
| EventoCaixa.LaterRecordWins | src/pages/Evento.jsx:210-213 | a later record of the same name replaces an earlier one |
| EventoCaixa.CalcularCaixaDoEvento | src/pages/Evento.jsx:319-463 | the event's sale count, total and three payment buckets, its cash balance, item lines that are the grouping of its sold items and catalog stably sorted (each line summing exactly the sold items of its key, as EventoCaixa.ItensResumoPorChave states), the counts of lines with and without sales, and the stated total or else the sum of the lines |
| EventoCaixa.ItensResumoSummarizes | src/pages/Evento.jsx:435-445 | the sorted lines are in order, a rearrangement, and their sums are those of the sold items |
| EventoCaixa.ItensResumoPorChave | src/pages/Evento.jsx:373-445 | after sorting, every sold item's key still has a line and each line still carries the sums of exactly the sold items with its key |
| EventoCaixa.ItensResumoKeepsTiedOrder | src/pages/Evento.jsx:435-445 | lines tied on total, quantity and name keep the order in which they were registered |
| Ajustes.NormalizeTicketTexto | src/pages/Ajustes.jsx:129-136 | the normalised text is upper case, holds no carriage return, and has one or two lines |
| Ajustes.CutLines | src/pages/Ajustes.jsx:132-134 | each line is cut to its first w characters, one result per line |
| Ajustes.TicketLinesShape | src/pages/Ajustes.jsx:129-134 | one or two pieces, each the start of the corresponding input line, at most 22 characters, the whole line when shorter, with no line feed and already upper case |
| Ajustes.TicketTextoBounds | src/pages/Ajustes.jsx:129-136 | at most two lines of at most 22 characters, each the start of its input line (the whole line when short enough), upper case and without carriage returns |
| Ajustes.TicketTextoIdempotent | src/pages/Ajustes.jsx:129-136 | normalising the normalised text changes nothing |
| Ajustes.ModoImagem | src/pages/Ajustes.jsx:153-162 | "texto" exactly when the value mentions texto; "logo" exactly when it mentions logo and not texto; the product icon otherwise, an empty value included |
| Ajustes.ModoRoundTrip | src/pages/Ajustes.jsx:153-162 | the mode a radio button stores is the mode shown afterwards |
| Ajustes.Padroes | src/pages/Ajustes.jsx:80-89 | the patch is an object |
| Ajustes.AplicarPadroes | src/pages/Ajustes.jsx:79-98 | nothing is set exactly when the three settings are in shape; otherwise the new settings are an object |
| Ajustes.PadroesKeys | src/pages/Ajustes.jsx:80-89 | the patch holds exactly the settings that are out of shape, with their defaults |
| Ajustes.PadroesFillIn | src/pages/Ajustes.jsx:79-98 | nothing is set exactly when the three settings are in shape; otherwise the missing ones get 20, false and false and every other setting is kept |
| Ajustes.PadroesOnce | src/pages/Ajustes.jsx:79-98 | running the effect again on what it set changes nothing |
| Ajustes.Salvar | src/pages/Ajustes.jsx:107-117 | fails exactly on a top text that is a truthy non-string; otherwise the stored top text is the upper-cased one and the name and footer are the form's |
| Ajustes.Gravar | src/pages/Ajustes.jsx:107-117 | no record exactly for a top text that is a truthy non-string; otherwise the upper-cased top text, a truthy image mode and the form's name and footer |
| Ajustes.SalvarGrava | src/pages/Ajustes.jsx:107-117 | saving fails only on a top text that is a truthy non-string; otherwise it stores the upper-cased top text, the mode defaulted to "produto", the height, the flags as booleans and the form's texts, keeping every other setting |
| Ajustes.GravarFields | src/pages/Ajustes.jsx:107-117 | the record to save exists unless the top text is a truthy non-string, and holds the upper-cased top text, the defaulted mode, the height, the flags as booleans and the form's texts |
| Ajustes.GravadoFields | src/pages/Ajustes.jsx:107-117 | the saved object reads back each written field and keeps every other property of the previous settings |
| Ajustes.SalvarKeepsModo | src/pages/Ajustes.jsx:107-117 | saving does not change the image mode shown |
| Ajustes.SalvarCompleto | src/pages/Ajustes.jsx:79-117 | saved settings leave the defaults effect nothing to fill in |
| ConfigProvider.ConfigMap | src/config/ConfigProvider.jsx:13-21 | the settings object holds exactly the seven setting keys, each with its setting |
| ConfigProvider.MergeCovered | src/config/ConfigProvider.jsx:37-51 | spreading the defaults, the raw object and the seven settings keeps the defaults' keys first and lets the settings win |
| ConfigProvider.NormalizeConfig | src/config/ConfigProvider.jsx:35-52 | an object whose seven setting keys hold the normalised settings and whose every other key holds the raw object's own property |
| ConfigProvider.NormalizeShape | src/config/ConfigProvider.jsx:35-52 | the seven setting keys first, then the raw object's other keys in order; the settings normalised, every other property copied |
| ConfigProvider.NormalizeGet | src/config/ConfigProvider.jsx:35-52 | a setting key reads the normalised setting and any other key the raw object's property |
| ConfigProvider.NormalizeFields | src/config/ConfigProvider.jsx:36-50 | the flag is a boolean; the mode is "client" exactly when the raw mode is "client" and "master" otherwise; non-string texts become "" and the port "5179"; auto-start is true unless a boolean is stored |
| ConfigProvider.NormalizeKeys | src/config/ConfigProvider.jsx:37-38 | the defaults' keys come first, in their order |
| ConfigProvider.CamposOfNormalized | src/config/ConfigProvider.jsx:35-52 | the settings read back from a normalised object are those written |
| ConfigProvider.NormalizeIdempotent | src/config/ConfigProvider.jsx:35-52 | normalising a normalised configuration gives it back unchanged |
| ConfigProvider.ShallowEqual | src/config/ConfigProvider.jsx:80-90 | the loop with its early returns decides shallow equality: the same value, or two truthy values with as many keys agreeing on every key of the first |
| ConfigProvider.ShallowEqAgrees | src/config/ConfigProvider.jsx:86-88 | shallow-equal values agree on every key of the first |
| ConfigProvider.ShallowEqLooksAtFirstKeys | src/config/ConfigProvider.jsx:83-89 | only the first object's keys are compared, so {x: undefined} and {y: undefined} are equal |
| ConfigProvider.GuardShowsCandidate | src/config/ConfigProvider.jsx:104-110 | whichever object the guard keeps shows the normalised candidate's settings |
| ConfigProvider.NormalHasConfigKey | src/config/ConfigProvider.jsx:36-50 | a normalised configuration has every key of the defaults |
| ConfigProvider.Guard | src/config/ConfigProvider.jsx:108 | either the previous object or the candidate, the candidate when they are not shallow-equal, and on every key of the previous object the kept one shows the candidate's value |
| ConfigProvider.GuardAgreesOn | src/config/ConfigProvider.jsx:104-110 | on a key the previous object has, the object the guard keeps shows the candidate's value |
| ConfigProvider.SettersKeepNormalized | src/config/ConfigProvider.jsx:104-140 | each setter keeps the state normalised |
| ConfigProvider.SetConfig | src/config/ConfigProvider.jsx:104-110 | from a normalised state, the new state is normalised and shows the candidate's normalised settings |
| ConfigProvider.SetConfigSettles | src/config/ConfigProvider.jsx:104-110 | setConfig shows the candidate's settings, and the same candidate again returns the very same state |
| ConfigProvider.UpdateWithoutPatch | src/config/ConfigProvider.jsx:112-121 | an update with a patch that is not an object changes nothing |
| ConfigProvider.UpdateConfig | src/config/ConfigProvider.jsx:112-121 | from a normalised state, the new state is normalised and shows the normalised settings of the previous state with the patch over it |
| ConfigProvider.UpdateShowsPatch | src/config/ConfigProvider.jsx:112-121 | an update shows the normalised settings of the patched state |
| ConfigProvider.SetPermitir | src/config/ConfigProvider.jsx:123-140 | from a normalised state, the new state is normalised and its flag is the truthiness of the argument |
| ConfigProvider.SetPermitirSets | src/config/ConfigProvider.jsx:123-140 | the flag becomes the truthiness of the argument and the other six settings stay |
| ConfigProvider.SetPermitirTwice | src/config/ConfigProvider.jsx:123-140 | setting the flag again to the same value returns the same state |
| ConfigProvider.ReadPermitir | src/config/ConfigProvider.jsx:23-28 | the legacy flag is set exactly by the stored string "true" |
| ConfigProvider.LegadoIsDefaults | src/config/ConfigProvider.jsx:59-62 | the fallback is the defaults with the legacy flag |
| ConfigProvider.ReadConfig | src/config/ConfigProvider.jsx:54-72 | always a normalised configuration: the parsed stored one normalised, or the defaults with the legacy flag when nothing readable is stored |
| ConfigProvider.ReadConfigFallback | src/config/ConfigProvider.jsx:54-72 | without a readable stored configuration the defaults hold, with the legacy flag |
| ConfigProvider.InitialStateIsReadConfig | src/config/ConfigProvider.jsx:95 | normalising what readConfig returns changes nothing |
| ConfigProvider.Persist | src/config/ConfigProvider.jsx:74-101 | the configuration's text is stored under "config" and the legacy key reads back as its flag; every other stored key is kept |
| ConfigProvider.PersistRoundTrip | src/config/ConfigProvider.jsx:74-101 | a persisted normalised configuration reads back as itself, and the legacy flag as its flag |
| PrintService.AndroidOk | src/services/printService.js:88-104 | a boolean is itself; a string succeeds exactly when it cleans to a non-empty word that is not a failure word; an object with a boolean ok is that ok; other objects and arrays succeed |
| PrintService.AndroidOkIgnoresPadding | src/services/printService.js:91-92 | a textual reply reads the same with or without surrounding white space |
| PrintService.AndroidOkWords | src/services/printService.js:91-95 | every failure word fails in any case and padding, and any other non-empty word succeeds |
| PrintService.EscapeHtml | src/services/printService.js:126-130 | the result holds no raw angle bracket and unescapes back to the text |
| PrintService.EscapeSteps | src/services/printService.js:126-130 | escaping & first means the three passes escape each character on its own |
| PrintService.UnescapeEscapeChars | src/services/printService.js:126-130 | escaping is lossless |
| PrintService.FirstKind | src/services/printService.js:150-152 | html first exactly when preferred, or under "auto" when the html is non-empty and longer than the text |
| PrintService.Order | src/services/printService.js:154 | both kinds, the first one first |
| PrintService.FirstApplicable | src/services/printService.js:169-184 | the kind found applies and is in the order; none found means none applies |
| PrintService.AndroidAttempt | src/services/printService.js:143-187 | no answer exactly when there is no plugin; every answer is in Android mode; a plugin without functions fails with its message, and one where no kind applies fails |
| PrintService.ViaAndroidPlugin | src/services/printService.js:143-187 | the loop answers as the attempt function: no plugin, no functions, the first call made, or nothing applicable |
| PrintService.FindApplicable | src/services/printService.js:169-184 | the loop over the two kinds answers the first one that applies, or none |
| PrintService.AttemptOrder | src/services/printService.js:150-186 | the first kind is used when it applies, the second only when the first does not, and neither gives the "nenhum método aplicável" failure |
| PrintService.AttemptOkMeansPrinted | src/services/printService.js:169-183 | a success is always the reply of a call the plugin made and returned |
| PrintService.PrintTicketText | src/services/printService.js:273-301 | a blank payload fails with "Texto do ticket vazio."; otherwise the browser answers outside Android, and on Android the answer is in Android mode, a missing plugin failing with its message |
| PrintService.BlankTicketNotPrinted | src/services/printService.js:273-279 | a blank ticket fails with "Texto do ticket vazio." whatever the device would answer |
| PrintService.TicketPrintsAsText | src/services/printService.js:281-297 | on Android a non-blank ticket goes to printText when the plugin has it, and the outcome is that call's with the default failure message |
| PrintService.TicketOkNotBlank | src/services/printService.js:273-279 | a success comes only from a non-blank payload |
| PrintService.LinesPerBlock | src/services/printService.js:307 | the block size is a finite non-zero number, 42 when no size is given |
| PrintService.Separator | src/services/printService.js:309 | the separator given, or the report separator when none is |
| PrintService.SplitBlocks | src/services/printService.js:316-318 | the lines split into ceil(n / k) non-empty blocks of k lines, in order, only the last one shorter |
| PrintService.PrintBlocks | src/services/printService.js:320-332 | blocks are printed in order until the first failure, and the result is the last one printed |
| PrintService.AllSentWhenOk | src/services/printService.js:321-332 | a successful run sent every block, each successfully |
| PrintService.PrintReportText | src/services/printService.js:306-333 | a blank report fails with "Texto do relatório vazio." and sends nothing; otherwise the lines are paged and printed until the first failure |
| PrintService.StripLines | src/services/printService.js:322-324 | the printed blocks, read in sequence, are the report's lines with the separator after every block but the last |
| Relatorio.RawQtd | src/pages/Relatorio.jsx:17 | an item without any quantity field has quantity 0 |
| Relatorio.RawUnitario | src/pages/Relatorio.jsx:18 | an item without any price field has unit price 0 |
| Relatorio.RawNome | src/pages/Relatorio.jsx:21 | the first name field that is not nullish, "" when there is none |
| Relatorio.ItemDe | src/pages/Relatorio.jsx:19-27 | the name, quantity and price read; the subtotal is the stated one when it is a finite number, quantity times price when missing, 0 when it is not a number; a missing keg size is null |
| Relatorio.ExtrairItensVenda | src/pages/Relatorio.jsx:12-29 | one item per element of the sale's list, in order, and none when the list is not an array |
| Relatorio.Somar | src/pages/Relatorio.jsx:58 | an item without a name leaves the rows alone |
| Relatorio.Agrupar | src/pages/Relatorio.jsx:54-73 | at most one row per item, and no rows when no item has a name |
| Relatorio.AgruparSummarizes | src/pages/Relatorio.jsx:54-73 | one row per key, a row for every named item's key, each with the quantity and total of the named items with that key and the latest non-zero unit price |
| Relatorio.AgruparKeepsTotal | src/pages/Relatorio.jsx:54-73 | the row totals add up to the subtotals of the named items |
| Relatorio.SomarItem | src/pages/Relatorio.jsx:58-71 | the Map update for one item is the grouping step |
| Relatorio.SomarItens | src/pages/Relatorio.jsx:57-72 | the inner loop folds one sale's items into the rows |
| Relatorio.AgruparVendas | src/pages/Relatorio.jsx:54-73 | the loops build the grouping of all the event's items |
| Relatorio.NomeComLitros | src/pages/Relatorio.jsx:76-84 | a row without a keg size keeps its name; a keg row keeps a name that already carries its tag and gets " <litros>L" appended otherwise |
| Relatorio.TaggedNameHasTag | src/pages/Relatorio.jsx:78-82 | the appended tag is one the pattern finds |
| Relatorio.NomeComLitrosIdempotent | src/pages/Relatorio.jsx:76-84 | after one pass a keg row carries its tag, so a second pass changes nothing |
| Relatorio.VendasEvento | src/pages/Relatorio.jsx:46-51 | exactly the sales that match the event by id or by normalised name |
| Relatorio.MetaEvento | src/pages/Relatorio.jsx:38-41 | null without an event name, without a list of records, or when no record has the event's normalised name; otherwise the first record with that name, or null when that record is itself falsy |
| Relatorio.ResumoCalculado | src/pages/Relatorio.jsx:76-105 | the computed rows, one per grouped row; the total sold is the sum of the named items' subtotals, the sangrias total their values, and the cash balance is the opening plus the total sold minus the sangrias |
| Relatorio.RelatorioDe | src/pages/Relatorio.jsx:43-105 | with a recorded close the stored rows are shown; otherwise the computed rows, with the total sold the sum of the event's named item subtotals |
| Relatorio.TotaisCalculados | src/pages/Relatorio.jsx:87-105 | without a recorded close the total sold is the sum of the grouped subtotals, the overall total adds the opening amount and the balance subtracts the withdrawals |
| Relatorio.LinhasCalculadas | src/pages/Relatorio.jsx:76-86 | without a recorded close the rows are the grouped ones, each with its litre tag |
| Relatorio.FechamentoPrevalece | src/pages/Relatorio.jsx:85-106 | with a recorded close the report shows the stored rows and figures, whatever the sales and the open box |
| Venda.CartState.constructor | src/pages/Venda.jsx:65-67 | the screen starts with an empty cart, nothing received and payment in cash |
| App.Navigator.constructor | src/app/App.jsx:54-57 | navigation starts on the evento tab and stage, with no history and no notice |
| App.ProdutosSync.constructor | src/app/App.jsx:419 | a mounted sync loop starts not cancelled |
| App.ProdutosSync.Cleanup | src/app/App.jsx:446-448 | the effect's cleanup cancels the loop |
| Connectivity.RateLimiter.constructor | src/net/connectivity.js:48-49 | a limiter starts with its window and maximum and no hits recorded |
| Connectivity.MasterServer.constructor | src/net/connectivity.js:206-207 | a master server starts with the default limiter (10000 ms, 30 requests) and no known clients |

## Left out

- Network transport: `postJson` with its fetch, abort controller and 8-second timeout; `resolveServerAdapter`; `isNativePlatform`; `getLocalIp`. Each post's outcome, whether an adapter is available, the platform check, and whether the adapter's start resolves are passed in as parameters; a start that rejects is modelled by `PdvServer.PdvHost.StartPdvServer` and `Connectivity.MasterHost.StartMasterServer` as a failed start with no server recorded.
- TicketBuilder.TicketItems: when the first item key that is set holds a value other than an array (a string, a number, a boolean or an object), `itensRaw.map` throws in buildTicketText and buildTicketsPerItem (src/print/ticketBuilder.js:65 and 102); the model reads such a sale as having no items, so it yields a ticket without items where the code fails.
- src/net/pdvClient.js and src/net/pdvLocalIp.js are not part of this model; they cover the URL parser, fetch and the platform IP lookup.
- Timers: the `setInterval` scheduling of the flush and sync ticks, their overlap, and the pause between printed report blocks. One tick is one sequential method call.
- src/storage/storage.js and src/storage/keys.js are not part of this model. loadJSON and saveJSON are a map field of `Storage.Store`, and the key names are symbolic constants assumed distinct.
- JSON.parse and JSON.stringify: stored values are read back as themselves, and a malformed body or stored config is a parameter outcome.
- Randomness: `crypto.randomUUID`, `Math.random`, `mkId`, `uid` and the movement id generator are parameters.
- Clock: `Date.now()` and `new Date().toISOString()` are parameters, and timestamps are integers. Date parsing is a parameter function.
- Locale formatting: `fmtBRL`, `toLocaleString`, `toFixed`, `toBRDate` and `formatDateTime` are parameters, or left out where they only build screen text.
- `getOrCreateDeviceId` (src/state/pdvStore.js:9-16): it only reads or stores a random id, and the device id is a parameter everywhere else.
- Money is an exact `real`, not an IEEE double, so rounding of binary fractions is not modelled. The infinities are folded into NaN.
- `String.prototype.localeCompare` is code-point order. Case mapping covers only the one-to-one ASCII and Latin-1 letters. Strings are sequences of code points, not UTF-16 units.
- `Array.prototype.sort` is modelled as a stable insertion sort under the comparator, which the model proves is a total preorder. `Seqs.SortByStable` proves that elements tied under the comparator keep their input order, as ECMAScript requires of `sort`.
- Object identity: `===` on two objects compares their contents, and spreading a non-object adds nothing. `Number` of an array is NaN.
- Pos.TotalDoCarrinho: a truthy non-array cart is treated as empty, where the code's `reduce` would throw.
- Pos: a null cart line in `totalDoCarrinho` (src/domain/pos.js:4), a null sale or item in `exportarCSVVendas` (100-114) and a null sale or movement in the summaries (55-60, 71-75) make the code throw. The model reads the fields of null as undefined instead.
- Pos.ExportarCsvVendas: a sale whose `itens` is a string is read as having no items. The code's `for … of` (src/domain/pos.js:101) iterates the string's characters and writes one row of undefined fields per character.
- Pos.ExportarCsvVendas: only the CSV text is computed. The Blob, the object URL, the file name and the click that downloads it (src/domain/pos.js:122-134) are browser effects and are left out.
- JsValue.NumberToString: a number that is not whole is written with at most six decimals, not JavaScript's shortest round-trip form. Exponent notation for very large or small numbers is not produced.
- JsValue.ParseNumber: exponent literals, hexadecimal, binary and octal literals and "Infinity" are not recognised and read as NaN.
- App.Device: all summaries built in one flush tick share the one time and fresh id the tick is given, where the code takes a new time and a new id for each summary it builds.
- App: the 2.6-second timer that clears the tab notice (src/app/App.jsx:187-191) is left out. The notice stays until the next tab change sets it.
- Connectivity: the limiter's `Date.now()` (src/net/connectivity.js:51) and the one in a client's default id (263) are read as one clock value per request.
- PdvServer.ReadHeader: an element of a header array that is not an array is read as having no name and no value. The code destructures it instead: a string gives its characters, and null or a number throws.
- Relatorio.NomeComLitros: the litre-tag pattern is built from the litres text. The model reads a `.` in that text as the wildcard and every other character literally, so other metacharacters and a pattern that would not compile are not modelled. The case-insensitive flag is applied to the unit letter L only, not to letters in the litres text.
- Relatorio.Chave: Map keys are compared as values, structurally, rather than by JavaScript's SameValueZero. The two agree on the string and primitive names the code stores. As in the code, a plain name that reads `name::litres` shares its key with that keg.
- Caixa.Finalizar, Caixa.FinalizarCaixa: the closing snapshot `fechamento` (src/pages/Caixa.jsx:457-500, with `saldoDinheiroFinal`) is a parameter. Only its upsert into the closing records is modelled.
- Caixa: `buildRelatorioText` (src/pages/Caixa.jsx:167-244) and the on-screen `abrirCaixa` form (375-387) only build screen and print text. The totals they print are modelled.
- Evento.Historico: the history entries are a parameter. Which events get an entry (sold, open or closed, src/pages/Evento.jsx:254-276) is not computed, and neither are an entry's fields: its sales count, total and payment buckets (222-246) and its dates. Only the ordering of the entries, with the open event moved to the front, is modelled.
- Evento: the summary's first and last sale times are left out. `imprimirResumo` only prints.
- Evento.ConfirmarExcluir: clearing the pending deletion with `setEvExcluir(null)` (src/pages/Evento.jsx:574) is dialog state and is not modelled.
- EventoCaixa.CalcularCaixaDoEvento: the `abertoEm`/`encerradoEm` display fields and the first/last sale times (src/pages/Evento.jsx:344-348, 462-463) are not computed.
- Produtos: a null element of the product list makes `removerItem` and `toggleAtivo` throw (src/pages/Produtos.jsx:344, 347, 356). The model reads the fields of null as undefined instead.
- Produtos: the built-in product library lookup, `limparItensEvento`, and the shortcut pickers `escolherAtalho`/`limparTopo`, which are UI. Confirm dialogs are boolean parameters.
- PrintService: `printViaBrowser`, `toPlainText`, `normalizeText`, `wrapThermal58`, `printAndroidSelfTest`, `printReceiptHtml` and the diagnostics text; the driver calls and `isAndroidRuntime` are parameters.
- PrintService.PrintReportText: the `requires` admits only a lines-per-block setting that is a positive whole number, to keep the paging simple. A positive fraction also ends in the code, because `slice` truncates its bounds (src/services/printService.js:318), but it gives uneven blocks that the model does not describe. An infinite size gives one block in the code; the model folds it into NaN, so it reads as 42. A missing setting, 0 and NaN become 42 through `|| 42` (307), and the model computes that.
- PrintService.PrintReportText: a negative lines-per-block setting makes the paging loop at src/services/printService.js:318 run forever, since its index only decreases. The `requires` excludes that setting, so the model does not show the hang.
- Printer drivers: the Android Java plugins, src/utils/*, src/print/ticketBitmap.js and src/services/receiptTemplate58.js are not part of this model.
- React: rendering, styles, modals, `alert`/`confirm`, focus and scroll. `typeof window` checks and function-form state setters are parameters; the `useConfig` fallback outside a provider is left out.
- The CORS header values are kept as constant strings.
- The QR and manual join payload is not modelled: no file of the core implements it.
