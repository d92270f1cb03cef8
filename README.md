# Workshop manager: offline sync, data hook and the service and voucher pages

This Dafny project models the core of a motorcycle and bicycle workshop manager.

- **The synchroniser** (`SyncService`). One sequential pass replays the queue of pending operations against the backend. It drops an operation from the queue only after the backend accepted it, and it reports `{ success, processed, failed }`. The `online` listener starts a pass only when the queue is not empty.
- **The data hook** (`OfflineData.EntityCache`). This is the `useOfflineData` state (`data`, `loading`, `isOnline`) with `loadData`, `saveItem`, `deleteItem` and `getItem`, plus the online/offline handler. Saves merge the backend's answer into `data` by id. Deletes filter the id out. Both refuse to run offline.
- **The service-order page** (`Servicos`). It covers the status cycle, the WhatsApp thank-you link, the phone-field normaliser, form validation, the search and status filter, and the page state those handlers replace: save, edit, delete and thank.
- **The voucher and stock page** (`Vales`). It covers the low-stock list, the voucher search, the mechanic lookup, voucher submission through the data hook, and the stock list's add, edit and delete handlers, including the guard that refuses to delete an item a voucher names.

Supporting modules:

- `Lists` holds the list transforms the code applies to its entity arrays: `findIndex`, map-by-id, `filter`, delete-by-id and merge-by-id. It also holds their lemmas: distinct ids are preserved, other entries are untouched, saving is idempotent and the last write wins.
- `Text` holds the string operations: the digits of a string, `startsWith`, `includes`, ASCII `toLowerCase`, the blank test after `trim()`, and decimal `toString()` with its round trip.
- `Mecanicos` holds the mechanic lookup that both forms share.

Everything outside the program is an input:

- Connectivity (`navigator.onLine`) is the input `online`.
- The backend's verdict on the i-th send of a sync pass is `verdict(i)`.
- How each awaited backend call settled is a `Reply` (`Resolved(value)` or `Rejected`).
- Today's date and the clock reading used as a new service's id are parameters.

The queue store `src/services/offlineStorage.ts` is not part of this model. It is represented by the `PendingStore` class: an ordered sequence of operations keyed by distinct ids, whose read can fail. The hook modelled here is the remote-authoritative one in `src/hooks/useOfflineData.ts`: saves and deletes go straight to the backend and have no local queue.

## Model

| member | source | states |
|---|---|---|
| SyncService.PendingStore.GetPendingOperations | src/services/syncService.ts:40 | The queue read yields the whole queue in FIFO order, or fails when the store is unavailable. |
| SyncService.PendingStore.RemovePendingOperation | src/services/syncService.ts:59 | Removing an id deletes exactly the entries with that id and keeps the queue's ids distinct. |
| SyncService.SynchronizeData | src/services/syncService.ts:28-96 | Offline or on a read failure the result is (false, 0, 0) and the queue is untouched. An empty queue gives (true, 0, 0). Otherwise every snapshot operation is sent once, in order; the result is PassResult; the queue ends as the rejected operations in snapshot order. |
| SyncService.SendEach | src/services/syncService.ts:53-73 | The loop sends the operations in snapshot order and removes each accepted one. `processed` counts acceptances and `failed` counts the rest. Loop invariant: the queue is (rejected so far) followed by (not yet sent). |
| SyncService.PassResultAccounts | src/services/syncService.ts:46-90 | processed + failed equals the snapshot length; success holds iff failed is 0; the queue keeps exactly `failed` operations. |
| SyncService.KeptCount | src/services/syncService.ts:57-71 | The number of operations left queued after n sends is n minus the number accepted. |
| SyncService.KeptIsSubsequence | src/services/syncService.ts:53-68 | The operations left queued keep snapshot order and come from the snapshot. |
| SyncService.KeptExactlyRejected | src/services/syncService.ts:55-68 | With distinct ids, a snapshot operation stays queued if and only if its send was not accepted. |
| SyncService.SendStep | src/services/syncService.ts:55-68 | An accepted send removes exactly that operation from the queue; a rejected send leaves the queue as it was. |
| SyncService.AllAcceptedDrainsQueue | src/services/syncService.ts:76-90 | When every send is accepted, the queue ends empty and every operation counts as processed. |
| SyncService.HandleOnline | src/services/syncService.ts:100-111 | A pass runs if and only if the queue can be read and is not empty. If it runs, its report is returned; otherwise the queue is untouched. |
| Lists.FindIndex | src/hooks/useOfflineData.ts:54 | Yields the first position holding the key, or -1 exactly when no element has it. |
| Lists.MapWhere | src/pages/Servicos.tsx:226-228 | Keeps the length; each element with the key becomes f of itself and every other element is unchanged. |
| Lists.Filter | src/pages/Vales.tsx:296-298 | Keeps exactly the elements satisfying the predicate, in order (a subsequence of the input). Every accepted element keeps all its copies: its count in the result equals its count in the input. |
| Lists.RemoveKey | src/hooks/useOfflineData.ts:94 | No element with the key remains, and order is kept. Every element with another key remains with all its copies. |
| Lists.Upsert | src/hooks/useOfflineData.ts:53-62 | If the key is present, every element with it is replaced and the length is unchanged; otherwise the item is appended. |
| Lists.RemoveKeyDistinct | src/hooks/useOfflineData.ts:94 | With distinct keys, deleting a key removes exactly the one element holding it. |
| Lists.UpsertKeepsDistinct | src/hooks/useOfflineData.ts:53-62 | The merge preserves distinct ids, and afterwards the saved item is the one element with its id. |
| Lists.UpsertKeepsOthers | src/hooks/useOfflineData.ts:53-62 | The merge leaves every element with another id where it was. |
| Lists.UpsertIdempotent | src/hooks/useOfflineData.ts:53-62 | Saving the same item twice is the same as saving it once. |
| Lists.UpsertLastWriteWins | src/hooks/useOfflineData.ts:53-62 | A second save under the same id fully replaces the first. |
| Lists.FilterConcat | src/pages/Vales.tsx:296-298 | Filtering a concatenation is concatenating the filtered parts. |
| Lists.FilterKeepsAll | src/pages/Servicos.tsx:371-380 | A filter that accepts every element returns the list unchanged. |
| Lists.FilterRejectsAll | src/pages/Vales.tsx:296-298 | A filter that accepts no element returns the empty list. |
| Lists.RemoveKeyAllMatching | src/hooks/useOfflineData.ts:94 | Deleting a key that every element holds leaves the empty list. |
| Lists.RemoveKeyBetween | src/hooks/useOfflineData.ts:94 | With distinct keys, deleting the key of an element between two segments leaves the two segments joined. |
| Lists.FilterDropsRejected | src/pages/Servicos.tsx:115-118 | A filter that rejects some element returns a strictly shorter list. |
| OfflineData.EntityCache.constructor | src/hooks/useOfflineData.ts:16-18 | The hook starts with no data, loading, and `isOnline` as the platform reports it. |
| OfflineData.EntityCache.LoadData | src/hooks/useOfflineData.ts:21-37 | On success the fetched list replaces `data` and is returned. On failure `data` is kept and [] is returned. `loading` ends false either way. |
| OfflineData.EntityCache.SaveItem | src/hooks/useOfflineData.ts:40-78 | Offline it throws and `data` is unchanged. A backend failure rethrows with `data` unchanged. On success `data` becomes the merge by id of the saved item and the saved item is returned. Distinct ids are preserved. |
| OfflineData.EntityCache.DeleteItem | src/hooks/useOfflineData.ts:81-108 | Offline or on a backend failure it throws and `data` is unchanged. On success every entry with the id is dropped and the rest keep their order. `permanent` has no effect. |
| OfflineData.EntityCache.GetItem | src/hooks/useOfflineData.ts:111-122 | Never throws: a failed lookup yields null, otherwise the backend's answer. |
| OfflineData.EntityCache.HandleOnlineStatus | src/hooks/useOfflineData.ts:145-151 | Records the new status. Back online it reloads, as LoadData states. Going offline leaves `data` and `loading` alone. |
| OfflineData.SaveMergeProperties | src/hooks/useOfflineData.ts:53-62 | With distinct ids, a save keeps ids distinct, contains the saved item, leaves the other entries unchanged, and is idempotent. |
| OfflineData.DeleteRemovesOne | src/hooks/useOfflineData.ts:94 | With distinct ids, deleting an entry's id removes exactly that entry and shortens `data` by one. |
| Mecanicos.NomeDoMecanico | src/pages/Vales.tsx:115-122 | Gives the name of the first mechanic with the id, or "" when none has it. |
| Mecanicos.NomeDoMecanicoUnique | src/pages/Servicos.tsx:203-210 | With distinct ids, the name found belongs to the one mechanic holding the id. |
| Text.Digits | src/pages/Servicos.tsx:115 | Gives the digits of the string in order, and all of them: each digit occurs as often as in the input. |
| Text.DigitsOfDigitString | src/pages/Servicos.tsx:115 | A string of digits is its own digit string. |
| Text.Lower | src/pages/Servicos.tsx:372-375 | `toLowerCase` keeps the length, leaves no upper-case ASCII letter, maps each upper-case letter to its lower-case one, and keeps every other character. |
| Text.LowerIdempotent | src/pages/Vales.tsx:84-86 | Lower-casing twice is lower-casing once. |
| Text.Includes | src/pages/Servicos.tsx:372-375 | A string includes each of its prefixes; a string that includes `sub` is at least as long as `sub`. |
| Text.TrimShape | src/pages/Servicos.tsx:249-257 | `trim()` leaves a slice of the string with no whitespace at either end. |
| Text.TrimStartEmpty | src/pages/Servicos.tsx:249-257 | Dropping the leading whitespace leaves nothing exactly when the string is all whitespace. |
| Text.TrimEndEmpty | src/pages/Servicos.tsx:249-257 | Dropping the trailing whitespace leaves nothing exactly when the string is all whitespace. |
| Text.IsBlankAllWhitespace | src/pages/Servicos.tsx:249-257 | `!s.trim()` holds exactly when the string is empty or all whitespace. |
| Text.IncludesAt | src/pages/Servicos.tsx:372-375 | `includes` holds exactly when the substring occurs at some position. |
| Text.NatToString | src/pages/Vales.tsx:243 | The decimal string of a natural number is a non-empty string of digits. |
| Text.NatToStringRoundTrip | src/pages/Vales.tsx:243 | Reading back the decimal string of n gives n. |
| Text.NatToStringInjective | src/pages/Vales.tsx:243 | Distinct numbers have distinct decimal strings. |
| Servicos.ProximoStatus | src/pages/Servicos.tsx:213-223 | The next status always differs from the current one. |
| Servicos.StatusCycle | src/pages/Servicos.tsx:216-223 | Three toggles restore the original status and two do not: the cycle has period three. |
| Servicos.GerarLinkWhatsApp | src/pages/Servicos.tsx:113-125 | No link exactly when the phone does not have 11 digits. Otherwise the link is `https://wa.me/55`, then the 11 digits, then `?text=` and the message. |
| Servicos.LinkOfDigitPhone | src/pages/Servicos.tsx:115-124 | A phone written as 11 digits goes into the link unchanged. |
| Servicos.AcceptedPhoneWithoutLink | src/pages/Servicos.tsx:113-119 | A phone the form accepts (11 characters starting with 699) that contains a non-digit gets no link. |
| Servicos.NormalizarTelefone | src/pages/Servicos.tsx:177-196 | The step-by-step phone normaliser computes "699" followed by the typed characters at positions 3 to 10. |
| Servicos.TelefoneNormalizadoShape | src/pages/Servicos.tsx:180-195 | The phone field always starts with 699. Its length is 3 for input shorter than 3, else min(length, 11). It keeps the typed characters from position 3. |
| Servicos.TelefoneNormalizadoIdempotent | src/pages/Servicos.tsx:180-195 | Normalising twice is normalising once. |
| Servicos.AcceptedPhoneIsFixed | src/pages/Servicos.tsx:269-274 | Every phone the validator accepts is left unchanged by the normaliser. |
| Servicos.ErrosDoFormulario | src/pages/Servicos.tsx:247-275 | cliente, veiculo and descricao get an error exactly when blank after trimming. mecanicoId gets one exactly when empty, and valor exactly when <= 0. telefone gets one exactly when it is not 11 long and starting with 699. Each simple field carries its own message. |
| Servicos.ValidacaoCorreta | src/pages/Servicos.tsx:246-278 | The form has no errors if and only if cliente, veiculo and descricao are not blank, a mechanic is chosen, valor > 0, and the phone has length 11 and starts with 699. |
| Servicos.ErroDeTelefone | src/pages/Servicos.tsx:269-274 | A wrong length is reported instead of a wrong prefix; a good phone has no error. |
| Servicos.ServicosFiltrados | src/pages/Servicos.tsx:371-380 | Keeps exactly the services matching the search in cliente, veiculo or descricao and the status filter, in list order, each with all its copies. "todos" with an empty search gives the whole list. |
| Servicos.EditarPreservaIds | src/pages/Servicos.tsx:288-291 | Saving an edit keeps the list's ids distinct. |
| Servicos.ServicosPage.constructor | src/pages/Servicos.tsx:129-157 | The page starts with the given lists, the reset form, no errors, nothing being edited and the dialog closed. |
| Servicos.ServicosPage.HandleTelefoneChange | src/pages/Servicos.tsx:177-196 | Only the phone field changes, to the normalised input. |
| Servicos.ServicosPage.HandleMecanicoChange | src/pages/Servicos.tsx:203-210 | The form gets the chosen id and the first matching mechanic's name, or "". |
| Servicos.ServicosPage.AlternarStatus | src/pages/Servicos.tsx:213-230 | Every entry with the service's id gets the next status and nothing else changes. |
| Servicos.ServicosPage.ValidarFormulario | src/pages/Servicos.tsx:246-278 | Records the per-field error messages and returns whether the form is valid. |
| Servicos.ServicosPage.SalvarServico | src/pages/Servicos.tsx:281-308 | An invalid form leaves the list, form and dialog unchanged and records the errors. An edit replaces the entries with the edited id, keeping id and length. A new service is appended with the given id and an un-thanked client. Then the dialog closes and the form resets. |
| Servicos.ServicosPage.ExcluirServico | src/pages/Servicos.tsx:312-317 | Once confirmed, every entry with the id is removed and the rest keep their order; otherwise nothing changes. |
| Servicos.ServicosPage.AgradecerCliente | src/pages/Servicos.tsx:353-368 | Only when a link exists are the entries with that id marked thanked and the link opened; otherwise the list is unchanged. |
| Servicos.ServicosPage.AbrirEdicao | src/pages/Servicos.tsx:320-327 | The service becomes the one being edited, the form holds its fields, and the dialog opens. |
| Servicos.ServicosPage.AbrirNovoServico | src/pages/Servicos.tsx:330-334 | Nothing is being edited, the form and errors reset, and the dialog opens. |
| Vales.ItensComEstoqueBaixo | src/pages/Vales.tsx:296-298 | Keeps exactly the items with quantidade <= estoqueMinimo, in stock order, each with all its copies. |
| Vales.MockEstoqueSemAlerta | src/pages/Vales.tsx:37-44 | The initial stock has no low-stock item. |
| Vales.ValesFiltrados | src/pages/Vales.tsx:81-91 | An empty term shows every voucher. Otherwise the vouchers whose mechanic name or description contains the term are shown, in order, each with all its copies. |
| Vales.EmptyTermMatchesAll | src/pages/Vales.tsx:82-90 | Every voucher matches the empty term, so the effect's separate empty-term branch agrees with its filter. |
| Vales.IdAsWritten | src/pages/Vales.tsx:243 | The page's new stock id is a decimal numeral, namely length + 1. |
| Vales.AsWrittenIdCollides | src/pages/Vales.tsx:240-248 | After item "1" is deleted from items "1" and "2", the next new item would get id "2", which is already taken. |
| Vales.MaxNumericId | src/pages/Vales.tsx:243 | Bounds every id that is a decimal numeral. |
| Vales.NextStockId | src/pages/Vales.tsx:243 | The corrected new stock id is a numeral that no existing item has. |
| Vales.NextStockIdOnDenseIds | src/pages/Vales.tsx:240-248 | While the ids are "1".."n" in order, the corrected id equals the page's length + 1. |
| Vales.MockEstoqueIsDense | src/pages/Vales.tsx:37-44 | The initial stock's ids are "1".."6" in order. |
| Vales.ExclusaoBloqueada | src/pages/Vales.tsx:269-272 | The delete is refused exactly when some item has the id, no earlier item has it, and a voucher's description equals that item's name. |
| Vales.DuplicateIdsDefeatGuard | src/pages/Vales.tsx:269-277 | With items "A" and "B" both under id "2" and a voucher describing "B", the delete is not refused and removes both items. |
| Vales.DeleteKeepsUsedItems | src/pages/Vales.tsx:267-279 | With distinct ids, a stock delete that is not refused never removes an item some voucher names. |
| Vales.ValesPage.constructor | src/pages/Vales.tsx:46-74 | The page starts with the initial stock, no search, both dialogs closed, nothing being edited and reset forms. |
| Vales.ValesPage.HandleSearch | src/pages/Vales.tsx:93-96 | The search term becomes the typed text. |
| Vales.ValesPage.HandleMecanicoChange | src/pages/Vales.tsx:115-122 | The voucher form gets the chosen id and the first matching mechanic's name, or "". |
| Vales.ValesPage.HandleOpenValeDialog | src/pages/Vales.tsx:156-172 | Editing loads the voucher's fields; a new voucher gets the reset form. The dialog opens. |
| Vales.ValesPage.HandleOpenEstoqueDialog | src/pages/Vales.tsx:174-188 | Editing loads the item's fields; a new item gets the reset form. The dialog opens. |
| Vales.ValesPage.HandleSubmitVale | src/pages/Vales.tsx:190-220 | No mechanic or valor <= 0 issues no save and changes nothing. Otherwise the form is saved under the edited id, or none for a new voucher. On success the vouchers are merged with the saved one, the dialog closes and the form resets; on failure they stay. |
| Vales.ValesPage.HandleDeleteVale | src/pages/Vales.tsx:255-265 | Once confirmed, a successful delete drops the voucher's id from the vouchers; otherwise they are unchanged. |
| Vales.ValesPage.HandleSubmitEstoque | src/pages/Vales.tsx:222-253 | An empty nome or valorUnitario <= 0 changes nothing. An edit rewrites the entries with the edited id, keeping id and length. A new item is appended under a fresh id. Distinct ids are preserved. |
| Vales.ValesPage.HandleDeleteEstoque | src/pages/Vales.tsx:267-281 | Once confirmed, the delete is refused exactly when the first item with the id is named by some voucher's description. Otherwise every item with the id is dropped and order is kept. |

## Left out

- Toasts, console logging, `window.open`, `window.confirm` (an input `confirmado`), event-listener registration and the realtime channel subscription are not modelled; only the state changes they surround are.
- `sendToApi`'s random verdict and simulated delay are the input `verdict`; a send that throws is treated like a rejected one, as the code counts both as failed.
- SyncService.SynchronizeData: assumes `removePendingOperation` does not throw after an accepted send. If it did, the code would count that operation as failed while the backend had applied it.
- The operation payload (`data`) is not modelled because the pass never inspects it.
- The `offlineStorage` queue store is an abstract ordered sequence; persistence is not modelled.
- `supabaseService` is only the settled `Reply` of each call; insert-versus-update by id and the not-found-to-null mapping are inside the backend's answer.
- Concurrent sync passes, stale-load cancellation and `pendingCount`/`syncNow` are absent from the code and are not modelled.
- Text.Lower: `toLowerCase` is modelled on ASCII letters only; other Unicode case mappings are not.
- Servicos.GerarLinkWhatsApp: the fixed message body and `encodeURIComponent` of the mechanic's name (section 2.1 of RFC 3986) are abstracted into the input `mensagem`.
- Currency inputs: `parseFloat` of the typed amount and locale formatting are not modelled; amounts are reals.
- `Date.now()` (the id of a new service) and today's date are parameters.
- An absent `clienteAgradecido`, `mecanicoNome` or voucher id reads as false or "".
- Servicos.NormalizarTelefone, Servicos.ErrosDoFormulario, Text.IsBlank: strings are sequences of characters, while JavaScript's `length` counts UTF-16 code units. The lengths at src/pages/Servicos.tsx:182-188 and 270 differ from the model for characters outside the Basic Multilingual Plane. For example, "699123456😀" has length 11 in JavaScript and passes the length check, but it has 10 characters here and is rejected.
- Vales.ValesFiltrados: a voucher's `descricao` is `string | null` in the generated database types (src/integrations/supabase/types.ts:99). On a null description, `vale.descricao.toLowerCase()` at src/pages/Vales.tsx:85 throws a TypeError. The model uses a plain string, so this crash is not captured.
- OfflineData.EntityCache.HandleOnlineStatus: the reload is modelled as finishing within the handler. At src/hooks/useOfflineData.ts:149 `loadData()` is not awaited, so other handlers can run before its state updates land.
- SyncService.SendEach: each await is modelled as atomic. The model assumes nothing is queued between the snapshot read (src/services/syncService.ts:40) and the awaits at lines 55 and 59. An operation queued meanwhile stays in the store untouched by the pass; that interleaving is not modelled.
- Vales.ValesPage.HandleSubmitEstoque: a new item uses the corrected id NextStockId, not the code's length + 1 (see Findings).
- The Servicos and Vales pages are not modelled as rendered components; the derived filtered lists are functions of the page state.

## Findings

| source | as written | input that shows it | evidently intended | confidence | as-written member | corrected member |
|---|---|---|---|---|---|---|
| src/pages/Vales.tsx:243 | A new stock item's id is `(estoque.length + 1).toString()`. | Stock with items "1" and "2": delete "1", then add an item. The new item gets id "2", which the remaining item already has. Edits and deletes by id then hit both items. The delete guard at lines 269-272 checks only the first item with the id: with items "A" and "B" both under id "2" and a voucher describing "B", the delete is not refused and removes both (Vales.DuplicateIdsDefeatGuard). | A new item's id is one that no existing item has. | not executed | Vales.AsWrittenIdCollides | Vales.NextStockId |
