# Monthly budget editors — a Dafny model

This project models the client-side draft-state machines of the three editors
of a monthly budgeting front end:

- the **spending-item editor** (`ItemsSection`) — a table of one month's spending
  items with an add form and inline row editing;
- the **income editor** (`IncomeSection`) — the same pattern over income entries
  (label and amount);
- the **retirement-savings card** (`RetirementSavingsCard`) — one account-wide
  amount that is shown or edited.

Each component is modelled as a pure transition system. The React hook
variables form an immutable `State` record. The props form a `Props` record.
Every editing affordance (button, input, select) is an `Event`, and a predicate
`Available` says which affordances are on screen in a given state. A handler
returns a `Step`: the new state plus the effects it emitted, in order. An
effect is either a request to the budget API (`Api(call)`) or one invocation
of the parent's `onUpdate` refresh callback (`Refresh`). `Run` folds a session
of events over a fixed set of props. It returns `None` if an event clicks an
affordance that is not rendered at that point.

The JavaScript runtime is abstract (`js.dfy`). `parseFloat`, `parseInt` and
`toString` are uninterpreted functions carried in a `Runtime` record, and
`parseFloat` yields `None` where JavaScript yields NaN. String truthiness means
"non-empty", so `"0"` passes the required-field guards. Handlers that reset the
date take the current date, `today`, as a parameter.

Modules: `Js` (`js.dfy`), `Effects` (`effects.dfy`), `ItemsSection`
(`items_section.dfy`), `IncomeSection` (`income_section.dfy`) and
`RetirementSavingsCard` (`retirement_savings_card.dfy`).

The model follows the code as written. Four behaviours of the code are worth
knowing:

- **Adding and editing can be open at the same time.** Nothing in the code
  makes the two modes exclusive. "+" checks only `!isAdding`
  (IncomeSection.tsx:76, ItemsSection.tsx:102). The pencil checks only
  `!isReadOnly` (IncomeSection.tsx:128, ItemsSection.tsx:268). Both modes share
  one set of draft fields. `AddingWhileEditingReachable` (in both editors)
  shows the mixed state is reachable from mount.
  `IncomeSection.SharedDraftAddCopiesEditedEntry` shows what follows. The add
  form's tick submits the shared draft as a new entry: the edited entry's
  label and its amount printed and parsed again. The edited row stays open
  with an emptied draft.
- **The income handlers reset different fields.** A successful income add
  clears the draft and `isAdding` but leaves `editingId` as it was
  (IncomeSection.tsx:28-30). A successful update clears the draft and
  `editingId` but leaves `isAdding` as it was (IncomeSection.tsx:37-39).
- **The amount is not checked for NaN.** The item and income handlers send
  `parseFloat(amount)` without testing for NaN (ItemsSection.tsx:39,
  IncomeSection.tsx:27). The request payloads therefore carry an
  `Option<real>` that can be `None`.
- **A fetch overwrites the amount during an edit.** A retirement-amount fetch
  that lands while the editor is open replaces the shown amount
  (RetirementSavingsCard.tsx:18). It does not touch the editor, and a later
  save overwrites the fetched value (`FetchDuringEditIsOverwritten`).

## Model

| member | source | states |
|---|---|---|
| `ItemsSection.Init` | frontend/src/components/ItemsSection.tsx:27-32 | on mount neither form is open, `editingId` is null, the draft is empty and the date is today |
| `ItemsSection.Available` | frontend/src/components/ItemsSection.tsx:102-285 | which affordances are rendered; in a read-only month no "+", pencil or bin; the add form's Add and Cancel only with at least one category; the notice's Close only with none |
| `ItemsSection.SpendingItems` | frontend/src/components/ItemsSection.tsx:84 | the table rows are exactly the items tagged `"none"`, never more rows than items |
| `ItemsSection.SpendingItemsAppend` | frontend/src/components/ItemsSection.tsx:84 | the filter distributes over concatenation, so kept rows stay in their original order |
| `ItemsSection.SpendingItemsIdempotent` | frontend/src/components/ItemsSection.tsx:84 | filtering the filtered list removes nothing more |
| `ItemsSection.ResetForm` | frontend/src/components/ItemsSection.tsx:74-81 | after a reset no form is open, `editingId` is null, the draft is empty and the date is today |
| `ItemsSection.ResetIsInit` | frontend/src/components/ItemsSection.tsx:27-81 | a reset from any state yields the mount state of the same day, and resetting twice equals resetting once |
| `ItemsSection.HandleAdd` | frontend/src/components/ItemsSection.tsx:35-46 | an empty description, amount or category id yields no effect and no state change, and only then; otherwise exactly one create for the month carrying the draft, stamped `"none"`, then one refresh, and the editor is idle |
| `ItemsSection.HandleUpdate` | frontend/src/components/ItemsSection.tsx:48-59 | the same guard; otherwise exactly one update of the given id carrying the draft, stamped `"none"`, then one refresh, and the editor is idle |
| `ItemsSection.HandleDelete` | frontend/src/components/ItemsSection.tsx:61-64 | one delete of the given id in the month, then one refresh; the state is unchanged |
| `ItemsSection.StartEdit` | frontend/src/components/ItemsSection.tsx:66-72 | `editingId` becomes the item's id; description, printed amount, printed category id and date are copied into the draft; `isAdding` is unchanged |
| `ItemsSection.OpenAddForm` | frontend/src/components/ItemsSection.tsx:102-109 | "+" opens the add form and sets the category to the first category's id only when there is one; otherwise the category and every other draft field are unchanged |
| `ItemsSection.Dispatch` | frontend/src/components/ItemsSection.tsx:102-285 | any click issues at most one request and exactly as many refreshes as requests, every request body is stamped `"none"`, and no rendered click creates an item when there are no categories |
| `ItemsSection.Run` | frontend/src/components/ItemsSection.tsx:102-285 | over any session on rendered affordances, refreshes equal requests, every body is stamped `"none"`, and with no categories no create is ever issued |
| `ItemsSection.LeavingAFormSendsNothing` | frontend/src/components/ItemsSection.tsx:117-247 | add-form Cancel, notice Close and the edited row's cross send nothing and return to the mount state |
| `ItemsSection.NoCategoriesOffersOnlyClose` | frontend/src/components/ItemsSection.tsx:117-170 | with no categories an open add form offers no inputs and no Add or Cancel button, only a Close that returns to mount |
| `ItemsSection.ReadOnlyIdleIsFrozen` | frontend/src/components/ItemsSection.tsx:102-285 | in a read-only month an editor that is neither adding nor editing renders nothing clickable: no "+", pencil, bin or form |
| `ItemsSection.RowActionsOnlyOnSpending` | frontend/src/components/ItemsSection.tsx:192-285 | pencil, bin and tick act only on listed items tagged `"none"` |
| `ItemsSection.EditThenSaveResendsItem` | frontend/src/components/ItemsSection.tsx:48-72 | opening a row with a non-empty description and saving it untouched sends that item back unchanged, when number printing and parsing round-trip on it |
| `ItemsSection.AddingWhileEditingReachable` | frontend/src/components/ItemsSection.tsx:102-285 | from mount, "+" and then a row's pencil reach a state that is adding and editing at once, with no request sent |
| `IncomeSection.Init` | frontend/src/components/IncomeSection.tsx:19-22 | on mount neither mode is open and the draft is empty |
| `IncomeSection.OpenAddForm` | frontend/src/components/IncomeSection.tsx:78 | "+" opens the add form; `editingId` and the draft are unchanged |
| `IncomeSection.Available` | frontend/src/components/IncomeSection.tsx:76-150 | which affordances are rendered; in a read-only month no "+", pencil or bin; "+" only while the add form is closed; row actions only on listed entries |
| `IncomeSection.HandleAdd` | frontend/src/components/IncomeSection.tsx:25-32 | an empty label or amount yields no effect and no change, and only then; otherwise one create with label and parsed amount, then one refresh, with the draft emptied, the add form closed and `editingId` unchanged |
| `IncomeSection.HandleUpdate` | frontend/src/components/IncomeSection.tsx:34-41 | the same guard; otherwise one update of the given id, then one refresh, with the draft emptied, `editingId` null and `isAdding` unchanged |
| `IncomeSection.HandleDelete` | frontend/src/components/IncomeSection.tsx:43-46 | one delete of the given id in the month, then one refresh; the state is unchanged |
| `IncomeSection.StartEdit` | frontend/src/components/IncomeSection.tsx:48-52 | `editingId` becomes the entry's id, its label and printed amount become the draft, and `isAdding` is unchanged |
| `IncomeSection.CancelEdit` | frontend/src/components/IncomeSection.tsx:54-59 | cancel closes both modes and empties the draft |
| `IncomeSection.CancelIsInit` | frontend/src/components/IncomeSection.tsx:19-59 | both crosses send nothing and, from any state, yield the mount state, so cancel is idempotent |
| `IncomeSection.Dispatch` | frontend/src/components/IncomeSection.tsx:76-173 | any click issues at most one request and exactly as many refreshes as requests, and only add, save and bin clicks issue one |
| `IncomeSection.Run` | frontend/src/components/IncomeSection.tsx:25-46 | over any session, refreshes equal requests and there are no more requests than clicks |
| `IncomeSection.ReadOnlySessionNeverAddsOrDeletes` | frontend/src/components/IncomeSection.tsx:76-143 | in a read-only month with the add form closed, no session opens it; a session sends requests only if an entry was in edit mode when it began, and each is an update of that entry; edit mode is kept or left, never moved to another entry |
| `IncomeSection.ReadOnlyMountIsFrozen` | frontend/src/components/IncomeSection.tsx:76-174 | in a read-only month no session from mount emits anything or leaves the mount state |
| `IncomeSection.AddingWhileEditingReachable` | frontend/src/components/IncomeSection.tsx:76-143 | from mount, "+" and then an entry's pencil reach a state that is adding and editing at once, with that entry's label as the shared draft |
| `IncomeSection.SharedDraftAddCopiesEditedEntry` | frontend/src/components/IncomeSection.tsx:25-32 | in that mixed state the add tick creates an entry from the shared draft, that is the edited entry's label and its printed-then-parsed amount, an exact copy when printing and parsing round-trip; the entry stays in edit mode with an empty draft |
| `IncomeSection.EditThenSaveResendsEntry` | frontend/src/components/IncomeSection.tsx:34-52 | opening an entry with a non-empty label and saving it untouched sends that entry back unchanged, when printing and parsing its amount round-trips |
| `RetirementSavingsCard.Init` | frontend/src/components/RetirementSavingsCard.tsx:10-12 | on mount the amount is 0, the card is in display mode and the edit text is empty |
| `RetirementSavingsCard.Available` | frontend/src/components/RetirementSavingsCard.tsx:57-91 | the pencil is rendered only in display mode; the input, tick and cross only in edit mode |
| `RetirementSavingsCard.FetchResolvedWith` | frontend/src/components/RetirementSavingsCard.tsx:17-19 | a fetched amount replaces the shown amount; edit mode and the edit text are untouched |
| `RetirementSavingsCard.StartEdit` | frontend/src/components/RetirementSavingsCard.tsx:21-24 | the editor opens on the printed current amount, and the amount is unchanged |
| `RetirementSavingsCard.CancelEdit` | frontend/src/components/RetirementSavingsCard.tsx:26-29 | cancel closes the editor and clears its text; the amount is unchanged |
| `RetirementSavingsCard.SaveEdit` | frontend/src/components/RetirementSavingsCard.tsx:31-37 | text that parses to NaN yields no request and no change (the editor stays open), and only then; otherwise one update with the parsed value, no refresh, the value shown, the editor closed and its text kept |
| `RetirementSavingsCard.Dispatch` | frontend/src/components/RetirementSavingsCard.tsx:17-91 | any event issues at most one request and never a parent refresh, and a sent value is the value then shown |
| `RetirementSavingsCard.Run` | frontend/src/components/RetirementSavingsCard.tsx:10-37 | after any session the shown amount is the starting amount, a fetched amount or an amount the session sent |
| `RetirementSavingsCard.MountOffersPencilAndLoads` | frontend/src/components/RetirementSavingsCard.tsx:10-19 | on mount the card offers the pencil and no tick, and the mount effect requests the stored amount |
| `RetirementSavingsCard.EditThenSaveKeepsAmount` | frontend/src/components/RetirementSavingsCard.tsx:21-37 | opening the editor and saving untouched re-sends and keeps the shown amount, when printing and parsing round-trips |
| `RetirementSavingsCard.CancelIdempotent` | frontend/src/components/RetirementSavingsCard.tsx:26-29 | cancelling twice equals cancelling once, and cancel sends nothing |
| `RetirementSavingsCard.FetchDuringEditIsOverwritten` | frontend/src/components/RetirementSavingsCard.tsx:17-37 | a fetch landing during an edit keeps the editor open, and the next save replaces the fetched amount with the edited one |

## Left out

- Asynchrony: each handler completes atomically. Request ordering, races between in-flight requests and rejected promises are not modelled. A rejected request stops its handler before the reset in the source, and the model has no failing requests.
- Props changes: within a `Run` the props are fixed. The refetch that `onUpdate` triggers in the parent, and the new items, entries or categories it delivers, are not modelled as events.
- Retirement fetch: `FetchResolved` may arrive at any time. Which `Get` it answers, and whether one is pending, is not tracked.
- Number semantics: `parseFloat`, `parseInt` and `toString` are uninterpreted. JavaScript numbers are modelled as `real` and ids as `int`. Infinity, -0 and floating-point rounding are not represented.
- Dates: `new Date().toISOString().split("T")[0]`, the UTC calendar date, is the `today` parameter. `ItemsSection.Run` holds one `today` for the whole session, so a reset after the UTC date changes mid-session is not modelled.
- The category select: `ChooseCategory` sets the draft category to the printed id of a listed category. The select widget itself is not part of this model.
- Rendering: styling, `formatCurrency`, the empty-list notices and the info-modal open and close flags have no domain logic and are not modelled.
- The savings handlers of the backend (`backend/src/handlers/savings.rs`) are database plumbing with floating-point range checks; they are not part of this model.
- The presentation widgets (`ui/Button.tsx`, `ui/InfoButton.tsx`, `modals/InfoModal.tsx`) and the help modal (`modals/HowToUseModal.tsx`) are static presentation and are not part of this model.
