/** The spending-item editor of a month: a table of the month's plain
    spending items with an inline add form and inline row editing.

    The component's hook variables are the `State`; its props are `Props`;
    every rendered affordance (button, input, select) is an `Event`, and
    `Available` says which of them are on screen. Requests and the parent
    refresh a handler issues are returned as effects, in order. */
module ItemsSection {
  import opened Js
  import opened Effects

  /** The destination tag of an item that is plain spending, not a transfer. */
  const NoDestination: string := "none"

  // `labelText` is the source's `label`, a keyword here.
  datatype Category = Category(id: int, labelText: string)

  datatype Item = Item(
    id: int,
    description: string,
    amount: real,
    categoryId: int,
    spentOn: string,
    savingsDestination: string)

  /** The body of a create or update request; the amount and the category id
      are what `parseFloat` and `parseInt` made of the draft, NaN included. */
  datatype Payload = Payload(
    description: string,
    amount: Option<real>,
    categoryId: Option<int>,
    spentOn: string,
    savingsDestination: string)

  datatype Call =
    | Create(monthId: int, payload: Payload)
    | Update(monthId: int, id: int, payload: Payload)
    | Delete(monthId: int, id: int)

  datatype Props = Props(monthId: int, items: seq<Item>, categories: seq<Category>, isReadOnly: bool)

  /** `editingId == None` is `editingId === null`. The four text fields are the
      single draft shared by the add form and the edited row. */
  datatype State = State(
    isAdding: bool,
    editingId: Option<int>,
    description: string,
    amount: string,
    categoryId: string,
    spentOn: string)

  datatype Event =
    | ClickPlus                     // "+" in the header
    | ClickAdd                      // "Add" in the add form
    | ClickCancelAdd                // "Cancel" in the add form
    | ClickClose                    // "Close" in the no-categories notice
    | ClickEdit(item: Item)         // pencil in a table row
    | ClickDelete(item: Item)       // bin in a table row
    | ClickSave(item: Item)         // tick in the edited row
    | ClickCancelEdit               // cross in the edited row
    | EnterDescription(text: string)
    | EnterAmount(text: string)
    | ChooseCategory(category: Category)
    | EnterDate(text: string)

  /** A request body that carries the spending tag, or a delete (which has no body). */
  predicate Stamped(c: Call) {
    c.Delete? || c.payload.savingsDestination == NoDestination
  }

  /** `pl` carries the draft of `s` as the handlers convert it. */
  predicate Submits(pl: Payload, s: State, js: Runtime) {
    && pl.description == s.description
    && pl.amount == js.parseFloat(s.amount)
    && pl.categoryId == js.parseInt(s.categoryId)
    && pl.spentOn == s.spentOn
  }

  /** Neither form is open, the draft is empty and the date is back at today. */
  predicate Idle(s: State, today: string) {
    && !s.isAdding
    && s.editingId == None
    && s.description == ""
    && s.amount == ""
    && s.categoryId == ""
    && s.spentOn == today
  }

  /** The `useState` initial values; `today` is the UTC calendar date that
      `new Date().toISOString().split("T")[0]` gives. */
  function Init(today: string): (r: State)
    ensures Idle(r, today)
  {
    State(false, None, "", "", "", today)
  }

  /** The guard at the head of `handleAdd` and `handleUpdate`. */
  predicate DraftComplete(s: State) {
    Truthy(s.description) && Truthy(s.amount) && Truthy(s.categoryId)
  }

  function DraftPayload(s: State, js: Runtime): Payload {
    Payload(s.description, js.parseFloat(s.amount), js.parseInt(s.categoryId), s.spentOn, NoDestination)
  }

  /** The rows of the table: the items tagged as plain spending, in order. */
  function SpendingItems(items: seq<Item>): (r: seq<Item>)
    ensures |r| <= |items|
    ensures forall it :: it in r <==> it in items && it.savingsDestination == NoDestination
  {
    if items == [] then []
    else
      assert items == [items[0]] + items[1..];
      (if items[0].savingsDestination == NoDestination then [items[0]] else []) + SpendingItems(items[1..])
  }

  /** `resetForm`: the draft is emptied whatever it held. */
  function ResetForm(s: State, today: string): (r: State)
    ensures Idle(r, today)
  {
    State(false, None, "", "", "", today)
  }

  /** `handleAdd`: a guarded create stamped as plain spending, then a reset and a refresh. */
  function HandleAdd(s: State, p: Props, js: Runtime, today: string): (r: Step<State, Call>)
    ensures !DraftComplete(s) <==> r == Step(s, [])
    ensures DraftComplete(s) ==>
              && OneCallThenRefresh(r.effects)
              && Calls(r.effects)[0].Create?
              && Calls(r.effects)[0].monthId == p.monthId
              && Submits(Calls(r.effects)[0].payload, s, js)
              && Stamped(Calls(r.effects)[0])
              && Idle(r.state, today)
  {
    if !DraftComplete(s) then Step(s, [])
    else
      CallThenRefresh(Create(p.monthId, DraftPayload(s, js)));
      Step(ResetForm(s, today), [Api(Create(p.monthId, DraftPayload(s, js))), Refresh])
  }

  /** `handleUpdate(id)`: as `handleAdd`, with an update of `id` in place of the create. */
  function HandleUpdate(s: State, p: Props, js: Runtime, today: string, id: int): (r: Step<State, Call>)
    ensures !DraftComplete(s) <==> r == Step(s, [])
    ensures DraftComplete(s) ==>
              && OneCallThenRefresh(r.effects)
              && Calls(r.effects)[0].Update?
              && Calls(r.effects)[0].monthId == p.monthId
              && Calls(r.effects)[0].id == id
              && Submits(Calls(r.effects)[0].payload, s, js)
              && Stamped(Calls(r.effects)[0])
              && Idle(r.state, today)
  {
    if !DraftComplete(s) then Step(s, [])
    else
      CallThenRefresh(Update(p.monthId, id, DraftPayload(s, js)));
      Step(ResetForm(s, today), [Api(Update(p.monthId, id, DraftPayload(s, js))), Refresh])
  }

  /** `handleDelete(id)`: no guard, no draft change. */
  function HandleDelete(s: State, p: Props, id: int): (r: Step<State, Call>)
    ensures r.state == s
    ensures OneCallThenRefresh(r.effects) && Calls(r.effects) == [Delete(p.monthId, id)]
  {
    CallThenRefresh(Delete(p.monthId, id));
    Step(s, [Api(Delete(p.monthId, id)), Refresh])
  }

  /** `startEdit(item)`: the row's values become the draft; add mode is left as it was. */
  function StartEdit(s: State, js: Runtime, item: Item): (r: State)
    ensures r.editingId == Some(item.id)
    ensures r.isAdding == s.isAdding
    ensures r.description == item.description && r.spentOn == item.spentOn
    ensures r.amount == js.numberToString(item.amount)
    ensures r.categoryId == js.intToString(item.categoryId)
  {
    s.(editingId := Some(item.id),
       description := item.description,
       amount := js.numberToString(item.amount),
       categoryId := js.intToString(item.categoryId),
       spentOn := item.spentOn)
  }

  /** The "+" click handler: open the add form and preselect the first category, if any. */
  function OpenAddForm(s: State, p: Props, js: Runtime): (r: State)
    ensures r.isAdding
    ensures |p.categories| > 0 ==> r.categoryId == js.intToString(p.categories[0].id)
    ensures |p.categories| == 0 ==> r.categoryId == s.categoryId
    ensures r.editingId == s.editingId && r.description == s.description
    ensures r.amount == s.amount && r.spentOn == s.spentOn
  {
    var adding := s.(isAdding := true);
    if |p.categories| > 0 then adding.(categoryId := js.intToString(p.categories[0].id)) else adding
  }

  /** The add form with its inputs and its Add button is rendered. */
  predicate AddFormShown(s: State, p: Props) {
    s.isAdding && |p.categories| > 0
  }

  /** Some row of the table is rendered in edit mode. */
  predicate EditRowShown(s: State, p: Props) {
    exists it :: it in SpendingItems(p.items) && s.editingId == Some(it.id)
  }

  /** Which affordances are on screen. Rows come from `SpendingItems`; a row is in
      edit mode when its id is `editingId`, and otherwise shows the pencil and
      bin unless the month is read-only. The edited row's own buttons are not
      guarded by `isReadOnly`. */
  predicate Available(s: State, p: Props, e: Event)
    ensures Available(s, p, e) && p.isReadOnly ==> !e.ClickPlus? && !e.ClickEdit? && !e.ClickDelete?
    ensures Available(s, p, e) && (e.ClickAdd? || e.ClickCancelAdd?) ==> |p.categories| > 0
    ensures Available(s, p, e) && e.ClickClose? ==> |p.categories| == 0
  {
    match e
    case ClickPlus => !p.isReadOnly && !s.isAdding
    case ClickAdd => AddFormShown(s, p)
    case ClickCancelAdd => AddFormShown(s, p)
    case ClickClose => s.isAdding && |p.categories| == 0
    case ClickEdit(item) => !p.isReadOnly && item in SpendingItems(p.items) && s.editingId != Some(item.id)
    case ClickDelete(item) => !p.isReadOnly && item in SpendingItems(p.items) && s.editingId != Some(item.id)
    case ClickSave(item) => item in SpendingItems(p.items) && s.editingId == Some(item.id)
    case ClickCancelEdit => EditRowShown(s, p)
    case EnterDescription(_) => AddFormShown(s, p) || EditRowShown(s, p)
    case EnterAmount(_) => AddFormShown(s, p) || EditRowShown(s, p)
    case EnterDate(_) => AddFormShown(s, p) || EditRowShown(s, p)
    case ChooseCategory(c) => (AddFormShown(s, p) || EditRowShown(s, p)) && c in p.categories
  }

  /** The handler each affordance is wired to. */
  function Dispatch(s: State, p: Props, js: Runtime, today: string, e: Event): (r: Step<State, Call>)
    ensures RefreshCount(r.effects) == |Calls(r.effects)| <= 1
    ensures forall i :: 0 <= i < |Calls(r.effects)| ==> Stamped(Calls(r.effects)[i])
    ensures Available(s, p, e) && |p.categories| == 0 ==>
              forall i :: 0 <= i < |Calls(r.effects)| ==> !Calls(r.effects)[i].Create?
  {
    match e
    case ClickPlus => Step(OpenAddForm(s, p, js), [])
    case ClickAdd => HandleAdd(s, p, js, today)
    case ClickCancelAdd => Step(ResetForm(s, today), [])
    case ClickClose => Step(ResetForm(s, today), [])
    case ClickEdit(item) => Step(StartEdit(s, js, item), [])
    case ClickDelete(item) => HandleDelete(s, p, item.id)
    case ClickSave(item) => HandleUpdate(s, p, js, today, item.id)
    case ClickCancelEdit => Step(ResetForm(s, today), [])
    case EnterDescription(text) => Step(s.(description := text), [])
    case EnterAmount(text) => Step(s.(amount := text), [])
    case EnterDate(text) => Step(s.(spentOn := text), [])
    case ChooseCategory(c) => Step(s.(categoryId := js.intToString(c.id)), [])
  }

  /** A session of clicks on rendered affordances, the props held fixed; `None`
      when some event targets an affordance that is not on screen at that point. */
  function Run(s: State, p: Props, js: Runtime, today: string, events: seq<Event>): (r: Option<Step<State, Call>>)
    ensures r.Some? ==> RefreshCount(r.value.effects) == |Calls(r.value.effects)|
    ensures r.Some? ==> forall i :: 0 <= i < |Calls(r.value.effects)| ==> Stamped(Calls(r.value.effects)[i])
    ensures r.Some? && |p.categories| == 0 ==>
              forall i :: 0 <= i < |Calls(r.value.effects)| ==> !Calls(r.value.effects)[i].Create?
    decreases |events|
  {
    if events == [] then Some(Step(s, []))
    else if !Available(s, p, events[0]) then None
    else
      var first := Dispatch(s, p, js, today, events[0]);
      match Run(first.state, p, js, today, events[1..])
      case None => None
      case Some(rest) =>
        CallsAppend(first.effects, rest.effects);
        RefreshCountAppend(first.effects, rest.effects);
        Some(Step(rest.state, first.effects + rest.effects))
  }

  // ---------------------------------------------------------------------------
  // Properties relating several operations

  /** The filter distributes over concatenation: it keeps the relative order of
      the rows it keeps. */
  lemma {:induction false} SpendingItemsAppend(a: seq<Item>, b: seq<Item>)
    ensures SpendingItems(a + b) == SpendingItems(a) + SpendingItems(b)
    decreases |a|
  {
    if a == [] {
      assert a + b == b;
    } else {
      assert (a + b)[0] == a[0];
      assert (a + b)[1..] == a[1..] + b;
      SpendingItemsAppend(a[1..], b);
    }
  }

  /** Filtering the table a second time removes nothing. */
  lemma {:induction false} SpendingItemsIdempotent(items: seq<Item>)
    ensures SpendingItems(SpendingItems(items)) == SpendingItems(items)
    decreases |items|
  {
    if items != [] {
      var head := if items[0].savingsDestination == NoDestination then [items[0]] else [];
      SpendingItemsAppend(head, SpendingItems(items[1..]));
      SpendingItemsIdempotent(items[1..]);
    }
  }

  /** Every way of leaving a form goes back to the mount state of the same day. */
  lemma ResetIsInit(s: State, today: string)
    ensures ResetForm(s, today) == Init(today)
    ensures ResetForm(ResetForm(s, today), today) == ResetForm(s, today)
  {
  }

  /** The three ways out of a form (add-form Cancel, notice Close, edited-row
      cross) are all `resetForm`: they send nothing and return to mount. */
  lemma LeavingAFormSendsNothing(s: State, p: Props, js: Runtime, today: string, e: Event)
    requires e.ClickCancelAdd? || e.ClickClose? || e.ClickCancelEdit?
    ensures Dispatch(s, p, js, today, e) == Step(Init(today), [])
  {
  }

  /** With no categories, an open add form is only the notice: no inputs, no
      Add or Cancel button, and its Close goes back to mount. */
  lemma NoCategoriesOffersOnlyClose(s: State, p: Props, js: Runtime, today: string)
    requires s.isAdding && |p.categories| == 0 && !EditRowShown(s, p)
    ensures Available(s, p, ClickClose)
    ensures !Available(s, p, ClickAdd) && !Available(s, p, ClickCancelAdd)
    ensures forall text :: !Available(s, p, EnterDescription(text)) && !Available(s, p, EnterAmount(text))
    ensures forall text :: !Available(s, p, EnterDate(text))
    ensures forall c :: !Available(s, p, ChooseCategory(c))
    ensures Dispatch(s, p, js, today, ClickClose).state == Init(today)
  {
  }

  /** In a read-only month, an editor that is not adding and not editing offers
      nothing to click: no "+", no pencil, no bin, no form. */
  lemma ReadOnlyIdleIsFrozen(s: State, p: Props, e: Event)
    requires p.isReadOnly && !s.isAdding && s.editingId == None
    ensures !Available(s, p, e)
  {
  }

  /** Pencil and bin act only on the rows the table shows: never on a transfer. */
  lemma RowActionsOnlyOnSpending(s: State, p: Props, e: Event)
    requires Available(s, p, e)
    ensures (e.ClickEdit? || e.ClickDelete? || e.ClickSave?) ==>
              e.item in p.items && e.item.savingsDestination == NoDestination
  {
  }

  /** Opening a row for editing and saving it untouched sends the row back as it
      was, provided the number conversions round-trip on its values, tagged as
      plain spending. */
  lemma EditThenSaveResendsItem(s: State, p: Props, js: Runtime, today: string, item: Item)
    requires item in SpendingItems(p.items)
    requires item.description != ""
    requires js.numberToString(item.amount) != "" && js.parseFloat(js.numberToString(item.amount)) == Some(item.amount)
    requires js.intToString(item.categoryId) != "" && js.parseInt(js.intToString(item.categoryId)) == Some(item.categoryId)
    ensures var edited := StartEdit(s, js, item);
            && Available(edited, p, ClickSave(item))
            && Calls(Dispatch(edited, p, js, today, ClickSave(item)).effects)
               == [Update(p.monthId, item.id,
                          Payload(item.description, Some(item.amount), Some(item.categoryId), item.spentOn, item.savingsDestination))]
  {
  }

  /** The add mode and the edit mode are not exclusive: opening the add form and
      then the pencil of a row leaves both open over the one shared draft. */
  lemma {:induction false} AddingWhileEditingReachable(p: Props, js: Runtime, today: string, item: Item)
    requires !p.isReadOnly && item in SpendingItems(p.items)
    ensures var r := Run(Init(today), p, js, today, [ClickPlus, ClickEdit(item)]);
            && r.Some?
            && r.value.state.isAdding
            && r.value.state.editingId == Some(item.id)
            && r.value.effects == []
  {
    var s1 := OpenAddForm(Init(today), p, js);
    var s2 := StartEdit(s1, js, item);
    assert [ClickPlus, ClickEdit(item)][1..] == [ClickEdit(item)];
    assert [ClickEdit(item)][1..] == [];
    assert Run(s2, p, js, today, []) == Some(Step(s2, []));
    assert Run(s1, p, js, today, [ClickEdit(item)]) == Some(Step(s2, []));
  }
}
