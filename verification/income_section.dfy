/** The income editor of a month: a list of income entries with an add form
    under the list and inline editing of one entry.

    Its add and update handlers reset different parts of the state: a create
    leaves `editingId` alone and an update leaves `isAdding` alone. Only
    `cancelEdit` resets everything. */
module IncomeSection {
  import opened Js
  import opened Effects

  // `labelText` is the source's `label`, a keyword here.
  datatype Entry = Entry(id: int, labelText: string, amount: real)

  /** The body of a create or update request; `amount` is `parseFloat` of the
      draft, NaN included. */
  datatype Payload = Payload(labelText: string, amount: Option<real>)

  datatype Call =
    | Create(monthId: int, payload: Payload)
    | Update(monthId: int, id: int, payload: Payload)
    | Delete(monthId: int, id: int)

  datatype Props = Props(monthId: int, entries: seq<Entry>, isReadOnly: bool)

  /** `editingId == None` is `editingId === null`; `labelText` and `amount` are
      the one draft shared by the add form and the edited entry. */
  datatype State = State(isAdding: bool, editingId: Option<int>, labelText: string, amount: string)

  datatype Event =
    | ClickPlus                     // "+" in the header
    | ClickAdd                      // tick in the add form
    | ClickCancelAdd                // cross in the add form
    | ClickEdit(entry: Entry)       // pencil of an entry
    | ClickDelete(entry: Entry)     // bin of an entry
    | ClickSave(entry: Entry)       // tick of the edited entry
    | ClickCancelEdit               // cross of the edited entry
    | EnterLabel(text: string)
    | EnterAmount(text: string)

  /** The `useState` initial values: neither mode open, empty draft. */
  function Init(): (r: State)
    ensures !r.isAdding && r.editingId == None && DraftEmpty(r)
  {
    State(false, None, "", "")
  }

  /** The guard at the head of `handleAdd` and `handleUpdate`. */
  predicate DraftComplete(s: State) {
    Truthy(s.labelText) && Truthy(s.amount)
  }

  function DraftPayload(s: State, js: Runtime): Payload {
    Payload(s.labelText, js.parseFloat(s.amount))
  }

  /** `pl` carries the draft of `s` as the handlers convert it. */
  predicate Submits(pl: Payload, s: State, js: Runtime) {
    pl.labelText == s.labelText && pl.amount == js.parseFloat(s.amount)
  }

  predicate DraftEmpty(s: State) {
    s.labelText == "" && s.amount == ""
  }

  /** `handleAdd`: a guarded create; the draft is emptied and the add form
      closed, but an entry being edited stays in edit mode. */
  function HandleAdd(s: State, p: Props, js: Runtime): (r: Step<State, Call>)
    ensures !DraftComplete(s) <==> r == Step(s, [])
    ensures DraftComplete(s) ==>
              && OneCallThenRefresh(r.effects)
              && Calls(r.effects)[0].Create?
              && Calls(r.effects)[0].monthId == p.monthId
              && Submits(Calls(r.effects)[0].payload, s, js)
              && DraftEmpty(r.state)
              && !r.state.isAdding
              && r.state.editingId == s.editingId
  {
    if !DraftComplete(s) then Step(s, [])
    else
      CallThenRefresh(Create(p.monthId, DraftPayload(s, js)));
      Step(s.(labelText := "", amount := "", isAdding := false), [Api(Create(p.monthId, DraftPayload(s, js))), Refresh])
  }

  /** `handleUpdate(id)`: a guarded update; the draft is emptied and edit mode
      left, but an open add form stays open. */
  function HandleUpdate(s: State, p: Props, js: Runtime, id: int): (r: Step<State, Call>)
    ensures !DraftComplete(s) <==> r == Step(s, [])
    ensures DraftComplete(s) ==>
              && OneCallThenRefresh(r.effects)
              && Calls(r.effects)[0].Update?
              && Calls(r.effects)[0].monthId == p.monthId
              && Calls(r.effects)[0].id == id
              && Submits(Calls(r.effects)[0].payload, s, js)
              && DraftEmpty(r.state)
              && r.state.editingId == None
              && r.state.isAdding == s.isAdding
  {
    if !DraftComplete(s) then Step(s, [])
    else
      CallThenRefresh(Update(p.monthId, id, DraftPayload(s, js)));
      Step(s.(editingId := None, labelText := "", amount := ""), [Api(Update(p.monthId, id, DraftPayload(s, js))), Refresh])
  }

  /** `handleDelete(id)`: no guard, no draft change. */
  function HandleDelete(s: State, p: Props, id: int): (r: Step<State, Call>)
    ensures r.state == s
    ensures OneCallThenRefresh(r.effects) && Calls(r.effects) == [Delete(p.monthId, id)]
  {
    CallThenRefresh(Delete(p.monthId, id));
    Step(s, [Api(Delete(p.monthId, id)), Refresh])
  }

  /** `startEdit(entry)`: the entry's values become the draft; add mode is left as it was. */
  function StartEdit(s: State, js: Runtime, entry: Entry): (r: State)
    ensures r.editingId == Some(entry.id)
    ensures r.isAdding == s.isAdding
    ensures r.labelText == entry.labelText && r.amount == js.numberToString(entry.amount)
  {
    s.(editingId := Some(entry.id), labelText := entry.labelText, amount := js.numberToString(entry.amount))
  }

  /** The "+" click handler: the add form opens below the list; an entry being
      edited stays in edit mode and the shared draft keeps what it held. */
  function OpenAddForm(s: State): (r: State)
    ensures r.isAdding
    ensures r.editingId == s.editingId
    ensures r.labelText == s.labelText && r.amount == s.amount
  {
    s.(isAdding := true)
  }

  /** `cancelEdit`, wired to both crosses: both modes closed, draft emptied. */
  function CancelEdit(s: State): (r: State)
    ensures !r.isAdding && r.editingId == None && DraftEmpty(r)
  {
    State(false, None, "", "")
  }

  /** Some entry is rendered in edit mode. */
  predicate EditRowShown(s: State, p: Props) {
    exists en :: en in p.entries && s.editingId == Some(en.id)
  }

  /** Which affordances are on screen. The add form shows whenever `isAdding`;
      an entry whose id is `editingId` shows its edit row, every other entry
      shows pencil and bin unless the month is read-only. */
  predicate Available(s: State, p: Props, e: Event)
    ensures Available(s, p, e) && p.isReadOnly ==> !e.ClickPlus? && !e.ClickEdit? && !e.ClickDelete?
    ensures Available(s, p, e) && e.ClickPlus? ==> !s.isAdding
    ensures Available(s, p, e) && (e.ClickEdit? || e.ClickDelete? || e.ClickSave?) ==> e.entry in p.entries
  {
    match e
    case ClickPlus => !p.isReadOnly && !s.isAdding
    case ClickAdd => s.isAdding
    case ClickCancelAdd => s.isAdding
    case ClickEdit(en) => !p.isReadOnly && en in p.entries && s.editingId != Some(en.id)
    case ClickDelete(en) => !p.isReadOnly && en in p.entries && s.editingId != Some(en.id)
    case ClickSave(en) => en in p.entries && s.editingId == Some(en.id)
    case ClickCancelEdit => EditRowShown(s, p)
    case EnterLabel(_) => s.isAdding || EditRowShown(s, p)
    case EnterAmount(_) => s.isAdding || EditRowShown(s, p)
  }

  /** The handler each affordance is wired to. */
  function Dispatch(s: State, p: Props, js: Runtime, e: Event): (r: Step<State, Call>)
    ensures RefreshCount(r.effects) == |Calls(r.effects)| <= 1
    ensures |Calls(r.effects)| == 1 ==> e.ClickAdd? || e.ClickSave? || e.ClickDelete?
  {
    match e
    case ClickPlus => Step(OpenAddForm(s), [])
    case ClickAdd => HandleAdd(s, p, js)
    case ClickCancelAdd => Step(CancelEdit(s), [])
    case ClickEdit(en) => Step(StartEdit(s, js, en), [])
    case ClickDelete(en) => HandleDelete(s, p, en.id)
    case ClickSave(en) => HandleUpdate(s, p, js, en.id)
    case ClickCancelEdit => Step(CancelEdit(s), [])
    case EnterLabel(text) => Step(s.(labelText := text), [])
    case EnterAmount(text) => Step(s.(amount := text), [])
  }

  /** A session of clicks on rendered affordances, the props held fixed; `None`
      when some event targets an affordance that is not on screen at that point. */
  function Run(s: State, p: Props, js: Runtime, events: seq<Event>): (r: Option<Step<State, Call>>)
    ensures r.Some? ==> RefreshCount(r.value.effects) == |Calls(r.value.effects)|
    ensures r.Some? ==> |Calls(r.value.effects)| <= |events|
    decreases |events|
  {
    if events == [] then Some(Step(s, []))
    else if !Available(s, p, events[0]) then None
    else
      var first := Dispatch(s, p, js, events[0]);
      match Run(first.state, p, js, events[1..])
      case None => None
      case Some(rest) =>
        CallsAppend(first.effects, rest.effects);
        RefreshCountAppend(first.effects, rest.effects);
        Some(Step(rest.state, first.effects + rest.effects))
  }

  // ---------------------------------------------------------------------------
  // Properties relating several operations

  /** Both crosses send nothing and return to the mount state, whatever the
      state was, so a second cancel changes nothing. */
  lemma CancelIsInit(s: State, p: Props, js: Runtime)
    ensures CancelEdit(s) == Init()
    ensures CancelEdit(CancelEdit(s)) == CancelEdit(s)
    ensures Dispatch(s, p, js, ClickCancelAdd) == Step(Init(), [])
    ensures Dispatch(s, p, js, ClickCancelEdit) == Step(Init(), [])
  {
  }

  /** One rendered click in a read-only month with the add form closed: the
      add form stays closed, the only request is an update of the entry in
      edit mode, and edit mode is kept or left. */
  lemma ReadOnlyStepOnlyUpdatesEdited(s: State, p: Props, js: Runtime, e: Event)
    requires p.isReadOnly && !s.isAdding && Available(s, p, e)
    ensures var r := Dispatch(s, p, js, e);
            && !r.state.isAdding
            && (r.state.editingId == s.editingId || r.state.editingId == None)
            && (|Calls(r.effects)| > 0 ==> s.editingId.Some?)
            && forall i :: 0 <= i < |Calls(r.effects)| ==>
                 Calls(r.effects)[i].Update? && Calls(r.effects)[i].id == s.editingId.value
  {
  }

  /** In a read-only month with the add form closed, no session opens the add
      form, creates an entry or deletes one: the only requests are updates of
      the entry that was in edit mode when the session began. */
  lemma {:induction false} ReadOnlySessionNeverAddsOrDeletes(s: State, p: Props, js: Runtime, events: seq<Event>)
    requires p.isReadOnly && !s.isAdding
    ensures var r := Run(s, p, js, events);
            r.Some? ==>
              && !r.value.state.isAdding
              && (r.value.state.editingId == s.editingId || r.value.state.editingId == None)
              && (|Calls(r.value.effects)| > 0 ==> s.editingId.Some?)
              && forall i :: 0 <= i < |Calls(r.value.effects)| ==>
                   Calls(r.value.effects)[i].Update? && Calls(r.value.effects)[i].id == s.editingId.value
    decreases |events|
  {
    if events != [] && Available(s, p, events[0]) {
      var first := Dispatch(s, p, js, events[0]);
      ReadOnlyStepOnlyUpdatesEdited(s, p, js, events[0]);
      ReadOnlySessionNeverAddsOrDeletes(first.state, p, js, events[1..]);
      if Run(first.state, p, js, events[1..]).Some? {
        var rest := Run(first.state, p, js, events[1..]).value;
        CallsAppend(first.effects, rest.effects);
      }
    }
  }

  /** In a read-only month, the editor at mount offers nothing to click, so no
      session from there issues a request. */
  lemma {:induction false} ReadOnlyMountIsFrozen(p: Props, js: Runtime, events: seq<Event>)
    requires p.isReadOnly
    ensures var r := Run(Init(), p, js, events);
            r.Some? ==> r.value.effects == [] && r.value.state == Init()
  {
    if events != [] {
      assert !Available(Init(), p, events[0]);
    }
  }

  /** Adding and editing are not exclusive: "+" and then the pencil of an entry
      leave both modes open over the one shared draft, which holds the entry. */
  lemma {:induction false} AddingWhileEditingReachable(p: Props, js: Runtime, en: Entry)
    requires !p.isReadOnly && en in p.entries
    ensures var r := Run(Init(), p, js, [ClickPlus, ClickEdit(en)]);
            && r.Some?
            && r.value.state.isAdding
            && r.value.state.editingId == Some(en.id)
            && r.value.state.labelText == en.labelText
            && r.value.effects == []
  {
    var s1 := Init().(isAdding := true);
    var s2 := StartEdit(s1, js, en);
    assert [ClickPlus, ClickEdit(en)][1..] == [ClickEdit(en)];
    assert [ClickEdit(en)][1..] == [];
    assert Run(s2, p, js, []) == Some(Step(s2, []));
    assert Run(s1, p, js, [ClickEdit(en)]) == Some(Step(s2, []));
  }

  /** In that state the add form's tick submits the shared draft, that is the
      edited entry's label and its printed-then-parsed amount, as a new entry,
      and the entry stays in edit mode with an emptied draft. When printing
      and parsing round-trip on the amount, the new entry is an exact copy. */
  lemma SharedDraftAddCopiesEditedEntry(p: Props, js: Runtime, en: Entry)
    requires !p.isReadOnly && en in p.entries
    requires en.labelText != "" && js.numberToString(en.amount) != ""
    ensures var s := StartEdit(Init().(isAdding := true), js, en);
            var r := Dispatch(s, p, js, ClickAdd);
            && Available(s, p, ClickAdd)
            && Calls(r.effects) == [Create(p.monthId, Payload(en.labelText, js.parseFloat(js.numberToString(en.amount))))]
            && r.state == State(false, Some(en.id), "", "")
            && Available(r.state, p, ClickSave(en))
            && (js.parseFloat(js.numberToString(en.amount)) == Some(en.amount) ==>
                  Calls(r.effects) == [Create(p.monthId, Payload(en.labelText, Some(en.amount)))])
  {
  }

  /** Opening an entry and saving it untouched sends the entry back as it was,
      provided the number conversions round-trip on its amount. */
  lemma EditThenSaveResendsEntry(s: State, p: Props, js: Runtime, en: Entry)
    requires en in p.entries
    requires en.labelText != ""
    requires js.numberToString(en.amount) != "" && js.parseFloat(js.numberToString(en.amount)) == Some(en.amount)
    ensures var edited := StartEdit(s, js, en);
            && Available(edited, p, ClickSave(en))
            && Calls(Dispatch(edited, p, js, ClickSave(en)).effects)
               == [Update(p.monthId, en.id, Payload(en.labelText, Some(en.amount)))]
  {
  }
}
