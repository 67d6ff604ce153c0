/** The retirement-savings card: one account-wide amount, shown or edited.

    The amount is loaded on mount and again whenever the parent changes the
    card's refresh trigger; the response replaces the shown amount whether or
    not an edit is open. The editor keeps its text in `editValue`. */
module RetirementSavingsCard {
  import opened Js
  import opened Effects

  /** `api.retirementSavings.get()` and `api.retirementSavings.update(value)`. */
  datatype Call = Get | Put(value: real)

  datatype State = State(amount: real, isEditing: bool, editValue: string)

  datatype Event =
    | RefreshTriggered              // mount, or a new `refreshTrigger` prop
    | FetchResolved(value: real)    // the response of a `Get` arrives
    | ClickPencil
    | EnterValue(text: string)
    | ClickSave
    | ClickCancel

  /** The `useState` initial values: zero shown, display mode, no edit text. */
  function Init(): (r: State)
    ensures r.amount == 0.0 && !r.isEditing && r.editValue == ""
  {
    State(0.0, false, "")
  }

  /** The effect's `.then`: the fetched amount replaces the shown one; the
      editor, open or not, keeps its text. */
  function FetchResolvedWith(s: State, value: real): (r: State)
    ensures r.amount == value
    ensures r.isEditing == s.isEditing && r.editValue == s.editValue
  {
    s.(amount := value)
  }

  /** `startEdit`: the editor opens on the printed current amount. */
  function StartEdit(s: State, js: Runtime): (r: State)
    ensures r.isEditing && r.editValue == js.numberToString(s.amount)
    ensures r.amount == s.amount
  {
    s.(editValue := js.numberToString(s.amount), isEditing := true)
  }

  /** `cancelEdit`: the editor closes and its text is dropped. */
  function CancelEdit(s: State): (r: State)
    ensures !r.isEditing && r.editValue == ""
    ensures r.amount == s.amount
  {
    s.(isEditing := false, editValue := "")
  }

  /** `saveEdit`: text that parses to NaN is ignored and the editor stays open;
      otherwise the value is sent, shown and the editor closes. The text itself
      is kept. The card has no parent refresh to call. */
  function SaveEdit(s: State, js: Runtime): (r: Step<State, Call>)
    ensures js.parseFloat(s.editValue).None? <==> r == Step(s, [])
    ensures js.parseFloat(s.editValue).Some? ==>
              var v := js.parseFloat(s.editValue).value;
              && Calls(r.effects) == [Put(v)]
              && RefreshCount(r.effects) == 0
              && r.state.amount == v
              && !r.state.isEditing
              && r.state.editValue == s.editValue
  {
    match js.parseFloat(s.editValue)
    case None => Step(s, [])
    case Some(v) =>
      assert [Api(Put(v))][1..] == [];
      Step(s.(amount := v, isEditing := false), [Api(Put(v))])
  }

  /** The pencil shows in display mode; the input, tick and cross in edit mode.
      The fetch is not a click and can happen at any time. */
  predicate Available(s: State, e: Event)
    ensures Available(s, e) && e.ClickPencil? ==> !s.isEditing
    ensures Available(s, e) && (e.EnterValue? || e.ClickSave? || e.ClickCancel?) ==> s.isEditing
  {
    match e
    case RefreshTriggered => true
    case FetchResolved(_) => true
    case ClickPencil => !s.isEditing
    case EnterValue(_) => s.isEditing
    case ClickSave => s.isEditing
    case ClickCancel => s.isEditing
  }

  function Dispatch(s: State, js: Runtime, e: Event): (r: Step<State, Call>)
    ensures RefreshCount(r.effects) == 0
    ensures |Calls(r.effects)| <= 1
    ensures forall i :: 0 <= i < |Calls(r.effects)| ==>
              Calls(r.effects)[i].Put? ==> r.state.amount == Calls(r.effects)[i].value
  {
    match e
    case RefreshTriggered =>
      assert [Api(Get)][1..] == [];
      Step(s, [Api(Get)])
    case FetchResolved(v) => Step(FetchResolvedWith(s, v), [])
    case ClickPencil => Step(StartEdit(s, js), [])
    case EnterValue(text) => Step(s.(editValue := text), [])
    case ClickSave => SaveEdit(s, js)
    case ClickCancel => Step(CancelEdit(s), [])
  }

  /** A session of events on rendered affordances; `None` when some click
      targets an affordance that is not on screen at that point. The shown
      amount is never invented: it is the starting amount, a fetched amount or
      an amount this session sent. */
  function Run(s: State, js: Runtime, events: seq<Event>): (r: Option<Step<State, Call>>)
    ensures r.Some? ==> RefreshCount(r.value.effects) == 0
    ensures r.Some? ==>
              || r.value.state.amount == s.amount
              || FetchResolved(r.value.state.amount) in events
              || Put(r.value.state.amount) in Calls(r.value.effects)
    decreases |events|
  {
    if events == [] then Some(Step(s, []))
    else if !Available(s, events[0]) then None
    else
      var first := Dispatch(s, js, events[0]);
      match Run(first.state, js, events[1..])
      case None => None
      case Some(rest) =>
        CallsAppend(first.effects, rest.effects);
        RefreshCountAppend(first.effects, rest.effects);
        assert events == [events[0]] + events[1..];
        Some(Step(rest.state, first.effects + rest.effects))
  }

  // ---------------------------------------------------------------------------
  // Properties relating several operations

  /** On mount the card is in display mode with the pencil, and the load is requested. */
  lemma MountOffersPencilAndLoads(js: Runtime)
    ensures Available(Init(), ClickPencil) && !Available(Init(), ClickSave)
    ensures Calls(Dispatch(Init(), js, RefreshTriggered).effects) == [Get]
  {
    assert [Api(Get)][1..] == [];
  }

  /** Opening the editor and saving untouched re-sends the shown amount and
      leaves it shown, provided printing then parsing it round-trips. */
  lemma EditThenSaveKeepsAmount(s: State, js: Runtime)
    requires js.parseFloat(js.numberToString(s.amount)) == Some(s.amount)
    ensures var r := SaveEdit(StartEdit(s, js), js);
            && Calls(r.effects) == [Put(s.amount)]
            && r.state.amount == s.amount
            && !r.state.isEditing
  {
  }

  /** Cancelling twice is cancelling once, and no request is sent. */
  lemma CancelIdempotent(s: State, js: Runtime)
    ensures CancelEdit(CancelEdit(s)) == CancelEdit(s)
    ensures Dispatch(s, js, ClickCancel).effects == []
  {
  }

  /** A fetch that lands during an edit does not close the editor, and a
      following save overwrites the fetched amount with the edited one. */
  lemma {:induction false} FetchDuringEditIsOverwritten(s: State, js: Runtime, fetched: real, v: real)
    requires s.isEditing && js.parseFloat(s.editValue) == Some(v)
    ensures var r := Run(s, js, [FetchResolved(fetched), ClickSave]);
            && r.Some?
            && r.value.state.amount == v
            && Calls(r.value.effects) == [Put(v)]
  {
    var s1 := FetchResolvedWith(s, fetched);
    var saved := SaveEdit(s1, js);
    assert [FetchResolved(fetched), ClickSave][1..] == [ClickSave];
    assert [ClickSave][1..] == [];
    assert Run(saved.state, js, []) == Some(Step(saved.state, []));
    assert Run(s1, js, [ClickSave]) == Some(Step(saved.state, saved.effects + []));
    assert saved.effects + [] == saved.effects;
  }
}
