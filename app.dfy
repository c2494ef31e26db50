/**
 * Start-up (`initApp`, `render`, app.js:78-81, 116-119) and the round trip
 * of one edit: the inputs are bound once against the state the store was
 * created with, the preview subscribes, and every keystroke goes through
 * `setState`.
 */
module App {
  import opened Wrappers
  import opened ResumeState
  import opened Persistence
  import opened StateStore
  import opened Binder
  import opened Preview

  /** The listener `initApp` registers. */
  const RenderPreview: Listener := "renderPreview"

  class Editor {
    const store: Store
    /** The inputs `renderInputs` bound, once, at start-up. */
    const inputs: seq<Input>
    /** The store's state when the inputs were bound. */
    ghost const boundAgainst: State

    /** Every input shows its field of the state it was bound against and
        keeps that state's `personal` record as its snapshot. */
    ghost predicate Bound()
      reads this
    {
      forall x :: x in inputs ==>
        x.snapshot == boundAgainst.personal && x.shown == Displayed(boundAgainst.personal, x.key)
    }

    /** `render()` then `store.subscribe(renderPreview)`, with `models` the
        `data-model` of every input on the page. */
    constructor (storage: LocalStorage, codec: Codec, models: seq<string>)
      ensures fresh(store) && store.storage == storage && store.codec == codec
      ensures store.state == Seed() || store.state == GetInitialState(Lookup(storage.items, ResumeStateKey), codec.parse)
      ensures store.Valid() && Bound()
      ensures boundAgainst == store.state && inputs == BindAll(store.state, models)
      ensures store.listeners == [RenderPreview] && store.log == []
    {
      var s := new Store(storage, codec);
      var bound := BindInputs(s.state, models);
      BindAllInputs(s.state, models);
      s.Subscribe(RenderPreview);
      store := s;
      inputs := bound;
      boundAgainst := s.state;
    }

    /** A keystroke into the i-th bound input: the handler's patch goes
        through `setState`, and the preview is notified with the new state. */
    method Type(i: nat, value: string) returns (ghost persisted: bool)
      requires i < |inputs| && store.Valid() && Bound()
      modifies store`state, store`log, store`saved, store.storage
      ensures store.Valid()
      ensures store.state == Merge(old(store.state), OnInput(inputs[i], value))
      ensures store.state.personal == boundAgainst.personal[inputs[i].key := value]
      ensures store.state.experience == old(store.state.experience)
      ensures store.state.education == old(store.state.education)
      ensures store.state.skills == old(store.state.skills)
      ensures store.listeners == old(store.listeners)
      ensures persisted ==> store.storage.items == old(store.storage.items)[ResumeStateKey := store.codec.serialize(store.state)]
      ensures persisted ==> store.saved == Some(store.state)
      ensures !persisted ==> store.storage.items == old(store.storage.items) && store.saved == old(store.saved)
      ensures store.log == old(store.log) + Deliveries(store.listeners, store.state)
    {
      assert inputs[i] in inputs;
      persisted := store.SetState(OnInput(inputs[i], value));
      OnInputEffect(old(store.state), inputs[i], value);
    }
  }

  /** From the seed state, typing "Jane Smith" into the fullName input puts
      that name in the preview and keeps the unchanged email there. */
  lemma EditShowsInPreview()
    ensures var after := Merge(Seed(), OnInput(Bind(Seed(), "personal.fullName"), "Jane Smith"));
            Contains(Render(after), "Jane Smith") && Contains(Render(after), "john.doe@example.com")
  {
    assert PersonalPrefix + "fullName" == "personal.fullName";
    FieldKeyOfPath("fullName");
    var input := Bind(Seed(), "personal.fullName");
    assert input.key == "fullName" && input.snapshot == Seed().personal;
    var after := Merge(Seed(), OnInput(input, "Jane Smith"));
    OnInputEffect(Seed(), input, "Jane Smith");
    assert after.personal == Seed().personal["fullName" := "Jane Smith"];
    assert after.personal["email"] == "john.doe@example.com";
    PreviewShowsPersonal(after, "fullName");
    PreviewShowsPersonal(after, "email");
  }
}
