/**
 * The `store` object (app.js:52-64): the single holder of the resume state,
 * which merges patches into it, saves it to storage and notifies listeners.
 */
module StateStore {
  import opened Wrappers
  import opened ResumeState
  import opened Persistence

  /** A registered listener, named by the function it stands for. */
  type Listener = string

  /** One call `l(state)` made by `notify`. */
  datatype Notification = Notification(listener: Listener, state: State)

  /** The calls one `notify` makes: each registered listener, in
      registration order, with the given state. */
  function Deliveries(listeners: seq<Listener>, s: State): (r: seq<Notification>)
    ensures |r| == |listeners|
    ensures forall n :: n in r ==> n.listener in listeners && n.state == s
  {
    if listeners == [] then []
    else [Notification(listeners[0], s)] + Deliveries(listeners[1..], s)
  }

  /** How many calls in `log` went to listener `l`. */
  function CallsTo(log: seq<Notification>, l: Listener): nat {
    if log == [] then 0
    else (if log[0].listener == l then 1 else 0) + CallsTo(log[1..], l)
  }

  /** One notification per registered listener: the i-th goes to the i-th
      listener, and every one carries the given state. */
  lemma {:induction false} DeliveriesAt(listeners: seq<Listener>, s: State)
    ensures |Deliveries(listeners, s)| == |listeners|
    ensures forall i :: 0 <= i < |listeners| ==> Deliveries(listeners, s)[i] == Notification(listeners[i], s)
  {
    if listeners != [] {
      DeliveriesAt(listeners[1..], s);
    }
  }

  /** Registering one more listener adds one call, at the end. */
  lemma {:induction false} DeliveriesSnoc(listeners: seq<Listener>, l: Listener, s: State)
    ensures Deliveries(listeners + [l], s) == Deliveries(listeners, s) + [Notification(l, s)]
  {
    if listeners == [] {
      assert listeners + [l] == [l];
    } else {
      assert (listeners + [l])[1..] == listeners[1..] + [l];
      DeliveriesSnoc(listeners[1..], l, s);
    }
  }

  /** A listener registered n times is called n times per notification; a
      listener never registered is not called. */
  lemma {:induction false} DeliveriesCount(listeners: seq<Listener>, l: Listener, s: State)
    ensures CallsTo(Deliveries(listeners, s), l) == multiset(listeners)[l]
  {
    if listeners != [] {
      DeliveriesCount(listeners[1..], l, s);
      assert listeners == [listeners[0]] + listeners[1..];
      assert multiset(listeners) == multiset{listeners[0]} + multiset(listeners[1..]);
      var d := Deliveries(listeners, s);
      assert d[0] == Notification(listeners[0], s);
      assert d[1..] == Deliveries(listeners[1..], s);
    }
  }

  class Store {
    /** The current resume. */
    var state: State
    /** The registered listeners, in registration order. */
    var listeners: seq<Listener>
    /** The browser storage the state is saved to. */
    const storage: LocalStorage
    /** The JSON encoder used to save it. */
    const codec: Codec
    /** Every listener call made so far, in order. */
    ghost var log: seq<Notification>
    /** The state stored by the last save that succeeded, if any. */
    ghost var saved: Option<State>

    /** What storage holds under the state's key is the last successful save. */
    ghost predicate Valid()
      reads this, storage
    {
      saved.Some? ==>
        ResumeStateKey in storage.items && storage.items[ResumeStateKey] == codec.serialize(saved.value)
    }

    /** The state a reload of the page would start from. */
    ghost function RestartState(): State
      reads this, storage
    {
      GetInitialState(Lookup(storage.items, ResumeStateKey), codec.parse)
    }

    /** `state: getInitialState(), listeners: []`. */
    constructor (storage: LocalStorage, codec: Codec)
      ensures Valid()
      ensures this.storage == storage && this.codec == codec
      ensures state == Seed() || state == GetInitialState(Lookup(storage.items, ResumeStateKey), codec.parse)
      ensures listeners == [] && log == [] && saved == None
    {
      this.storage := storage;
      this.codec := codec;
      var read := storage.GetItem(ResumeStateKey);
      state := GetInitialState(read, codec.parse);
      listeners := [];
      log := [];
      saved := None;
    }

    /** `subscribe`: appends, with no de-duplication. */
    method Subscribe(l: Listener)
      modifies this`listeners
      ensures listeners == old(listeners) + [l]
    {
      listeners := listeners + [l];
    }

    /** `notify`: calls every registered listener once, in order, with the
        current state. */
    method Notify()
      modifies this`log
      ensures log == old(log) + Deliveries(listeners, state)
    {
      var i := 0;
      while i < |listeners|
        invariant 0 <= i <= |listeners|
        invariant log == old(log) + Deliveries(listeners[..i], state)
      {
        DeliveriesSnoc(listeners[..i], listeners[i], state);
        assert listeners[..i + 1] == listeners[..i] + [listeners[i]];
        log := log + [Notification(listeners[i], state)];
        i := i + 1;
      }
      assert listeners[..i] == listeners;
    }

    /** `setState`: merge at depth 1, save the whole new state (a failed
        save is swallowed), then notify. `persisted` tells which way the
        save went; the caller of the source sees nothing. */
    method SetState(p: Patch) returns (ghost persisted: bool)
      requires Valid()
      modifies this`state, this`log, this`saved, storage
      ensures Valid()
      ensures state == Merge(old(state), p)
      ensures listeners == old(listeners)
      ensures persisted ==> storage.items == old(storage.items)[ResumeStateKey := codec.serialize(state)]
      ensures persisted ==> saved == Some(state)
      ensures !persisted ==> storage.items == old(storage.items) && saved == old(saved)
      ensures log == old(log) + Deliveries(listeners, state)
    {
      state := Merge(state, p);
      var ok := storage.SetItem(ResumeStateKey, codec.serialize(state));
      persisted := ok;
      if ok {
        saved := Some(state);
      }
      Notify();
    }

    /** With a round-tripping encoder, a reload restores the last state a
        save stored. */
    lemma RestartRestoresSaved()
      requires Valid() && RoundTrips(codec) && saved.Some?
      ensures RestartState() == saved.value
    {
    }
  }

  /** Two listeners registered, one of them twice, and one `setState`: the
      calls follow registration order and the twice-registered one runs
      twice, each call seeing the merged state. */
  method SubscribeTwiceScenario(storage: LocalStorage, codec: Codec, p: Patch) returns (ghost loaded: State, ghost calls: seq<Notification>)
    modifies storage
    ensures loaded == Seed() || loaded == GetInitialState(Lookup(old(storage.items), ResumeStateKey), codec.parse)
    ensures var merged := Merge(loaded, p);
      calls == [Notification("renderPreview", merged), Notification("audit", merged), Notification("renderPreview", merged)]
  {
    var store := new Store(storage, codec);
    store.Subscribe("renderPreview");
    store.Subscribe("audit");
    store.Subscribe("renderPreview");
    var before := store.state;
    var _ := store.SetState(p);
    DeliveriesAt(store.listeners, store.state);
    assert store.log == [
      Notification("renderPreview", Merge(before, p)),
      Notification("audit", Merge(before, p)),
      Notification("renderPreview", Merge(before, p))];
    loaded, calls := before, store.log;
  }
}
