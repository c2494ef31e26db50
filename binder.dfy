/**
 * Binding the `personal.*` inputs to the store (app.js:121-130): each input
 * shows the field its `data-model` path names and, on every keystroke,
 * writes a new `personal` record back with `setState`.
 */
module Binder {
  import opened Wrappers
  import opened ResumeState

  /** The selector `input[data-model^="personal."]` picks these paths. */
  const PersonalPrefix: string := "personal."

  predicate IsPersonalPath(path: string) {
    |PersonalPrefix| <= |path| && path[..|PersonalPrefix|] == PersonalPrefix
  }

  /** The text of `s` up to its first '.', or all of it. */
  function Segment(s: string): (r: string)
    ensures |r| <= |s| && r == s[..|r|]
    ensures forall i :: 0 <= i < |r| ==> r[i] != '.'
    ensures |r| == |s| || s[|r|] == '.'
  {
    if s == [] || s[0] == '.' then [] else [s[0]] + Segment(s[1..])
  }

  /** `path.split('.')[1]`: the field name after "personal.", up to the
      next '.' if there is one. */
  function FieldKey(path: string): (k: string)
    requires IsPersonalPath(path)
    ensures '.' !in k
    ensures |PersonalPrefix| + |k| <= |path| && path[|PersonalPrefix|..|PersonalPrefix| + |k|] == k
    ensures |PersonalPrefix| + |k| == |path| || path[|PersonalPrefix| + |k|] == '.'
  {
    Segment(path[|PersonalPrefix|..])
  }

  /** The path "personal.<k>" of a dot-free field name binds field `k`. */
  lemma FieldKeyOfPath(k: string)
    requires '.' !in k
    ensures IsPersonalPath(PersonalPrefix + k)
    ensures FieldKey(PersonalPrefix + k) == k
  {
  }

  /** `s.personal[key] || ''`: the field's value, or '' when it is missing
      (undefined) or empty. */
  function Displayed(p: Personal, key: string): (v: string)
    ensures v == if key in p then p[key] else ""
  {
    if key in p && p[key] != "" then p[key] else ""
  }

  /** A bound input: the field it edits, the value it shows, and the
      `personal` record of the state captured when it was bound. */
  datatype Input = Input(key: string, shown: string, snapshot: Personal)

  /** Binding the input whose `data-model` is `path` against state `s`. */
  function Bind(s: State, path: string): Input
    requires IsPersonalPath(path)
  {
    Input(FieldKey(path), Displayed(s.personal, FieldKey(path)), s.personal)
  }

  /** The inputs the selector picks out of `models` (the `data-model` of
      every input, in document order), each bound against `s`. */
  function BindAll(s: State, models: seq<string>): seq<Input> {
    if models == [] then []
    else (if IsPersonalPath(models[0]) then [Bind(s, models[0])] else []) + BindAll(s, models[1..])
  }

  lemma {:induction false} BindAllSnoc(s: State, models: seq<string>, m: string)
    ensures BindAll(s, models + [m]) == BindAll(s, models) + (if IsPersonalPath(m) then [Bind(s, m)] else [])
  {
    if models == [] {
      assert models + [m] == [m];
    } else {
      assert (models + [m])[1..] == models[1..] + [m];
      BindAllSnoc(s, models[1..], m);
    }
  }

  /** Every bound input shows its field of `s` (or ''), edits a dot-free
      field name, and holds `s.personal` as its snapshot; one input is bound
      per personal path. */
  lemma {:induction false} BindAllInputs(s: State, models: seq<string>)
    ensures forall x :: x in BindAll(s, models) ==>
      x.snapshot == s.personal && x.shown == Displayed(s.personal, x.key) && '.' !in x.key
    ensures |BindAll(s, models)| <= |models|
  {
    if models != [] {
      BindAllInputs(s, models[1..]);
    }
  }

  /** `renderInputs`: goes through the inputs in document order, binding the
      ones whose path starts with "personal." against `s`, the store's state
      at that moment. */
  method BindInputs(s: State, models: seq<string>) returns (inputs: seq<Input>)
    ensures inputs == BindAll(s, models)
  {
    inputs := [];
    var i := 0;
    while i < |models|
      invariant 0 <= i <= |models|
      invariant inputs == BindAll(s, models[..i])
    {
      BindAllSnoc(s, models[..i], models[i]);
      assert models[..i + 1] == models[..i] + [models[i]];
      if IsPersonalPath(models[i]) {
        inputs := inputs + [Bind(s, models[i])];
      }
      i := i + 1;
    }
    assert models[..i] == models;
  }

  /** `el.oninput` as written: `{ personal: { ...s.personal, [key]: value } }`
      where `s` is the state captured at binding time. */
  function OnInput(input: Input, value: string): (p: Patch)
    ensures forall k :: k != PersonalKey ==> PatchGet(p, k) == None
    ensures p.personal.Some? && input.key in p.personal.value && p.personal.value[input.key] == value
    ensures forall f :: f != input.key ==> (f in p.personal.value <==> f in input.snapshot)
    ensures forall f :: f != input.key && f in input.snapshot ==> p.personal.value[f] == input.snapshot[f]
  {
    PersonalPatch(input.snapshot[input.key := value])
  }

  /** One keystroke: only `personal` changes; its edited field takes the
      typed value and every other field comes from the snapshot, whatever
      the current state holds. */
  lemma OnInputEffect(current: State, input: Input, value: string)
    ensures Merge(current, OnInput(input, value)).personal[input.key] == value
    ensures forall f :: f != input.key ==>
      (f in Merge(current, OnInput(input, value)).personal <==> f in input.snapshot)
    ensures forall f :: f != input.key && f in input.snapshot ==>
      Merge(current, OnInput(input, value)).personal[f] == input.snapshot[f]
    ensures Merge(current, OnInput(input, value)) == current.(personal := input.snapshot[input.key := value])
  {
  }

  /** A keystroke into one input. */
  datatype Keystroke = Keystroke(input: Input, value: string)

  /** The state after a series of keystrokes into inputs as written. */
  function ApplyAsWritten(current: State, keys: seq<Keystroke>): State
    decreases keys
  {
    if keys == [] then current
    else ApplyAsWritten(Merge(current, OnInput(keys[0].input, keys[0].value)), keys[1..])
  }

  /** As written, only the last keystroke counts: `personal` ends up as
      that input's snapshot with that one field set, so every earlier edit
      of another field is undone. */
  lemma {:induction false} AsWrittenLastKeystrokeWins(current: State, keys: seq<Keystroke>)
    requires keys != []
    ensures ApplyAsWritten(current, keys).personal == keys[|keys| - 1].input.snapshot[keys[|keys| - 1].input.key := keys[|keys| - 1].value]
    ensures ApplyAsWritten(current, keys).experience == current.experience
    decreases keys
  {
    var next := Merge(current, OnInput(keys[0].input, keys[0].value));
    OnInputEffect(current, keys[0].input, keys[0].value);
    if |keys| > 1 {
      AsWrittenLastKeystrokeWins(next, keys[1..]);
    }
  }

  /** Two inputs bound against the same state `s`: after typing `va` into
      the first and then `vb` into the second, the first field is back to
      its value in `s`, whatever `va` was. */
  lemma StaleSnapshotRevertsEdit(s: State, a: string, va: string, b: string, vb: string)
    requires a != b && '.' !in a && '.' !in b
    ensures var after := ApplyAsWritten(s, [Keystroke(Bind(s, PersonalPrefix + a), va), Keystroke(Bind(s, PersonalPrefix + b), vb)]);
            b in after.personal && after.personal[b] == vb &&
            (a in after.personal <==> a in s.personal) &&
            (a in s.personal ==> after.personal[a] == s.personal[a])
  {
    FieldKeyOfPath(a);
    FieldKeyOfPath(b);
    var keys := [Keystroke(Bind(s, PersonalPrefix + a), va), Keystroke(Bind(s, PersonalPrefix + b), vb)];
    AsWrittenLastKeystrokeWins(s, keys);
  }

  /** The discrepancy on the seed state: with the inputs bound at start-up,
      type "Jane Smith" into fullName, then type into email; fullName is
      back to "John Doe". */
  lemma StaleEditReverted()
    ensures var keys := [Keystroke(Bind(Seed(), "personal.fullName"), "Jane Smith"),
                         Keystroke(Bind(Seed(), "personal.email"), "jane@example.com")];
            ApplyAsWritten(Seed(), keys).personal["fullName"] == "John Doe"
  {
  }

  /** The handler as evidently intended: spread the `personal` record of
      the store's state at the time of the keystroke. */
  function OnInputCurrent(current: State, key: string, value: string): Patch {
    PersonalPatch(current.personal[key := value])
  }

  /** A keystroke into the field named `key`. */
  datatype Edit = Edit(key: string, value: string)

  /** The state after a series of edits through the intended handler. */
  function ApplyCurrent(current: State, edits: seq<Edit>): State
    decreases edits
  {
    if edits == [] then current
    else ApplyCurrent(Merge(current, OnInputCurrent(current, edits[0].key, edits[0].value)), edits[1..])
  }

  /** The value of the last edit of field `f`, if any. */
  function LastEdit(edits: seq<Edit>, f: string): Option<string> {
    if edits == [] then None
    else if edits[|edits| - 1].key == f then Some(edits[|edits| - 1].value)
    else LastEdit(edits[..|edits| - 1], f)
  }

  lemma {:induction false} LastEditCons(e: Edit, edits: seq<Edit>, f: string)
    ensures LastEdit([e] + edits, f) == if LastEdit(edits, f).Some? then LastEdit(edits, f) else LastEdit([e], f)
  {
    if edits != [] {
      var all := [e] + edits;
      assert all[..|all| - 1] == [e] + edits[..|edits| - 1];
      LastEditCons(e, edits[..|edits| - 1], f);
    }
  }

  /** With the intended handler edits accumulate: every field edited holds
      the value of its last edit, every other field keeps its value, and
      the other top-level keys are untouched. */
  lemma {:induction false} CurrentEditsAccumulate(current: State, edits: seq<Edit>, f: string)
    ensures LastEdit(edits, f).Some? ==>
      f in ApplyCurrent(current, edits).personal && ApplyCurrent(current, edits).personal[f] == LastEdit(edits, f).value
    ensures LastEdit(edits, f).None? ==>
      (f in ApplyCurrent(current, edits).personal <==> f in current.personal) &&
      (f in current.personal ==> ApplyCurrent(current, edits).personal[f] == current.personal[f])
    ensures ApplyCurrent(current, edits).experience == current.experience
    ensures ApplyCurrent(current, edits).education == current.education
    ensures ApplyCurrent(current, edits).skills == current.skills
    decreases edits
  {
    if edits != [] {
      var next := Merge(current, OnInputCurrent(current, edits[0].key, edits[0].value));
      PersonalPatchReplacesRecord(current, current.personal[edits[0].key := edits[0].value]);
      CurrentEditsAccumulate(next, edits[1..], f);
      assert edits == [edits[0]] + edits[1..];
      LastEditCons(edits[0], edits[1..], f);
    }
  }
}
