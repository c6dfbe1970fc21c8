/** `CliForm`, the form generated for one command's declared arguments: its
    initial state built from pre-supplied argument values, its `UPDATE`
    reducer, the hand-off of its state on submission, the auto-focus choice
    and the control each argument renders as. */
module Form {
  import opened Wrappers
  import opened Js
  import Seqs

  /** One declared argument of the command. The argument resolver that the
      form imports is not part of this model, so its answers are recorded
      here: `scalarType` is `getScalarType(arg.type)` and `required` is
      `isNonNull(arg.type)`. `rawType` is the `arg.type` value itself as the
      renderer compares it with the string "boolean" (any other text stands
      for a type reference that is not that string). */
  datatype ArgSpec = ArgSpec(name: string, rawType: string, scalarType: string, required: bool, description: string)

  /** An action for the form's reducer. The form only ever dispatches `UPDATE`. */
  datatype Action = Update(updates: Object) | OtherAction(tag: string)

  /** The control an argument renders as. */
  datatype Control = Checkbox(checked: bool) | TextInput(value: string, autoFocus: bool)

  datatype Field = Field(name: string, required: bool, description: string, control: Control)

  /** The form's reducer: `UPDATE` spreads the updates over the state, any
      other action leaves it as it is. */
  function Reduce(state: Object, action: Action): (r: Object)
    ensures action.Update? ==> r.Keys == state.Keys + action.updates.Keys
    ensures action.Update? ==> forall k :: k in action.updates ==> r[k] == action.updates[k]
    ensures action.Update? ==> forall k :: k in state && k !in action.updates ==> r[k] == state[k]
    ensures action.OtherAction? ==> r == state
  {
    match action
    case Update(updates) => state + updates
    case OtherAction(_) => state
  }

  /** Two updates in a row amount to one update with the later values winning. */
  lemma UpdatesCompose(state: Object, u1: Object, u2: Object)
    ensures Reduce(Reduce(state, Update(u1)), Update(u2)) == Reduce(state, Update(u1 + u2))
  {
  }

  /** The first declared argument named `key` (`command.args.find(fa => fa.name === key)`). */
  function Declared(specs: seq<ArgSpec>, key: string): (r: Option<ArgSpec>)
    ensures r.Some? ==> r.value in specs && r.value.name == key
    ensures r.Some? ==> exists i :: 0 <= i < |specs| && specs[i] == r.value && forall j :: 0 <= j < i ==> specs[j].name != key
    ensures r.None? <==> forall i :: 0 <= i < |specs| ==> specs[i].name != key
  {
    var r := Seqs.Find(specs, (fa: ArgSpec) => fa.name == key);
    assert r.Some? ==> r.value in specs by {
      if r.Some? {
        var i :| 0 <= i < |specs| && specs[i] == r.value;
      }
    }
    r
  }

  /** The value the initial state keeps for known value `v` of argument `arg`,
      or None when the key is left out. */
  function InitialValue(arg: ArgSpec, v: Value): (r: Option<Value>)
    ensures arg.scalarType == "Boolean" ==> (r.Some? <==> !v.Undefined?) && (r.Some? ==> r.value == Bool(true))
    ensures arg.scalarType != "Boolean" ==> (r.Some? <==> !v.Undefined? && !v.Bool?) && (r.Some? ==> r.value == v)
  {
    if arg.scalarType == "Boolean" && !v.Undefined? then Some(Bool(true))
    else if !v.Undefined? && !v.Bool? then Some(v)
    else None
  }

  /** `state` is the initial state the form builds from the known values `args`
      for the declared arguments `specs`: it holds exactly the declared keys
      whose known value yields an initial value, with that value. */
  ghost predicate IsInitialState(specs: seq<ArgSpec>, args: Option<Object>, state: Object)
  {
    && (args.None? ==> state == map[])
    && (args.Some? ==>
          && (forall k :: k in state ==> k in args.value && Declared(specs, k).Some?)
          && (forall k :: k in args.value && Declared(specs, k).Some? ==>
                (k in state <==> InitialValue(Declared(specs, k).value, args.value[k]).Some?))
          && (forall k :: k in state ==> Some(state[k]) == InitialValue(Declared(specs, k).value, args.value[k])))
  }

  /** The `initialState` reduce over `Object.keys(args || {})`. */
  method InitialState(specs: seq<ArgSpec>, args: Option<Object>) returns (state: Object)
    ensures IsInitialState(specs, args, state)
  {
    state := map[];
    if args.None? {
      return;
    }
    var known := args.value;
    var pending := known.Keys;
    while pending != {}
      invariant pending <= known.Keys
      invariant forall k :: k in state ==> k in known && k !in pending && Declared(specs, k).Some?
      invariant forall k :: k in state ==> Some(state[k]) == InitialValue(Declared(specs, k).value, known[k])
      invariant forall k :: k in known && k !in pending && Declared(specs, k).Some? ==>
                  (k in state <==> InitialValue(Declared(specs, k).value, known[k]).Some?)
      decreases pending
    {
      var key :| key in pending;
      var arg := Declared(specs, key);
      if arg.Some? {
        var value := known[key];
        var isBoolType := arg.value.scalarType == "Boolean";
        var isUndefined := value.Undefined?;
        var isBoolValue := value.Bool?;
        if isBoolType && !isUndefined {
          state := state[key := Bool(true)];
        } else if !isUndefined && !isBoolValue {
          state := state[key := value];
        }
      }
      pending := pending - {key};
    }
  }

  /** An argument may take the focus: it is not a "boolean" and its state value is falsy. */
  predicate Focusable(state: Object, fa: ArgSpec)
  {
    fa.rawType != "boolean" && !Truthy(Get(state, fa.name))
  }

  /** `autoFocuscommand`: the first argument, in declaration order, that may take the focus. */
  function AutoFocus(specs: seq<ArgSpec>, state: Object): (r: Option<ArgSpec>)
    ensures r.None? <==> forall i :: 0 <= i < |specs| ==> !Focusable(state, specs[i])
    ensures r.Some? ==> exists i :: 0 <= i < |specs| && specs[i] == r.value && Focusable(state, r.value) &&
                                    forall j :: 0 <= j < i ==> !Focusable(state, specs[j])
  {
    Seqs.Find(specs, (fa: ArgSpec) => Focusable(state, fa))
  }

  /** The field `arg` renders as, given the state and the auto-focused argument. */
  function FieldFor(arg: ArgSpec, state: Object, focus: Option<ArgSpec>): (f: Field)
    ensures f.name == arg.name && f.required == arg.required && f.description == arg.description
    ensures f.control.Checkbox? <==> arg.rawType == "boolean"
    ensures f.control.Checkbox? ==> (f.control.checked <==> Truthy(Get(state, arg.name)))
    ensures f.control.TextInput? ==> f.control.value == (if Get(state, arg.name).Str? then Get(state, arg.name).s else "")
    ensures f.control.TextInput? ==> (f.control.autoFocus <==> focus.Some? && focus.value.name == arg.name)
  {
    var value := Get(state, arg.name);
    var control :=
      if arg.rawType == "boolean" then Checkbox(Truthy(value))
      else TextInput(if value.Str? then value.s else "", focus.Some? && focus.value.name == arg.name);
    Field(arg.name, arg.required, arg.description, control)
  }

  /** Every field of the form, in declaration order. */
  function Fields(specs: seq<ArgSpec>, state: Object): (fs: seq<Field>)
    ensures |fs| == |specs|
    ensures forall i :: 0 <= i < |specs| ==> fs[i] == FieldFor(specs[i], state, AutoFocus(specs, state))
  {
    var focus := AutoFocus(specs, state);
    seq(|specs|, i requires 0 <= i < |specs| => FieldFor(specs[i], state, focus))
  }

  predicate IsFocused(f: Field)
  {
    f.control.TextInput? && f.control.autoFocus
  }

  /** Argument names are unique within a command. */
  ghost predicate UniqueNames(specs: seq<ArgSpec>)
  {
    forall i, j :: 0 <= i < j < |specs| ==> specs[i].name != specs[j].name
  }

  /** With unique argument names exactly one text field has the focus when some
      argument may take it, and none otherwise. */
  lemma FocusIsUnique(specs: seq<ArgSpec>, state: Object)
    requires UniqueNames(specs)
    ensures var fs := Fields(specs, state);
      forall i, j :: 0 <= i < |fs| && 0 <= j < |fs| && IsFocused(fs[i]) && IsFocused(fs[j]) ==> i == j
    ensures var fs := Fields(specs, state);
      AutoFocus(specs, state).Some? <==> exists i :: 0 <= i < |fs| && IsFocused(fs[i])
  {
  }

  class CliForm {
    /** The command's declared arguments. */
    const specs: seq<ArgSpec>
    /** The reducer-managed state: argument name to value. */
    var state: Object

    constructor (specs: seq<ArgSpec>, args: Option<Object>)
      ensures this.specs == specs && IsInitialState(specs, args, state)
    {
      var initial := InitialState(specs, args);
      this.specs := specs;
      state := initial;
    }

    /** `dispatch(action)`. */
    method Dispatch(action: Action)
      modifies this
      ensures state == Reduce(old(state), action)
    {
      state := Reduce(state, action);
    }

    /** A checkbox's `onChange`: records whether it is now checked. */
    method CheckboxChanged(name: string, checked: bool)
      modifies this
      ensures state == old(state)[name := Bool(checked)]
    {
      Dispatch(Update(map[name := Bool(checked)]));
    }

    /** A text input's `onChange`: records the text typed so far. */
    method TextChanged(name: string, text: string)
      modifies this
      ensures state == old(state)[name := Str(text)]
    {
      Dispatch(Update(map[name := Str(text)]));
    }

    /** `onSubmit`: hands the current state, unchanged, to `props.onSubmit`. */
    method Submit() returns (submitted: Object)
      ensures submitted == state
    {
      submitted := state;
    }
  }

}
