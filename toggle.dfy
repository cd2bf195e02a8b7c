/**
 * The feature-toggle slice of the application state: a map from flag names to
 * booleans, the action that changes one flag, and the reducer that applies it.
 * A flag that is not in the map reads as `false`.
 */
module Toggle {
  import opened Wrappers

  /** The `type` tag that every toggle action carries. */
  const ToggleType: string := "@@GOLANGCI/TOGGLE"

  /** The flag map (`IStore`). */
  type Store = map<string, bool>

  /** The slice as the combined reducer exposes it (`IToggleStore`). */
  datatype ToggleStore = ToggleStore(store: Store)

  /**
   * Any action the reducer may receive. Only actions whose `kind` is
   * `ToggleType` are acted on; `value` is `None` when the action creator was
   * called without a value.
   */
  datatype Action = Action(kind: string, name: string, value: Option<bool>)

  /** The state the reducer starts from when it is given none. */
  const DefaultStore: Store := map[]

  /** The value a consumer reads for flag `name`: absent counts as `false`. */
  function Get(s: Store, name: string): (b: bool)
    ensures name !in s ==> !b
    ensures name in s ==> b == s[name]
  {
    name in s && s[name]
  }

  /** The action creator `toggle(name, value?)`. */
  function MakeToggle(name: string, value: Option<bool>): (a: Action)
    ensures a.kind == ToggleType
    ensures a.name == name && a.value == value
  {
    Action(ToggleType, name, value)
  }

  /**
   * The reducer `store`. A toggle action without a value inverts the flag, one
   * with a value sets it to that value; the result is the old map with that one
   * key written. Every other action leaves the state as it is.
   */
  function Reduce(state: Store, action: Action): (r: Store)
    ensures action.kind == ToggleType ==>
      && r.Keys == state.Keys + {action.name}
      && (action.value.None? ==> r[action.name] == !Get(state, action.name))
      && (action.value.Some? ==> r[action.name] == action.value.value)
      && (forall k :: k in state && k != action.name ==> r[k] == state[k])
    ensures action.kind != ToggleType ==> r == state
  {
    if action.kind == ToggleType then
      var newValue := if action.value.None? then !Get(state, action.name) else action.value.value;
      state[action.name := newValue]
    else
      state
  }

  /**
   * The reducer `store` with its default parameter: an undefined state is
   * replaced by the empty map before the action is applied.
   */
  function StoreReducer(state: Option<Store>, action: Action): (r: Store)
    ensures state.None? ==> r == Reduce(DefaultStore, action)
    ensures state.None? && action.kind != ToggleType ==> r == map[]
    ensures state.Some? ==> r == Reduce(state.value, action)
  {
    Reduce(state.GetOr(DefaultStore), action)
  }

  /**
   * `toggleReducer = combineReducers({store})`: the slice reducer applied to the
   * `store` field of the slice, or to nothing when the slice is undefined.
   */
  function ToggleReducer(state: Option<ToggleStore>, action: Action): (r: ToggleStore)
    ensures state.Some? ==> r.store == Reduce(state.value.store, action)
    ensures state.None? ==> r.store == Reduce(DefaultStore, action)
  {
    match state
    case None => ToggleStore(StoreReducer(None, action))
    case Some(t) => ToggleStore(StoreReducer(Some(t.store), action))
  }

  /** `toggle(n)` negates the value read at `n`, absent reading as false. */
  lemma FlipNegates(s: Store, n: string)
    ensures Get(Reduce(s, MakeToggle(n, None)), n) == !Get(s, n)
    ensures n in Reduce(s, MakeToggle(n, None))
  {
  }

  /** `toggle(n, v)` sets `n` to exactly `v`, whatever was there. */
  lemma SetIsExact(s: Store, n: string, v: bool)
    ensures var r := Reduce(s, MakeToggle(n, Some(v))); n in r && r[n] == v
  {
  }

  /** A toggle action touches only its own key, and that key is present after it. */
  lemma FrameOfToggle(s: Store, n: string, v: Option<bool>, k: string)
    requires k != n
    ensures var r := Reduce(s, MakeToggle(n, v));
      && n in r
      && (k in r <==> k in s)
      && (k in s ==> r[k] == s[k])
  {
  }

  /**
   * Toggling `n` twice restores the value read at `n` and every other entry;
   * the only possible difference is that `n` is now present.
   */
  lemma ToggleTwiceRestoresRead(s: Store, n: string)
    ensures var r := Reduce(Reduce(s, MakeToggle(n, None)), MakeToggle(n, None));
      && Get(r, n) == Get(s, n)
      && r.Keys == s.Keys + {n}
      && (forall k :: k in s ==> r[k] == s[k])
  {
  }

  /** The map after toggling an absent flag twice differs from the original. */
  lemma ToggleTwiceMayAddKey(n: string)
    ensures Reduce(Reduce(map[], MakeToggle(n, None)), MakeToggle(n, None)) == map[n := false]
    ensures Reduce(Reduce(map[], MakeToggle(n, None)), MakeToggle(n, None)) != map[]
  {
  }

  /** Setting a flag twice to the same value is the same as setting it once. */
  lemma SetIsIdempotent(s: Store, n: string, v: bool)
    ensures Reduce(Reduce(s, MakeToggle(n, Some(v))), MakeToggle(n, Some(v)))
         == Reduce(s, MakeToggle(n, Some(v)))
  {
  }

  /** An action of any other type returns the state unchanged. */
  lemma OtherActionsPassThrough(s: Store, a: Action)
    requires a.kind != ToggleType
    ensures Reduce(s, a) == s
    ensures ToggleReducer(Some(ToggleStore(s)), a) == ToggleStore(s)
  {
  }

  /** With no state, the reducer starts from the empty map. */
  lemma DefaultIsEmpty(a: Action)
    ensures ToggleReducer(None, a).store == Reduce(map[], a)
    ensures a.kind != ToggleType ==> ToggleReducer(None, a) == ToggleStore(map[])
    ensures a.kind == ToggleType ==>
      ToggleReducer(None, a).store == map[a.name := if a.value.None? then true else a.value.value]
  {
  }
}
