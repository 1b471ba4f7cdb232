/**
 * `ThemeManager`: a registry of themes keyed by name (ordinal comparison), the
 * current theme, and the default and fallback themes fixed at construction.
 *
 * The behaviour is stated twice, as in a specification and its implementation:
 * `Manager` and the functions `Create`, `Register`, `Switch` and `Lookup` give the
 * abstract state and the effect of each call, and the class `ThemeManager` updates
 * its fields in place and proves that each method has exactly that effect. The
 * `ThemeChanged` event is a ghost log of (old, new) pairs: a raise appends one
 * entry, whoever is subscribed.
 */
module ThemeManagement {
  import opened Wrappers
  import opened Text
  import opened Arguments
  import opened Theming

  /** The payload of one `ThemeChanged` raise. */
  datatype ThemeChange = ThemeChange(oldTheme: Theme, newTheme: Theme)

  /** The abstract state of a manager: its fields plus the log of raised events. */
  datatype Manager = Manager(
    defaultTheme: Theme,
    fallbackTheme: Theme,
    themes: map<string, Theme>,
    current: Theme,
    events: seq<ThemeChange>)

  /** `t` is registered, under its own name. */
  predicate Registered(m: Manager, t: Theme) {
    t.name in m.themes && m.themes[t.name] == t
  }

  /**
   * The event log is a chain of switches that starts at the default theme and ends
   * at the current one; no event switches a theme to itself.
   */
  predicate EventsChain(start: Theme, events: seq<ThemeChange>, current: Theme) {
    && (forall i :: 0 <= i < |events| ==> events[i].oldTheme != events[i].newTheme)
    && (forall i :: 0 < i < |events| ==> events[i].oldTheme == events[i - 1].newTheme)
    && (if events == [] then current == start
        else events[0].oldTheme == start && events[|events| - 1].newTheme == current)
  }

  /**
   * What holds of every manager a caller can observe: each key is a non-blank name
   * holding the theme of that name; the default theme, and the fallback theme when
   * its name differs, are registered; the fallback's name is registered in any case;
   * the current theme and the target of every logged switch are registry values.
   */
  predicate Inv(m: Manager) {
    && (forall k :: k in m.themes ==> !IsBlank(k) && m.themes[k].name == k)
    && Registered(m, m.defaultTheme)
    && m.fallbackTheme.name in m.themes
    && (m.fallbackTheme.name != m.defaultTheme.name ==> Registered(m, m.fallbackTheme))
    && Registered(m, m.current)
    && (forall i :: 0 <= i < |m.events| ==> Registered(m, m.events[i].newTheme))
    && EventsChain(m.defaultTheme, m.events, m.current)
  }

  /**
   * `RegisterTheme`: a null theme or a blank name throws; a name already present
   * returns false and changes nothing; a new name is added and returns true. The
   * registry never changes an existing entry and never touches the event log.
   */
  function Register(m: Manager, theme: Option<Theme>): (r: Result<(bool, Manager), Error>)
    ensures theme.None? ==> r == Failure(ArgumentNullException("theme"))
    ensures theme.Some? && IsBlank(theme.value.name) ==> r == Failure(ArgumentException("theme"))
    ensures r.Success? <==> theme.Some? && !IsBlank(theme.value.name)
    ensures r.Success? && theme.value.name in m.themes ==> r.value == (false, m)
    ensures r.Success? && theme.value.name !in m.themes ==>
              && r.value.0
              && r.value.1.themes.Keys == m.themes.Keys + {theme.value.name}
              && r.value.1.themes[theme.value.name] == theme.value
              && (forall k :: k in m.themes ==> r.value.1.themes[k] == m.themes[k])
              && r.value.1 == m.(themes := r.value.1.themes)
  {
    if theme.None? then Failure(ArgumentNullException("theme"))
    else if IsBlank(theme.value.name) then Failure(ArgumentException("theme"))
    else if theme.value.name in m.themes then Success((false, m))
    else Success((true, m.(themes := m.themes[theme.value.name := theme.value])))
  }

  /**
   * `SetTheme`: false, with nothing changed, for a blank name, an unknown name or
   * the theme that is already current; otherwise the named theme becomes current
   * and exactly one (old, new) event is logged.
   */
  function Switch(m: Manager, name: string): (r: (bool, Manager))
    ensures !r.0 <==> IsBlank(name) || name !in m.themes || m.themes[name] == m.current
    ensures !r.0 ==> r.1 == m
    ensures r.0 ==> && r.1.current == m.themes[name] && r.1.current != m.current
                    && r.1.events == m.events + [ThemeChange(m.current, r.1.current)]
                    && r.1.themes == m.themes
                    && r.1.defaultTheme == m.defaultTheme && r.1.fallbackTheme == m.fallbackTheme
  {
    if IsBlank(name) || name !in m.themes || m.themes[name] == m.current then (false, m)
    else (true, m.(current := m.themes[name], events := m.events + [ThemeChange(m.current, m.themes[name])]))
  }

  /** `GetTheme`: absent for a blank or unknown name, otherwise the registered theme. */
  function Lookup(m: Manager, name: string): (r: Option<Theme>)
    ensures r.Some? <==> !IsBlank(name) && name in m.themes
    ensures r.Some? ==> r.value == m.themes[name]
  {
    if IsBlank(name) then None
    else if name in m.themes then Some(m.themes[name])
    else None
  }

  /**
   * The `ThemeManager` constructor: a null default or fallback throws naming that
   * parameter; the default becomes current and is registered first, then the
   * fallback, and a blank name makes that registration throw. A fallback that
   * shares the default's name is silently not registered.
   */
  function Create(defaultTheme: Option<Theme>, fallbackTheme: Option<Theme>): (r: Result<Manager, Error>)
    ensures defaultTheme.None? ==> r == Failure(ArgumentNullException("defaultTheme"))
    ensures defaultTheme.Some? && fallbackTheme.None? ==> r == Failure(ArgumentNullException("fallbackTheme"))
    ensures defaultTheme.Some? && fallbackTheme.Some? ==>
              (r.Success? <==> !IsBlank(defaultTheme.value.name) && !IsBlank(fallbackTheme.value.name))
    ensures defaultTheme.Some? && fallbackTheme.Some? && r.Failure? ==> r.error == ArgumentException("theme")
    ensures r.Success? ==>
              && r.value.defaultTheme == defaultTheme.value && r.value.fallbackTheme == fallbackTheme.value
              && r.value.current == defaultTheme.value && r.value.events == []
              && r.value.themes.Keys == {defaultTheme.value.name, fallbackTheme.value.name}
              && r.value.themes[defaultTheme.value.name] == defaultTheme.value
  {
    if defaultTheme.None? then Failure(ArgumentNullException("defaultTheme"))
    else if fallbackTheme.None? then Failure(ArgumentNullException("fallbackTheme"))
    else
      var empty := Manager(defaultTheme.value, fallbackTheme.value, map[], defaultTheme.value, []);
      var first :- Register(empty, defaultTheme);
      var second :- Register(first.1, fallbackTheme);
      Success(second.1)
  }

  /** A successfully constructed manager satisfies the invariant. */
  lemma CreateEstablishesInv(defaultTheme: Option<Theme>, fallbackTheme: Option<Theme>)
    requires Create(defaultTheme, fallbackTheme).Success?
    ensures Inv(Create(defaultTheme, fallbackTheme).value)
  {
  }

  /**
   * Construction registers both themes when their names differ, and only the
   * default (the fallback's registration returning false) when they coincide.
   */
  lemma CreateRegistersBoth(defaultTheme: Theme, fallbackTheme: Theme)
    requires !IsBlank(defaultTheme.name) && !IsBlank(fallbackTheme.name)
    ensures var m := Create(Some(defaultTheme), Some(fallbackTheme)).value;
            && Lookup(m, defaultTheme.name) == Some(defaultTheme)
            && (defaultTheme.name != fallbackTheme.name ==> Lookup(m, fallbackTheme.name) == Some(fallbackTheme))
            && (defaultTheme.name == fallbackTheme.name ==> m.themes == map[defaultTheme.name := defaultTheme])
  {
  }

  /** `RegisterTheme` keeps the invariant. */
  lemma RegisterPreservesInv(m: Manager, theme: Option<Theme>)
    requires Inv(m) && Register(m, theme).Success?
    ensures Inv(Register(m, theme).value.1)
  {
    var m' := Register(m, theme).value.1;
    forall i | 0 <= i < |m'.events| ensures Registered(m', m'.events[i].newTheme) {
      assert Registered(m, m.events[i].newTheme);
    }
  }

  /** After a registration that returned true, `GetTheme` finds the new theme and every other name answers as before. */
  lemma RegisterThenLookup(m: Manager, theme: Theme, name: string)
    requires !IsBlank(theme.name) && theme.name !in m.themes
    ensures name == theme.name ==> Lookup(Register(m, Some(theme)).value.1, name) == Some(theme)
    ensures name != theme.name ==> Lookup(Register(m, Some(theme)).value.1, name) == Lookup(m, name)
  {
  }

  /**
   * Under the invariant the registry entry of a name is the current theme exactly
   * when the name is the current theme's: every entry carries its own key as name.
   * So the source's reference comparison and the model's value comparison agree.
   */
  lemma CurrentEntryIsByName(m: Manager, name: string)
    requires Inv(m) && name in m.themes
    ensures m.themes[name] == m.current <==> name == m.current.name
  {
  }

  /** `SetTheme` on the current theme's name reports no change and logs nothing. */
  lemma SwitchToCurrentIsNoChange(m: Manager)
    requires Inv(m)
    ensures Switch(m, m.current.name) == (false, m)
  {
  }

  /** `SetTheme` keeps the invariant. */
  lemma SwitchPreservesInv(m: Manager, name: string)
    requires Inv(m)
    ensures Inv(Switch(m, name).1)
  {
    var (changed, m') := Switch(m, name);
    if changed {
      var n := |m.events|;
      assert m'.events[n] == ThemeChange(m.current, m'.current);
      forall i | 0 <= i < |m'.events| ensures Registered(m', m'.events[i].newTheme) {
        if i < n {
          assert m'.events[i] == m.events[i];
        }
      }
      forall i | 0 < i < |m'.events| ensures m'.events[i].oldTheme == m'.events[i - 1].newTheme {
        if i < n {
          assert m'.events[i] == m.events[i] && m'.events[i - 1] == m.events[i - 1];
        } else if n > 0 {
          assert m'.events[i - 1] == m.events[n - 1];
        }
      }
    }
  }

  /** A call on the manager, as a value; the queries change nothing and are left out of it. */
  datatype Op = RegisterOp(theme: Option<Theme>) | SetThemeOp(name: string)

  /** What a call did: returned a boolean, or threw. */
  datatype Outcome = Returned(value: bool) | Threw(error: Error)

  /** One call: a throwing `RegisterTheme` leaves the state as it was. */
  function Step(m: Manager, op: Op): (Outcome, Manager) {
    match op
    case RegisterOp(theme) =>
      (match Register(m, theme)
       case Success((added, m')) => (Returned(added), m')
       case Failure(e) => (Threw(e), m))
    case SetThemeOp(name) =>
      var (changed, m') := Switch(m, name);
      (Returned(changed), m')
  }

  /** A sequence of calls: the outcome of each, and the final state. */
  function Run(m: Manager, ops: seq<Op>): (r: (seq<Outcome>, Manager))
    ensures |r.0| == |ops|
    decreases ops
  {
    if ops == [] then ([], m)
    else
      var (o, m1) := Step(m, ops[0]);
      var (os, m2) := Run(m1, ops[1..]);
      ([o] + os, m2)
  }

  /** How many of the calls were `SetTheme` calls that returned true. */
  function SuccessfulSwitches(ops: seq<Op>, outcomes: seq<Outcome>): nat
    requires |outcomes| == |ops|
  {
    if ops == [] then 0
    else (if ops[0].SetThemeOp? && outcomes[0] == Returned(true) then 1 else 0)
         + SuccessfulSwitches(ops[1..], outcomes[1..])
  }

  /** Every sequence of calls keeps the invariant. */
  lemma {:induction false} RunPreservesInv(m: Manager, ops: seq<Op>)
    requires Inv(m)
    decreases ops
    ensures Inv(Run(m, ops).1)
  {
    if ops != [] {
      match ops[0]
      case RegisterOp(theme) =>
        if Register(m, theme).Success? {
          RegisterPreservesInv(m, theme);
        }
        RunPreservesInv(Step(m, ops[0]).1, ops[1..]);
      case SetThemeOp(name) =>
        SwitchPreservesInv(m, name);
        RunPreservesInv(Step(m, ops[0]).1, ops[1..]);
    }
  }

  /**
   * The registry only grows: no call removes a name or replaces its theme, and the
   * default and fallback themes are never reassigned.
   */
  lemma {:induction false} RunOnlyGrowsRegistry(m: Manager, ops: seq<Op>)
    decreases ops
    ensures var m' := Run(m, ops).1;
            && m.themes.Keys <= m'.themes.Keys
            && (forall k :: k in m.themes ==> m'.themes[k] == m.themes[k])
            && m'.defaultTheme == m.defaultTheme && m'.fallbackTheme == m.fallbackTheme
  {
    if ops != [] {
      RunOnlyGrowsRegistry(Step(m, ops[0]).1, ops[1..]);
    }
  }

  /**
   * The event log only grows, and by exactly one entry per `SetTheme` call that
   * returned true.
   */
  lemma {:induction false} RunLogsOneEventPerSwitch(m: Manager, ops: seq<Op>)
    decreases ops
    ensures var (outcomes, m') := Run(m, ops);
            && m.events <= m'.events
            && |m'.events| == |m.events| + SuccessfulSwitches(ops, outcomes)
  {
    if ops != [] {
      var (o, m1) := Step(m, ops[0]);
      RunLogsOneEventPerSwitch(m1, ops[1..]);
      var (os, m2) := Run(m1, ops[1..]);
      assert Run(m, ops).0[1..] == os;
    }
  }

  /**
   * The class itself. `defaultTheme` and `fallbackTheme` are read-only, `themes` and
   * `current` are updated in place, and `events` records each `ThemeChanged` raise.
   */
  class ThemeManager {
    const defaultTheme: Theme
    const fallbackTheme: Theme
    var themes: map<string, Theme>
    var current: Theme
    ghost var events: seq<ThemeChange>

    /** The abstract state of this object. */
    ghost function State(): Manager
      reads this
    {
      Manager(defaultTheme, fallbackTheme, themes, current, events)
    }

    ghost predicate Valid()
      reads this
    {
      Inv(State())
    }

    /**
     * The constructor for non-null themes: the fields are set, then the default and
     * the fallback are registered in that order. A blank name would make a
     * registration throw, so it is excluded here; `New` covers every argument.
     */
    constructor(defaultTheme: Theme, fallbackTheme: Theme)
      requires !IsBlank(defaultTheme.name) && !IsBlank(fallbackTheme.name)
      ensures Create(Some(defaultTheme), Some(fallbackTheme)) == Success(State())
      ensures Valid()
    {
      this.defaultTheme := defaultTheme;
      this.fallbackTheme := fallbackTheme;
      current := defaultTheme;
      themes := map[];
      events := [];
      new;
      var first := RegisterTheme(Some(defaultTheme));
      var second := RegisterTheme(Some(fallbackTheme));
      CreateEstablishesInv(Some(defaultTheme), Some(fallbackTheme));
    }

    /** `new ThemeManager(defaultTheme, fallbackTheme)` with possibly null arguments. */
    static method New(defaultTheme: Option<Theme>, fallbackTheme: Option<Theme>) returns (r: Result<ThemeManager, Error>)
      ensures r.Failure? <==> Create(defaultTheme, fallbackTheme).Failure?
      ensures r.Failure? ==> r.error == Create(defaultTheme, fallbackTheme).error
      ensures r.Success? ==> fresh(r.value) && r.value.Valid()
                             && Create(defaultTheme, fallbackTheme) == Success(r.value.State())
    {
      if defaultTheme.None? {
        return Failure(ArgumentNullException("defaultTheme"));
      }
      if fallbackTheme.None? {
        return Failure(ArgumentNullException("fallbackTheme"));
      }
      if IsBlank(defaultTheme.value.name) || IsBlank(fallbackTheme.value.name) {
        return Failure(ArgumentException("theme"));
      }
      var manager := new ThemeManager(defaultTheme.value, fallbackTheme.value);
      return Success(manager);
    }

    /** `RegisterTheme`: has exactly the effect of `Register`, and keeps `Valid()`. */
    method RegisterTheme(theme: Option<Theme>) returns (r: Result<bool, Error>)
      modifies this
      ensures r.Failure? <==> Register(old(State()), theme).Failure?
      ensures r.Failure? ==> r.error == Register(old(State()), theme).error && State() == old(State())
      ensures r.Success? ==> Register(old(State()), theme).value == (r.value, State())
      ensures old(Valid()) ==> Valid()
    {
      if theme.None? {
        return Failure(ArgumentNullException("theme"));
      }
      if IsBlank(theme.value.name) {
        return Failure(ArgumentException("theme"));
      }
      if theme.value.name in themes {
        return Success(false);
      }
      ghost var before := State();
      themes := themes[theme.value.name := theme.value];
      if Inv(before) {
        RegisterPreservesInv(before, theme);
      }
      return Success(true);
    }

    /** `SetTheme`: has exactly the effect of `Switch`, and keeps `Valid()`. */
    method SetTheme(name: string) returns (changed: bool)
      modifies this
      ensures Switch(old(State()), name) == (changed, State())
      ensures old(Valid()) ==> Valid()
    {
      if IsBlank(name) {
        return false;
      }
      if name !in themes {
        return false;
      }
      var theme := themes[name];
      if theme == current {
        return false;
      }
      ghost var before := State();
      var previous := current;
      current := theme;
      events := events + [ThemeChange(previous, current)];
      if Inv(before) {
        SwitchPreservesInv(before, name);
      }
      return true;
    }

    /** `GetTheme`: absent for a blank or unknown name, otherwise the registered theme. */
    function GetTheme(name: string): (r: Option<Theme>)
      reads this
      ensures r.Some? <==> !IsBlank(name) && name in themes
      ensures r.Some? ==> r.value == themes[name] && (Valid() ==> r.value.name == name)
    {
      if IsBlank(name) then None
      else if name in themes then Some(themes[name])
      else None
    }

    /** `GetRegisteredThemeNames`: the names `GetTheme` finds, default and fallback among them. */
    function GetRegisteredThemeNames(): (names: set<string>)
      reads this
      ensures Valid() ==> forall n :: n in names <==> GetTheme(n).Some?
      ensures Valid() ==> defaultTheme.name in names && fallbackTheme.name in names
    {
      themes.Keys
    }
  }
}
