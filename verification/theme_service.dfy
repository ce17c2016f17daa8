/** The two-state theme store of src/core/services/ThemeService.ts: current theme, observer
    list, the persisted `'theme'` entry and the styling it applies to the document root.
    localStorage and the document are an explicit `Env`; the ambient dark-mode preference
    is an input; notifications are returned as an ordered trace. */
module ThemeService {
  import opened Optional

  datatype Theme = Light | Dark

  function Name(t: Theme): string {
    if t == Light then "light" else "dark"
  }

  /** Which stored strings name a theme that has a palette. */
  function Parse(s: string): (r: Option<Theme>)
    ensures r.Some? <==> (s == "light" || s == "dark")
    ensures r.Some? ==> Name(r.value) == s
  {
    if s == "light" then Some(Light) else if s == "dark" then Some(Dark) else None
  }

  lemma ParseName(t: Theme)
    ensures Parse(Name(t)) == Some(t)
  {
  }

  /** The theme a toggle switches to: dark from light, light from dark. */
  function Opposite(t: Theme): Theme {
    if t == Light then Dark else Light
  }

  /** The colour tokens of one theme (ThemeColors in IComponent.ts). */
  datatype Palette = Palette(primary: string, secondary: string, accent: string,
                             background: string, surface: string, text: string,
                             textSecondary: string, border: string)

  /** The palette keys in declaration order, which is the order `Object.entries` visits them. */
  const PaletteKeys: seq<string> :=
    ["primary", "secondary", "accent", "background", "surface", "text", "textSecondary", "border"]

  function Values(p: Palette): (vs: seq<string>)
    ensures |vs| == |PaletteKeys|
  {
    [p.primary, p.secondary, p.accent, p.background, p.surface, p.text, p.textSecondary, p.border]
  }

  /** The two fixed palettes. The store never writes to them, and the model takes them as
      constants: callers and observers are assumed not to mutate the palette object they are
      handed. */
  function PaletteOf(t: Theme): Palette {
    match t
    case Light => Palette("#6366f1", "#8b5cf6", "#ec4899", "#ffffff",
                          "#f8fafc", "#1e293b", "#64748b", "#e2e8f0")
    case Dark => Palette("#818cf8", "#a78bfa", "#f472b6", "#0f172a",
                         "#1e293b", "#f1f5f9", "#94a3b8", "#334155")
  }

  const StorageKey: string := "theme"
  const ThemeAttribute: string := "data-theme"

  function CssVariable(key: string): string {
    "--color-" + key
  }

  /** The eight custom properties a theme writes. */
  const CssVariables: set<string> := set i | 0 <= i < |PaletteKeys| :: CssVariable(PaletteKeys[i])

  /** The root element's attributes and inline style properties. */
  datatype Document = Document(attributes: map<string, string>, style: map<string, string>)

  /** What the store reads and writes outside itself: localStorage and the document root. */
  datatype Env = Env(storage: map<string, string>, document: Document)

  type ObserverId = nat

  /** The `{ theme, colors }` payload passed to every observer. */
  datatype ThemeChange = ThemeChange(theme: Theme, colors: Palette)

  /** One `update` call: which observer received which payload. */
  datatype Notification<D> = Notification(observer: ObserverId, change: D)

  datatype Store = Store(current: Theme, observers: seq<ObserverId>)

  /** The outcome of one operation: new store, new environment, notifications in delivery order. */
  datatype Step = Step(store: Store, env: Env, notified: seq<Notification<ThemeChange>>)

  function Names(ds: seq<(string, string)>): set<string> {
    set i | 0 <= i < |ds| :: ds[i].0
  }

  /** Sets each `(name, value)` pair in order, as repeated `style.setProperty` calls do:
      a later declaration of the same name wins. */
  function SetAll(m: map<string, string>, ds: seq<(string, string)>): (r: map<string, string>)
    ensures r.Keys == m.Keys + Names(ds)
    ensures forall k :: k in m && k !in Names(ds) ==> r[k] == m[k]
    ensures forall i :: 0 <= i < |ds| && ds[i].0 !in Names(ds[i+1..]) ==> r[ds[i].0] == ds[i].1
    decreases |ds|
  {
    if ds == [] then m
    else
      var rest := ds[1..];
      assert Names(ds) == {ds[0].0} + Names(rest) by {
        forall k | k in Names(ds) ensures k in {ds[0].0} + Names(rest) {
          var i :| 0 <= i < |ds| && ds[i].0 == k;
          if i > 0 { assert rest[i - 1].0 == k; }
        }
        forall k | k in Names(rest) ensures k in Names(ds) {
          var i :| 0 <= i < |rest| && rest[i].0 == k;
          assert ds[i + 1].0 == k;
        }
      }
      assert forall i :: 1 <= i < |ds| ==> ds[i+1..] == rest[i..];
      SetAll(m[ds[0].0 := ds[0].1], rest)
  }

  /** The declarations `applyTheme` writes for a palette: `--color-<key>` set to that key's colour. */
  function Declarations(p: Palette): (ds: seq<(string, string)>)
    ensures |ds| == |PaletteKeys|
    ensures forall i :: 0 <= i < |ds| ==> ds[i] == (CssVariable(PaletteKeys[i]), Values(p)[i])
  {
    seq(|PaletteKeys|, i requires 0 <= i < |PaletteKeys| => (CssVariable(PaletteKeys[i]), Values(p)[i]))
  }

  /** The document shows theme `t`: its attribute names it and every palette variable holds
      that theme's colour. */
  predicate Applied(doc: Document, t: Theme) {
    Shows(doc, Name(t), PaletteOf(t))
  }

  /** The document carries theme name `name` and the colours of `p`. */
  predicate Shows(doc: Document, name: string, p: Palette) {
    && ThemeAttribute in doc.attributes
    && doc.attributes[ThemeAttribute] == name
    && forall i :: 0 <= i < |PaletteKeys| ==>
         CssVariable(PaletteKeys[i]) in doc.style
         && doc.style[CssVariable(PaletteKeys[i])] == Values(p)[i]
  }

  lemma KeysDistinct()
    ensures forall i, j :: 0 <= i < j < |PaletteKeys| ==> PaletteKeys[i] != PaletteKeys[j]
  {
  }

  lemma CssVariableInjective(a: string, b: string)
    ensures CssVariable(a) == CssVariable(b) ==> a == b
  {
    if CssVariable(a) == CssVariable(b) {
      assert a == CssVariable(a)[8..];
      assert b == CssVariable(b)[8..];
    }
  }

  lemma DeclarationsDistinct(p: Palette)
    ensures forall i :: 0 <= i < |PaletteKeys| ==>
      Declarations(p)[i].0 !in Names(Declarations(p)[i+1..])
    ensures Names(Declarations(p)) == CssVariables
  {
    var ds := Declarations(p);
    KeysDistinct();
    forall i | 0 <= i < |PaletteKeys|
      ensures ds[i].0 !in Names(ds[i+1..])
    {
      if ds[i].0 in Names(ds[i+1..]) {
        var j :| 0 <= j < |ds[i+1..]| && ds[i+1..][j].0 == ds[i].0;
        assert ds[i + 1 + j].0 == ds[i].0;
        CssVariableInjective(PaletteKeys[i + 1 + j], PaletteKeys[i]);
        assert false;
      }
    }
  }

  /** `applyTheme`: sets `data-theme`, then one custom property per palette key. */
  function ApplyTheme(doc: Document, t: Theme): (r: Document)
    ensures Applied(r, t)
    ensures r.attributes == doc.attributes[ThemeAttribute := Name(t)]
    ensures r.style.Keys == doc.style.Keys + CssVariables
    ensures forall k :: k in doc.style && k !in CssVariables ==> r.style[k] == doc.style[k]
  {
    ApplyPalette(doc, Name(t), PaletteOf(t))
  }

  /** The body of `applyTheme` for any theme name and palette. */
  function ApplyPalette(doc: Document, name: string, p: Palette): (r: Document)
    ensures Shows(r, name, p)
    ensures r.attributes == doc.attributes[ThemeAttribute := name]
    ensures r.style.Keys == doc.style.Keys + CssVariables
    ensures forall k :: k in doc.style && k !in CssVariables ==> r.style[k] == doc.style[k]
  {
    DeclarationsDistinct(p);
    Document(doc.attributes[ThemeAttribute := name], SetAll(doc.style, Declarations(p)))
  }

  /** The stored theme as the constructor's `if (savedTheme)` sees it: absent and empty are alike. */
  function Saved(env: Env): Option<string> {
    if StorageKey in env.storage && env.storage[StorageKey] != "" then Some(env.storage[StorageKey])
    else None
  }

  /** A stored string without a palette makes `applyTheme` throw after it has written the
      attribute; the error records the document as the throw leaves it. */
  datatype InitError = ColorsUndefined(theme: string, document: Document)

  /** The constructor: the stored theme if there is one, else the ambient preference, then applied.
      Storage is only read. */
  function Init(env: Env, prefersDark: bool): (r: Result<(Store, Env), InitError>)
    ensures Saved(env).None? ==> r.Ok? && r.value.0.current == (if prefersDark then Dark else Light)
    ensures Saved(env).Some? ==> (r.Ok? <==> Parse(Saved(env).value).Some?)
    ensures r.Ok? && Saved(env).Some? ==> Name(r.value.0.current) == Saved(env).value
    ensures r.Ok? ==> r.value.0.observers == []
    ensures r.Ok? ==> r.value.1.storage == env.storage
    ensures r.Ok? ==> Applied(r.value.1.document, r.value.0.current)
    ensures r.Ok? ==> r.value.1.document == ApplyTheme(env.document, r.value.0.current)
    ensures r.Err? ==> Saved(env).Some? && r.error.theme == Saved(env).value
    ensures r.Err? ==>
              r.error.document ==
              Document(env.document.attributes[ThemeAttribute := Saved(env).value], env.document.style)
  {
    match Saved(env)
    case Some(saved) =>
      (match Parse(saved)
       case Some(t) => Ok((Store(t, []), Env(env.storage, ApplyTheme(env.document, t))))
       case None =>
         Err(ColorsUndefined(saved, Document(env.document.attributes[ThemeAttribute := saved],
                                             env.document.style))))
    case None =>
      var t := if prefersDark then Dark else Light;
      Ok((Store(t, []), Env(env.storage, ApplyTheme(env.document, t))))
  }

  /** `getInstance`: constructs on first use only; afterwards the same store, environment untouched. */
  function GetInstance(instance: Option<Store>, env: Env, prefersDark: bool)
    : (r: Result<(Store, Env), InitError>)
    ensures instance.Some? ==> r == Ok((instance.value, env))
    ensures instance.None? ==> r == Init(env, prefersDark)
  {
    match instance
    case Some(s) => Ok((s, env))
    case None => Init(env, prefersDark)
  }

  lemma SingleInstance(env: Env, prefersDark: bool, later: Env, laterPrefersDark: bool)
    ensures var built := GetInstance(None, env, prefersDark);
            built.Ok? ==> GetInstance(Some(built.value.0), later, laterPrefersDark) == Ok((built.value.0, later))
  {
  }

  function Subscribe(s: Store, o: ObserverId): (r: Store)
    ensures r.observers == s.observers + [o]
    ensures r.current == s.current
  {
    s.(observers := s.observers + [o])
  }

  /** The observer list with every registration of `o` removed and the rest in their order. */
  function Without(obs: seq<ObserverId>, o: ObserverId): (r: seq<ObserverId>)
    ensures o !in r
    ensures forall x :: x in r <==> x in obs && x != o
    ensures forall x :: x != o ==> multiset(r)[x] == multiset(obs)[x]
    ensures o !in obs ==> r == obs
  {
    if obs == [] then []
    else
      assert obs == [obs[0]] + obs[1..];
      if obs[0] == o then Without(obs[1..], o)
      else [obs[0]] + Without(obs[1..], o)
  }

  /** Filtering works piecewise, so the survivors keep their relative order. */
  lemma {:induction false} WithoutDistributes(a: seq<ObserverId>, b: seq<ObserverId>, o: ObserverId)
    ensures Without(a + b, o) == Without(a, o) + Without(b, o)
  {
    if a == [] {
      assert a + b == b;
    } else {
      assert (a + b)[1..] == a[1..] + b;
      WithoutDistributes(a[1..], b, o);
    }
  }

  function Unsubscribe(s: Store, o: ObserverId): (r: Store)
    ensures r.observers == Without(s.observers, o)
    ensures r.current == s.current
  {
    s.(observers := Without(s.observers, o))
  }

  /** Every registration, in subscription order, receives the payload once. */
  function Notify<D>(obs: seq<ObserverId>, change: D): (r: seq<Notification<D>>)
    ensures |r| == |obs|
    ensures forall i :: 0 <= i < |r| ==> r[i] == Notification(obs[i], change)
  {
    if obs == [] then [] else [Notification(obs[0], change)] + Notify(obs[1..], change)
  }

  /** How many of the notifications `ns` go to observer `o`. */
  function NotificationsTo<D>(o: ObserverId, ns: seq<Notification<D>>): nat {
    if ns == [] then 0 else (if ns[0].observer == o then 1 else 0) + NotificationsTo(o, ns[1..])
  }

  /** Each observer hears a change once per registration it holds. */
  lemma {:induction false} NotifiedOncePerRegistration<D>(obs: seq<ObserverId>, o: ObserverId, change: D)
    ensures NotificationsTo(o, Notify(obs, change)) == multiset(obs)[o]
  {
    if obs != [] {
      NotifiedOncePerRegistration(obs[1..], o, change);
      assert Notify(obs, change)[1..] == Notify(obs[1..], change);
      assert obs == [obs[0]] + obs[1..];
    }
  }

  /** Subscribing the same observer twice (there is no duplicate check) makes it hear every change
      twice, back to back at the end of the round. */
  lemma DuplicateHearsTwice<D>(obs: seq<ObserverId>, o: ObserverId, change: D)
    ensures var r := Notify(obs + [o, o], change);
      |r| == |obs| + 2 && r[|obs|] == Notification(o, change) && r[|obs| + 1] == Notification(o, change)
    ensures NotificationsTo(o, Notify(obs + [o, o], change)) == multiset(obs)[o] + 2
  {
    NotifiedOncePerRegistration(obs + [o, o], o, change);
    assert multiset(obs + [o, o]) == multiset(obs) + multiset{o, o};
  }

  /** `getTheme`: the store's current theme, which is always one of the two with a palette, and
      whose stored name reads back as itself. */
  function GetTheme(s: Store): (t: Theme)
    ensures t == s.current
    ensures Name(t) == "light" || Name(t) == "dark"
    ensures Parse(Name(t)) == Some(t)
  {
    s.current
  }

  /** `getThemeColors`: the palette of the current theme, so the two getters never disagree, and
      the colours alone tell which theme is on. */
  function GetThemeColors(s: Store): (p: Palette)
    ensures p == PaletteOf(GetTheme(s))
    ensures p != PaletteOf(Opposite(GetTheme(s)))
  {
    PaletteOf(s.current)
  }

  /** While the document shows the current theme, the colours `getThemeColors` hands out are
      exactly the values of the page's custom properties. */
  lemma ColorsMatchDocument(s: Store, env: Env)
    requires Applied(env.document, GetTheme(s))
    ensures forall i :: 0 <= i < |PaletteKeys| ==>
      env.document.style[CssVariable(PaletteKeys[i])] == Values(GetThemeColors(s))[i]
  {
  }

  /** `setTheme`: persist, apply, then notify once with the new theme and its palette,
      even when the theme does not change. */
  function SetTheme(s: Store, env: Env, t: Theme): (r: Step)
    ensures GetTheme(r.store) == t
    ensures r.store.observers == s.observers
    ensures r.env.storage == env.storage[StorageKey := Name(t)]
    ensures Parse(r.env.storage[StorageKey]) == Some(t)
    ensures r.env.document == ApplyTheme(env.document, t)
    ensures r.notified == Notify(s.observers, ThemeChange(t, PaletteOf(t)))
  {
    var store := s.(current := t);
    var env' := Env(env.storage[StorageKey := Name(t)], ApplyTheme(env.document, t));
    Step(store, env', Notify(store.observers, ThemeChange(store.current, GetThemeColors(store))))
  }

  /** `toggleTheme`: light becomes dark, anything else becomes light; then as `setTheme`. */
  function ToggleTheme(s: Store, env: Env): (r: Step)
    ensures GetTheme(r.store) != GetTheme(s)
    ensures r == SetTheme(s, env, Opposite(s.current))
  {
    var t := if s.current == Light then Dark else Light;
    var store := s.(current := t);
    var env' := Env(env.storage[StorageKey := Name(t)], ApplyTheme(env.document, t));
    Step(store, env', Notify(store.observers, ThemeChange(store.current, GetThemeColors(store))))
  }

  /** Two toggles restore the theme and notify every registration twice, old theme last. */
  lemma ToggleTwice(s: Store, env: Env)
    ensures var first := ToggleTheme(s, env);
            var second := ToggleTheme(first.store, first.env);
            && GetTheme(second.store) == GetTheme(s)
            && second.store == s
            && first.notified + second.notified ==
               Notify(s.observers, ThemeChange(Opposite(s.current), PaletteOf(Opposite(s.current))))
               + Notify(s.observers, ThemeChange(s.current, PaletteOf(s.current)))
  {
  }

  /** The outcome of `SetAll` depends only on what the map held outside the declared names. */
  lemma {:induction false} SetAllAgree(m1: map<string, string>, m2: map<string, string>,
                                       ds: seq<(string, string)>)
    requires forall k :: k !in Names(ds) ==> (k in m1 <==> k in m2)
    requires forall k :: k in m1 && k in m2 && k !in Names(ds) ==> m1[k] == m2[k]
    ensures SetAll(m1, ds) == SetAll(m2, ds)
    decreases |ds|
  {
    if ds == [] {
      assert m1 == m2;
    } else {
      var rest := ds[1..];
      assert forall k :: k in Names(rest) ==> k in Names(ds) by {
        forall k | k in Names(rest) ensures k in Names(ds) {
          var i :| 0 <= i < |rest| && rest[i].0 == k;
          assert ds[i + 1].0 == k;
        }
      }
      assert ds[0].0 in Names(ds);
      SetAllAgree(m1[ds[0].0 := ds[0].1], m2[ds[0].0 := ds[0].1], rest);
    }
  }

  /** Repeating the same declarations changes nothing. */
  lemma SetAllIdempotent(m: map<string, string>, ds: seq<(string, string)>)
    ensures SetAll(SetAll(m, ds), ds) == SetAll(m, ds)
  {
    SetAllAgree(SetAll(m, ds), m, ds);
  }

  /** Re-applying the theme already shown leaves the document as it is. */
  lemma ApplyThemeIdempotent(doc: Document, t: Theme)
    ensures ApplyTheme(ApplyTheme(doc, t), t) == ApplyTheme(doc, t)
  {
    ApplyPaletteIdempotent(doc, Name(t), PaletteOf(t));
  }

  lemma ApplyPaletteIdempotent(doc: Document, name: string, p: Palette)
    ensures ApplyPalette(ApplyPalette(doc, name, p), name, p) == ApplyPalette(doc, name, p)
  {
    SetAllIdempotent(doc.style, Declarations(p));
  }

  /** Setting the same theme again changes no state but still notifies. */
  lemma SetThemeTwice(s: Store, env: Env, t: Theme)
    ensures var first := SetTheme(s, env, t);
            var second := SetTheme(first.store, first.env, t);
            && second.store == first.store
            && second.env == first.env
            && second.notified == first.notified
  {
    ApplyThemeIdempotent(env.document, t);
  }

  /** A store call as a page would issue it. */
  datatype Command = SubscribeCmd(o: ObserverId) | UnsubscribeCmd(o: ObserverId)
                   | SetThemeCmd(t: Theme) | ToggleCmd

  function Apply(s: Store, env: Env, c: Command): Step {
    match c
    case SubscribeCmd(o) => Step(Subscribe(s, o), env, [])
    case UnsubscribeCmd(o) => Step(Unsubscribe(s, o), env, [])
    case SetThemeCmd(t) => SetTheme(s, env, t)
    case ToggleCmd => ToggleTheme(s, env)
  }

  /** Runs commands in order, concatenating their notifications. */
  function Run(s: Store, env: Env, cs: seq<Command>): Step
    decreases |cs|
  {
    if cs == [] then Step(s, env, [])
    else
      var first := Apply(s, env, cs[0]);
      var rest := Run(first.store, first.env, cs[1..]);
      Step(rest.store, rest.env, first.notified + rest.notified)
  }

  /** The document always shows the current theme once the store is up. */
  lemma {:induction false} RunKeepsApplied(s: Store, env: Env, cs: seq<Command>)
    requires Applied(env.document, s.current)
    ensures Applied(Run(s, env, cs).env.document, Run(s, env, cs).store.current)
    decreases |cs|
  {
    if cs != [] {
      RunKeepsApplied(Apply(s, env, cs[0]).store, Apply(s, env, cs[0]).env, cs[1..]);
    }
  }

  /** No notification in `ns` is addressed to `o`. */
  predicate Silent<D>(ns: seq<Notification<D>>, o: ObserverId) {
    forall i :: 0 <= i < |ns| ==> ns[i].observer != o
  }

  /** After `unsubscribe(o)`, `o` hears nothing until it subscribes again, however many
      times it had been registered. */
  lemma UnsubscribedHearsNothing(s: Store, env: Env, o: ObserverId, cs: seq<Command>)
    requires forall i :: 0 <= i < |cs| ==> cs[i] != SubscribeCmd(o)
    ensures Silent(Run(Unsubscribe(s, o), env, cs).notified, o)
  {
    UnsubscribedStaysOut(Unsubscribe(s, o), env, o, cs);
  }

  lemma ApplyKeepsOut(s: Store, env: Env, c: Command, o: ObserverId)
    requires o !in s.observers
    requires c != SubscribeCmd(o)
    ensures o !in Apply(s, env, c).store.observers
    ensures Silent(Apply(s, env, c).notified, o)
  {
    match c
    case SubscribeCmd(o') =>
      assert o' != o;
    case UnsubscribeCmd(o') =>
    case SetThemeCmd(t) =>
    case ToggleCmd =>
  }

  lemma {:induction false} UnsubscribedStaysOut(s: Store, env: Env, o: ObserverId, cs: seq<Command>)
    requires o !in s.observers
    requires forall i :: 0 <= i < |cs| ==> cs[i] != SubscribeCmd(o)
    ensures Silent(Run(s, env, cs).notified, o)
    decreases |cs|
  {
    if cs != [] {
      var first := Apply(s, env, cs[0]);
      ApplyKeepsOut(s, env, cs[0], o);
      var rest := Run(first.store, first.env, cs[1..]);
      UnsubscribedStaysOut(first.store, first.env, o, cs[1..]);
      var all := first.notified + rest.notified;
      assert Run(s, env, cs).notified == all;
      forall i | 0 <= i < |all| ensures all[i].observer != o {
        if i < |first.notified| {
          assert all[i] == first.notified[i];
        } else {
          assert all[i] == rest.notified[i - |first.notified|];
        }
      }
    }
  }

  function SetThemes(ts: seq<Theme>): seq<Command>
    ensures |SetThemes(ts)| == |ts|
  {
    if ts == [] then [] else [SetThemeCmd(ts[0])] + SetThemes(ts[1..])
  }

  /** After any non-empty sequence of `setTheme` calls the last value is current and persisted. */
  lemma {:induction false} LastSetWins(s: Store, env: Env, ts: seq<Theme>)
    requires |ts| > 0
    ensures var r := Run(s, env, SetThemes(ts));
            && GetTheme(r.store) == ts[|ts| - 1]
            && StorageKey in r.env.storage
            && r.env.storage[StorageKey] == Name(ts[|ts| - 1])
    decreases |ts|
  {
    var cs := SetThemes(ts);
    assert cs[0] == SetThemeCmd(ts[0]);
    assert cs[1..] == SetThemes(ts[1..]);
    var first := SetTheme(s, env, ts[0]);
    var rest := Run(first.store, first.env, cs[1..]);
    assert Run(s, env, cs).store == rest.store && Run(s, env, cs).env == rest.env;
    if |ts| == 1 {
      assert rest.store == first.store && rest.env == first.env;
    } else {
      LastSetWins(first.store, first.env, ts[1..]);
    }
  }

  /** One full notification round per theme, in call order. */
  function Broadcasts(obs: seq<ObserverId>, ts: seq<Theme>): seq<Notification<ThemeChange>> {
    if ts == [] then []
    else Notify(obs, ThemeChange(ts[0], PaletteOf(ts[0]))) + Broadcasts(obs, ts[1..])
  }

  /** Each of those calls notified every registration once, with its own theme and palette,
      in call order, and the observer list stayed as it was. */
  lemma {:induction false} SetThemesNotifyAll(s: Store, env: Env, ts: seq<Theme>)
    ensures Run(s, env, SetThemes(ts)).store.observers == s.observers
    ensures Run(s, env, SetThemes(ts)).notified == Broadcasts(s.observers, ts)
    decreases |ts|
  {
    if ts != [] {
      var cs := SetThemes(ts);
      assert cs[0] == SetThemeCmd(ts[0]);
      assert cs[1..] == SetThemes(ts[1..]);
      var first := SetTheme(s, env, ts[0]);
      SetThemesNotifyAll(first.store, first.env, ts[1..]);
    }
  }
}
