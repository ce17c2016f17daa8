# Portfolio website core services, modelled in Dafny

The portfolio site is mostly presentation markup. Four small TypeScript modules carry its
logic, and this project models them:

- **PortfolioItemFactory** normalises raw content records into a tagged union of project,
  skill and experience items. It fills list and boolean defaults, clamps a skill's level
  into [0, 100] and rejects an unknown tag.
- **ThemeService** is a light/dark theme store. It persists the theme under the
  localStorage key `theme` and writes `data-theme` and one `--color-<key>` custom property
  per palette key on the document root. It notifies observers in subscription order, once
  per registration.
- **EventBus** maps each event name to its callbacks in registration order. `off` removes
  only the first matching registration.
- **AnimationService** keeps a registry of animation strategies keyed by name. `animate`
  dispatches on `config.type || 'fade'`. The four built-in strategies (fade, slide, scale,
  bounce) are described by the transition they set and the start and end states they write.
  `observeElement` animates an element once when it scrolls into view.

Every service is an immutable value: `Store`, `Bus`, `Service` and `Watch`. Each operation
is a pure function from the old value to the new one. The outside world is modelled as
plain data:

- localStorage and the document root are the maps of `ThemeService.Env`.
- `matchMedia('(prefers-color-scheme: dark)')` is a boolean argument.
- Observers, callbacks and elements are opaque numeric identities.
- A notification, callback invocation or `animate` call is an entry of a returned trace.
- The `getInstance` singletons take the current instance slot as an `Option`.
- JavaScript's `undefined`/`null` is `None`, and a thrown error is `Err`.
- The truthiness tests of `||`, `??` and `if (savedTheme)` are written out: 0 and `""`
  count as absent where the source uses `||` or a bare `if`.

Files: `optional.dfy` (Option/Result), `portfolio_item_factory.dfy`, `theme_service.dfy`,
`event_bus.dfy`, `animation_service.dfy`.

Three behaviours follow the code rather than what a reader of the services' interfaces might expect:

- **Stored theme is not validated.** The stored theme string is cast, not validated. A stored
  value other than `light` or `dark` makes the constructor throw when `applyTheme` calls
  `Object.entries` on a missing palette. By then `data-theme` has already been written.
  `ThemeService.Init` returns that error.
- **No fallback for storage or `matchMedia`.** Storage failures are not caught, and a missing
  `matchMedia` is not defaulted to dark. Neither fallback is modelled.
- **`createMultiple` does not validate records.** It rejects a batch only for an unknown tag;
  it does not validate the records themselves.

## Model

| member | source | states |
|---|---|---|
| PortfolioItemFactory.CreateProject | src/core/factories/PortfolioItemFactory.ts:6-13 | tag is `project`; `featured` is true exactly when the input says `true`, so absent means false; `technologies` is the input list or `[]`; id, title, description and URLs are copied |
| PortfolioItemFactory.CreateSkill | src/core/factories/PortfolioItemFactory.ts:16-22 | tag is `skill`; level lies in [0, 100] and is the input when in range, 100 above, 0 below; other fields copied |
| PortfolioItemFactory.CreateExperience | src/core/factories/PortfolioItemFactory.ts:25-31 | tag is `experience`; `achievements` is the input list or `[]`; company, position and dates copied |
| PortfolioItemFactory.CreateItem | src/core/factories/PortfolioItemFactory.ts:34-48 | succeeds exactly for the three known tags, with an item whose discriminant is the tag and which is well formed; any other tag fails with UnknownItemType carrying that tag |
| PortfolioItemFactory.CreateMultiple | src/core/factories/PortfolioItemFactory.ts:51-56 | succeeds exactly when the batch is empty or the tag is known; the result has the input's length and its i-th item is `createItem(tag, records[i])`; otherwise the whole batch fails with UnknownItemType |
| PortfolioItemFactory.RoundTrip | src/core/factories/PortfolioItemFactory.ts:6-31 | rebuilding an item from its own fields gives the same item exactly when the item is well formed (skill level in range) |
| PortfolioItemFactory.Idempotent | src/core/factories/PortfolioItemFactory.ts:37-47 | normalising an already normalised item returns it unchanged |
| PortfolioItemFactory.StampOverridesType | src/core/factories/PortfolioItemFactory.ts:7-28 | a stray `type` field in the input never reaches the result: the item's variant is always the one the creator stamps |
| ThemeService.Parse | src/core/services/ThemeService.ts:34-36 | exactly `light` and `dark` name a theme with a palette, and parsing inverts naming |
| ThemeService.SetAll | src/core/services/ThemeService.ts:95-97 | successive `setProperty` calls add exactly the declared names, leave other properties alone, and a declaration not repeated later keeps its value |
| ThemeService.DeclarationsDistinct | src/core/services/ThemeService.ts:9-30 | the eight palette keys yield eight distinct `--color-<key>` names, so each is written once |
| ThemeService.ApplyTheme | src/core/services/ThemeService.ts:88-98 | sets `data-theme` to the theme and every `--color-<key>` to that key's colour; no other attribute or property changes |
| ThemeService.ApplyPalette | src/core/services/ThemeService.ts:88-98 | the same writes for any theme name and palette: the document shows that name and those colours, and nothing else changes |
| ThemeService.ApplyThemeIdempotent | src/core/services/ThemeService.ts:88-98 | applying the same theme twice leaves the document as applying it once |
| ThemeService.Init | src/core/services/ThemeService.ts:32-42 | a non-empty stored value is used when it is `light`/`dark` and otherwise fails, naming that stored string, after writing it to `data-theme` with the style untouched; with no stored value the preference picks dark or light; on success the document is exactly `applyTheme` of the chosen theme on the original document, the store has no observers and storage is not written |
| ThemeService.GetInstance | src/core/services/ThemeService.ts:45-50 | an existing instance is returned unchanged with the environment untouched; otherwise the constructor runs |
| ThemeService.SingleInstance | src/core/services/ThemeService.ts:45-50 | every later call returns the instance the first call built |
| ThemeService.Subscribe | src/core/services/ThemeService.ts:53-55 | appends the observer, duplicates allowed, theme unchanged |
| ThemeService.Without | src/core/services/ThemeService.ts:57-59 | removes every occurrence of the observer, keeps every other registration with its multiplicity, no-op when absent |
| ThemeService.WithoutDistributes | src/core/services/ThemeService.ts:57-59 | removal works piecewise over concatenation, so the survivors keep their relative order |
| ThemeService.Unsubscribe | src/core/services/ThemeService.ts:57-59 | the observer list loses exactly the matching observer; theme unchanged |
| ThemeService.Notify | src/core/services/ThemeService.ts:61-63 | one notification per registration, in subscription order, each with the same payload |
| ThemeService.NotifiedOncePerRegistration | src/core/services/ThemeService.ts:61-63 | each observer receives as many notifications as it holds registrations |
| ThemeService.DuplicateHearsTwice | src/core/services/ThemeService.ts:53-63 | an observer subscribed twice more is notified twice more, by the last two notifications of the round |
| ThemeService.GetTheme | src/core/services/ThemeService.ts:66-68 | returns the store's current theme, which is always `light` or `dark` and whose name parses back to it; `SetTheme` and `LastSetWins` state what it returns after `setTheme` calls |
| ThemeService.GetThemeColors | src/core/services/ThemeService.ts:70-72 | the palette of the theme `getTheme` reports, which differs from the other theme's palette; `ColorsMatchDocument` ties it to the page's custom properties |
| ThemeService.ColorsMatchDocument | src/core/services/ThemeService.ts:70-72 | while the theme is applied, the colours `getThemeColors` returns are the values of the page's palette properties |
| ThemeService.SetTheme | src/core/services/ThemeService.ts:81-86 | afterwards `getTheme` is the new theme, storage `theme` holds its name, the document shows it and every registration is notified once with the theme and its palette |
| ThemeService.SetThemeTwice | src/core/services/ThemeService.ts:81-86 | setting the current theme again changes no state yet notifies again with the same payload |
| ThemeService.LastSetWins | src/core/services/ThemeService.ts:81-86 | after any non-empty sequence of `setTheme` calls the last theme is current and is the persisted value |
| ThemeService.SetThemesNotifyAll | src/core/services/ThemeService.ts:81-86 | a sequence of `setTheme` calls keeps the observer list and notifies every registration once per call, in call order, each time with that call's theme and palette |
| ThemeService.ToggleTheme | src/core/services/ThemeService.ts:74-79 | the theme changes, and the call is `setTheme` of the opposite theme |
| ThemeService.ToggleTwice | src/core/services/ThemeService.ts:74-79 | two toggles restore the store, and notify every registration with the opposite theme and then the original one |
| ThemeService.RunKeepsApplied | src/core/services/ThemeService.ts:74-98 | any sequence of subscribe, unsubscribe, set and toggle calls keeps the document showing the current theme |
| ThemeService.UnsubscribedHearsNothing | src/core/services/ThemeService.ts:57-63 | once unsubscribed, an observer receives no notification from any later calls that do not subscribe it again |
| ThemeService.UnsubscribedStaysOut | src/core/services/ThemeService.ts:53-63 | an observer that is not registered stays unregistered and unnotified through any calls that do not subscribe it |
| EventBus.New | src/integration/EventBus.ts:8-10 | a new bus has no events |
| EventBus.GetInstance | src/integration/EventBus.ts:12-17 | an existing bus is returned as is; otherwise an empty one is built |
| EventBus.On | src/integration/EventBus.ts:19-24 | appends the callback to the event's list, creating it when absent; every other event's list is unchanged |
| EventBus.IndexOf | src/integration/EventBus.ts:29 | the first position holding the callback, or -1 exactly when it is absent |
| EventBus.SpliceRemovesFirst | src/integration/EventBus.ts:29-32 | splicing at that index is removal of the first occurrence |
| EventBus.RemoveFirstCounts | src/integration/EventBus.ts:26-34 | removal drops exactly one copy of a present callback and changes nothing otherwise |
| EventBus.Off | src/integration/EventBus.ts:26-34 | removes only the first registration of the callback for that event; no-op for an unknown event or absent callback; no other event changes |
| EventBus.Emit | src/integration/EventBus.ts:36-41 | calls each registered callback once, in registration order, with the data; nothing for an unknown event |
| EventBus.EmitAfterOn | src/integration/EventBus.ts:19-41 | a newly registered callback runs after all earlier ones |
| EventBus.OnThenOffRestores | src/integration/EventBus.ts:19-34 | `on` then `off` of an unregistered callback restores the event's list, leaving at most an empty list where none was |
| EventBus.OnThenOffWhenRegistered | src/integration/EventBus.ts:19-34 | with the callback already registered, `on` then `off` removes the earlier registration and keeps the new one at the end |
| EventBus.Clear | src/integration/EventBus.ts:43-45 | no event remains registered |
| EventBus.ClearSilences | src/integration/EventBus.ts:43-45 | after `clear`, `emit` calls nothing and `off` changes nothing |
| AnimationService.OrNumber | src/core/services/AnimationService.ts:10-11 | `x || fallback` on numbers: a non-zero value is kept, and absent or 0 gives the fallback |
| AnimationService.OrString | src/core/services/AnimationService.ts:13 | `x || fallback` on strings: a non-empty value is kept, and absent or empty gives the fallback |
| AnimationService.Execute | src/core/services/AnimationService.ts:8-67 | default durations 300/400/350/600 and delay 0 unless overridden; easing from the config or `ease`/`ease-out`, bounce using its fixed curve and `ease`; fade animates opacity only, the others transform then opacity; every strategy goes from opacity 0 to 1 |
| AnimationService.EndsAtRest | src/core/services/AnimationService.ts:28-66 | slide goes from translateY(20px) to translateY(0), scale from scale(0.9) to scale(1), bounce from scale(0) to scale(1) |
| AnimationService.ZeroMeansDefault | src/core/services/AnimationService.ts:10-57 | an explicit 0 duration or delay, or an empty easing, behaves exactly as if it were absent |
| AnimationService.IgnoredFields | src/core/services/AnimationService.ts:54-66 | bounce's result does not depend on `easing`, and no strategy's result depends on `type` |
| AnimationService.New | src/core/services/AnimationService.ts:74-81 | the registry holds exactly fade, slide, scale and bounce, each bound to its built-in |
| AnimationService.RegisterStrategy | src/core/services/AnimationService.ts:84-86 | the name maps to the new strategy (last write wins) and every other entry is unchanged |
| AnimationService.Animate | src/core/services/AnimationService.ts:88-99 | a null element has no effect; otherwise `config.type || 'fade'` runs its registered strategy exactly once, or only logs the not-found warning |
| AnimationService.FreshServiceDispatch | src/core/services/AnimationService.ts:74-98 | on a fresh service exactly the four built-in names run something, and a missing type fades |
| AnimationService.RegisterThenAnimate | src/core/services/AnimationService.ts:84-98 | after a registration its name runs the new strategy and every other type dispatches as before |
| AnimationService.ObserveElement | src/core/services/AnimationService.ts:102-119 | watches exactly the given element with the given config, and with threshold 0.1 when no options are passed |
| AnimationService.OnIntersection | src/core/services/AnimationService.ts:107-114 | every intersecting entry is animated once, in entry order, and its element is no longer watched; other entries do nothing |
| AnimationService.AnimatedAtMostOnce | src/core/services/AnimationService.ts:107-117 | over any number of intersection batches an element is animated at most once, and never when it was not watched |

## Left out

- The cross-framework mount (src/integration/VueInReact.tsx) is not part of this model. It is
  lifecycle glue around the React and Vue libraries, whose behaviour is not visible here.
- The React components, App.tsx, the `useTheme` and `useAnimation` hooks and vite.config.ts
  are not modelled. They are static content or wiring around the services above.
- The `transition` text: it is kept as structured `TimedProperty` entries rather than the
  CSS string, since formatting numbers into text adds nothing to the behaviour.
- The 10 ms `setTimeout` before the end state: it is a second frame of style writes
  (`Transition.end`) with no clock.
- `console.warn`: it is the `Warned` effect.
- Floating point: skill levels, durations and delays are integers, so NaN and fractional
  values are not modelled.
- Re-entrancy: an observer or callback that calls back into the store or bus during a
  notification or emit is not modelled. Callbacks are opaque identities with no behaviour.
- Palette aliasing: `getThemeColors` returns the store's own palette object
  (src/core/services/ThemeService.ts:71), and `setTheme`/`toggleTheme` hand that same object
  to every observer as `colors` (lines 78 and 85). `ThemeColors` has no `readonly` fields, so
  a caller that assigned to one would change what later `applyTheme` calls write. The model
  takes both palettes as constants and so assumes nobody mutates the object they are handed;
  `GetThemeColors`, `ColorsMatchDocument` and `SetThemeTwice` rest on that assumption.
- Exceptions thrown by observers and callbacks are not modelled. In the source, an observer
  whose `update` throws stops the notification loop (src/core/services/ThemeService.ts:62)
  after storage was written and the theme applied, so later observers are not notified; a
  callback that throws stops `emit`'s loop (src/integration/EventBus.ts:39) the same way.
  The model always notifies every registration and calls every callback.
- Extra fields: fields beyond a variant's declared shape, which the object spread would copy
  into the item, are not carried by the typed items.
- PortfolioItemFactory.CreateItem: requires the record's shape to match the tag, as the
  TypeScript overloads demand. A record of another shape passed through `createMultiple`'s
  untyped array would build a malformed item, which the model does not represent.
- ThemeService.Init: a stored value naming an inherited `Object.prototype` member (such as
  `toString`) does not throw in JavaScript, but the model treats every value other than
  `light`/`dark` as the failing case.
- localStorage and `matchMedia` exceptions: the source does not catch them, and the model
  has no failing storage.
- The observer's `disconnect`, `root` and `rootMargin` are not modelled, and neither is a
  threshold list; the options are reduced to a single threshold.
- The browser side of IntersectionObserver: it is assumed to report only watched elements
  (`Deliverable`).
- AnimationService.AnimatedAtMostOnce: assumes each batch has at most one intersecting entry
  per element. Within a single batch that lists an element twice, the source's `forEach`
  would animate it twice, since unobserving does not drop entries already delivered.
