/** The animation dispatcher of src/core/services/AnimationService.ts: a registry of
    strategies keyed by type name, dispatch rules, the four built-in strategies as pure
    descriptions of the style writes they make, and one-shot intersection-triggered animation.
    Elements are opaque identities; a strategy's effect is a `Transition` value. */
module AnimationService {
  import opened Optional

  type ElementId = nat

  /** AnimationConfig of IComponent.ts; `kind` is its `type` field, which at run time may hold
      any string. */
  datatype AnimationConfig = AnimationConfig(duration: Option<int>, delay: Option<int>,
                                             easing: Option<string>, kind: Option<string>)

  /** JavaScript's `x || fallback` on a number: absent and 0 are falsy. */
  function OrNumber(x: Option<int>, fallback: int): (r: int)
    ensures r == fallback <==> (x.None? || x.value == 0 || x.value == fallback)
    ensures x.Some? && x.value != 0 ==> r == x.value
  {
    if x.None? || x.value == 0 then fallback else x.value
  }

  /** JavaScript's `s || fallback` on a string: absent and empty are falsy. */
  function OrString(x: Option<string>, fallback: string): (r: string)
    ensures x.Some? && x.value != "" ==> r == x.value
    ensures x.None? || x.value == "" ==> r == fallback
  {
    if x.None? || x.value == "" then fallback else x.value
  }

  datatype Builtin = Fade | Slide | Scale | Bounce

  /** A registered strategy: one of the four classes, or one a caller supplied, known by identity. */
  datatype Strategy = BuiltinStrategy(builtin: Builtin) | CustomStrategy(id: nat)

  /** One `transition` entry: `<property> <duration>ms <easing> <delay>ms`. */
  datatype TimedProperty = TimedProperty(property: string, duration: int, easing: string, delay: int)

  /** The inline `transform` and `opacity` a strategy writes; `None` leaves transform untouched. */
  datatype VisualState = VisualState(transform: Option<string>, opacity: string)

  /** What a strategy does to its element: the transition it sets, the state written at once,
      and the state written on the next frame. */
  datatype Transition = Transition(timing: seq<TimedProperty>, start: VisualState, end: VisualState)

  const BounceCurve: string := "cubic-bezier(0.68, -0.55, 0.265, 1.55)"

  function DefaultDuration(b: Builtin): int {
    match b
    case Fade => 300
    case Slide => 400
    case Scale => 350
    case Bounce => 600
  }

  function DefaultEasing(b: Builtin): string {
    if b == Fade then "ease" else "ease-out"
  }

  /** A built-in strategy's `execute`, read off the style writes it performs. */
  function Execute(b: Builtin, config: AnimationConfig): (r: Transition)
    ensures |r.timing| == (if b == Fade then 1 else 2)
    ensures forall i :: 0 <= i < |r.timing| ==>
      && r.timing[i].duration == OrNumber(config.duration, DefaultDuration(b))
      && r.timing[i].delay == OrNumber(config.delay, 0)
    ensures b != Bounce ==> forall i :: 0 <= i < |r.timing| ==>
      r.timing[i].easing == OrString(config.easing, DefaultEasing(b))
    ensures b == Bounce ==> r.timing[0].easing == BounceCurve && r.timing[1].easing == "ease"
    ensures r.timing[|r.timing| - 1].property == "opacity"
    ensures b != Fade ==> r.timing[0].property == "transform"
    ensures r.start.opacity == "0" && r.end.opacity == "1"
    ensures b == Fade <==> r.start.transform.None?
    ensures b == Fade <==> r.end.transform.None?
  {
    var duration := OrNumber(config.duration, DefaultDuration(b));
    var delay := OrNumber(config.delay, 0);
    match b
    case Fade =>
      var easing := OrString(config.easing, "ease");
      Transition([TimedProperty("opacity", duration, easing, delay)],
                 VisualState(None, "0"), VisualState(None, "1"))
    case Slide =>
      var easing := OrString(config.easing, "ease-out");
      Transition([TimedProperty("transform", duration, easing, delay),
                  TimedProperty("opacity", duration, easing, delay)],
                 VisualState(Some("translateY(20px)"), "0"), VisualState(Some("translateY(0)"), "1"))
    case Scale =>
      var easing := OrString(config.easing, "ease-out");
      Transition([TimedProperty("transform", duration, easing, delay),
                  TimedProperty("opacity", duration, easing, delay)],
                 VisualState(Some("scale(0.9)"), "0"), VisualState(Some("scale(1)"), "1"))
    case Bounce =>
      Transition([TimedProperty("transform", duration, BounceCurve, delay),
                  TimedProperty("opacity", duration, "ease", delay)],
                 VisualState(Some("scale(0)"), "0"), VisualState(Some("scale(1)"), "1"))
  }

  /** The transform each built-in ends at is the identity of the transform it starts from. */
  lemma EndsAtRest(b: Builtin, config: AnimationConfig)
    ensures var r := Execute(b, config);
            && (b == Slide ==> r.start.transform == Some("translateY(20px)")
                               && r.end.transform == Some("translateY(0)"))
            && (b == Scale ==> r.start.transform == Some("scale(0.9)") && r.end.transform == Some("scale(1)"))
            && (b == Bounce ==> r.start.transform == Some("scale(0)") && r.end.transform == Some("scale(1)"))
  {
  }

  /** Because `||` is used, an explicit duration or delay of 0 is the same as none. */
  lemma ZeroMeansDefault(b: Builtin, config: AnimationConfig)
    ensures Execute(b, config.(duration := Some(0))) == Execute(b, config.(duration := None))
    ensures Execute(b, config.(delay := Some(0))) == Execute(b, config.(delay := None))
    ensures Execute(b, config.(easing := Some(""))) == Execute(b, config.(easing := None))
  {
  }

  /** Bounce never reads `easing`, and no strategy reads `type`. */
  lemma IgnoredFields(b: Builtin, config: AnimationConfig, easing: Option<string>, kind: Option<string>)
    ensures Execute(Bounce, config.(easing := easing)) == Execute(Bounce, config)
    ensures Execute(b, config.(kind := kind)) == Execute(b, config)
  {
  }

  /** The strategy registry. */
  datatype Service = Service(strategies: map<string, Strategy>)

  /** The constructor registers exactly the four built-ins under their names. */
  function New(): (s: Service)
    ensures s.strategies.Keys == {"fade", "slide", "scale", "bounce"}
    ensures s.strategies["fade"] == BuiltinStrategy(Fade)
    ensures s.strategies["slide"] == BuiltinStrategy(Slide)
    ensures s.strategies["scale"] == BuiltinStrategy(Scale)
    ensures s.strategies["bounce"] == BuiltinStrategy(Bounce)
  {
    Service(map["fade" := BuiltinStrategy(Fade), "slide" := BuiltinStrategy(Slide),
                "scale" := BuiltinStrategy(Scale), "bounce" := BuiltinStrategy(Bounce)])
  }

  /** `registerStrategy`: inserts or overwrites one entry; last write wins. */
  function RegisterStrategy(s: Service, name: string, strategy: Strategy): (r: Service)
    ensures name in r.strategies && r.strategies[name] == strategy
    ensures r.strategies.Keys == s.strategies.Keys + {name}
    ensures forall n :: n != name && n in s.strategies ==> r.strategies[n] == s.strategies[n]
  {
    Service(s.strategies[name := strategy])
  }

  /** The strategy name a config asks for: its type, or fade when the type is absent or empty. */
  function ResolveType(config: AnimationConfig): string {
    OrString(config.kind, "fade")
  }

  function WarningMessage(kind: string): string {
    "Animation strategy \"" + kind + "\" not found"
  }

  /** The observable outcome of one `animate` call. */
  datatype Effect =
    | NoEffect
    | Warned(message: string)
    | Executed(target: ElementId, strategy: Strategy, config: AnimationConfig)

  /** `animate`: a null element does nothing; otherwise the resolved strategy runs once on the
      element, or a warning is logged when no strategy has that name. */
  function Animate(s: Service, target: Option<ElementId>, config: AnimationConfig): (r: Effect)
    ensures target.None? ==> r == NoEffect
    ensures target.Some? && ResolveType(config) in s.strategies ==>
      r == Executed(target.value, s.strategies[ResolveType(config)], config)
    ensures target.Some? && ResolveType(config) !in s.strategies ==>
      r == Warned(WarningMessage(ResolveType(config)))
  {
    if target.None? then NoEffect
    else
      var kind := ResolveType(config);
      if kind in s.strategies then Executed(target.value, s.strategies[kind], config)
      else Warned(WarningMessage(kind))
  }

  /** The visible result of an effect when it ran a built-in strategy. */
  function Visual(e: Effect): Option<Transition> {
    if e.Executed? && e.strategy.BuiltinStrategy? then Some(Execute(e.strategy.builtin, e.config))
    else None
  }

  /** On a fresh service the four names run their built-in and an empty or absent type fades. */
  lemma FreshServiceDispatch(target: ElementId, config: AnimationConfig)
    ensures var kind := ResolveType(config);
            var e := Animate(New(), Some(target), config);
            && (kind in {"fade", "slide", "scale", "bounce"} <==> e.Executed?)
            && (config.kind.None? ==> Visual(e) == Some(Execute(Fade, config)))
            && (config.kind == Some("") ==> Visual(e) == Some(Execute(Fade, config)))
            && (config.kind == Some("bounce") ==> Visual(e) == Some(Execute(Bounce, config)))
  {
  }

  /** A registration changes what its own name runs and nothing else. */
  lemma RegisterThenAnimate(s: Service, name: string, strategy: Strategy,
                            target: ElementId, config: AnimationConfig)
    ensures ResolveType(config) == name ==>
      Animate(RegisterStrategy(s, name, strategy), Some(target), config) == Executed(target, strategy, config)
    ensures ResolveType(config) != name ==>
      Animate(RegisterStrategy(s, name, strategy), Some(target), config) == Animate(s, Some(target), config)
  {
  }

  /** IntersectionObserverInit, reduced to its visibility threshold. */
  datatype ObserverOptions = ObserverOptions(threshold: real)

  const DefaultObserverOptions: ObserverOptions := ObserverOptions(0.1)

  /** The intersection observer `observeElement` returns: the config it animates with, the
      options it was built with and the elements it still watches. */
  datatype Watch = Watch(config: AnimationConfig, options: ObserverOptions, watched: set<ElementId>)

  /** `observeElement`: watches one element, with `options || { threshold: 0.1 }`. */
  function ObserveElement(target: ElementId, config: AnimationConfig, options: Option<ObserverOptions>)
    : (w: Watch)
    ensures w.watched == {target} && w.config == config
    ensures options.None? ==> w.options.threshold == 0.1
    ensures options.Some? ==> w.options == options.value
  {
    Watch(config, options.GetOr(DefaultObserverOptions), {target})
  }

  /** One IntersectionObserverEntry. */
  datatype Entry = Entry(target: ElementId, isIntersecting: bool)

  /** One `animate` call made by the observer callback. */
  datatype Animation = Animation(target: ElementId, effect: Effect)

  /** The browser reports entries only for elements the observer watches. */
  function Deliverable(w: Watch, entries: seq<Entry>): (r: seq<Entry>)
    ensures forall i :: 0 <= i < |r| ==> r[i].target in w.watched
    ensures forall t :: EntryCount(t, r) == (if t in w.watched then EntryCount(t, entries) else 0)
  {
    if entries == [] then []
    else if entries[0].target in w.watched then [entries[0]] + Deliverable(w, entries[1..])
    else Deliverable(w, entries[1..])
  }

  /** How many intersecting entries for `t` a batch holds. */
  function EntryCount(t: ElementId, entries: seq<Entry>): nat {
    if entries == [] then 0
    else (if entries[0].target == t && entries[0].isIntersecting then 1 else 0)
         + EntryCount(t, entries[1..])
  }

  /** How many `animate` calls in a trace were for `t`. */
  function AnimationCount(t: ElementId, anims: seq<Animation>): nat {
    if anims == [] then 0
    else (if anims[0].target == t then 1 else 0) + AnimationCount(t, anims[1..])
  }

  /** The observer callback: each intersecting entry is animated and then unobserved. */
  function OnIntersection(s: Service, w: Watch, entries: seq<Entry>): (r: (Watch, seq<Animation>))
    ensures r.0.config == w.config && r.0.options == w.options
    ensures r.0.watched == w.watched - IntersectingTargets(entries)
    ensures |r.1| == |IntersectingTargetsSeq(entries)|
    ensures forall i :: 0 <= i < |r.1| ==>
      r.1[i] == Animation(IntersectingTargetsSeq(entries)[i],
                          Animate(s, Some(IntersectingTargetsSeq(entries)[i]), w.config))
    ensures forall t :: AnimationCount(t, r.1) == EntryCount(t, entries)
    decreases |entries|
  {
    if entries == [] then (w, [])
    else
      var e := entries[0];
      var (w1, now) :=
        if e.isIntersecting
        then (w.(watched := w.watched - {e.target}),
              [Animation(e.target, Animate(s, Some(e.target), w.config))])
        else (w, []);
      var rest := OnIntersection(s, w1, entries[1..]);
      assert AnimationCount(e.target, now) == EntryCount(e.target, [e]);
      AnimationCountAppend(now, rest.1);
      (rest.0, now + rest.1)
  }

  function IntersectingTargetsSeq(entries: seq<Entry>): seq<ElementId> {
    if entries == [] then []
    else (if entries[0].isIntersecting then [entries[0].target] else [])
         + IntersectingTargetsSeq(entries[1..])
  }

  function IntersectingTargets(entries: seq<Entry>): set<ElementId> {
    set i | 0 <= i < |entries| && entries[i].isIntersecting :: entries[i].target
  }

  lemma {:induction false} AnimationCountAppend(a: seq<Animation>, b: seq<Animation>)
    ensures forall t :: AnimationCount(t, a + b) == AnimationCount(t, a) + AnimationCount(t, b)
  {
    if a == [] {
      assert a + b == b;
    } else {
      assert (a + b)[0] == a[0];
      assert (a + b)[1..] == a[1..] + b;
      AnimationCountAppend(a[1..], b);
    }
  }

  /** Runs the callback on successive batches, each filtered by what is still watched. */
  function RunBatches(s: Service, w: Watch, batches: seq<seq<Entry>>): (Watch, seq<Animation>)
    decreases |batches|
  {
    if batches == [] then (w, [])
    else
      var first := OnIntersection(s, w, Deliverable(w, batches[0]));
      var rest := RunBatches(s, first.0, batches[1..]);
      (rest.0, first.1 + rest.1)
  }

  /** A batch lists each element at most once while it intersects. */
  ghost predicate OncePerBatch(entries: seq<Entry>) {
    forall t :: EntryCount(t, entries) <= 1
  }

  /** One-shot animation: however often an element scrolls back into view, it is animated at
      most once, and never if it was not being watched. */
  lemma {:induction false} AnimatedAtMostOnce(s: Service, w: Watch, batches: seq<seq<Entry>>, t: ElementId)
    requires forall i :: 0 <= i < |batches| ==> OncePerBatch(batches[i])
    ensures AnimationCount(t, RunBatches(s, w, batches).1) <= (if t in w.watched then 1 else 0)
    decreases |batches|
  {
    if batches != [] {
      var delivered := Deliverable(w, batches[0]);
      var first := OnIntersection(s, w, delivered);
      var rest := RunBatches(s, first.0, batches[1..]);
      AnimatedAtMostOnce(s, first.0, batches[1..], t);
      AnimationCountAppend(first.1, rest.1);
      assert EntryCount(t, batches[0]) <= 1;
      if AnimationCount(t, first.1) == 1 {
        IntersectingWhenCounted(t, delivered);
        assert t !in first.0.watched;
      }
    }
  }

  lemma {:induction false} IntersectingWhenCounted(t: ElementId, entries: seq<Entry>)
    requires EntryCount(t, entries) > 0
    ensures t in IntersectingTargets(entries)
  {
    if entries[0].target == t && entries[0].isIntersecting {
      assert entries[0].target in IntersectingTargets(entries);
    } else {
      IntersectingWhenCounted(t, entries[1..]);
      var i :| 0 <= i < |entries[1..]| && entries[1..][i].isIntersecting && entries[1..][i].target == t;
      assert entries[i + 1].target == t;
    }
  }
}
