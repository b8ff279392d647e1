/**
 * `select(inputSelectors, computeResult)` from the TypeScript sources: a
 * closure with a one-entry cache (`prevInputs`, `prevProps`, `prevResult`)
 * that reruns `computeResult` only when nothing is cached, the props differ
 * from the cached ones, or one of the selector outputs differs.
 */
module Select {
  import opened JsValue

  /**
   * The arguments of `select`, plus what the closure reads from outside:
   * the `isEqual` comparison of `@yr/is-equal` and the runtime's `isBrowser` flag.
   */
  datatype Config = Config(
    inputSelectors: seq<(Value, Value) -> Value>,
    computeResult: (seq<Value>, Value, Value) -> Value,
    isEqual: (Value, Value) -> bool,
    isBrowser: bool)

  /** The closure's cache; `None` and `Undefined` stand for a variable still `undefined`. */
  datatype Cache = Cache(prevInputs: Option<seq<Value>>, prevProps: Value, prevResult: Value)

  /** The cache before the first call. */
  const Empty := Cache(None, Undefined, Undefined)

  /** What one call returns, whether it ran `computeResult`, and the cache it leaves. */
  datatype Outcome = Outcome(result: Value, recomputed: bool, cache: Cache)

  /** Element `i` of a JavaScript array: `undefined` past its end. */
  function At(s: seq<Value>, i: nat): Value {
    if i < |s| then s[i] else Undefined
  }

  /** The outputs of all input selectors on `(context, props)`, in order. */
  function Inputs(selectors: seq<(Value, Value) -> Value>, context: Value, props: Value): seq<Value> {
    seq(|selectors|, i requires 0 <= i < |selectors| => selectors[i](context, props))
  }

  /** `result !== undefined` */
  predicate IsCached(cache: Cache) {
    cache.prevResult != Undefined
  }

  /** Selector output `v`, in slot `i`, differs from the cached one (only once inputs were cached). */
  predicate InputChangedAt(isEqual: (Value, Value) -> bool, cache: Cache, v: Value, i: nat) {
    cache.prevInputs.Some? && !isEqual(v, At(cache.prevInputs.value, i))
  }

  predicate InputsChanged(isEqual: (Value, Value) -> bool, cache: Cache, inputs: seq<Value>) {
    exists i :: 0 <= i < |inputs| && InputChangedAt(isEqual, cache, inputs[i], i)
  }

  /** Props are compared only once props other than `undefined` were cached. */
  predicate PropsChanged(cfg: Config, cache: Cache, props: Value) {
    cache.prevProps != Undefined && !cfg.isEqual(props, cache.prevProps)
  }

  /** The cached result may be returned. */
  predicate Hit(cfg: Config, cache: Cache, inputs: seq<Value>, props: Value) {
    IsCached(cache) && !PropsChanged(cfg, cache, props) && !InputsChanged(cfg.isEqual, cache, inputs)
  }

  /** One call of `generateProps(context, props)` from the cache `cache`. */
  function Step(cfg: Config, cache: Cache, context: Value, props: Value): Outcome {
    var inputs := Inputs(cfg.inputSelectors, context, props);
    var hit := Hit(cfg, cache, inputs, props);
    var result := if hit then cache.prevResult else cfg.computeResult(inputs, context, props);
    Outcome(result, !hit, if cfg.isBrowser then Cache(Some(inputs), props, result) else cache)
  }

  /** A series of calls, each starting from the cache the previous one left. */
  function Run(cfg: Config, cache: Cache, calls: seq<(Value, Value)>): seq<Outcome>
    decreases |calls|
  {
    if calls == [] then []
    else
      var o := Step(cfg, cache, calls[0].0, calls[0].1);
      [o] + Run(cfg, o.cache, calls[1..])
  }

  /** With nothing cached, the first call always runs `computeResult`. */
  lemma FirstCallComputes(cfg: Config, context: Value, props: Value)
    ensures Step(cfg, Empty, context, props).recomputed
    ensures Step(cfg, Empty, context, props).result
         == cfg.computeResult(Inputs(cfg.inputSelectors, context, props), context, props)
  {
  }

  /**
   * The cached result comes back exactly when a result is cached, the props
   * equal defined cached props, and every selector output equals its cached
   * counterpart; in every other case the call returns `computeResult(inputs, context, props)`.
   */
  lemma CacheHitIff(cfg: Config, cache: Cache, context: Value, props: Value)
    ensures var inputs := Inputs(cfg.inputSelectors, context, props);
      var o := Step(cfg, cache, context, props);
      && (!o.recomputed <==>
            && cache.prevResult != Undefined
            && (cache.prevProps == Undefined || cfg.isEqual(props, cache.prevProps))
            && (cache.prevInputs.Some? ==>
                  forall i :: 0 <= i < |inputs| ==> cfg.isEqual(inputs[i], At(cache.prevInputs.value, i))))
      && (!o.recomputed ==> o.result == cache.prevResult)
      && (o.recomputed ==> o.result == cfg.computeResult(inputs, context, props))
  {
  }

  /** In a browser the call leaves this call's inputs, props and result cached; elsewhere the cache is untouched. */
  lemma CacheWrittenOnlyInBrowser(cfg: Config, cache: Cache, context: Value, props: Value)
    ensures var o := Step(cfg, cache, context, props);
      && (cfg.isBrowser ==> o.cache.prevInputs == Some(Inputs(cfg.inputSelectors, context, props))
                            && o.cache.prevProps == props && o.cache.prevResult == o.result)
      && (!cfg.isBrowser ==> o.cache == cache)
  {
  }

  /** Outside a browser nothing is ever cached, so every call of a series recomputes. */
  lemma {:induction false} NonBrowserAlwaysRecomputes(cfg: Config, calls: seq<(Value, Value)>)
    requires !cfg.isBrowser
    ensures |Run(cfg, Empty, calls)| == |calls|
    ensures forall i :: 0 <= i < |calls| ==>
      && Run(cfg, Empty, calls)[i].recomputed
      && Run(cfg, Empty, calls)[i].result
         == cfg.computeResult(Inputs(cfg.inputSelectors, calls[i].0, calls[i].1), calls[i].0, calls[i].1)
  {
    if calls != [] {
      NonBrowserAlwaysRecomputes(cfg, calls[1..]);
      var rest := Run(cfg, Empty, calls[1..]);
      assert Run(cfg, Empty, calls) == [Step(cfg, Empty, calls[0].0, calls[0].1)] + rest;
      forall i | 1 <= i < |calls|
        ensures Run(cfg, Empty, calls)[i] == rest[i - 1] && calls[i] == calls[1..][i - 1]
      {
      }
    }
  }

  /**
   * In a browser, with a reflexive `isEqual`, calling twice with the same
   * context and props hands back the first result the second time without
   * recomputing, unless that result was `undefined`.
   */
  lemma BrowserRepeatHits(cfg: Config, cache: Cache, context: Value, props: Value)
    requires cfg.isBrowser
    requires forall v :: cfg.isEqual(v, v)
    requires Step(cfg, cache, context, props).result != Undefined
    ensures var o := Step(cfg, cache, context, props);
      var again := Step(cfg, o.cache, context, props);
      !again.recomputed && again.result == o.result
  {
    var o := Step(cfg, cache, context, props);
    var inputs := Inputs(cfg.inputSelectors, context, props);
    assert cfg.isEqual(props, props);
    forall i | 0 <= i < |inputs|
      ensures !InputChangedAt(cfg.isEqual, o.cache, inputs[i], i)
    {
      assert At(inputs, i) == inputs[i];
      assert cfg.isEqual(inputs[i], inputs[i]);
    }
  }

  /** A result of `undefined` is never treated as cached: in a browser the next call recomputes. */
  lemma UndefinedResultNotCached(cfg: Config, cache: Cache, context: Value, props: Value,
                                 context': Value, props': Value)
    requires cfg.isBrowser
    requires Step(cfg, cache, context, props).result == Undefined
    ensures Step(cfg, Step(cfg, cache, context, props).cache, context', props').recomputed
  {
  }

  /** Props that differ from the defined props of the call before make the next call recompute. */
  lemma NewPropsRecompute(cfg: Config, cache: Cache, context: Value, props: Value, props': Value)
    requires cfg.isBrowser
    requires props != Undefined && !cfg.isEqual(props', props)
    ensures var again := Step(cfg, Step(cfg, cache, context, props).cache, context, props');
      again.recomputed
      && again.result
         == cfg.computeResult(Inputs(cfg.inputSelectors, context, props'), context, props')
  {
  }

  /** A selector output that differs from the call before makes the next call recompute. */
  lemma NewInputRecomputes(cfg: Config, cache: Cache, context: Value, context': Value, props: Value, i: nat)
    requires cfg.isBrowser
    requires i < |cfg.inputSelectors|
    requires !cfg.isEqual(cfg.inputSelectors[i](context', props), cfg.inputSelectors[i](context, props))
    ensures var again := Step(cfg, Step(cfg, cache, context, props).cache, context', props);
      again.recomputed
      && again.result
         == cfg.computeResult(Inputs(cfg.inputSelectors, context', props), context', props)
  {
    var o := Step(cfg, cache, context, props);
    var inputs' := Inputs(cfg.inputSelectors, context', props);
    assert InputChangedAt(cfg.isEqual, o.cache, inputs'[i], i);
  }

  /** The closure returned by `select`, with its cache as fields. */
  class Memo {
    const cfg: Config
    var prevInputs: Option<seq<Value>>
    var prevProps: Value
    var prevResult: Value

    function State(): Cache
      reads this
    {
      Cache(prevInputs, prevProps, prevResult)
    }

    constructor (cfg: Config)
      ensures this.cfg == cfg && State() == Empty
    {
      this.cfg := cfg;
      prevInputs, prevProps, prevResult := None, Undefined, Undefined;
    }

    /**
     * The first half of `generateProps`: run every input selector in order,
     * filling one slot each, and decide whether the cached result is unusable.
     */
    method Evaluate(context: Value, props: Value) returns (inputs: seq<Value>, shouldCompute: bool)
      ensures |inputs| == |cfg.inputSelectors|
      ensures forall i :: 0 <= i < |inputs| ==> inputs[i] == cfg.inputSelectors[i](context, props)
      ensures shouldCompute == !Hit(cfg, State(), inputs, props)
    {
      var n := |cfg.inputSelectors|;
      var slots := new Value[n];
      var isCached := prevResult != Undefined;
      shouldCompute := !isCached;
      if prevProps != Undefined && !cfg.isEqual(props, prevProps) {
        shouldCompute := true;
      }
      var i := 0;
      while i < n
        invariant 0 <= i <= n
        invariant forall k :: 0 <= k < i ==> slots[k] == cfg.inputSelectors[k](context, props)
        invariant shouldCompute == (!isCached || PropsChanged(cfg, State(), props)
                    || exists k :: 0 <= k < i && InputChangedAt(cfg.isEqual, State(), slots[k], k))
      {
        slots[i] := cfg.inputSelectors[i](context, props);
        if prevInputs.Some? && !cfg.isEqual(slots[i], At(prevInputs.value, i)) {
          shouldCompute := true;
        }
        i := i + 1;
      }
      inputs := slots[..];
    }

    /** `generateProps(context, props)`: one step of the cache state machine. */
    method GenerateProps(context: Value, props: Value) returns (result: Value)
      modifies this
      ensures result == Step(cfg, old(State()), context, props).result
      ensures State() == Step(cfg, old(State()), context, props).cache
    {
      var inputs, shouldCompute := Evaluate(context, props);
      assert inputs == Inputs(cfg.inputSelectors, context, props);
      var isCached := prevResult != Undefined;
      result := if isCached && !shouldCompute then prevResult else cfg.computeResult(inputs, context, props);
      if cfg.isBrowser {
        prevInputs := Some(inputs);
        prevProps := props;
        prevResult := result;
      }
    }
  }
}
