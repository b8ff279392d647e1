/**
 * The older JavaScript `select`: the same one-entry cache, except that the
 * props are compared with `prevProps` on every call (even while it is still
 * `undefined`) and `computeResult` receives `(inputs, props)` without the context.
 */
module SelectLegacy {
  import opened JsValue
  import Select

  datatype Config = Config(
    inputSelectors: seq<(Value, Value) -> Value>,
    computeResult: (seq<Value>, Value) -> Value,
    isEqual: (Value, Value) -> bool,
    isBrowser: bool)

  /** Unlike the TypeScript version, no guard on `prevProps !== undefined`. */
  predicate PropsChanged(cfg: Config, cache: Select.Cache, props: Value) {
    !cfg.isEqual(props, cache.prevProps)
  }

  predicate Hit(cfg: Config, cache: Select.Cache, inputs: seq<Value>, props: Value) {
    Select.IsCached(cache) && !PropsChanged(cfg, cache, props)
    && !Select.InputsChanged(cfg.isEqual, cache, inputs)
  }

  /** One call of `generateProps(context, props)` from the cache `cache`. */
  function Step(cfg: Config, cache: Select.Cache, context: Value, props: Value): Select.Outcome {
    var inputs := Select.Inputs(cfg.inputSelectors, context, props);
    var hit := Hit(cfg, cache, inputs, props);
    var result := if hit then cache.prevResult else cfg.computeResult(inputs, props);
    Select.Outcome(result, !hit,
                   if cfg.isBrowser then Select.Cache(Some(inputs), props, result) else cache)
  }

  function Run(cfg: Config, cache: Select.Cache, calls: seq<(Value, Value)>): seq<Select.Outcome>
    decreases |calls|
  {
    if calls == [] then []
    else
      var o := Step(cfg, cache, calls[0].0, calls[0].1);
      [o] + Run(cfg, o.cache, calls[1..])
  }

  /** With nothing cached, the first call always runs `computeResult(inputs, props)`. */
  lemma FirstCallComputes(cfg: Config, context: Value, props: Value)
    ensures Step(cfg, Select.Empty, context, props).recomputed
    ensures Step(cfg, Select.Empty, context, props).result
         == cfg.computeResult(Select.Inputs(cfg.inputSelectors, context, props), props)
  {
  }

  /**
   * The cached result comes back exactly when a result is cached, the props
   * equal the cached props, and every selector output equals its cached
   * counterpart; otherwise the call returns `computeResult(inputs, props)`.
   */
  lemma CacheHitIff(cfg: Config, cache: Select.Cache, context: Value, props: Value)
    ensures var inputs := Select.Inputs(cfg.inputSelectors, context, props);
      var o := Step(cfg, cache, context, props);
      && (!o.recomputed <==>
            && cache.prevResult != Undefined
            && cfg.isEqual(props, cache.prevProps)
            && (cache.prevInputs.Some? ==>
                  forall i :: 0 <= i < |inputs| ==> cfg.isEqual(inputs[i], Select.At(cache.prevInputs.value, i))))
      && (!o.recomputed ==> o.result == cache.prevResult)
      && (o.recomputed ==> o.result == cfg.computeResult(inputs, props))
  {
  }

  /** The cache is written only when `runtime.isBrowser` holds. */
  lemma CacheWrittenOnlyInBrowser(cfg: Config, cache: Select.Cache, context: Value, props: Value)
    ensures var o := Step(cfg, cache, context, props);
      && (cfg.isBrowser ==> o.cache.prevInputs == Some(Select.Inputs(cfg.inputSelectors, context, props))
                            && o.cache.prevProps == props && o.cache.prevResult == o.result)
      && (!cfg.isBrowser ==> o.cache == cache)
  {
  }

  /** Outside a browser every call of a series recomputes. */
  lemma {:induction false} NonBrowserAlwaysRecomputes(cfg: Config, calls: seq<(Value, Value)>)
    requires !cfg.isBrowser
    ensures |Run(cfg, Select.Empty, calls)| == |calls|
    ensures forall i :: 0 <= i < |calls| ==>
      && Run(cfg, Select.Empty, calls)[i].recomputed
      && Run(cfg, Select.Empty, calls)[i].result
         == cfg.computeResult(Select.Inputs(cfg.inputSelectors, calls[i].0, calls[i].1), calls[i].1)
  {
    if calls != [] {
      NonBrowserAlwaysRecomputes(cfg, calls[1..]);
      var rest := Run(cfg, Select.Empty, calls[1..]);
      assert Run(cfg, Select.Empty, calls) == [Step(cfg, Select.Empty, calls[0].0, calls[0].1)] + rest;
      forall i | 1 <= i < |calls|
        ensures Run(cfg, Select.Empty, calls)[i] == rest[i - 1] && calls[i] == calls[1..][i - 1]
      {
      }
    }
  }

  /**
   * Where the two versions part: with a result cached under `undefined`
   * props and unchanged inputs, the TypeScript closure returns the cached
   * result, while this one recomputes as soon as `isEqual(props, undefined)`
   * is false.
   */
  lemma ComparesUndefinedProps(cfg: Config, tsCfg: Select.Config, cache: Select.Cache, context: Value, props: Value)
    requires tsCfg.inputSelectors == cfg.inputSelectors && tsCfg.isEqual == cfg.isEqual
    requires Select.IsCached(cache) && cache.prevProps == Undefined
    requires !Select.InputsChanged(cfg.isEqual, cache, Select.Inputs(cfg.inputSelectors, context, props))
    requires !cfg.isEqual(props, Undefined)
    ensures !Select.Step(tsCfg, cache, context, props).recomputed
    ensures Step(cfg, cache, context, props).recomputed
  {
  }

  /** Once defined props are cached, both versions make the same cache decision. */
  lemma AgreesOnDefinedProps(cfg: Config, tsCfg: Select.Config, cache: Select.Cache, context: Value, props: Value)
    requires tsCfg.inputSelectors == cfg.inputSelectors && tsCfg.isEqual == cfg.isEqual
    requires cache.prevProps != Undefined
    ensures Select.Step(tsCfg, cache, context, props).recomputed == Step(cfg, cache, context, props).recomputed
  {
  }

  /**
   * The two versions part exactly in the case of `ComparesUndefinedProps`:
   * a result cached under `undefined` props, unchanged inputs, and props
   * that `isEqual` finds different from `undefined`.
   */
  lemma DifferExactlyOnUndefinedProps(cfg: Config, tsCfg: Select.Config, cache: Select.Cache,
                                      context: Value, props: Value)
    requires tsCfg.inputSelectors == cfg.inputSelectors && tsCfg.isEqual == cfg.isEqual
    ensures Select.Step(tsCfg, cache, context, props).recomputed != Step(cfg, cache, context, props).recomputed
      <==> && Select.IsCached(cache) && cache.prevProps == Undefined
           && !Select.InputsChanged(cfg.isEqual, cache, Select.Inputs(cfg.inputSelectors, context, props))
           && !cfg.isEqual(props, Undefined)
  {
  }

  /** The closure returned by the older `select`. */
  class Memo {
    const cfg: Config
    var prevInputs: Option<seq<Value>>
    var prevProps: Value
    var prevResult: Value

    function State(): Select.Cache
      reads this
    {
      Select.Cache(prevInputs, prevProps, prevResult)
    }

    constructor (cfg: Config)
      ensures this.cfg == cfg && State() == Select.Empty
    {
      this.cfg := cfg;
      prevInputs, prevProps, prevResult := None, Undefined, Undefined;
    }

    /** Run every input selector in order and decide whether the cached result is unusable. */
    method Evaluate(context: Value, props: Value) returns (inputs: seq<Value>, shouldCompute: bool)
      ensures |inputs| == |cfg.inputSelectors|
      ensures forall i :: 0 <= i < |inputs| ==> inputs[i] == cfg.inputSelectors[i](context, props)
      ensures shouldCompute == !Hit(cfg, State(), inputs, props)
    {
      var n := |cfg.inputSelectors|;
      var slots := new Value[n];
      var isCached := prevResult != Undefined;
      shouldCompute := !isCached;
      if !cfg.isEqual(props, prevProps) {
        shouldCompute := true;
      }
      var i := 0;
      while i < n
        invariant 0 <= i <= n
        invariant forall k :: 0 <= k < i ==> slots[k] == cfg.inputSelectors[k](context, props)
        invariant shouldCompute == (!isCached || PropsChanged(cfg, State(), props)
                    || exists k :: 0 <= k < i && Select.InputChangedAt(cfg.isEqual, State(), slots[k], k))
      {
        slots[i] := cfg.inputSelectors[i](context, props);
        if prevInputs.Some? && !cfg.isEqual(slots[i], Select.At(prevInputs.value, i)) {
          shouldCompute := true;
        }
        i := i + 1;
      }
      inputs := slots[..];
    }

    /** `generateProps(context, props)` */
    method GenerateProps(context: Value, props: Value) returns (result: Value)
      modifies this
      ensures result == Step(cfg, old(State()), context, props).result
      ensures State() == Step(cfg, old(State()), context, props).cache
    {
      var inputs, shouldCompute := Evaluate(context, props);
      assert inputs == Select.Inputs(cfg.inputSelectors, context, props);
      var isCached := prevResult != Undefined;
      result := if isCached && !shouldCompute then prevResult else cfg.computeResult(inputs, props);
      if cfg.isBrowser {
        prevInputs := Some(inputs);
        prevProps := props;
        prevResult := result;
      }
    }
  }
}
