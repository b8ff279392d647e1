/**
 * The props object handed to connected components: a bag of own properties
 * (the caller's props plus fixed entries such as `data`, `locale`,
 * `settings`, `destroyed` and the bound methods), built by `propsFactory`,
 * derived by `create` and `clone`, filled from the data store by `extract`,
 * searched by `get`, and torn down by `destroy`.
 */
module PropsBag {
  import opened JsValue

  /** `STORES`: the fields `get` searches, in this order. */
  const StoreKeys: seq<string> := ["data", "locale", "settings"]

  /** The initial value of `module.exports.bootstrap`. */
  const DefaultBootstrap: Value := Bool(true)

  /** The external data-store library as it stands when an operation runs. */
  datatype StoreLib = StoreLib(
    root: StoreId -> Value,              // store.get(): the whole value under the store or cursor
    lookup: (StoreId, string) -> Value,  // store.get(key)
    cursor: (StoreId, string) -> StoreId) // store.createCursor(key)

  /** What `factory(dataFactory, locales, settings)` closes over. */
  datatype FactoryConfig = FactoryConfig(
    dataFactory: nat -> Value,  // what the n-th call of dataFactory() returns (counting from 0)
    locales: string -> Value,   // locales.get(localeCode)
    settings: Value)

  /** Reading a property of the props object: `undefined` when absent. */
  function Field(fields: map<string, Value>, key: string): Value {
    if key in fields then fields[key] else Undefined
  }

  /** `assign({}, props)`: the own properties of a plain object, none for anything else. */
  function OwnProps(props: Value): map<string, Value> {
    if props.Obj? then props.props else map[]
  }

  /** The properties `propsFactory` always installs, overriding any passed props of the same name. */
  function FixedFields(data: Value, settings: Value): map<string, Value> {
    map[
      "clone" := Fn("clone"),
      "create" := Fn("create"),
      "data" := data,
      "destroy" := Fn("destroy"),
      "destroyed" := Bool(false),
      "extract" := Fn("extract"),
      "get" := Fn("get"),
      "isEqual" := Fn("isEqual"),
      "locale" := Null,
      "update" := Fn("update"),
      "settings" := settings,
      "setLocale" := Fn("setLocale"),
      "toJSON" := Fn("toJSON")]
  }

  /** The names of the fixed entries, whatever data and settings they hold. */
  const FixedKeys: set<string> := FixedFields(Null, Null).Keys

  /** `data || dataFactory()`, when `made` calls of dataFactory happened before. */
  function ChosenData(cfg: FactoryConfig, made: nat, data: Value): Value {
    if Truthy(data) then data else cfg.dataFactory(made)
  }

  /**
   * The properties of `propsFactory(data, props)`; reading `data.update`
   * throws unless the chosen data is a store.
   */
  function Instance(cfg: FactoryConfig, made: nat, data: Value, props: Value): Result<map<string, Value>> {
    var d := ChosenData(cfg, made, data);
    if d.Store? then Ok(OwnProps(props) + FixedFields(d, cfg.settings)) else Err(TypeError)
  }

  /** `create`'s arguments after the `key = ''` default and the "only props" shuffle. */
  function CreateArgs(key: Value, props: Value): (string, Value) {
    var k := if key == Undefined then Str("") else key;
    if k.Str? then (k.s, props) else ("", k)
  }

  /** The child's data: the parent's own for key `''`, a cursor for any other key. */
  function ChildData(parent: map<string, Value>, key: string, lib: StoreLib): Result<Value> {
    var d := Field(parent, "data");
    if key == "" then Ok(d)
    else if d.Store? then Ok(Store(lib.cursor(d.id, key)))
    else Err(TypeError)
  }

  /** The properties of `parent.create(key, props)`. */
  function Child(cfg: FactoryConfig, made: nat, parent: map<string, Value>, key: Value, props: Value,
                 lib: StoreLib): Result<map<string, Value>> {
    var args := CreateArgs(key, props);
    match ChildData(parent, args.0, lib)
    case Err(e) => Err(e)
    case Ok(d) =>
      match Instance(cfg, made, d, args.1)
      case Err(e) => Err(e)
      case Ok(f) => Ok(f["locale" := Field(parent, "locale")])
  }

  /** How many times `parent.create(key, props)` calls dataFactory (0 or 1). */
  function ChildFactoryCalls(parent: map<string, Value>, key: Value, props: Value, lib: StoreLib): nat {
    match ChildData(parent, CreateArgs(key, props).0, lib)
    case Err(_) => 0
    case Ok(d) => if Truthy(d) then 0 else 1
  }

  /** The properties of `parent.clone(props)`: the child, plus every parent property it lacks. */
  function Cloned(cfg: FactoryConfig, made: nat, parent: map<string, Value>, props: Value,
                  lib: StoreLib): Result<map<string, Value>> {
    match Child(cfg, made, parent, props, Undefined, lib)
    case Err(e) => Err(e)
    case Ok(c) => Ok(parent + c)
  }

  /** One step of the `forEach` in `extract`; `bootstrap` is the current `module.exports.bootstrap`. */
  function ExtractOne(fields: map<string, Value>, key: string, data: Value, bootstrap: Value): map<string, Value> {
    if key == "bootstrap" && "bootstrap" !in fields then fields["bootstrap" := bootstrap]
    else if key !in fields && !Nullish(Member(data, key)) then fields[key := Member(data, key)]
    else fields
  }

  /** The `forEach` over `dataKeys`, left to right. */
  function ExtractKeys(fields: map<string, Value>, keys: seq<string>, data: Value, bootstrap: Value)
    : map<string, Value>
    decreases |keys|
  {
    if keys == [] then fields
    else ExtractKeys(ExtractOne(fields, keys[0], data, bootstrap), keys[1..], data, bootstrap)
  }

  /** `extract(dataKeys)` on an object that is not frozen. */
  function Extracted(fields: map<string, Value>, dataKeys: seq<string>, bootstrap: Value, lib: StoreLib)
    : Result<map<string, Value>>
  {
    var d := Field(fields, "data");
    if !d.Store? then Err(TypeError)
    else
      var data := lib.root(d.id);
      if !Truthy(data) then Ok(fields)
      else if data.Arr? && |dataKeys| == 1 then Ok(fields[dataKeys[0] := data])
      else Ok(ExtractKeys(fields, dataKeys, data, bootstrap))
  }

  /** The property name `key in this` tests: an absent key is converted to the string "undefined". */
  function PropName(key: Option<string>): string {
    if key.Some? then key.value else "undefined"
  }

  /** `store.get(key)` on a field that should hold a store; `store.get(undefined)` is the whole value. */
  function StoreGet(store: Value, key: Option<string>, lib: StoreLib): Result<Value> {
    if !store.Store? then Err(TypeError)
    else if key.Some? then Ok(lib.lookup(store.id, key.value))
    else Ok(lib.root(store.id))
  }

  /** The search loop of `get` from store `i` on, `last` being the last value looked up. */
  function SearchStores(fields: map<string, Value>, key: Option<string>, lib: StoreLib, i: nat, last: Value): Result<Value>
    requires i <= |StoreKeys|
    decreases |StoreKeys| - i
  {
    if i == |StoreKeys| then Ok(last)
    else
      match StoreGet(Field(fields, StoreKeys[i]), key, lib)
      case Err(e) => Err(e)
      case Ok(v) => if !Nullish(v) then Ok(v) else SearchStores(fields, key, lib, i + 1, v)
  }

  /** `get(key)`, the key being optional */
  function Lookup(fields: map<string, Value>, key: Option<string>, lib: StoreLib): Result<Value> {
    var name := PropName(key);
    if name in fields then Ok(fields[name]) else SearchStores(fields, key, lib, 0, Undefined)
  }

  /** `destroy()`: `this.data.destroy()` throws on a non-store, and a write to a frozen object throws. */
  function DestroyResult(fields: map<string, Value>, frozen: bool): Result<map<string, Value>> {
    if !Field(fields, "data").Store? || frozen then Err(TypeError)
    else Ok(fields["data" := Null]["locale" := Null]["settings" := Null]["destroyed" := Bool(true)]["update" := Null])
  }

  /** `setLocale(locales, localeCode)`: a write, so it throws on a frozen object. */
  function SetLocaleResult(fields: map<string, Value>, frozen: bool, cfg: FactoryConfig, code: string)
    : Result<map<string, Value>>
  {
    if frozen then Err(TypeError) else Ok(fields["locale" := cfg.locales(code)])
  }

  /**
   * `propsFactory`: data falls back to dataFactory()'s store only when falsy;
   * every passed prop survives except those the fixed entries override, and
   * the fixed entries hold the chosen data, the factory's settings, a null
   * locale and `destroyed = false`.
   */
  lemma InstanceShape(cfg: FactoryConfig, made: nat, data: Value, props: Value)
    ensures Instance(cfg, made, data, props).Ok? <==>
      (if Truthy(data) then data.Store? else cfg.dataFactory(made).Store?)
    ensures var r := Instance(cfg, made, data, props);
      r.Ok? ==>
        && r.value.Keys == OwnProps(props).Keys + FixedKeys
        && r.value["data"] == (if Truthy(data) then data else cfg.dataFactory(made))
        && r.value["settings"] == cfg.settings
        && r.value["locale"] == Null
        && r.value["destroyed"] == Bool(false)
        && (forall k :: k in OwnProps(props) && k !in FixedKeys ==> r.value[k] == OwnProps(props)[k])
  {
    var r := Instance(cfg, made, data, props);
    if r.Ok? {
      var d := ChosenData(cfg, made, data);
      assert FixedFields(d, cfg.settings).Keys == FixedKeys;
    }
  }

  /**
   * `create`: an absent key means `''`, a non-string key is taken as the
   * props; key `''` shares the parent's data, any other key gets a cursor
   * (and throws without a parent store); the child always gets the parent's locale.
   * It succeeds on every parent holding a store; on any other parent only
   * when the key is `''` and dataFactory() supplies the store.
   */
  lemma ChildShape(cfg: FactoryConfig, made: nat, parent: map<string, Value>, key: Value, props: Value, lib: StoreLib)
    ensures Child(cfg, made, parent, key, props, lib).Ok? <==>
      || Field(parent, "data").Store?
      || (!(key.Str? && key.s != "") && !Truthy(Field(parent, "data")) && cfg.dataFactory(made).Store?)
    ensures var r := Child(cfg, made, parent, key, props, lib);
      && (key.Str? && key.s != "" && !Field(parent, "data").Store? ==> r == Err(TypeError))
      && (r.Ok? ==> r.value["locale"] == Field(parent, "locale"))
      && (r.Ok? && (key == Undefined || key == Str("")) ==>
            r.value == Instance(cfg, made, Field(parent, "data"), props).value["locale" := Field(parent, "locale")])
      && (r.Ok? && key != Undefined && !key.Str? ==>
            r.value == Instance(cfg, made, Field(parent, "data"), key).value["locale" := Field(parent, "locale")])
      && (r.Ok? && key.Str? && key.s != "" ==>
            r.value == Instance(cfg, made, Store(lib.cursor(Field(parent, "data").id, key.s)), props).value
                         ["locale" := Field(parent, "locale")])
  {
  }

  /**
   * `clone` copies every parent property the new instance lacks and never
   * overwrites one that `create` or the passed props set.
   */
  lemma CloneKeepsChild(cfg: FactoryConfig, made: nat, parent: map<string, Value>, props: Value, lib: StoreLib)
    ensures Cloned(cfg, made, parent, props, lib).Ok? <==> Child(cfg, made, parent, props, Undefined, lib).Ok?
    ensures Field(parent, "data").Store? ==> Cloned(cfg, made, parent, props, lib).Ok?
    ensures var r := Cloned(cfg, made, parent, props, lib);
      var c := Child(cfg, made, parent, props, Undefined, lib);
      r.Ok? ==>
        && r.value.Keys == parent.Keys + c.value.Keys
        && (forall k :: k in c.value ==> r.value[k] == c.value[k])
        && (forall k :: k in parent && k !in c.value ==> r.value[k] == parent[k])
  {
  }

  /** The `forEach` branch of `extract` never overwrites a property the object already has. */
  lemma {:induction false} ExtractNeverOverwrites(fields: map<string, Value>, keys: seq<string>, data: Value,
                                                  bootstrap: Value)
    ensures forall k :: k in fields ==>
      k in ExtractKeys(fields, keys, data, bootstrap) && ExtractKeys(fields, keys, data, bootstrap)[k] == fields[k]
    decreases |keys|
  {
    if keys != [] {
      ExtractNeverOverwrites(ExtractOne(fields, keys[0], data, bootstrap), keys[1..], data, bootstrap);
    }
  }

  /**
   * Every property the `forEach` branch of `extract` adds was asked for, and holds the current
   * `module.exports.bootstrap` for `bootstrap` and a non-null data value otherwise.
   */
  lemma {:induction false} ExtractAddsOnlyRequested(fields: map<string, Value>, keys: seq<string>, data: Value,
                                                    bootstrap: Value)
    ensures var r := ExtractKeys(fields, keys, data, bootstrap);
      forall k :: k in r && k !in fields ==>
        && k in keys
        && (k == "bootstrap" ==> r[k] == bootstrap)
        && (k != "bootstrap" ==> r[k] == Member(data, k) && !Nullish(Member(data, k)))
    decreases |keys|
  {
    if keys != [] {
      var f1 := ExtractOne(fields, keys[0], data, bootstrap);
      ExtractAddsOnlyRequested(f1, keys[1..], data, bootstrap);
      ExtractNeverOverwrites(f1, keys[1..], data, bootstrap);
      var r := ExtractKeys(fields, keys, data, bootstrap);
      forall k | k in r && k !in fields
        ensures k in keys
      {
        if k !in f1 {
          assert k in keys[1..];
        } else {
          assert k == keys[0];
        }
      }
    }
  }

  /**
   * In the `forEach` branch of `extract`, every requested key the object
   * lacks is filled: `bootstrap` with the current `module.exports.bootstrap`,
   * any other key with its data value when that is not null.
   */
  lemma {:induction false} ExtractFillsRequested(fields: map<string, Value>, keys: seq<string>, data: Value,
                                                 bootstrap: Value)
    ensures var r := ExtractKeys(fields, keys, data, bootstrap);
      forall k :: k in keys && k !in fields ==>
        && (k == "bootstrap" ==> k in r && r[k] == bootstrap)
        && (k != "bootstrap" && !Nullish(Member(data, k)) ==> k in r && r[k] == Member(data, k))
    decreases |keys|
  {
    if keys != [] {
      var f1 := ExtractOne(fields, keys[0], data, bootstrap);
      ExtractFillsRequested(f1, keys[1..], data, bootstrap);
      ExtractNeverOverwrites(f1, keys[1..], data, bootstrap);
      var r := ExtractKeys(fields, keys, data, bootstrap);
      forall k | k in keys && k !in fields
        ensures k == "bootstrap" ==> k in r && r[k] == bootstrap
        ensures k != "bootstrap" && !Nullish(Member(data, k)) ==> k in r && r[k] == Member(data, k)
      {
        if k != keys[0] {
          assert k in keys[1..];
        }
      }
    }
  }

  /**
   * `extract` as a whole when the store's value is truthy and it is not the
   * single-key array case: it succeeds, keeps every property the object has,
   * adds only requested keys (the current `module.exports.bootstrap` for
   * `bootstrap`, a non-null data value otherwise), and fills every requested
   * key the object lacks whose value is not null.
   */
  lemma ExtractedKeepsAndFills(fields: map<string, Value>, dataKeys: seq<string>, bootstrap: Value, lib: StoreLib)
    requires Field(fields, "data").Store?
    requires Truthy(lib.root(Field(fields, "data").id))
    requires !(lib.root(Field(fields, "data").id).Arr? && |dataKeys| == 1)
    ensures Extracted(fields, dataKeys, bootstrap, lib).Ok?
    ensures var r := Extracted(fields, dataKeys, bootstrap, lib).value;
      forall k :: k in fields ==> k in r && r[k] == fields[k]
    ensures var data := lib.root(Field(fields, "data").id);
      var r := Extracted(fields, dataKeys, bootstrap, lib).value;
      forall k :: k in r && k !in fields ==>
        && k in dataKeys
        && (k == "bootstrap" ==> r[k] == bootstrap)
        && (k != "bootstrap" ==> r[k] == Member(data, k) && !Nullish(Member(data, k)))
    ensures var data := lib.root(Field(fields, "data").id);
      var r := Extracted(fields, dataKeys, bootstrap, lib).value;
      forall k :: k in dataKeys && k !in fields ==>
        && (k == "bootstrap" ==> k in r && r[k] == bootstrap)
        && (k != "bootstrap" && !Nullish(Member(data, k)) ==> k in r && r[k] == Member(data, k))
  {
    var data := lib.root(Field(fields, "data").id);
    ExtractNeverOverwrites(fields, dataKeys, data, bootstrap);
    ExtractAddsOnlyRequested(fields, dataKeys, data, bootstrap);
    ExtractFillsRequested(fields, dataKeys, data, bootstrap);
  }

  /**
   * `extract` on a store whose value is falsy changes nothing; a lone key
   * with array data takes the whole array, whether or not it was present,
   * and every other property stays as it was.
   */
  lemma ExtractSpecialCases(fields: map<string, Value>, dataKeys: seq<string>, bootstrap: Value, lib: StoreLib)
    requires Field(fields, "data").Store?
    ensures !Truthy(lib.root(Field(fields, "data").id)) ==> Extracted(fields, dataKeys, bootstrap, lib) == Ok(fields)
    ensures lib.root(Field(fields, "data").id).Arr? && |dataKeys| == 1 ==>
      Extracted(fields, dataKeys, bootstrap, lib) == Ok(fields[dataKeys[0] := lib.root(Field(fields, "data").id)])
  {
  }

  /**
   * `get`: an own property wins; otherwise the stores `data`, `locale`,
   * `settings` are asked in that order, each one only after every earlier
   * one answered null or undefined. The first store that is not a store
   * throws, the first non-null answer is returned, and `settings` has the
   * last word.
   */
  lemma LookupOrder(fields: map<string, Value>, key: Option<string>, lib: StoreLib)
    ensures PropName(key) in fields ==> Lookup(fields, key, lib) == Ok(fields[PropName(key)])
    ensures var fromData := StoreGet(Field(fields, "data"), key, lib);
      PropName(key) !in fields && (fromData.Err? || !Nullish(fromData.value)) ==> Lookup(fields, key, lib) == fromData
    ensures var fromData := StoreGet(Field(fields, "data"), key, lib);
      var fromLocale := StoreGet(Field(fields, "locale"), key, lib);
      PropName(key) !in fields && fromData.Ok? && Nullish(fromData.value) && (fromLocale.Err? || !Nullish(fromLocale.value))
      ==> Lookup(fields, key, lib) == fromLocale
    ensures var fromData := StoreGet(Field(fields, "data"), key, lib);
      var fromLocale := StoreGet(Field(fields, "locale"), key, lib);
      PropName(key) !in fields && fromData.Ok? && Nullish(fromData.value) && fromLocale.Ok? && Nullish(fromLocale.value)
      ==> Lookup(fields, key, lib) == StoreGet(Field(fields, "settings"), key, lib)
  {
    assert StoreKeys[0] == "data" && StoreKeys[1] == "locale" && StoreKeys[2] == "settings";
  }

  /**
   * Before `setLocale`, the locale is null: looking up a key the object and
   * its data lack throws instead of reaching `settings`.
   */
  lemma LookupThrowsWithoutLocale(fields: map<string, Value>, key: Option<string>, lib: StoreLib)
    requires PropName(key) !in fields
    requires StoreGet(Field(fields, "data"), key, lib).Ok? && Nullish(StoreGet(Field(fields, "data"), key, lib).value)
    requires Field(fields, "locale") == Null
    ensures Lookup(fields, key, lib) == Err(TypeError)
  {
    assert StoreKeys[0] == "data" && StoreKeys[1] == "locale";
  }

  /**
   * `destroy` nulls the three stores and `update`, sets `destroyed`, keeps
   * everything else, and leaves an object whose second `destroy` throws.
   */
  lemma DestroyShape(fields: map<string, Value>, frozen: bool)
    ensures DestroyResult(fields, frozen).Ok? <==> Field(fields, "data").Store? && !frozen
    ensures var r := DestroyResult(fields, frozen);
      r.Ok? ==>
        && r.value["data"] == Null && r.value["locale"] == Null && r.value["settings"] == Null
        && r.value["update"] == Null && r.value["destroyed"] == Bool(true)
        && (forall k :: k in fields && k !in {"data", "locale", "settings", "update", "destroyed"}
              ==> k in r.value && r.value[k] == fields[k])
        && DestroyResult(r.value, frozen).Err?
  {
  }

  /** `module.exports`: its `bootstrap` property is public and writable, and `extract` reads it on every call. */
  class Exports {
    var bootstrap: Value

    constructor ()
      ensures bootstrap == DefaultBootstrap
    {
      bootstrap := DefaultBootstrap;
    }
  }

  /** The closure `propsFactory` returned by `factory(dataFactory, locales, settings)`. */
  class Factory {
    const cfg: FactoryConfig
    /** How many times dataFactory() has been called. */
    var made: nat

    constructor (cfg: FactoryConfig)
      ensures this.cfg == cfg && made == 0
    {
      this.cfg := cfg;
      made := 0;
    }

    /** `propsFactory(data, props)` */
    method Make(data: Value, props: Value) returns (r: Result<Props>)
      modifies this
      ensures made == old(made) + (if Truthy(data) then 0 else 1)
      ensures r.Ok? <==> Instance(cfg, old(made), data, props).Ok?
      ensures r.Ok? ==> && fresh(r.value) && r.value.factory == this && !r.value.frozen
                        && r.value.fields == Instance(cfg, old(made), data, props).value
    {
      var d := data;
      if !Truthy(d) {
        d := cfg.dataFactory(made);
        made := made + 1;
      }
      if !d.Store? {
        return Err(TypeError);
      }
      var p := new Props(this, OwnProps(props) + FixedFields(d, cfg.settings));
      r := Ok(p);
    }
  }

  /** A props object: its own properties, and whether the host froze it. */
  class Props {
    const factory: Factory
    var fields: map<string, Value>
    var frozen: bool

    constructor (factory: Factory, fields: map<string, Value>)
      ensures this.factory == factory && this.fields == fields && !frozen
    {
      this.factory := factory;
      this.fields := fields;
      frozen := false;
    }

    /** `Object.freeze(props)`, as the host framework does to props it hands out. */
    method Freeze()
      modifies this
      ensures frozen && fields == old(fields)
    {
      frozen := true;
    }

    /** `create(key, props)`, bound to the factory that made this object. */
    method Create(key: Value, props: Value, lib: StoreLib) returns (r: Result<Props>)
      modifies factory
      ensures factory.made == old(factory.made) + ChildFactoryCalls(fields, key, props, lib)
      ensures r.Ok? <==> Child(factory.cfg, old(factory.made), fields, key, props, lib).Ok?
      ensures r.Ok? ==> && fresh(r.value) && r.value.factory == factory && !r.value.frozen
                        && r.value.fields == Child(factory.cfg, old(factory.made), fields, key, props, lib).value
    {
      var k, p := key, props;
      if k == Undefined {
        k := Str("");
      }
      if !k.Str? {
        p := k;
        k := Str("");
      }
      var data := Field(fields, "data");
      if k.s != "" {
        if !data.Store? {
          return Err(TypeError);
        }
        data := Store(lib.cursor(data.id, k.s));
      }
      r := factory.Make(data, p);
      if r.Ok? {
        var instance := r.value;
        instance.fields := instance.fields["locale" := Field(fields, "locale")];
      }
    }

    /** `clone(props)`: create, then copy every property the new instance lacks. */
    method Clone(props: Value, lib: StoreLib) returns (r: Result<Props>)
      modifies factory
      ensures factory.made == old(factory.made) + ChildFactoryCalls(fields, props, Undefined, lib)
      ensures r.Ok? <==> Cloned(factory.cfg, old(factory.made), fields, props, lib).Ok?
      ensures r.Ok? ==> && fresh(r.value) && r.value.factory == factory && !r.value.frozen
                        && r.value.fields == Cloned(factory.cfg, old(factory.made), fields, props, lib).value
    {
      r := Create(props, Undefined, lib);
      if r.Err? {
        return;
      }
      var instance := r.value;
      var created := instance.fields;
      var remaining := fields.Keys;
      while remaining != {}
        modifies instance
        invariant !instance.frozen
        invariant remaining <= fields.Keys
        invariant instance.fields.Keys == created.Keys + (fields.Keys - remaining)
        invariant forall k :: k in instance.fields ==>
                    instance.fields[k] == if k in created then created[k] else fields[k]
        decreases remaining
      {
        var prop :| prop in remaining;
        if prop !in instance.fields {
          instance.fields := instance.fields[prop := fields[prop]];
        }
        remaining := remaining - {prop};
      }
      assert instance.fields == fields + created;
    }

    /** `extract(dataKeys)`: does nothing on a frozen object. */
    method Extract(dataKeys: seq<string>, exports: Exports, lib: StoreLib) returns (r: Result<()>)
      modifies this
      ensures frozen == old(frozen)
      ensures old(frozen) ==> r == Ok(()) && fields == old(fields)
      ensures !old(frozen) ==> (r.Ok? <==> Extracted(old(fields), dataKeys, exports.bootstrap, lib).Ok?)
      ensures !old(frozen) && r.Ok? ==> fields == Extracted(old(fields), dataKeys, exports.bootstrap, lib).value
      ensures r.Err? ==> fields == old(fields)
    {
      if frozen {
        return Ok(());
      }
      var store := Field(fields, "data");
      if !store.Store? {
        return Err(TypeError);
      }
      var data := lib.root(store.id);
      if Truthy(data) {
        if data.Arr? && |dataKeys| == 1 {
          fields := fields[dataKeys[0] := data];
        } else {
          var i := 0;
          while i < |dataKeys|
            invariant 0 <= i <= |dataKeys|
            invariant frozen == old(frozen)
            invariant ExtractKeys(fields, dataKeys[i..], data, exports.bootstrap)
                   == ExtractKeys(old(fields), dataKeys, data, exports.bootstrap)
          {
            var key := dataKeys[i];
            assert dataKeys[i..][1..] == dataKeys[i + 1..];
            if key == "bootstrap" && "bootstrap" !in fields {
              fields := fields["bootstrap" := exports.bootstrap];
            } else if key !in fields && !Nullish(Member(data, key)) {
              fields := fields[key := Member(data, key)];
            }
            i := i + 1;
          }
        }
      }
      r := Ok(());
    }

    /** `get(key)`: own property first, then the stores in order; `key` may be left out. */
    method Get(key: Option<string>, lib: StoreLib) returns (r: Result<Value>)
      ensures r == Lookup(fields, key, lib)
    {
      var name := PropName(key);
      if name in fields {
        return Ok(fields[name]);
      }
      var value := Undefined;
      var i := 0;
      while i < |StoreKeys|
        invariant 0 <= i <= |StoreKeys|
        invariant SearchStores(fields, key, lib, i, value) == SearchStores(fields, key, lib, 0, Undefined)
      {
        var store := Field(fields, StoreKeys[i]);
        if !store.Store? {
          return Err(TypeError);
        }
        value := if key.Some? then lib.lookup(store.id, key.value) else lib.root(store.id);
        if !Nullish(value) {
          return Ok(value);
        }
        i := i + 1;
      }
      r := Ok(value);
    }

    /** `setLocale(localeCode)` with the factory's `locales`. */
    method SetLocale(code: string) returns (r: Result<()>)
      modifies this
      ensures frozen == old(frozen)
      ensures r.Ok? <==> SetLocaleResult(old(fields), old(frozen), factory.cfg, code).Ok?
      ensures fields == if r.Ok? then SetLocaleResult(old(fields), old(frozen), factory.cfg, code).value
                        else old(fields)
    {
      if frozen {
        return Err(TypeError);
      }
      fields := fields["locale" := factory.cfg.locales(code)];
      r := Ok(());
    }

    /** `destroy()` */
    method Destroy() returns (r: Result<()>)
      modifies this
      ensures frozen == old(frozen)
      ensures r.Ok? <==> DestroyResult(old(fields), old(frozen)).Ok?
      ensures fields == if r.Ok? then DestroyResult(old(fields), old(frozen)).value else old(fields)
    {
      if !Field(fields, "data").Store? || frozen {
        return Err(TypeError);
      }
      fields := fields["data" := Null]["locale" := Null]["settings" := Null];
      fields := fields["destroyed" := Bool(true)];
      fields := fields["update" := Null];
      r := Ok(());
    }
  }
}
