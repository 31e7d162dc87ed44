/** The application configuration store: the default configuration, the
    recursive deep merge used by `set`, and the field setters. The class
    `ConfigManager` keeps its configuration as a value (the behaviour the
    store is evidently meant to have); `AliasedStore` models the object
    sharing the store actually performs, under which the setters write
    through to the defaults. */
module Config {
  import opened Wrappers
  import opened Json

  /** The error a property write on a section that is not an object raises. */
  const TYPE_ERROR := "TypeError: cannot set a property of a non-object section"

  /** The built-in configuration (claude, mcp, logging and ui sections). */
  function DefaultConfig(): Fields {
    [ ("claude", JObj([ ("model", JStr("claude-3-5-sonnet-20241022")),
                        ("maxTokens", JNum(4096)),
                        ("apiUrl", JStr("https://api.anthropic.com")) ])),
      ("mcp", JObj([ ("googleCalendar",
                      JObj([ ("serverPath", JStr("npx")),
                             ("serverArgs", JArr([JStr("@cocal/google-calendar-mcp")])) ])) ])),
      ("logging", JObj([ ("level", JStr("info")),
                         ("maxFiles", JNum(5)),
                         ("maxSize", JNum(10 * 1024 * 1024)) ])),
      ("ui", JObj([ ("windowWidth", JNum(1200)),
                    ("windowHeight", JNum(800)),
                    ("alwaysOnTop", JBool(false)),
                    ("startMinimized", JBool(false)) ])) ]
  }

  /** A source value that the merge descends into: truthy, of type object and
      not an array. Every JSON object is truthy, so this is exactly `JObj`. */
  predicate IsPlainObject(v: Json) {
    Truthy(v) && v.JObj?
  }

  /** `target[key] || {}` as the object whose fields are spread: a missing or
      falsy target value, and a primitive one, spread as the empty object. */
  function BaseOf(o: Option<Json>): Fields {
    match o
    case Some(JObj(f)) => f
    case _ => []
  }

  /** The `for … in source` loop of the merge from the field at index `i`
      onwards, writing into `result` and reading nested bases from `target`. */
  function MergeFrom(result: Fields, target: Fields, source: Json, i: nat): (r: Fields)
    requires source.JObj? && i <= |source.fields|
    decreases source, |source.fields| - i
    ensures Keys(r) == Keys(result) + Keys(source.fields[i..])
    ensures forall k :: k !in Keys(source.fields[i..]) ==> Get(r, k) == Get(result, k)
  {
    if i == |source.fields| then result
    else
      var (k, v) := source.fields[i];
      assert source.fields[i] in source.fields;
      var merged :=
        if IsPlainObject(v) then JObj(MergeFrom(BaseOf(Get(target, k)), BaseOf(Get(target, k)), v, 0))
        else v;
      assert source.fields[i..] == [source.fields[i]] + source.fields[i + 1..];
      KeysAppend([source.fields[i]], source.fields[i + 1..]);
      MergeFrom(Put(result, k, merged), target, source, i + 1)
  }

  /** `mergeConfig(target, source)`: a copy of `target` with each source field
      merged in turn. The result has the keys of both, and a key the source
      does not mention keeps its target value. */
  function MergeConfig(target: Fields, source: Fields): (r: Fields)
    ensures Keys(r) == Keys(target) + Keys(source)
    ensures forall k :: k !in Keys(source) ==> Get(r, k) == Get(target, k)
    ensures source == [] ==> r == target
  {
    assert JObj(source).fields[0..] == source;
    MergeFrom(target, target, JObj(source), 0)
  }

  /** The value the merge stores for a source field `k: v`. */
  function MergedValue(target: Fields, k: string, v: Json): Json {
    if IsPlainObject(v) then JObj(MergeConfig(BaseOf(Get(target, k)), v.fields)) else v
  }

  lemma KeysAppend(a: Fields, b: Fields)
    ensures Keys(a + b) == Keys(a) + Keys(b)
  {
    if a != [] {
      assert (a + b)[0] == a[0];
      assert (a + b)[1..] == a[1..] + b;
      KeysAppend(a[1..], b);
    } else {
      assert a + b == b;
    }
  }

  lemma GetOfCons(f: Fields, i: nat, k: string)
    requires i < |f| && f[i].0 != k
    ensures Get(f[i..], k) == Get(f[i + 1..], k)
  {
    assert f[i..][1..] == f[i + 1..];
  }

  lemma DistinctTail(f: Fields, i: nat)
    requires DistinctKeys(f) && i < |f|
    ensures f[i].0 !in Keys(f[i + 1..])
  {
    var g := f[i + 1..];
    forall j | 0 <= j < |g|
      ensures g[j].0 != f[i].0
    {
      assert g[j] == f[i + 1 + j];
    }
    AbsentKey(g, f[i].0);
  }

  lemma AbsentKey(g: Fields, k: string)
    requires forall j :: 0 <= j < |g| ==> g[j].0 != k
    ensures k !in Keys(g)
  {
    if g != [] {
      assert forall j :: 0 <= j < |g[1..]| ==> g[1..][j] == g[j + 1];
      AbsentKey(g[1..], k);
    }
  }

  /** The fold from index `i` stores, for each source key it still visits,
      the merged value of that key's field. */
  lemma {:induction false} MergeFromTakesSourceValue(result: Fields, target: Fields, source: Json, i: nat, k: string, v: Json)
    requires source.JObj? && i <= |source.fields| && DistinctKeys(source.fields)
    requires Get(source.fields[i..], k) == Some(v)
    ensures Get(MergeFrom(result, target, source, i), k) == Some(MergedValue(target, k, v))
    decreases |source.fields| - i
  {
    var (k0, v0) := source.fields[i];
    assert source.fields[i] in source.fields;
    var merged :=
      if IsPlainObject(v0) then JObj(MergeFrom(BaseOf(Get(target, k0)), BaseOf(Get(target, k0)), v0, 0))
      else v0;
    if k0 == k {
      assert v0 == v;
      assert v0.JObj? ==> v0 == JObj(v0.fields);
      assert merged == MergedValue(target, k, v);
      DistinctTail(source.fields, i);
    } else {
      GetOfCons(source.fields, i, k);
      MergeFromTakesSourceValue(Put(result, k0, merged), target, source, i + 1, k, v);
    }
  }

  /** A source field decides its key's merged value: a plain object is merged
      into the target's value (or into `{}`), anything else replaces it. */
  lemma MergeTakesSourceValue(target: Fields, source: Fields, k: string, v: Json)
    requires DistinctKeys(source) && Get(source, k) == Some(v)
    ensures Get(MergeConfig(target, source), k) == Some(MergedValue(target, k, v))
    ensures !IsPlainObject(v) ==> Get(MergeConfig(target, source), k) == Some(v)
    ensures IsPlainObject(v) ==>
      Get(MergeConfig(target, source), k) == Some(JObj(MergeConfig(BaseOf(Get(target, k)), v.fields)))
  {
    assert JObj(source).fields[0..] == source;
    MergeFromTakesSourceValue(target, target, JObj(source), 0, k, v);
  }

  /** Merging over the defaults keeps every default section present. */
  lemma MergeOverDefaultsKeepsSections(source: Fields)
    ensures {"claude", "mcp", "logging", "ui"} <= Keys(MergeConfig(DefaultConfig(), source))
  {
    assert Keys(DefaultConfig()) == {"claude", "mcp", "logging", "ui"};
  }

  /** `config[section][field] = value`: fails when the section is not an
      object (a missing or primitive section raises a TypeError). */
  function SetField(config: Fields, section: string, field: string, value: Json): (r: Result<Fields, string>)
  {
    match Get(config, section)
    case Some(JObj(f)) => Success(Put(config, section, JObj(Put(f, field, value))))
    case _ => Failure(TYPE_ERROR)
  }

  /** A field write fails exactly when its section is not an object;
      otherwise it changes that one field of that one section. */
  lemma SetFieldChangesOnlyThatField(config: Fields, section: string, field: string, value: Json)
    ensures SetField(config, section, field, value).Failure? <==> !(Get(config, section).Some? && Get(config, section).value.JObj?)
    ensures SetField(config, section, field, value).Success? ==>
      var r := SetField(config, section, field, value).value;
      var f := Get(config, section).value.fields;
      && Keys(r) == Keys(config)
      && (forall s :: s != section ==> Get(r, s) == Get(config, s))
      && Get(r, section).Some? && Get(r, section).value.JObj?
      && Keys(Get(r, section).value.fields) == Keys(f) + {field}
      && Get(Get(r, section).value.fields, field) == Some(value)
      && (forall g :: g != field ==> Get(Get(r, section).value.fields, g) == Get(f, g))
  {
  }

  /** `setWindowSize`: the width write, then the height write. */
  function SetWindow(config: Fields, width: int, height: int): Result<Fields, string> {
    match SetField(config, "ui", "windowWidth", JNum(width))
    case Failure(e) => Failure(e)
    case Success(c) => SetField(c, "ui", "windowHeight", JNum(height))
  }

  /** The window-size write touches only `ui.windowWidth` and
      `ui.windowHeight`, and fails when `ui` is not an object. */
  lemma SetWindowChangesOnlyTheSize(config: Fields, width: int, height: int)
    ensures SetWindow(config, width, height).Failure? <==> !(Get(config, "ui").Some? && Get(config, "ui").value.JObj?)
    ensures SetWindow(config, width, height).Success? ==>
      var r := SetWindow(config, width, height).value;
      var f := Get(config, "ui").value.fields;
      && Keys(r) == Keys(config)
      && (forall s :: s != "ui" ==> Get(r, s) == Get(config, s))
      && Get(r, "ui").Some? && Get(r, "ui").value.JObj?
      && Get(Get(r, "ui").value.fields, "windowWidth") == Some(JNum(width))
      && Get(Get(r, "ui").value.fields, "windowHeight") == Some(JNum(height))
      && (forall g :: g != "windowWidth" && g != "windowHeight" ==>
            Get(Get(r, "ui").value.fields, g) == Get(f, g))
  {
    SetFieldChangesOnlyThatField(config, "ui", "windowWidth", JNum(width));
    if SetField(config, "ui", "windowWidth", JNum(width)).Success? {
      var c := SetField(config, "ui", "windowWidth", JNum(width)).value;
      SetFieldChangesOnlyThatField(c, "ui", "windowHeight", JNum(height));
    }
  }

  /** The configuration store, keeping its configuration as a value: the
      defaults cannot be changed through it. */
  class ConfigManager {
    var config: Fields

    constructor()
      ensures config == DefaultConfig()
    {
      config := DefaultConfig();
    }

    /** `get()`: the current configuration. */
    function Get(): (c: Fields)
      reads this
      ensures c == config
    {
      config
    }

    /** `set(newConfig)`: deep-merges the partial configuration in. */
    method Set(newConfig: Fields)
      modifies this
      ensures config == MergeConfig(old(config), newConfig)
    {
      config := MergeConfig(config, newConfig);
    }

    /** `setClaudeModel(model)`; a failure leaves the configuration as it was. */
    method SetClaudeModel(model: string) returns (r: Result<(), string>)
      modifies this
      ensures match SetField(old(config), "claude", "model", JStr(model))
              case Success(c) => r == Success(()) && config == c
              case Failure(e) => r == Failure(e) && config == old(config)
    {
      r := Apply(SetField(config, "claude", "model", JStr(model)));
    }

    /** `setLoggingLevel(level)`. */
    method SetLoggingLevel(level: string) returns (r: Result<(), string>)
      modifies this
      ensures match SetField(old(config), "logging", "level", JStr(level))
              case Success(c) => r == Success(()) && config == c
              case Failure(e) => r == Failure(e) && config == old(config)
    {
      r := Apply(SetField(config, "logging", "level", JStr(level)));
    }

    /** `setWindowSize(width, height)`. When `ui` is not an object the width
        write already fails, so nothing changes. */
    method SetWindowSize(width: int, height: int) returns (r: Result<(), string>)
      modifies this
      ensures match SetWindow(old(config), width, height)
              case Success(c) => r == Success(()) && config == c
              case Failure(e) => r == Failure(e) && config == old(config)
    {
      r := Apply(SetWindow(config, width, height));
    }

    /** `reset()`: back to the built-in configuration. */
    method Reset()
      modifies this
      ensures config == DefaultConfig()
    {
      config := DefaultConfig();
    }

    method Apply(w: Result<Fields, string>) returns (r: Result<(), string>)
      modifies this
      ensures match w
              case Success(c) => r == Success(()) && config == c
              case Failure(e) => r == Failure(e) && config == old(config)
    {
      match w
      case Success(c) =>
        config := c;
        r := Success(());
      case Failure(e) =>
        r := Failure(e);
    }
  }

  /** The store as written: the configuration object starts out as the
      defaults object itself, and `set` and `reset` copy only the top level,
      so a section named in `shared` is one object held by both `config` and
      `defaults`. Deeper objects are never written by the setters, so sharing
      below the sections does not matter here. */
  datatype AliasedStore = AliasedStore(config: Fields, defaults: Fields, shared: set<string>)

  /** A shared section reads the same through the configuration and through
      the defaults, because it is one object. */
  predicate Coherent(s: AliasedStore) {
    forall k :: k in s.shared ==> k in Keys(s.config) && Get(s.config, k) == Get(s.defaults, k)
  }

  /** A fresh store: the configuration is the defaults object. */
  function AliasedInitial(): (s: AliasedStore)
    ensures s.config == s.defaults == DefaultConfig() && Coherent(s)
  {
    AliasedStore(DefaultConfig(), DefaultConfig(), Keys(DefaultConfig()))
  }

  /** `set` as written: the merge builds a fresh section for every key the
      partial configuration names; the other sections stay shared. */
  function AliasedSet(s: AliasedStore, newConfig: Fields): (s': AliasedStore)
    ensures s'.defaults == s.defaults && s'.shared == s.shared - Keys(newConfig)
    ensures s'.config == MergeConfig(s.config, newConfig)
    ensures Coherent(s) ==> Coherent(s')
  {
    AliasedStore(MergeConfig(s.config, newConfig), s.defaults, s.shared - Keys(newConfig))
  }

  /** A field write as written: on a shared section it also lands in the
      defaults. */
  function AliasedSetField(s: AliasedStore, section: string, field: string, value: Json): (r: Result<AliasedStore, string>)
    ensures r.Success? <==> SetField(s.config, section, field, value).Success?
    ensures r.Success? ==> r.value.config == SetField(s.config, section, field, value).value
    ensures r.Success? && section !in s.shared ==> r.value.defaults == s.defaults
    ensures r.Success? && section in s.shared && Coherent(s) ==>
      forall k :: k != section ==> Get(r.value.defaults, k) == Get(s.defaults, k)
    ensures r.Success? && section in s.shared && Coherent(s) ==>
      Get(r.value.defaults, section) == Get(r.value.config, section)
    ensures r.Success? && Coherent(s) ==> Coherent(r.value)
  {
    match SetField(s.config, section, field, value)
    case Failure(e) => Failure(e)
    case Success(c) =>
      if section in s.shared then
        match Get(s.defaults, section)
        case Some(JObj(f)) => Success(AliasedStore(c, Put(s.defaults, section, JObj(Put(f, field, value))), s.shared))
        case _ => Success(AliasedStore(c, s.defaults, s.shared))
      else Success(AliasedStore(c, s.defaults, s.shared))
  }

  /** `reset` as written: a top-level copy of the (possibly altered)
      defaults, sharing every section with them. */
  function AliasedReset(s: AliasedStore): (s': AliasedStore)
    ensures s'.config == s.defaults && s'.defaults == s.defaults && Coherent(s')
  {
    AliasedStore(s.defaults, s.defaults, Keys(s.defaults))
  }

  /** On a fresh store, `setClaudeModel("x")` followed by `reset()` leaves the
      model at "x": the setter wrote through to the defaults. */
  lemma ResetAfterSetterKeepsTheChange()
    ensures AliasedSetField(AliasedInitial(), "claude", "model", JStr("x")).Success?
    ensures var s := AliasedSetField(AliasedInitial(), "claude", "model", JStr("x")).value;
      && AliasedReset(s).config != DefaultConfig()
      && Get(AliasedReset(s).config, "claude").Some?
      && Get(AliasedReset(s).config, "claude").value.JObj?
      && Get(Get(AliasedReset(s).config, "claude").value.fields, "model") == Some(JStr("x"))
  {
    var f := Get(DefaultConfig(), "claude").value.fields;
    assert Get(DefaultConfig(), "claude") == Some(JObj(f));
    var s := AliasedSetField(AliasedInitial(), "claude", "model", JStr("x")).value;
    assert Get(s.defaults, "claude") == Some(JObj(Put(f, "model", JStr("x"))));
    assert Get(DefaultConfig(), "claude") != Get(s.defaults, "claude");
  }
}
