/** The app-wide configuration of the multi-device mode: how a stored or
    patched configuration is normalised, the shallow comparison that keeps
    the state object when nothing changed, the setters built on both, and
    how the configuration is read back from storage, falling back to the
    legacy flag. */
module ConfigProvider {
  import opened JsValue

  const STORAGE_KEY := "config"
  const LEGACY_KEY := "permitirMultiDispositivo"

  /** The seven settings, typed as normalizeConfig leaves them. */
  datatype Config = Config(permitir: bool, modoMulti: string, masterHost: string, masterPort: string,
                           pinAtual: string, eventIdAtual: string, autoStart: bool)

  const DEFAULTS: Config := Config(false, "master", "", "5179", "", "", true)

  /** The keys of DEFAULT_CONFIG, in its order. */
  const CONFIG_KEYS: seq<string> := ["permitirMultiDispositivo", "modoMulti", "masterHost", "masterPort",
                                     "pinAtual", "eventIdAtual", "autoStartMasterOnOpen"]

  /** The value a setting key holds. */
  function FieldOf(c: Config, k: string): Value {
    if k == "permitirMultiDispositivo" then Bool(c.permitir)
    else if k == "modoMulti" then Str(c.modoMulti)
    else if k == "masterHost" then Str(c.masterHost)
    else if k == "masterPort" then Str(c.masterPort)
    else if k == "pinAtual" then Str(c.pinAtual)
    else if k == "eventIdAtual" then Str(c.eventIdAtual)
    else Bool(c.autoStart)
  }

  function ConfigMap(c: Config): (m: map<string, Value>)
    ensures forall k :: k in m <==> k in CONFIG_KEYS
    ensures forall k :: k in m ==> m[k] == FieldOf(c, k)
  {
    map k | k in CONFIG_KEYS :: FieldOf(c, k)
  }

  /** The settings as an object with the keys of DEFAULT_CONFIG. */
  function ConfigObject(c: Config): Value {
    Obj(ConfigMap(c), CONFIG_KEYS)
  }

  /** DEFAULT_CONFIG */
  const DEFAULT_CONFIG: Value := ConfigObject(DEFAULTS)

  /** The seven values normalizeConfig writes over the spread: the flag
      made boolean, "client" only for exactly "client", the texts kept only
      when they are strings (the port defaulting to "5179"), and the
      auto-start kept only when it is a boolean (true otherwise). */
  function Campos(raw: Value): Config {
    Config(Truthy(Get(raw, "permitirMultiDispositivo")),
           if Get(raw, "modoMulti") == Str("client") then "client" else "master",
           StringOr(Get(raw, "masterHost"), DEFAULTS.masterHost),
           StringOr(Get(raw, "masterPort"), DEFAULTS.masterPort),
           StringOr(Get(raw, "pinAtual"), DEFAULTS.pinAtual),
           StringOr(Get(raw, "eventIdAtual"), DEFAULTS.eventIdAtual),
           BoolOr(Get(raw, "autoStartMasterOnOpen"), DEFAULTS.autoStart))
  }

  /** raw && typeof raw === "object" ? raw : {} */
  function Proprias(raw: Value): Value {
    if Truthy(raw) && (raw.Obj? || raw.Arr?) then raw else EmptyObj
  }

  /** normalizeConfig: the defaults, then the stored object's own
      properties, then the seven normalised settings. */
  function NormalizeConfig(raw: Value): (r: Value)
    ensures r.Obj?
    ensures forall k :: k in CONFIG_KEYS ==> Get(r, k) == FieldOf(Campos(raw), k)
    ensures forall k :: k !in CONFIG_KEYS ==> Get(r, k) == Get(raw, k)
  {
    assert Spread(Proprias(raw)) == Spread(raw);
    MergeCovered(DEFAULT_CONFIG, Proprias(raw), ConfigObject(Campos(raw)));
    Merge(Merge(DEFAULT_CONFIG, Proprias(raw)), ConfigObject(Campos(raw)))
  }

  /** { ...{ ...d, ...p }, ...o } when o sets every property of d, under
      the same keys: o's properties over p's, d's keys first. */
  lemma MergeCovered(d: Value, p: Value, o: Value)
    requires d.Obj? && o.Obj? && d.keys == o.keys
    requires forall k :: k in d.fields ==> k in o.fields
    ensures Merge(Merge(d, p), o) == Obj(Spread(p).fields + o.fields, o.keys + NewKeys(Spread(p).keys, o.keys))
  {
    var m1 := Merge(d, p);
    NewKeysAllSeen(o.keys, m1.keys);
    assert d.fields + Spread(p).fields + o.fields == Spread(p).fields + o.fields;
  }

  /** The normalised object: the seven keys of the defaults first, then the
      raw object's other keys in their order; the seven settings
      normalised, every other property copied. */
  lemma NormalizeShape(raw: Value)
    ensures NormalizeConfig(raw)
            == Obj(Spread(raw).fields + ConfigMap(Campos(raw)), CONFIG_KEYS + NewKeys(Spread(raw).keys, CONFIG_KEYS))
  {
    assert Spread(Proprias(raw)) == Spread(raw);
    MergeCovered(DEFAULT_CONFIG, Proprias(raw), ConfigObject(Campos(raw)));
  }

  /** A property of the normalised object: the normalised setting for the
      seven keys, the raw object's own property for any other. */
  lemma NormalizeGet(raw: Value, k: string)
    ensures Get(NormalizeConfig(raw), k) == if k in CONFIG_KEYS then FieldOf(Campos(raw), k) else Get(raw, k)
  {
    NormalizeShape(raw);
  }

  /** What normalizeConfig promises about each setting: the flag is a
      boolean, the mode is "client" exactly when the raw mode is the
      string "client" and "master" otherwise, the texts are the raw
      strings or their defaults, the auto-start is the raw boolean or
      true; any other property is the raw object's own, and the keys of
      the defaults come first. */
  lemma NormalizeFields(raw: Value, k: string)
    ensures var r := NormalizeConfig(raw);
            Get(r, "permitirMultiDispositivo") == Bool(Truthy(Get(raw, "permitirMultiDispositivo")))
            && (Get(r, "modoMulti") == Str("client") <==> Get(raw, "modoMulti") == Str("client"))
            && (Get(r, "modoMulti") == Str("client") || Get(r, "modoMulti") == Str("master"))
            && Get(r, "masterHost") == Str(StringOr(Get(raw, "masterHost"), ""))
            && Get(r, "masterPort") == Str(StringOr(Get(raw, "masterPort"), "5179"))
            && Get(r, "pinAtual") == Str(StringOr(Get(raw, "pinAtual"), ""))
            && Get(r, "eventIdAtual") == Str(StringOr(Get(raw, "eventIdAtual"), ""))
            && Get(r, "autoStartMasterOnOpen") == Bool(BoolOr(Get(raw, "autoStartMasterOnOpen"), true))
            && (k !in CONFIG_KEYS ==> Get(r, k) == Get(raw, k))
  {
    NormalizeFlags(raw, k);
    NormalizeTexts(raw);
  }

  lemma NormalizeFlags(raw: Value, k: string)
    ensures var r := NormalizeConfig(raw);
            Get(r, "permitirMultiDispositivo") == Bool(Truthy(Get(raw, "permitirMultiDispositivo")))
            && (Get(r, "modoMulti") == Str("client") <==> Get(raw, "modoMulti") == Str("client"))
            && (Get(r, "modoMulti") == Str("client") || Get(r, "modoMulti") == Str("master"))
            && Get(r, "autoStartMasterOnOpen") == Bool(BoolOr(Get(raw, "autoStartMasterOnOpen"), true))
            && (k !in CONFIG_KEYS ==> Get(r, k) == Get(raw, k))
  {
    NormalizeGet(raw, "permitirMultiDispositivo");
    NormalizeGet(raw, "modoMulti");
    NormalizeGet(raw, "autoStartMasterOnOpen");
    NormalizeGet(raw, k);
  }

  lemma NormalizeTexts(raw: Value)
    ensures var r := NormalizeConfig(raw);
            Get(r, "masterHost") == Str(StringOr(Get(raw, "masterHost"), ""))
            && Get(r, "masterPort") == Str(StringOr(Get(raw, "masterPort"), "5179"))
            && Get(r, "pinAtual") == Str(StringOr(Get(raw, "pinAtual"), ""))
            && Get(r, "eventIdAtual") == Str(StringOr(Get(raw, "eventIdAtual"), ""))
  {
    NormalizeGet(raw, "masterHost");
    NormalizeGet(raw, "masterPort");
    NormalizeGet(raw, "pinAtual");
    NormalizeGet(raw, "eventIdAtual");
  }

  /** The defaults' keys come first, in their order. */
  lemma NormalizeKeys(raw: Value)
    ensures Keys(NormalizeConfig(raw))[..|CONFIG_KEYS|] == CONFIG_KEYS
  {
    NormalizeShape(raw);
  }

  /** The settings read back from a normalised object are the ones
      written. */
  lemma CamposOfNormalized(raw: Value)
    ensures Campos(NormalizeConfig(raw)) == Campos(raw)
  {
    NormalizeGet(raw, "permitirMultiDispositivo");
    NormalizeGet(raw, "modoMulti");
    NormalizeGet(raw, "masterHost");
    NormalizeGet(raw, "masterPort");
    NormalizeGet(raw, "pinAtual");
    NormalizeGet(raw, "eventIdAtual");
    NormalizeGet(raw, "autoStartMasterOnOpen");
  }

  /** Writing the same settings over an object that already holds them,
      under keys it already lists first, changes nothing. */
  lemma ShapeTwice(f: map<string, Value>, cm: map<string, Value>, ks: seq<string>, rest: seq<string>)
    ensures var n := Obj(f + cm, ks + NewKeys(rest, ks));
            Obj(n.fields + cm, ks + NewKeys(n.keys, ks)) == n
  {
    KeysAfter(ks, rest);
    OverrideTwice(f, cm);
  }

  lemma KeysAfter(ks: seq<string>, rest: seq<string>)
    ensures NewKeys(ks + NewKeys(rest, ks), ks) == NewKeys(rest, ks)
  {
    NewKeysAppend(ks, NewKeys(rest, ks), ks);
    NewKeysAllSeen(ks, ks);
    NewKeysTwice(rest, ks);
  }

  lemma OverrideTwice<K, V>(f: map<K, V>, cm: map<K, V>)
    ensures (f + cm) + cm == f + cm
  {
  }

  /** Normalising a normalised configuration gives it back unchanged. */
  lemma NormalizeIdempotent(raw: Value)
    ensures NormalizeConfig(NormalizeConfig(raw)) == NormalizeConfig(raw)
  {
    var n := NormalizeConfig(raw);
    NormalizeShape(raw);
    NormalizeShape(n);
    CamposOfNormalized(raw);
    ShapeTwice(Spread(raw).fields, ConfigMap(Campos(raw)), CONFIG_KEYS, Spread(raw).keys);
  }

  /** The settings normalizeConfig leaves in place. */
  predicate Normalizado(c: Value) { NormalizeConfig(c) == c }

  lemma NormalizedIsNormal(raw: Value)
    ensures Normalizado(NormalizeConfig(raw))
  {
    NormalizeIdempotent(raw);
  }

  // ---------------------------------------------------------------------
  // shallowEqual

  /** shallowEqual(a, b): the same value, or two truthy values with as
      many keys, each key of a holding strictly equal values in a and b.
      Objects are compared by content, not by identity. */
  predicate ShallowEq(a: Value, b: Value) {
    StrictEq(a, b)
    || (Truthy(a) && Truthy(b) && |Keys(a)| == |Keys(b)|
        && forall i :: 0 <= i < |Keys(a)| ==> StrictEq(Get(a, Keys(a)[i]), Get(b, Keys(a)[i])))
  }

  /** The loop of shallowEqual, returning at the first key that differs. */
  method ShallowEqual(a: Value, b: Value) returns (r: bool)
    ensures r == ShallowEq(a, b)
  {
    if StrictEq(a, b) {
      return true;
    }
    if !Truthy(a) || !Truthy(b) {
      return false;
    }
    var ka := Keys(a);
    var kb := Keys(b);
    if |ka| != |kb| {
      return false;
    }
    var i := 0;
    while i < |ka|
      invariant 0 <= i <= |ka|
      invariant forall j :: 0 <= j < i ==> StrictEq(Get(a, ka[j]), Get(b, ka[j]))
    {
      if !StrictEq(Get(a, ka[i]), Get(b, ka[i])) {
        return false;
      }
      i := i + 1;
    }
    return true;
  }

  /** Shallow-equal values agree on every key of the first. */
  lemma ShallowEqAgrees(a: Value, b: Value, k: string)
    requires ShallowEq(a, b) && k in Keys(a)
    ensures Get(a, k) == Get(b, k)
  {
    if !StrictEq(a, b) {
      var i :| 0 <= i < |Keys(a)| && Keys(a)[i] == k;
      assert StrictEq(Get(a, Keys(a)[i]), Get(b, Keys(a)[i]));
    }
  }

  /** Every object is shallow-equal to itself. */
  lemma ShallowEqReflexive(a: Value)
    requires a.Obj?
    ensures ShallowEq(a, a)
  {
  }

  /** Only the keys of the first object are looked at: {x: undefined} and
      {y: undefined} compare equal. */
  lemma ShallowEqLooksAtFirstKeys()
    ensures ShallowEq(Obj(map["x" := Undefined], ["x"]), Obj(map["y" := Undefined], ["y"]))
  {
    var a := Obj(map["x" := Undefined], ["x"]);
    var b := Obj(map["y" := Undefined], ["y"]);
    assert Keys(a) == ["x"];
    assert Get(b, "x") == Undefined;
  }

  // ---------------------------------------------------------------------
  // The setters

  /** shallowEqual(prev, normalized) ? prev : normalized */
  function Guard(prev: Value, normalized: Value): (r: Value)
    ensures r == prev || r == normalized
    ensures !ShallowEq(prev, normalized) ==> r == normalized
    ensures forall k :: k in Keys(prev) ==> Get(r, k) == Get(normalized, k)
  {
    assert forall k :: k in Keys(prev) && ShallowEq(prev, normalized) ==> Get(prev, k) == Get(normalized, k) by {
      forall k | k in Keys(prev) && ShallowEq(prev, normalized) ensures Get(prev, k) == Get(normalized, k) {
        ShallowEqAgrees(prev, normalized, k);
      }
    }
    if ShallowEq(prev, normalized) then prev else normalized
  }

  /** Whichever object the guard keeps, it shows the settings of the
      normalised candidate. */
  lemma GuardShowsCandidate(prev: Value, raw: Value, k: string)
    requires Normalizado(prev) && k in CONFIG_KEYS
    ensures Get(Guard(prev, NormalizeConfig(raw)), k) == Get(NormalizeConfig(raw), k)
  {
    NormalHasConfigKey(prev, k);
    GuardAgreesOn(prev, NormalizeConfig(raw), k);
  }

  /** A normalised object has every key of the defaults. */
  lemma NormalHasConfigKeys(prev: Value)
    requires Normalizado(prev)
    ensures forall k :: k in CONFIG_KEYS ==> k in Keys(prev)
  {
    forall k | k in CONFIG_KEYS ensures k in Keys(prev) {
      NormalHasConfigKey(prev, k);
    }
  }

  /** A normalised object has every key of the defaults. */
  lemma NormalHasConfigKey(prev: Value, k: string)
    requires Normalizado(prev) && k in CONFIG_KEYS
    ensures k in Keys(prev)
  {
    NormalizeKeys(prev);
    var i :| 0 <= i < |CONFIG_KEYS| && CONFIG_KEYS[i] == k;
    assert Keys(prev)[i] == k;
  }

  /** On a key of prev, the guard's choice shows the candidate's value. */
  lemma GuardAgreesOn(prev: Value, c: Value, k: string)
    requires k in Keys(prev)
    ensures Get(Guard(prev, c), k) == Get(c, k)
  {
    if ShallowEq(prev, c) {
      ShallowEqAgrees(prev, c, k);
    }
  }

  /** setConfig(next): the normalised candidate (next, or next(prev)
      already applied), or prev when it is shallow-equal to it. */
  function SetConfig(prev: Value, candidate: Value): (r: Value)
    ensures Normalizado(prev) ==> Normalizado(r)
    ensures Normalizado(prev) ==> forall k :: k in CONFIG_KEYS ==> Get(r, k) == FieldOf(Campos(candidate), k)
  {
    if Normalizado(prev) then
      GuardNormalized(prev, candidate);
      NormalHasConfigKeys(prev);
      Guard(prev, NormalizeConfig(candidate))
    else
      Guard(prev, NormalizeConfig(candidate))
  }

  /** (nextPatch && typeof nextPatch === "object") ? nextPatch : {} */
  function PatchProps(patch: Value): Value {
    if Truthy(patch) && (patch.Obj? || patch.Arr?) then patch else EmptyObj
  }

  /** updateConfig(patch): the previous settings with the patch over them,
      normalised, or prev when that changes nothing. */
  function UpdateConfig(prev: Value, patch: Value): (r: Value)
    ensures Normalizado(prev) ==> Normalizado(r)
    ensures Normalizado(prev) ==> forall k :: k in CONFIG_KEYS ==> Get(r, k) == FieldOf(Campos(Merge(prev, PatchProps(patch))), k)
  {
    if Normalizado(prev) then
      GuardNormalized(prev, Merge(prev, PatchProps(patch)));
      NormalHasConfigKeys(prev);
      Guard(prev, NormalizeConfig(Merge(prev, PatchProps(patch))))
    else
      Guard(prev, NormalizeConfig(Merge(prev, PatchProps(patch))))
  }

  /** setPermitirMultiDispositivo(next): prev when its flag already has
      the new value; otherwise prev with the flag set, normalised and
      guarded. */
  function SetPermitir(prev: Value, next: Value): (r: Value)
    ensures Normalizado(prev) ==> Normalizado(r)
    ensures Normalizado(prev) ==> Get(r, "permitirMultiDispositivo") == Bool(Truthy(next))
  {
    var permitir := Truthy(next);
    if StrictEq(Get(prev, "permitirMultiDispositivo"), Bool(permitir)) then prev
    else
      var q := Put(prev, "permitirMultiDispositivo", Bool(permitir));
      if Normalizado(prev) then
        GuardNormalized(prev, q);
        NormalHasConfigKeys(prev);
        assert Get(q, "permitirMultiDispositivo") == Bool(permitir);
        Guard(prev, NormalizeConfig(q))
      else
        Guard(prev, NormalizeConfig(q))
  }

  lemma GuardNormalized(prev: Value, raw: Value)
    requires Normalizado(prev)
    ensures Normalizado(Guard(prev, NormalizeConfig(raw)))
  {
    NormalizedIsNormal(raw);
  }

  /** Each setter keeps the state normalised. */
  lemma SettersKeepNormalized(prev: Value, x: Value)
    requires Normalizado(prev)
    ensures Normalizado(SetConfig(prev, x))
    ensures Normalizado(UpdateConfig(prev, x))
    ensures Normalizado(SetPermitir(prev, x))
  {
    GuardNormalized(prev, x);
    GuardNormalized(prev, Merge(prev, PatchProps(x)));
    GuardNormalized(prev, Put(prev, "permitirMultiDispositivo", Bool(Truthy(x))));
  }

  /** setConfig shows the candidate's normalised settings, and setting the
      same candidate again returns the very same state. */
  lemma SetConfigSettles(prev: Value, x: Value, k: string)
    requires Normalizado(prev)
    ensures k in CONFIG_KEYS ==> Get(SetConfig(prev, x), k) == FieldOf(Campos(x), k)
    ensures SetConfig(SetConfig(prev, x), x) == SetConfig(prev, x)
  {
    if k in CONFIG_KEYS {
      GuardShowsCandidate(prev, x, k);
      NormalizeGet(x, k);
    }
    var n := NormalizeConfig(x);
    if !ShallowEq(prev, n) {
      NormalizeShape(x);
      ShallowEqReflexive(n);
    }
  }

  /** A normalised object merged with no properties is itself. */
  lemma MergeNothing(prev: Value)
    requires prev.Obj?
    ensures Merge(prev, EmptyObj) == prev
  {
    assert prev.keys + NewKeys([], prev.keys) == prev.keys;
  }

  /** An update with a patch that is not an object changes nothing. */
  lemma UpdateWithoutPatch(prev: Value, patch: Value)
    requires Normalizado(prev)
    requires !(Truthy(patch) && (patch.Obj? || patch.Arr?))
    ensures UpdateConfig(prev, patch) == prev
  {
    NormalizeShape(prev);
    MergeNothing(prev);
    ShallowEqReflexive(prev);
  }

  /** An update shows the normalised settings of the patched state. */
  lemma UpdateShowsPatch(prev: Value, patch: Value, k: string)
    requires Normalizado(prev) && k in CONFIG_KEYS
    ensures Get(UpdateConfig(prev, patch), k) == FieldOf(Campos(Merge(prev, PatchProps(patch))), k)
  {
    GuardShowsCandidate(prev, Merge(prev, PatchProps(patch)), k);
    NormalizeGet(Merge(prev, PatchProps(patch)), k);
  }

  /** setPermitirMultiDispositivo sets the flag to the truthiness of its
      argument and leaves the other six settings as they were. */
  lemma SetPermitirSets(prev: Value, next: Value, k: string)
    requires Normalizado(prev)
    ensures Get(SetPermitir(prev, next), "permitirMultiDispositivo") == Bool(Truthy(next))
    ensures k in CONFIG_KEYS && k != "permitirMultiDispositivo" ==> Get(SetPermitir(prev, next), k) == Get(prev, k)
  {
    var b := Bool(Truthy(next));
    var q := Put(prev, "permitirMultiDispositivo", b);
    NormalizeGet(prev, "permitirMultiDispositivo");
    if !StrictEq(Get(prev, "permitirMultiDispositivo"), b) {
      GuardShowsCandidate(prev, q, "permitirMultiDispositivo");
      NormalizeGet(q, "permitirMultiDispositivo");
      if k in CONFIG_KEYS && k != "permitirMultiDispositivo" {
        GuardShowsCandidate(prev, q, k);
        NormalizeGet(q, k);
        NormalizeGet(prev, k);
        PutOtherSetting(prev, b, k);
      }
    }
  }

  /** Setting the flag again to the same value returns the same state. */
  lemma SetPermitirTwice(prev: Value, next: Value)
    requires Normalizado(prev)
    ensures SetPermitir(SetPermitir(prev, next), next) == SetPermitir(prev, next)
  {
    SetPermitirSets(prev, next, "permitirMultiDispositivo");
  }

  lemma PutOtherSetting(prev: Value, b: Value, k: string)
    requires k in CONFIG_KEYS && k != "permitirMultiDispositivo" && b.Bool?
    ensures FieldOf(Campos(Put(prev, "permitirMultiDispositivo", b)), k) == FieldOf(Campos(prev), k)
  {
  }

  // ---------------------------------------------------------------------
  // Storage

  /** readPermitirMultiDispositivo: the legacy flag is set only by the
      stored string "true"; missing, it is false. */
  function ReadPermitir(ls: map<string, string>): (r: bool)
    ensures r <==> LEGACY_KEY in ls && ls[LEGACY_KEY] == "true"
  {
    if LEGACY_KEY !in ls then DEFAULTS.permitir else ls[LEGACY_KEY] == "true"
  }

  /** { permitirMultiDispositivo: readPermitirMultiDispositivo() } */
  function Legado(ls: map<string, string>): Value {
    Obj(map["permitirMultiDispositivo" := Bool(ReadPermitir(ls))], ["permitirMultiDispositivo"])
  }

  /** readConfig: the stored configuration parsed and normalised; the
      legacy flag over the defaults when nothing (or an empty string) is
      stored or the text does not parse. JSON.parse is the parameter
      `parse`, None standing for the exception. */
  function ReadConfig(ls: map<string, string>, parse: string -> Option<Value>): (r: Value)
    ensures Normalizado(r)
    ensures STORAGE_KEY !in ls || ls[STORAGE_KEY] == "" || parse(ls[STORAGE_KEY]).None?
            ==> r == ConfigObject(DEFAULTS.(permitir := ReadPermitir(ls)))
    ensures STORAGE_KEY in ls && ls[STORAGE_KEY] != "" && parse(ls[STORAGE_KEY]).Some?
            ==> r == NormalizeConfig(parse(ls[STORAGE_KEY]).value)
  {
    if STORAGE_KEY !in ls || ls[STORAGE_KEY] == "" then
      LegadoIsDefaults(ls);
      NormalizeIdempotent(Legado(ls));
      NormalizeConfig(Legado(ls))
    else match parse(ls[STORAGE_KEY])
         case Some(v) =>
           NormalizeIdempotent(v);
           NormalizeConfig(v)
         case None =>
           LegadoIsDefaults(ls);
           NormalizeIdempotent(Legado(ls));
           NormalizeConfig(Legado(ls))
  }

  lemma CamposOfLegado(ls: map<string, string>)
    ensures Campos(Legado(ls)) == DEFAULTS.(permitir := ReadPermitir(ls))
  {
  }

  lemma OverrideCovered<K, V>(f: map<K, V>, cm: map<K, V>)
    requires forall k :: k in f ==> k in cm
    ensures f + cm == cm
  {
  }

  /** The fallback is the defaults with the legacy flag. */
  lemma LegadoIsDefaults(ls: map<string, string>)
    ensures NormalizeConfig(Legado(ls)) == ConfigObject(DEFAULTS.(permitir := ReadPermitir(ls)))
  {
    var c := DEFAULTS.(permitir := ReadPermitir(ls));
    var l := Legado(ls);
    NormalizeShape(l);
    CamposOfLegado(ls);
    NewKeysAllSeen(l.keys, CONFIG_KEYS);
    OverrideCovered(l.fields, ConfigMap(c));
    assert CONFIG_KEYS + [] == CONFIG_KEYS;
  }

  /** Without a readable stored configuration, the defaults hold, with the
      flag read from the legacy key. */
  lemma ReadConfigFallback(ls: map<string, string>, parse: string -> Option<Value>)
    requires STORAGE_KEY !in ls || ls[STORAGE_KEY] == "" || parse(ls[STORAGE_KEY]).None?
    ensures ReadConfig(ls, parse) == ConfigObject(DEFAULTS.(permitir := ReadPermitir(ls)))
  {
    LegadoIsDefaults(ls);
  }

  /** The initial state normalizeConfig(readConfig()) is what readConfig
      returns. */
  lemma InitialStateIsReadConfig(ls: map<string, string>, parse: string -> Option<Value>)
    ensures NormalizeConfig(ReadConfig(ls, parse)) == ReadConfig(ls, parse)
  {
    if STORAGE_KEY !in ls || ls[STORAGE_KEY] == "" {
      NormalizeIdempotent(Legado(ls));
    } else {
      match parse(ls[STORAGE_KEY])
      case Some(v) => NormalizeIdempotent(v);
      case None => NormalizeIdempotent(Legado(ls));
    }
  }

  /** The persistence effect: the configuration as JSON text under
      "config", and the flag as "true" or "false" under the legacy key.
      JSON.stringify is the parameter `stringify`. */
  function Persist(ls: map<string, string>, config: Value, stringify: Value -> string): (r: map<string, string>)
    ensures STORAGE_KEY in r && r[STORAGE_KEY] == stringify(config)
    ensures ReadPermitir(r) == Truthy(Get(config, "permitirMultiDispositivo"))
    ensures r.Keys == ls.Keys + {STORAGE_KEY, LEGACY_KEY}
    ensures forall k :: k in ls && k != STORAGE_KEY && k != LEGACY_KEY ==> r[k] == ls[k]
  {
    ls[STORAGE_KEY := stringify(config)][LEGACY_KEY := if Truthy(Get(config, "permitirMultiDispositivo")) then "true" else "false"]
  }

  /** A persisted normalised configuration is read back as itself, and the
      legacy flag as its flag, whenever JSON text parses back to the value
      it was written from. */
  lemma PersistRoundTrip(ls: map<string, string>, config: Value, stringify: Value -> string, parse: string -> Option<Value>)
    requires Normalizado(config)
    requires stringify(config) != "" && parse(stringify(config)) == Some(config)
    ensures ReadConfig(Persist(ls, config, stringify), parse) == config
    ensures ReadPermitir(Persist(ls, config, stringify)) == Truthy(Get(config, "permitirMultiDispositivo"))
  {
    var ls2 := Persist(ls, config, stringify);
    assert ls2[STORAGE_KEY] == stringify(config);
  }
}
