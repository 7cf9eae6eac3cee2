/**
 * The settings store (class Ict_Mcp_Settings): the persisted option array
 * `ict_mcp_settings`, read back merged over fixed defaults, and the sanitiser
 * registered for it.
 */
module Settings {
  import opened Php

  /** A value held under one key of the option array. */
  datatype SettingValue = Codes(codes: seq<string>) | Ids(ids: seq<int>) | Text(text: string)

  type SettingsArray = map<string, SettingValue>

  const COUNTRIES := "restricted_countries"
  const PRODUCTS := "restricted_products"
  const MESSAGE := "restriction_message"
  const DEFAULT_MESSAGE := "These products are not available for purchase in your country."

  const KNOWN_KEYS: set<string> := {COUNTRIES, PRODUCTS, MESSAGE}

  const DEFAULTS: SettingsArray :=
    map[COUNTRIES := Codes([]), PRODUCTS := Ids([]), MESSAGE := Text(DEFAULT_MESSAGE)]

  /** Each known key, when present, holds the kind of value its getter returns. */
  predicate WellTyped(m: SettingsArray)
  {
    && (COUNTRIES in m ==> m[COUNTRIES].Codes?)
    && (PRODUCTS in m ==> m[PRODUCTS].Ids?)
    && (MESSAGE in m ==> m[MESSAGE].Text?)
  }

  predicate StoredWellTyped(stored: Option<SettingsArray>)
  {
    stored.Some? ==> WellTyped(stored.value)
  }

  /** The option row itself; `None` when the option has never been written. */
  class OptionStore {
    var stored: Option<SettingsArray>

    constructor ()
      ensures stored == None
    {
      stored := None;
    }

    /** `update_option('ict_mcp_settings', $value)`. */
    method Update(value: SettingsArray)
      modifies this
      ensures stored == Some(value)
    {
      stored := Some(value);
    }
  }

  /**
   * `get_settings`: the stored array merged over the defaults. A stored key
   * wins; a key the store lacks falls back to its default; unknown stored keys
   * are kept.
   */
  function GetSettings(stored: Option<SettingsArray>): (s: SettingsArray)
    ensures forall k :: k in s <==> k in KNOWN_KEYS || (stored.Some? && k in stored.value)
    ensures forall k :: k in s ==>
      s[k] == if stored.Some? && k in stored.value then stored.value[k] else DEFAULTS[k]
    ensures StoredWellTyped(stored) ==> WellTyped(s)
  {
    match stored
    case None => DEFAULTS
    case Some(m) => DEFAULTS + m
  }

  /** `get_restricted_countries`: the stored list, or the empty default. */
  function GetRestrictedCountries(stored: Option<SettingsArray>): (r: seq<string>)
    requires StoredWellTyped(stored)
    ensures stored.Some? && COUNTRIES in stored.value ==> r == stored.value[COUNTRIES].codes
    ensures !(stored.Some? && COUNTRIES in stored.value) ==> r == []
  {
    GetSettings(stored)[COUNTRIES].codes
  }

  /** `get_restricted_products`: the stored list, or the empty default. */
  function GetRestrictedProducts(stored: Option<SettingsArray>): (r: seq<int>)
    requires StoredWellTyped(stored)
    ensures stored.Some? && PRODUCTS in stored.value ==> r == stored.value[PRODUCTS].ids
    ensures !(stored.Some? && PRODUCTS in stored.value) ==> r == []
  {
    GetSettings(stored)[PRODUCTS].ids
  }

  /** `get_restriction_message`: the stored message, or the default sentence. */
  function GetRestrictionMessage(stored: Option<SettingsArray>): (r: string)
    requires StoredWellTyped(stored)
    ensures stored.Some? && MESSAGE in stored.value ==> r == stored.value[MESSAGE].text
    ensures !(stored.Some? && MESSAGE in stored.value) ==> r == DEFAULT_MESSAGE
  {
    GetSettings(stored)[MESSAGE].text
  }

  /** The three settings the rest of the plugin reads, as one value. */
  datatype Config = Config(countries: seq<string>, products: seq<int>, message: string)

  function LoadConfig(stored: Option<SettingsArray>): Config
    requires StoredWellTyped(stored)
  {
    Config(GetRestrictedCountries(stored), GetRestrictedProducts(stored), GetRestrictionMessage(stored))
  }

  /** With nothing stored the plugin restricts nothing and shows the default message. */
  lemma DefaultsWhenUnset()
    ensures LoadConfig(None) == Config([], [], DEFAULT_MESSAGE)
  {
  }

  /** `array_map` over a scalar stops with a TypeError. */
  predicate ListFieldIsScalar(input: map<string, FormValue>, key: string)
  {
    key in input && input[key].Scalar?
  }

  /** One known field of `sanitize_settings`, given a value of the shape it needs. */
  function SanitizeValue(key: string, v: FormValue, sanitizeText: string -> string,
                         ksesPost: string -> string): (r: SettingValue)
    requires key in KNOWN_KEYS
    requires key == MESSAGE <==> v.Scalar?
    ensures key == COUNTRIES ==>
      r.Codes? && |r.codes| == |v.items| &&
      forall i :: 0 <= i < |v.items| ==> r.codes[i] == sanitizeText(v.items[i])
    ensures key == PRODUCTS ==>
      r.Ids? && |r.ids| == |v.items| &&
      forall i :: 0 <= i < |v.items| ==> r.ids[i] == Absint(v.items[i]) && r.ids[i] >= 0
    ensures key == MESSAGE ==> r == Text(ksesPost(v.text))
  {
    if key == COUNTRIES then Codes(MapSeq(sanitizeText, v.items))
    else if key == PRODUCTS then Ids(MapSeq(Absint, v.items))
    else Text(ksesPost(v.text))
  }

  /**
   * `sanitize_settings`: each known key present in the input is sanitised on its
   * own (texts by `sanitizeText`, ids by `absint`, the message by `ksesPost`);
   * every other key is dropped.
   */
  function SanitizeSettings(input: map<string, FormValue>, sanitizeText: string -> string,
                            ksesPost: string -> string): (r: Result<SettingsArray>)
    ensures r.Failure? <==>
      ListFieldIsScalar(input, COUNTRIES) || ListFieldIsScalar(input, PRODUCTS) ||
      (MESSAGE in input && input[MESSAGE].Many?)
    ensures r.Success? ==> r.value.Keys == input.Keys * KNOWN_KEYS && WellTyped(r.value)
    ensures r.Success? && COUNTRIES in input ==>
      var xs := input[COUNTRIES].items;
      var cs := r.value[COUNTRIES].codes;
      |cs| == |xs| && forall i :: 0 <= i < |xs| ==> cs[i] == sanitizeText(xs[i])
    ensures r.Success? && PRODUCTS in input ==>
      var xs := input[PRODUCTS].items;
      var ids := r.value[PRODUCTS].ids;
      |ids| == |xs| && forall i :: 0 <= i < |xs| ==> ids[i] == Absint(xs[i]) && ids[i] >= 0
    ensures r.Success? && MESSAGE in input ==> r.value[MESSAGE] == Text(ksesPost(input[MESSAGE].text))
  {
    if ListFieldIsScalar(input, COUNTRIES) || ListFieldIsScalar(input, PRODUCTS) then
      Failure("array_map(): Argument #2 ($array) must be of type array")
    else if MESSAGE in input && input[MESSAGE].Many? then
      Failure("wp_kses_post(): a list is not a message")
    else
      Success(map k | k in input.Keys * KNOWN_KEYS :: SanitizeValue(k, input[k], sanitizeText, ksesPost))
  }

  /**
   * Storing a sanitised array and reading it back: each field present in the
   * input comes back sanitised, each absent one comes back as its default.
   */
  lemma SanitizedRoundTrip(input: map<string, FormValue>, sanitizeText: string -> string,
                           ksesPost: string -> string)
    requires SanitizeSettings(input, sanitizeText, ksesPost).Success?
    ensures var stored := Some(SanitizeSettings(input, sanitizeText, ksesPost).value);
      && StoredWellTyped(stored)
      && GetRestrictedCountries(stored) ==
         (if COUNTRIES in input then MapSeq(sanitizeText, input[COUNTRIES].items) else [])
      && GetRestrictedProducts(stored) ==
         (if PRODUCTS in input then MapSeq(Absint, input[PRODUCTS].items) else [])
      && GetRestrictionMessage(stored) ==
         (if MESSAGE in input then ksesPost(input[MESSAGE].text) else DEFAULT_MESSAGE)
  {
    var s := SanitizeSettings(input, sanitizeText, ksesPost).value;
    if COUNTRIES in input {
      assert s[COUNTRIES].codes == MapSeq(sanitizeText, input[COUNTRIES].items);
    }
    if PRODUCTS in input {
      var xs := MapSeq(Absint, input[PRODUCTS].items);
      var ys := s[PRODUCTS].ids;
      assert |ys| == |xs| && forall i :: 0 <= i < |xs| ==> ys[i] == xs[i];
    }
  }
}
