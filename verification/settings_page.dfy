/**
 * The WooCommerce settings tab (class Ict_Mcp_Settings_Page): the option lists
 * it offers and the record it persists when the form is saved.
 */
module SettingsPage {
  import opened Php
  import opened Settings

  /** Names of the form fields in `$_POST`. */
  const POST_COUNTRIES := "ict_mcp_restricted_countries"
  const POST_PRODUCTS := "ict_mcp_restricted_products"
  const POST_MESSAGE := "ict_mcp_restriction_message"

  /** One list field of `save`: absent gives [], a list is mapped, a scalar is a TypeError. */
  function ListField<T>(post: map<string, FormValue>, key: string, f: string -> T): (r: Result<seq<T>>)
    ensures key !in post ==> r == Success([])
    ensures r.Failure? <==> key in post && post[key].Scalar?
    ensures r.Success? && key in post ==>
      |r.value| == |post[key].items| &&
      forall i :: 0 <= i < |post[key].items| ==> r.value[i] == f(post[key].items[i])
  {
    if key !in post then Success([])
    else match post[key]
      case Scalar(_) => Failure("array_map(): Argument #2 ($array) must be of type array")
      case Many(xs) => Success(MapSeq(f, xs))
  }

  /**
   * The record `save` writes: always exactly the three keys, with per-field
   * fallbacks ([] for an absent list, '' for an absent message).
   */
  function SaveRecord(post: map<string, FormValue>, sanitizeText: string -> string,
                      sanitizeTextarea: string -> string): (r: Result<SettingsArray>)
    ensures r.Failure? <==>
      (POST_COUNTRIES in post && post[POST_COUNTRIES].Scalar?) ||
      (POST_PRODUCTS in post && post[POST_PRODUCTS].Scalar?)
    ensures r.Success? ==> r.value.Keys == KNOWN_KEYS && WellTyped(r.value)
    ensures r.Success? && POST_COUNTRIES !in post ==> r.value[COUNTRIES] == Codes([])
    ensures r.Success? && POST_PRODUCTS !in post ==> r.value[PRODUCTS] == Ids([])
    ensures r.Success? && POST_MESSAGE !in post ==> r.value[MESSAGE] == Text("")
    ensures r.Success? && POST_COUNTRIES in post ==>
      var xs := post[POST_COUNTRIES].items;
      var cs := r.value[COUNTRIES].codes;
      |cs| == |xs| && forall i :: 0 <= i < |xs| ==> cs[i] == sanitizeText(xs[i])
    ensures r.Success? && POST_PRODUCTS in post ==>
      var xs := post[POST_PRODUCTS].items;
      var ids := r.value[PRODUCTS].ids;
      |ids| == |xs| && forall i :: 0 <= i < |xs| ==> ids[i] == Absint(xs[i]) && ids[i] >= 0
    ensures r.Success? && POST_MESSAGE in post ==>
      r.value[MESSAGE] == Text(SanitizeField(sanitizeTextarea, post[POST_MESSAGE]))
  {
    var countries := ListField(post, POST_COUNTRIES, sanitizeText);
    var products := ListField(post, POST_PRODUCTS, Absint);
    if countries.Failure? then Failure(countries.error)
    else if products.Failure? then Failure(products.error)
    else
      var message := if POST_MESSAGE in post then SanitizeField(sanitizeTextarea, post[POST_MESSAGE]) else "";
      Success(map[COUNTRIES := Codes(countries.value),
                  PRODUCTS := Ids(products.value),
                  MESSAGE := Text(message)])
  }

  /**
   * `save`: builds the record and writes it over the option; a TypeError while
   * building it leaves the option as it was.
   */
  method Save(store: OptionStore, post: map<string, FormValue>, sanitizeText: string -> string,
              sanitizeTextarea: string -> string) returns (r: Result<SettingsArray>)
    modifies store
    ensures r == SaveRecord(post, sanitizeText, sanitizeTextarea)
    ensures r.Success? ==> store.stored == Some(r.value)
    ensures r.Failure? ==> store.stored == old(store.stored)
  {
    r := SaveRecord(post, sanitizeText, sanitizeTextarea);
    if r.Success? {
      store.Update(r.value);
    }
  }

  /**
   * What the getters return after a save. In particular a form without a
   * message field clears the message: the getter then returns '' and not the
   * default sentence, since the saved record holds the key.
   */
  lemma SaveThenGet(post: map<string, FormValue>, sanitizeText: string -> string,
                    sanitizeTextarea: string -> string)
    requires SaveRecord(post, sanitizeText, sanitizeTextarea).Success?
    ensures var stored := Some(SaveRecord(post, sanitizeText, sanitizeTextarea).value);
      && StoredWellTyped(stored)
      && GetRestrictedCountries(stored) ==
         (if POST_COUNTRIES in post then MapSeq(sanitizeText, post[POST_COUNTRIES].items) else [])
      && GetRestrictedProducts(stored) ==
         (if POST_PRODUCTS in post then MapSeq(Absint, post[POST_PRODUCTS].items) else [])
      && GetRestrictionMessage(stored) ==
         (if POST_MESSAGE in post then SanitizeField(sanitizeTextarea, post[POST_MESSAGE]) else "")
  {
    var s := SaveRecord(post, sanitizeText, sanitizeTextarea).value;
    if POST_COUNTRIES in post {
      var xs := MapSeq(sanitizeText, post[POST_COUNTRIES].items);
      assert |s[COUNTRIES].codes| == |xs| && forall i :: 0 <= i < |xs| ==> s[COUNTRIES].codes[i] == xs[i];
    }
    if POST_PRODUCTS in post {
      var xs := MapSeq(Absint, post[POST_PRODUCTS].items);
      assert |s[PRODUCTS].ids| == |xs| && forall i :: 0 <= i < |xs| ==> s[PRODUCTS].ids[i] == xs[i];
    }
  }

  /** Product ids posted as decimal text are saved as those same ids. */
  lemma SavedIdsFromDecimal(post: map<string, FormValue>, sanitizeText: string -> string,
                            sanitizeTextarea: string -> string, ids: seq<nat>)
    requires POST_PRODUCTS in post && post[POST_PRODUCTS] == Many(MapSeq(Decimal, ids))
    ensures SaveRecord(post, sanitizeText, sanitizeTextarea).Success? ==>
      SaveRecord(post, sanitizeText, sanitizeTextarea).value[PRODUCTS] == Ids(ids)
  {
    var r := SaveRecord(post, sanitizeText, sanitizeTextarea);
    if r.Success? {
      var saved := r.value[PRODUCTS].ids;
      var xs := post[POST_PRODUCTS].items;
      assert |saved| == |xs| == |ids|;
      forall i | 0 <= i < |ids|
        ensures saved[i] == ids[i]
      {
        assert xs[i] == Decimal(ids[i]);
        AbsintDecimal(ids[i]);
      }
    }
  }

  /** `get_country_options`: copies the host's code => name map entry by entry. */
  method GetCountryOptions(countries: map<string, string>) returns (options: map<string, string>)
    ensures options == countries
  {
    options := map[];
    var rest := countries.Keys;
    while rest != {}
      invariant rest <= countries.Keys
      invariant options.Keys == countries.Keys - rest
      invariant forall code :: code in options ==> options[code] == countries[code]
      decreases rest
    {
      var code :| code in rest;
      options := options[code := countries[code]];
      rest := rest - {code};
    }
  }

  /**
   * `get_product_options`: for each configured id whose product exists in the
   * catalogue (`catalog` maps an existing product id to its formatted name),
   * an entry keyed by that id.
   */
  method GetProductOptions(stored: Option<SettingsArray>, catalog: map<int, string>)
    returns (products: map<int, string>)
    requires StoredWellTyped(stored)
    ensures products.Keys == (set id | id in GetRestrictedProducts(stored) && id in catalog)
    ensures forall id :: id in products ==> products[id] == catalog[id]
  {
    var configured := GetSettings(stored)[PRODUCTS].ids;
    products := map[];
    if configured != [] {
      var i := 0;
      while i < |configured|
        invariant 0 <= i <= |configured|
        invariant products.Keys == (set id | id in configured[..i] && id in catalog)
        invariant forall id :: id in products ==> products[id] == catalog[id]
      {
        var id := configured[i];
        if id in catalog {
          products := products[id := catalog[id]];
        }
        assert configured[..i + 1] == configured[..i] + [id];
        i := i + 1;
      }
      assert configured[..i] == configured;
    }
  }
}
