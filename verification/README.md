# Product sell restriction for WooCommerce: a Dafny model

The plugin "itc-woo-product-sell-restrict" stops customers in chosen countries
from buying chosen products. An administrator stores three settings: a list of
country codes, a list of product ids and a message. On the storefront the
plugin works out the customer's country from a chain of sources. It then
collects the cart lines whose product (or variation) is restricted. While that
list is non-empty, checkout is refused and two error notices are queued (the
list of restricted products, then the blocking notice), once per request,
behind a static latch. A request endpoint removes lines by product or
variation id. Product pages of restricted products show a "restricted in"
notice.

This project models that logic in Dafny and proves what it does:

- `php.dfy` (module `Php`) holds the PHP and WordPress semantics the rules depend on:
  - string truthiness ("" and "0" are false);
  - the `(int)` cast behind `absint`;
  - `array_map`;
  - request values, which are either a string or a list of strings.
- `settings.dfy` (module `Settings`) models the option array `ict_mcp_settings`:
  - its merge over the defaults;
  - the three getters;
  - the registered sanitiser.
- `settings_page.dfy` (module `SettingsPage`) models the settings tab:
  - the record `save` writes, with its per-field fallbacks;
  - the product and country option lists.
- `frontend.dfy` (module `Frontend`) models:
  - country resolution;
  - the restricted-items evaluator;
  - the checkout guard and its latch;
  - the cart notice;
  - the checkout exception;
  - the removal endpoint, on a `Cart` object updated in place;
  - the single-product notice.
- `main.dfy` (module `Main`) models:
  - the lazily created single instance;
  - the "Settings" link;
  - the decision whether the storefront assets are loaded.
- `autoload.dfy` (module `Autoload`) models the class autoloader's mapping from class name to file path.

Host services are parameters of the model:

| Host service | Modelled as |
|---|---|
| `sanitize_text_field`, `sanitize_textarea_field`, `wp_kses_post` | functions `string -> string` |
| customer profile, user meta, session | explicit `CountrySources` |
| `wc_get_product` | the `lookup` product and the `catalog` map |
| `WC()->countries->get_countries()` | a map |
| `file_exists` | a predicate |
| the nonce check | a boolean |
| `admin_url(...)` | a string |

The notice queue is a `NoticeQueue` object and the cart is a `Cart` object. Notices are tokens that carry their data; their HTML is not modelled.

## Model

| member | source | states |
|---|---|---|
| Php.MapSeq | includes/class-settings.php:34 | `array_map` keeps the length and applies the function at every position, in order |
| Php.IntCast | includes/class-frontend.php:122 | only a leading minus sign gives a negative number; a string of decimal digits alone is read as its decimal value |
| Php.Absint | includes/class-settings.php:38 | the magnitude of the `(int)` cast: never negative, 0 exactly when the cast is 0, and a string of decimal digits keeps its value |
| Php.NonNumericAbsintZero | includes/class-frontend.php:122 | a request id with no leading number becomes 0 under `absint` |
| Php.AbsintDecimal | includes/class-settings-page.php:113-114 | an id posted as its decimal text comes back from `absint` as the same number |
| Settings.OptionStore.constructor | includes/class-settings.php:55 | a fresh store holds no option, so `get_option` returns the defaults |
| Settings.OptionStore.Update | includes/class-settings-page.php:119-123 | `update_option` replaces the whole stored array |
| Settings.GetSettings | includes/class-settings.php:48-57 | the keys are the three known keys plus every stored key; a stored key wins, a missing one takes its default; a well-typed store gives a well-typed result |
| Settings.GetRestrictedCountries | includes/class-settings.php:59-62 | the stored country list, or [] when none is stored |
| Settings.GetRestrictedProducts | includes/class-settings.php:64-67 | the stored id list, or [] when none is stored |
| Settings.GetRestrictionMessage | includes/class-settings.php:69-72 | the stored message, or the fixed default sentence when none is stored |
| Settings.DefaultsWhenUnset | includes/class-settings.php:49-53 | with nothing stored: no countries, no products, the default message |
| Settings.SanitizeValue | includes/class-settings.php:33-43 | each known field is sanitised by its own rule: texts element-wise, ids by `absint` (all >= 0), the message by kses |
| Settings.SanitizeSettings | includes/class-settings.php:30-46 | fails exactly when a list field is not a list (the `array_map` TypeError); otherwise it keeps exactly the known keys present in the input, well-typed, each field sanitised element-wise with length and order kept |
| Settings.SanitizedRoundTrip | includes/class-settings.php:30-72 | reading back a sanitised array gives each present field sanitised and each absent field its default |
| SettingsPage.ListField | includes/class-settings-page.php:110-114 | an absent list field gives [], a scalar fails, a list is mapped element-wise |
| SettingsPage.SaveRecord | includes/class-settings-page.php:110-123 | the record has exactly the three keys and is well-typed; absent lists become [], an absent message becomes ""; present fields are mapped element-wise, ids are >= 0; it fails exactly when a list field is a scalar |
| SettingsPage.Save | includes/class-settings-page.php:103-127 | on success the option becomes the record; on failure it is unchanged |
| SettingsPage.SaveThenGet | includes/class-settings-page.php:110-123 | after a save, each getter returns what was posted, sanitised; a form without a message yields "" and not the default |
| SettingsPage.SavedIdsFromDecimal | includes/class-settings-page.php:113-114 | ids posted as decimal text are saved as exactly those ids |
| SettingsPage.GetCountryOptions | includes/class-settings-page.php:69-78 | the options equal the host's code-to-name map |
| SettingsPage.GetProductOptions | includes/class-settings-page.php:80-94 | the keys are exactly the configured ids that have a product, each mapped to that product's name |
| Frontend.CollectRestricted | includes/class-frontend.php:175-193 | at most one item per line, and every item is the copy of a cart line that passes the effective-or-parent id test |
| Frontend.CollectAppend | includes/class-frontend.php:177-193 | collecting a concatenated cart is collecting each part, in order |
| Frontend.CollectMembership | includes/class-frontend.php:178-189 | a line's item is collected iff its effective id or its parent id is restricted |
| Frontend.RestrictedItems | includes/class-frontend.php:150-197 | empty when the country is unresolved, when no country is configured, when the country is not configured, or when no product is configured |
| Frontend.RestrictedItemsMembership | includes/class-frontend.php:160-193 | a line is reported iff the country is resolved and configured and its effective or parent id is configured |
| Frontend.RestrictedItemsOrder | includes/class-frontend.php:177-193 | the result follows cart order |
| Frontend.UsScenario | includes/class-frontend.php:165-189 | with countries ["US"] and products [42], a line of product 42 is reported with id 42 for "US" and not for "CA" |
| Frontend.CustomerCountry | includes/class-frontend.php:199-252 | a country found is truthy unless it was read from a posted field; none is found only when no posted field is consulted and the customer object has neither a billing nor a shipping country |
| Frontend.FirstSomeSpec | includes/class-frontend.php:199-251 | the scan gives None iff no source is set; otherwise a set entry with no set entry before it |
| Frontend.FirstSomeAt | includes/class-frontend.php:199-251 | a set entry preceded only by unset ones is the one chosen |
| Frontend.CustomerCountryIsFirstSome | includes/class-frontend.php:199-252 | the chain of early returns equals the first set source in the order: posted billing, posted shipping, customer billing, customer shipping, meta billing, meta shipping, session billing, session shipping |
| Frontend.ProfileBillingOverridesLater | includes/class-frontend.php:212-216 | when no posted field is consulted, a truthy customer billing country wins over meta and session |
| Frontend.PostedBlankStopsChain | includes/class-frontend.php:201-205 | a posted billing country that sanitises to "" or "0" is still returned, and the cart is then unrestricted |
| Frontend.NoSourceNoRestriction | includes/class-frontend.php:251 | with no source set the country is null and nothing is restricted |
| Frontend.GetRestrictedItemsInCart | includes/class-frontend.php:150-197 | the loop returns exactly the evaluator's result for the resolved country |
| Frontend.ProductNames | includes/class-frontend.php:79 | `wp_list_pluck` of the names, position by position |
| Frontend.ProductIds | includes/class-frontend.php:272 | `wp_list_pluck` of the ids, position by position |
| Frontend.Validate | includes/class-frontend.php:60-105 | one validation sets the latch exactly when it was set or items are restricted; notices are only appended, and exactly when the latch was clear and items are restricted |
| Frontend.ValidateTimes | includes/class-frontend.php:60-105 | after n validations the queue has only grown, and the latch is set exactly when it was set before or n >= 1 and items are restricted |
| Frontend.LatchedValidationsChangeNothing | includes/class-frontend.php:66-69 | once the latch is set, any number of validations change neither the latch nor the notices |
| Frontend.ValidationNoticeOnce | includes/class-frontend.php:60-105 | from a clear latch, n >= 1 validations with a non-empty result add the two error notices exactly once and set the latch |
| Frontend.EmptyResultChangesNothing | includes/class-frontend.php:61-64 | an empty result never touches the latch or the notices |
| Frontend.NoticeQueue.constructor | includes/class-frontend.php:95 | the request starts with no notices |
| Frontend.NoticeQueue.Add | includes/class-frontend.php:95-101 | `wc_add_notice` appends one notice |
| Frontend.Frontend.constructor | includes/class-frontend.php:9 | the latch starts clear |
| Frontend.Frontend.ResetNoticeFlag | includes/class-frontend.php:26-28 | the latch is cleared |
| Frontend.Frontend.PerformRestrictionValidation | includes/class-frontend.php:60-105 | the new latch and queue are one `Validate` step from the old ones: two error notices and the latch set when the result is non-empty and the latch clear, else nothing |
| Frontend.Frontend.CheckCartRestrictions | includes/class-frontend.php:30-42 | on the cart page with restricted items, exactly one notice with the ids, message and names is appended; otherwise the queue is unchanged; the latch is never touched |
| Frontend.PreventCheckoutIfRestricted | includes/class-frontend.php:107-113 | throws iff some cart line is restricted for the resolved, configured country |
| Frontend.PreventAgreesWithGuard | includes/class-frontend.php:60-113 | checkout throws exactly when a validation with a clear latch would add notices |
| Frontend.WithoutKey | includes/class-frontend.php:128 | removing a key never adds lines |
| Frontend.WithoutKeyMembership | includes/class-frontend.php:128 | removing a key keeps exactly the lines with other keys |
| Frontend.WithoutKeyDistinct | includes/class-frontend.php:128 | removing a key from a cart with distinct keys leaves distinct keys |
| Frontend.Cart.constructor | includes/class-frontend.php:125 | the cart holds the given lines, with distinct keys |
| Frontend.Cart.RemoveCartItem | includes/class-frontend.php:128 | the line with that key is removed and the cart's keys stay distinct |
| Frontend.Kept | includes/class-frontend.php:123-130 | the lines the removal leaves are never more than the cart had |
| Frontend.RemovedNames | includes/class-frontend.php:123-130 | the removed names are never more than the cart's lines |
| Frontend.KeptRemovedCount | includes/class-frontend.php:123-130 | every line is either kept or named among the removed: the two counts add up to the cart's |
| Frontend.KeptMembership | includes/class-frontend.php:126-128 | a line stays iff neither its product id nor its variation id is in the list |
| Frontend.KeptDistinct | includes/class-frontend.php:125-130 | removal keeps cart keys distinct |
| Frontend.AjaxRemoveRestrictedProducts | includes/class-frontend.php:115-141 | a rejected nonce or a missing or non-list `product_ids` leaves the cart unchanged; otherwise the cart becomes the non-matching lines in order and the response lists the removed names in cart order |
| Frontend.RemoveMatchingLines | includes/class-frontend.php:123-130 | the in-place loop over a snapshot leaves exactly the kept lines, in order, with keys still distinct, and collects exactly the removed names |
| Frontend.VisitLine | includes/class-frontend.php:126-129 | one pass of the loop body: a matching line is named and removed by its key, so the cart becomes the kept prefix followed by the unvisited lines |
| Frontend.KeptOfAbsentIds | includes/class-frontend.php:125-130 | ids that no line carries keep every line |
| Frontend.RemovedOfAbsentIds | includes/class-frontend.php:125-130 | ids that no line carries name no line |
| Frontend.RemovalIdempotent | includes/class-frontend.php:125-130 | removing again with the same ids removes nothing |
| Frontend.RemovalOfAbsentIds | includes/class-frontend.php:125-130 | ids that no line carries remove nothing and report nothing |
| Frontend.NonNumericIdRemovesSimpleProducts | includes/class-frontend.php:122-128 | a request entry with no leading number becomes 0, which removes every line that is not a variation |
| Frontend.RemoveOneOfTwo | includes/class-frontend.php:125-130 | from [A, B], removing A's id leaves [B] and reports [A's name] |
| Frontend.IsProductRestricted | includes/class-frontend.php:315-328 | a configured product id always restricts; a simple product is restricted exactly by its own id; a variable product also by any configured variation |
| Frontend.AddProductRestrictionNotice | includes/class-frontend.php:291-360 | the notice is shown iff on a product page the product resolves, is restricted (its own id, or for a variable product one of its variations) and some country is configured; it carries the message and one label per configured country, the name or else the code |
| Main.Statics.constructor | includes/class-main.php:9 | the instance starts null |
| Main.Statics.GetInstance | includes/class-main.php:15-20 | the first call creates a new object; later calls return the stored one |
| Main.GetInstanceTwice | includes/class-main.php:15-20 | two calls return the same object |
| Main.AddSettingsLink | includes/class-main.php:50-55 | one more link, the settings link first, the old links after it unchanged |
| Main.ShouldLoadFrontendAssets | includes/class-main.php:57-98 | load iff cart, checkout, or a product page whose resolved product is restricted while some country is configured; the scan with `break` gives the same answer as "some variation is restricted" |
| Main.LoadsIffNoticeShown | includes/class-main.php:64-98 | on a product page, the assets load exactly when the product notice is shown |
| Autoload.ReplaceAll | itc-woo-product-sell-restrict.php:50 | a replacement as long as the pattern keeps the length; a shorter one never lengthens the string |
| Autoload.ReplaceCharPointwise | itc-woo-product-sell-restrict.php:50 | replacing one character maps the string position by position |
| Autoload.ReplaceAbsent | itc-woo-product-sell-restrict.php:50 | a string without the pattern is unchanged |
| Autoload.ReplaceAtFront | itc-woo-product-sell-restrict.php:50 | a leading pattern is replaced and the scan resumes after it |
| Autoload.ToLower | itc-woo-product-sell-restrict.php:50 | the length is kept and no capital letter is left: each capital becomes a small letter 32 code points up, every other character stays in place |
| Autoload.ToLowerIdempotent | itc-woo-product-sell-restrict.php:50 | lower-casing twice is lower-casing once |
| Autoload.ToLowerOfLower | itc-woo-product-sell-restrict.php:50 | a string without capitals is unchanged |
| Autoload.ClassFile | itc-woo-product-sell-restrict.php:46-50 | None iff the class lacks the `Ict_Mcp_` prefix; otherwise the name has no `_` and no capital letter |
| Autoload.AutoloadFile | itc-woo-product-sell-restrict.php:45-56 | a file is loaded iff the prefix matches and the file exists, and that file is `<dir>includes/class-<name>.php` |
| Autoload.ClassFileOfPrefixed | itc-woo-product-sell-restrict.php:50 | for a name without an inner prefix: the prefix is removed, `_` becomes `-`, then the result is lower-cased |
| Autoload.SettingsPageClassFile | itc-woo-product-sell-restrict.php:50 | `Ict_Mcp_Settings_Page` maps to settings-page |
| Autoload.SettingsPageFile | itc-woo-product-sell-restrict.php:45-56 | `Ict_Mcp_Settings_Page` is loaded from `<dir>includes/class-settings-page.php` exactly when that file exists |
| Autoload.CoreClassFiles | itc-woo-product-sell-restrict.php:50-51 | `Ict_Mcp_Main` and `Ict_Mcp_Settings` map to main and settings |
| Autoload.FrontendClassFile | itc-woo-product-sell-restrict.php:50-51 | `Ict_Mcp_Frontend` maps to frontend |
| Autoload.ForeignClassesIgnored | itc-woo-product-sell-restrict.php:46-48 | `WC_Product` and a lower-case `ict_mcp_main` load nothing |
| Autoload.CaseCollides | itc-woo-product-sell-restrict.php:50 | `Ict_Mcp_Main` and `Ict_Mcp_main` map to the same file, since only the lower-cased text after the prefix counts |

## Left out

- Hook registration (`add_action`/`add_filter` in the constructors, `init`, `admin_init`) is host dispatch. The model calls the callbacks directly.
- The four `validate_*` wrappers are not modelled separately. Each only calls `perform_restriction_validation`, and `ValidateTimes` covers any number of such calls in one request.
- `on_cart_updated` is not modelled. It only calls `check_cart_restrictions` for one AJAX action.
- The guard's notice HTML, `esc_html`/`esc_attr`/`wp_kses_post` inside templates, and `sprintf` formatting are presentation. Notices are tokens carrying the message and the names or ids.
- The exception text and the endpoint's summary message are not modelled. The exception is a fixed string; the response carries only the removed names.
- Logging (`error_log`) is left out.
- `wp_localize_script` calls are left out: in `add_restriction_notice` and in `enqueue_frontend_scripts`, including its `confirm_removal` option read.
- `wp_enqueue_script`/`wp_enqueue_style` are left out; only the decision to load is modelled.
- The inline stylesheet of `add_conditional_css` is presentation and is left out. Its decision (includes/class-frontend.php:362-400) is the same as `enqueue_frontend_scripts`' and is modelled by `Main.ShouldLoadFrontendAssets`.
- `WC()->cart->calculate_totals()` is left out: the cart model has no totals.
- Frontend.AjaxRemoveRestrictedProducts: `check_ajax_referer` and `wp_send_json_error` end the request. The model returns `NonceRejected`/`InvalidProductIds` instead and leaves the cart unchanged.
- Frontend.AddProductRestrictionNotice: the unused `$restricted_variations` list is not built. The model also does not reassign the global `$product`; it is an input.
- Loose `in_array` is modelled as equality:
  - ids are integers on both sides;
  - country codes are compared as strings.
  PHP's loose comparison of two numeric strings (for example "1e1" and "10") is not modelled.
- Php.IntCast: the `(int)` cast is modelled for whitespace, sign and decimal digits. Exponent and float forms ("1e3", "1.5") and overflow beyond PHP_INT_MAX are not.
- Array keys are not modelled for `array_unshift`, `array_map` and the cart array. Sequences keep order only.
- `WC_Admin_Settings::save_fields` in `save` is left out. It writes the per-field options of the generic form, which the modelled logic never reads.
- `wp_cache_delete` is a cache flush and is left out.
- Autoload.AutoloadFile: `require_once` is file I/O. The model returns the path that would be loaded.
- Autoload.ToLower: the ASCII-only mapping of PHP 8.2 `strtolower` is modelled. Older PHP lower-cased by locale.
- Settings.SanitizeSettings: a list-valued message is treated as a failure. `wp_kses_post` on an array would instead filter it element-wise.
- Main.Plugin: the constructor's hook registration and `init` are not modelled.
- Not part of this model:
  - includes/class-admin.php;
  - includes/class-translations.php;
  - includes/class-activator.php;
  - includes/class-deactivator.php;
  - includes/class-uninstaller.php;
  - the JavaScript under assets/.
- Settings.SanitizeSettings: a list field that is a string is a failure, as PHP 8 raises a TypeError from `array_map`. The plugin header (itc-woo-product-sell-restrict.php:15) also allows PHP 7.4, where `array_map` only warns and returns null, so the field would be stored as null. That PHP 7.4 outcome is not modelled.
- SettingsPage.ListField: the same PHP 8 reading of `array_map` on a string. Under PHP 7.4 the field would be null.
- SettingsPage.SaveRecord: the same. Under PHP 7.4 a string-valued list field would be saved as null instead of failing.
- SettingsPage.Save: the same. Under PHP 7.4 the option would be written with a null list field.
- SettingsPage.GetCountryOptions: the result is a map, so the order of the PHP array (includes/class-settings-page.php:73-75) is not modelled.
- SettingsPage.GetProductOptions: the result is a map, so the order of the configured ids (includes/class-settings-page.php:85-90) is not modelled.
- Settings.GetRestrictedCountries, Settings.GetRestrictedProducts, Settings.GetRestrictionMessage: each requires a well-typed stored option (`StoredWellTyped`). Every writer stores one: the activator's defaults (includes/class-activator.php:40-49), `save` (`SettingsPage.SaveRecord`) and the registered sanitiser (`Settings.SanitizeSettings`). An option written by other code is not modelled.
- Four behaviours of the code worth knowing:
  - Non-numeric removal ids are not rejected. `absint` turns them into 0 (includes/class-frontend.php:122).
  - The cart-page check does not use the latch (includes/class-frontend.php:30-42). Only `perform_restriction_validation` does (includes/class-frontend.php:60-105).
  - A cart line is tested on its effective id (the variation id when set, else the product id) and on its parent product id (includes/class-frontend.php:178-182). The removal endpoint tests the product id and the variation id (includes/class-frontend.php:126). The two tests differ for a non-variation line when 0 is configured.
  - `save` stores "" for a missing message, not the default (includes/class-settings-page.php:116-117).
