/**
 * The plugin's main class (Ict_Mcp_Main): the lazily created single instance,
 * the "Settings" link on the plugins screen, and the decision whether the
 * storefront script and style are enqueued.
 */
module Main {
  import opened Php
  import opened Settings
  import opened Frontend

  /** The plugin object; its hook registration is host wiring and is not modelled. */
  class Plugin {
    constructor ()
    {
    }
  }

  /** Holder of the class's static `$instance`, null until the first call. */
  class Statics {
    var instance: Plugin?

    constructor ()
      ensures instance == null
    {
      instance := null;
    }

    /** `get_instance`: creates the object on the first call, returns the same one afterwards. */
    method GetInstance() returns (p: Plugin)
      modifies this
      ensures old(instance) != null ==> p == old(instance)
      ensures old(instance) == null ==> fresh(p)
      ensures instance == p
    {
      if instance == null {
        instance := new Plugin();
      }
      p := instance;
    }
  }

  /** Two calls, whatever came before, give back one and the same object. */
  method GetInstanceTwice(statics: Statics) returns (first: Plugin, second: Plugin)
    modifies statics
    ensures first == second && statics.instance == first
    ensures old(statics.instance) != null ==> first == old(statics.instance)
  {
    first := statics.GetInstance();
    second := statics.GetInstance();
  }

  /** The anchor the plugin adds; `adminUrl` is what `admin_url(...)` returns. */
  function SettingsLink(adminUrl: string): string
  {
    "<a href=\"" + adminUrl + "\">" + "Settings" + "</a>"
  }

  /** `add_settings_link`: the settings link put in front of the existing links. */
  method AddSettingsLink(links: seq<string>, adminUrl: string) returns (result: seq<string>)
    ensures |result| == |links| + 1
    ensures result[0] == SettingsLink(adminUrl)
    ensures result[1..] == links
  {
    result := links;
    result := [SettingsLink(adminUrl)] + result;
  }

  /** The page the request renders, as the conditional tags report it. */
  datatype Page = Page(isCart: bool, isCheckout: bool, isProduct: bool)

  /** When the storefront assets are needed. */
  predicate AssetsNeeded(page: Page, global: Option<Product>, lookup: Option<Product>, cfg: Config)
  {
    || page.isCart
    || page.isCheckout
    || (page.isProduct && ResolveProduct(global, lookup).Some? &&
        IsProductRestricted(ResolveProduct(global, lookup).value, cfg.products) && cfg.countries != [])
  }

  /**
   * The `$should_load` decision of `enqueue_frontend_scripts`: on cart and
   * checkout always; on a product page when the product, or for a variable
   * product one of its variations, is restricted and some country is set. The
   * variation scan stops at the first restricted variation.
   */
  method ShouldLoadFrontendAssets(page: Page, global: Option<Product>, lookup: Option<Product>, cfg: Config)
    returns (shouldLoad: bool)
    ensures shouldLoad <==> AssetsNeeded(page, global, lookup, cfg)
    ensures page.isCart || page.isCheckout ==> shouldLoad
    ensures !page.isCart && !page.isCheckout && !page.isProduct ==> !shouldLoad
  {
    shouldLoad := false;
    if page.isCart || page.isCheckout {
      shouldLoad := true;
    }
    if page.isProduct {
      var product := ResolveProduct(global, lookup);
      if product.Some? {
        var p := product.value;
        var isRestricted := false;
        if p.id in cfg.products {
          isRestricted := true;
        } else if p.isVariable {
          var i := 0;
          while i < |p.children|
            invariant 0 <= i <= |p.children|
            invariant !isRestricted
            invariant forall j :: 0 <= j < i ==> p.children[j] !in cfg.products
          {
            if p.children[i] in cfg.products {
              isRestricted := true;
              break;
            }
            i := i + 1;
          }
        }
        if isRestricted && cfg.countries != [] {
          shouldLoad := true;
        }
      }
    }
  }

  /**
   * On a product page the assets load exactly when the product notice is shown:
   * the scan with `break` and the full scan of the notice agree.
   */
  method LoadsIffNoticeShown(page: Page, global: Option<Product>, lookup: Option<Product>, cfg: Config,
                             countryNames: map<string, string>)
    returns (shouldLoad: bool, notice: Option<ProductNotice>)
    requires page.isProduct && !page.isCart && !page.isCheckout
    ensures shouldLoad <==> notice.Some?
  {
    shouldLoad := ShouldLoadFrontendAssets(page, global, lookup, cfg);
    notice := AddProductRestrictionNotice(page.isProduct, global, lookup, cfg, countryNames);
  }
}
