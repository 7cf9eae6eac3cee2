/**
 * The storefront side of the plugin (class Ict_Mcp_Frontend): which cart lines
 * are restricted for the customer's country, the checkout guard with its
 * once-per-request notice latch, the removal endpoint, and the notice shown on
 * a single product page.
 */
module Frontend {
  import opened Php
  import opened Settings

  // ---------------------------------------------------------------------------
  // Cart lines and restricted items

  /** One cart line; `variationId` is 0 when the line is not a variation. */
  datatype CartLine = CartLine(key: string, productId: int, variationId: int, quantity: int, name: string)

  /** An entry of the evaluator's result. */
  datatype RestrictedItem = RestrictedItem(
    cartItemKey: string, productId: int, parentProductId: int, productName: string, quantity: int)

  /** The variation id when it is non-zero, else the product id. */
  function EffectiveId(line: CartLine): int
  {
    if line.variationId != 0 then line.variationId else line.productId
  }

  /** The evaluator's membership test for one line. */
  predicate IsRestrictedLine(line: CartLine, products: seq<int>)
  {
    EffectiveId(line) in products || line.productId in products
  }

  function ItemOf(line: CartLine): RestrictedItem
  {
    RestrictedItem(line.key, EffectiveId(line), line.productId, line.name, line.quantity)
  }

  /** The restricted lines of `cart`, as items, in cart order. */
  function CollectRestricted(cart: seq<CartLine>, products: seq<int>): (r: seq<RestrictedItem>)
    ensures |r| <= |cart|
    ensures forall it :: it in r ==> exists line :: line in cart && IsRestrictedLine(line, products) && it == ItemOf(line)
  {
    if cart == [] then []
    else
      var init := cart[..|cart| - 1];
      var last := cart[|cart| - 1];
      assert forall line :: line in init ==> line in cart;
      CollectRestricted(init, products) + (if IsRestrictedLine(last, products) then [ItemOf(last)] else [])
  }

  /** Collecting a cart split in two is collecting each part, in order. */
  lemma {:induction false} CollectAppend(a: seq<CartLine>, b: seq<CartLine>, products: seq<int>)
    ensures CollectRestricted(a + b, products) == CollectRestricted(a, products) + CollectRestricted(b, products)
  {
    if b != [] {
      var b' := b[..|b| - 1];
      assert (a + b)[..|a + b| - 1] == a + b';
      CollectAppend(a, b', products);
    } else {
      assert a + b == a;
    }
  }

  /** A line of the cart is reported exactly when it passes the membership test. */
  lemma {:induction false} CollectMembership(cart: seq<CartLine>, products: seq<int>, line: CartLine)
    requires line in cart
    ensures ItemOf(line) in CollectRestricted(cart, products) <==> IsRestrictedLine(line, products)
  {
    var init := cart[..|cart| - 1];
    var last := cart[|cart| - 1];
    if line != last {
      assert line in init by {
        var k :| 0 <= k < |cart| && cart[k] == line;
        assert k < |cart| - 1 && init[k] == line;
      }
      CollectMembership(init, products, line);
    }
  }

  /** `!$customer_country`: no country, or a falsy one. */
  predicate Unresolved(country: Option<string>)
  {
    country.None? || !Truthy(country.value)
  }

  /**
   * `get_restricted_items_in_cart` for a resolved country: empty when the
   * country is unresolved, not configured, or no product is configured;
   * otherwise the restricted lines in cart order.
   */
  function RestrictedItems(country: Option<string>, cfg: Config, cart: seq<CartLine>): (r: seq<RestrictedItem>)
    ensures Unresolved(country) ==> r == []
    ensures cfg.countries == [] || (country.Some? && country.value !in cfg.countries) ==> r == []
    ensures cfg.products == [] ==> r == []
    ensures |r| <= |cart|
  {
    if Unresolved(country) then []
    else if cfg.countries == [] || country.value !in cfg.countries then []
    else if cfg.products == [] then []
    else CollectRestricted(cart, cfg.products)
  }

  /**
   * A cart line is reported iff the country is resolved and restricted and its
   * effective id or its parent id is a restricted product.
   */
  lemma RestrictedItemsMembership(country: Option<string>, cfg: Config, cart: seq<CartLine>, line: CartLine)
    requires line in cart
    ensures ItemOf(line) in RestrictedItems(country, cfg, cart) <==>
      !Unresolved(country) && country.value in cfg.countries && IsRestrictedLine(line, cfg.products)
  {
    CollectMembership(cart, cfg.products, line);
  }

  /** The result follows cart order: items from an earlier part come first. */
  lemma RestrictedItemsOrder(country: Option<string>, cfg: Config, a: seq<CartLine>, b: seq<CartLine>)
    ensures RestrictedItems(country, cfg, a + b) ==
      RestrictedItems(country, cfg, a) + RestrictedItems(country, cfg, b)
  {
    CollectAppend(a, b, cfg.products);
  }

  /** With countries ["US"] and products [42], a line of product 42 is reported for "US" only. */
  lemma UsScenario(line: CartLine)
    requires line.productId == 42 && line.variationId == 0
    ensures RestrictedItems(Some("US"), Config(["US"], [42], "m"), [line]) == [ItemOf(line)]
    ensures ItemOf(line).productId == 42
    ensures RestrictedItems(Some("CA"), Config(["US"], [42], "m"), [line]) == []
  {
    assert [line][..0] == [];
  }

  // ---------------------------------------------------------------------------
  // Country resolution

  /** The customer's session, when one exists: what `WC()->session->get` returns. */
  datatype Session = Session(billing: Option<string>, shipping: Option<string>)

  /** Every source `get_customer_country` consults. */
  datatype CountrySources = CountrySources(
    isCheckout: bool,
    post: map<string, FormValue>,
    sanitizeText: string -> string,
    customerBilling: string,
    customerShipping: string,
    loggedIn: bool,
    metaBilling: string,
    metaShipping: string,
    session: Option<Session>)

  predicate TruthyOpt(v: Option<string>)
  {
    v.Some? && Truthy(v.value)
  }

  /** Posted fields are consulted only on the checkout page with a non-empty POST. */
  predicate PostedFires(src: CountrySources, key: string)
  {
    src.isCheckout && src.post != map[] && key in src.post && FormNonEmpty(src.post[key])
  }

  function Posted(src: CountrySources, key: string): string
    requires key in src.post
  {
    SanitizeField(src.sanitizeText, src.post[key])
  }

  /**
   * `get_customer_country`: a chain of early returns, first source that is set
   * wins. Apart from a posted field, which is taken as sanitised, a country
   * found is truthy; none is found only when no posted field fires and the
   * customer object has neither country.
   */
  function CustomerCountry(src: CountrySources): (r: Option<string>)
    ensures r.Some? ==>
      Truthy(r.value) || PostedFires(src, "billing_country") || PostedFires(src, "shipping_country")
    ensures r.None? ==>
      !PostedFires(src, "billing_country") && !PostedFires(src, "shipping_country") &&
      !Truthy(src.customerBilling) && !Truthy(src.customerShipping)
  {
    if PostedFires(src, "billing_country") then Some(Posted(src, "billing_country"))
    else if PostedFires(src, "shipping_country") then Some(Posted(src, "shipping_country"))
    else if Truthy(src.customerBilling) then Some(src.customerBilling)
    else if Truthy(src.customerShipping) then Some(src.customerShipping)
    else if src.loggedIn && Truthy(src.metaBilling) then Some(src.metaBilling)
    else if src.loggedIn && Truthy(src.metaShipping) then Some(src.metaShipping)
    else if src.session.Some? && TruthyOpt(src.session.value.billing) then src.session.value.billing
    else if src.session.Some? && TruthyOpt(src.session.value.shipping) then src.session.value.shipping
    else None
  }

  /** What one source gives when it is set. */
  function When(b: bool, v: string): Option<string>
  {
    if b then Some(v) else None
  }

  /**
   * The priority list: posted billing, posted shipping, customer billing,
   * customer shipping, user-meta billing, user-meta shipping, session billing,
   * session shipping. `None` marks a source that is not set.
   */
  function Candidates(src: CountrySources): seq<Option<string>>
  {
    [ if PostedFires(src, "billing_country") then Some(Posted(src, "billing_country")) else None,
      if PostedFires(src, "shipping_country") then Some(Posted(src, "shipping_country")) else None,
      When(Truthy(src.customerBilling), src.customerBilling),
      When(Truthy(src.customerShipping), src.customerShipping),
      When(src.loggedIn && Truthy(src.metaBilling), src.metaBilling),
      When(src.loggedIn && Truthy(src.metaShipping), src.metaShipping),
      if src.session.Some? && TruthyOpt(src.session.value.billing) then src.session.value.billing else None,
      if src.session.Some? && TruthyOpt(src.session.value.shipping) then src.session.value.shipping else None ]
  }

  /** The first set entry of a priority list. */
  function FirstSome(cands: seq<Option<string>>): Option<string>
  {
    if cands == [] then None
    else if cands[0].Some? then cands[0]
    else FirstSome(cands[1..])
  }

  /** The scan finds nothing iff no entry is set, and otherwise the entry before which none is set. */
  lemma {:induction false} FirstSomeSpec(cands: seq<Option<string>>)
    ensures FirstSome(cands).None? <==> forall i :: 0 <= i < |cands| ==> cands[i].None?
    ensures FirstSome(cands).Some? ==>
      exists i :: 0 <= i < |cands| && cands[i] == FirstSome(cands) && forall j :: 0 <= j < i ==> cands[j].None?
  {
    if cands != [] && cands[0].None? {
      var rest := cands[1..];
      FirstSomeSpec(rest);
      assert forall i :: 1 <= i < |cands| ==> cands[i] == rest[i - 1];
      if FirstSome(rest).Some? {
        var i :| 0 <= i < |rest| && rest[i] == FirstSome(rest) && forall j :: 0 <= j < i ==> rest[j].None?;
        assert cands[i + 1] == FirstSome(cands);
      }
    }
  }

  /** The first set entry is found wherever it stands. */
  lemma {:induction false} FirstSomeAt(cands: seq<Option<string>>, k: nat)
    requires k < |cands| && cands[k].Some?
    requires forall j :: 0 <= j < k ==> cands[j].None?
    ensures FirstSome(cands) == cands[k]
  {
    if k > 0 {
      FirstSomeAt(cands[1..], k - 1);
    }
  }

  /** One step of the scan: the head when it is set, else the first set entry of the rest. */
  lemma FirstSomeCons(o: Option<string>, rest: seq<Option<string>>)
    ensures FirstSome([o] + rest) == if o.Some? then o else FirstSome(rest)
  {
    assert ([o] + rest)[1..] == rest;
  }

  /** The scan over the last four sources, written out as the tests it performs. */
  lemma FirstSomeOfFour(a4: Option<string>, a5: Option<string>, a6: Option<string>, a7: Option<string>)
    ensures FirstSome([a4, a5, a6, a7]) ==
      if a4.Some? then a4 else if a5.Some? then a5 else if a6.Some? then a6 else a7
  {
    FirstSomeCons(a7, []);
    assert [a6, a7] == [a6] + [a7];
    FirstSomeCons(a6, [a7]);
    assert [a5, a6, a7] == [a5] + [a6, a7];
    FirstSomeCons(a5, [a6, a7]);
    assert [a4, a5, a6, a7] == [a4] + [a5, a6, a7];
    FirstSomeCons(a4, [a5, a6, a7]);
  }

  /** The scan over eight sources, written out as the chain of tests it performs. */
  lemma FirstSomeOfEight(a0: Option<string>, a1: Option<string>, a2: Option<string>, a3: Option<string>,
                         a4: Option<string>, a5: Option<string>, a6: Option<string>, a7: Option<string>)
    ensures FirstSome([a0, a1, a2, a3, a4, a5, a6, a7]) ==
      if a0.Some? then a0 else if a1.Some? then a1 else if a2.Some? then a2 else if a3.Some? then a3
      else FirstSome([a4, a5, a6, a7])
  {
    var t3 := [a3] + [a4, a5, a6, a7];
    FirstSomeCons(a3, [a4, a5, a6, a7]);
    var t2 := [a2] + t3;
    FirstSomeCons(a2, t3);
    var t1 := [a1] + t2;
    FirstSomeCons(a1, t2);
    var t0 := [a0] + t1;
    FirstSomeCons(a0, t1);
    assert t0 == [a0, a1, a2, a3, a4, a5, a6, a7];
  }

  /** The chain of early returns is the priority list's first set entry. */
  lemma CustomerCountryIsFirstSome(src: CountrySources)
    ensures CustomerCountry(src) == FirstSome(Candidates(src))
  {
    var c := Candidates(src);
    FirstSomeOfEight(c[0], c[1], c[2], c[3], c[4], c[5], c[6], c[7]);
    FirstSomeOfFour(c[4], c[5], c[6], c[7]);
    assert c == [c[0], c[1], c[2], c[3], c[4], c[5], c[6], c[7]];
  }

  /** A customer-profile billing country wins whenever no posted field is consulted. */
  lemma ProfileBillingOverridesLater(src: CountrySources)
    requires !PostedFires(src, "billing_country") && !PostedFires(src, "shipping_country")
    requires Truthy(src.customerBilling)
    ensures CustomerCountry(src) == Some(src.customerBilling)
  {
  }

  /**
   * Every value the chain can return is truthy, except a posted value that the
   * sanitiser turns into "" or "0"; such a value stops the chain and the cart
   * is then treated as unrestricted, whatever the profile or session says.
   */
  lemma PostedBlankStopsChain(src: CountrySources, cfg: Config, cart: seq<CartLine>)
    requires PostedFires(src, "billing_country") && !Truthy(Posted(src, "billing_country"))
    ensures CustomerCountry(src).Some?
    ensures RestrictedItems(CustomerCountry(src), cfg, cart) == []
  {
  }

  /** Nothing set anywhere: the country is unresolved and nothing is restricted. */
  lemma NoSourceNoRestriction(src: CountrySources, cfg: Config, cart: seq<CartLine>)
    requires forall i :: 0 <= i < 8 ==> Candidates(src)[i].None?
    ensures CustomerCountry(src) == None
    ensures RestrictedItems(CustomerCountry(src), cfg, cart) == []
  {
    CustomerCountryIsFirstSome(src);
    FirstSomeSpec(Candidates(src));
  }

  // ---------------------------------------------------------------------------
  // The evaluator as the source runs it

  /** `get_restricted_items_in_cart`: the gating checks, then one pass over the cart. */
  method GetRestrictedItemsInCart(src: CountrySources, cfg: Config, cart: seq<CartLine>)
    returns (items: seq<RestrictedItem>)
    ensures items == RestrictedItems(CustomerCountry(src), cfg, cart)
  {
    var country := CustomerCountry(src);
    if country.None? || !Truthy(country.value) {
      return [];
    }
    if cfg.countries == [] || country.value !in cfg.countries {
      return [];
    }
    if cfg.products == [] {
      return [];
    }
    items := [];
    var i := 0;
    while i < |cart|
      invariant 0 <= i <= |cart|
      invariant items == CollectRestricted(cart[..i], cfg.products)
    {
      var line := cart[i];
      assert cart[..i + 1][..i] == cart[..i];
      if EffectiveId(line) in cfg.products || line.productId in cfg.products {
        items := items + [ItemOf(line)];
      }
      i := i + 1;
    }
    assert cart[..i] == cart;
  }

  // ---------------------------------------------------------------------------
  // Notices and the checkout guard

  /** WooCommerce notice types used by the plugin. */
  datatype NoticeKind = Error | Info

  /** Notices, kept as tokens: their HTML is not modelled. */
  datatype NoticeBody =
    | CheckoutRestriction(message: string, productNames: seq<string>)
    | CheckoutBlocked
    | CartRestriction(productIds: seq<int>, message: string, productNames: seq<string>)

  datatype Notice = Notice(kind: NoticeKind, body: NoticeBody)

  /** `wp_list_pluck($items, 'product_name')`. */
  function ProductNames(items: seq<RestrictedItem>): (r: seq<string>)
    ensures |r| == |items| && forall i :: 0 <= i < |items| ==> r[i] == items[i].productName
  {
    MapSeq((it: RestrictedItem) => it.productName, items)
  }

  /** `wp_list_pluck($items, 'product_id')`. */
  function ProductIds(items: seq<RestrictedItem>): (r: seq<int>)
    ensures |r| == |items| && forall i :: 0 <= i < |items| ==> r[i] == items[i].productId
  {
    MapSeq((it: RestrictedItem) => it.productId, items)
  }

  /** The latch and the notice queue, as one request sees them. */
  datatype GuardState = GuardState(noticeAdded: bool, notices: seq<Notice>)

  /** The two notices a blocking validation adds. */
  function BlockingNotices(items: seq<RestrictedItem>, message: string): seq<Notice>
  {
    [Notice(Error, CheckoutRestriction(message, ProductNames(items))), Notice(Error, CheckoutBlocked)]
  }

  /**
   * One run of `perform_restriction_validation` on the latch and the queue:
   * the latch ends up set exactly when it was set or items are restricted,
   * notices are only ever appended, and they are appended exactly when the
   * latch was clear and items are restricted.
   */
  function Validate(s: GuardState, items: seq<RestrictedItem>, message: string): (r: GuardState)
    ensures r.noticeAdded <==> s.noticeAdded || items != []
    ensures s.notices <= r.notices
    ensures r.notices != s.notices <==> !s.noticeAdded && items != []
  {
    if items == [] || s.noticeAdded then s
    else GuardState(true, s.notices + BlockingNotices(items, message))
  }

  /**
   * `n` validations in one request, as the several checkout hooks run them:
   * the queue only grows, and the latch is set afterwards exactly when it was
   * set before or at least one run saw restricted items.
   */
  function ValidateTimes(n: nat, s: GuardState, items: seq<RestrictedItem>, message: string): (r: GuardState)
    ensures r.noticeAdded <==> s.noticeAdded || (n > 0 && items != [])
    ensures s.notices <= r.notices
  {
    if n == 0 then s else ValidateTimes(n - 1, Validate(s, items, message), items, message)
  }

  /** Once the latch is set, a validation changes nothing. */
  lemma {:induction false} LatchedValidationsChangeNothing(n: nat, s: GuardState, items: seq<RestrictedItem>, message: string)
    requires s.noticeAdded
    ensures ValidateTimes(n, s, items, message) == s
  {
    if n > 0 {
      LatchedValidationsChangeNothing(n - 1, s, items, message);
    }
  }

  /**
   * However many of the hooks run in one request after a reset, a non-empty
   * result adds the consolidated notice and the blocking notice exactly once.
   */
  lemma ValidationNoticeOnce(n: nat, notices: seq<Notice>, items: seq<RestrictedItem>, message: string)
    requires n >= 1 && items != []
    ensures ValidateTimes(n, GuardState(false, notices), items, message) ==
      GuardState(true, notices + BlockingNotices(items, message))
  {
    LatchedValidationsChangeNothing(n - 1, GuardState(true, notices + BlockingNotices(items, message)), items, message);
  }

  /** An empty result never touches the latch or the queue, however often it is checked. */
  lemma {:induction false} EmptyResultChangesNothing(n: nat, s: GuardState, message: string)
    ensures ValidateTimes(n, s, [], message) == s
  {
    if n > 0 {
      EmptyResultChangesNothing(n - 1, s, message);
    }
  }

  /** The notice queue of the request (`wc_add_notice` appends to it). */
  class NoticeQueue {
    var notices: seq<Notice>

    constructor ()
      ensures notices == []
    {
      notices := [];
    }

    method Add(n: Notice)
      modifies this
      ensures notices == old(notices) + [n]
    {
      notices := notices + [n];
    }
  }

  /** The frontend object; `restrictionNoticeAdded` is the class's static latch. */
  class Frontend {
    var restrictionNoticeAdded: bool

    constructor ()
      ensures !restrictionNoticeAdded
    {
      restrictionNoticeAdded := false;
    }

    /** `reset_notice_flag`, run when the request starts. */
    method ResetNoticeFlag()
      modifies this
      ensures !restrictionNoticeAdded
    {
      restrictionNoticeAdded := false;
    }

    /**
     * `perform_restriction_validation`, the body behind the four checkout hooks:
     * with restricted items and the latch clear it adds the two error notices
     * and sets the latch; otherwise nothing changes.
     */
    method PerformRestrictionValidation(queue: NoticeQueue, src: CountrySources, cfg: Config, cart: seq<CartLine>)
      modifies this, queue
      ensures GuardState(restrictionNoticeAdded, queue.notices) ==
        Validate(GuardState(old(restrictionNoticeAdded), old(queue.notices)),
                 RestrictedItems(CustomerCountry(src), cfg, cart), cfg.message)
    {
      var items := GetRestrictedItemsInCart(src, cfg, cart);
      if items == [] {
        return;
      }
      if restrictionNoticeAdded {
        return;
      }
      queue.Add(Notice(Error, CheckoutRestriction(cfg.message, ProductNames(items))));
      queue.Add(Notice(Error, CheckoutBlocked));
      restrictionNoticeAdded := true;
    }

    /**
     * `check_cart_restrictions` with `add_restriction_notice`: on the cart page
     * only, one informational notice carrying the restricted ids and names; the
     * latch is not consulted.
     */
    method CheckCartRestrictions(queue: NoticeQueue, isCart: bool, isCheckout: bool,
                                 src: CountrySources, cfg: Config, cart: seq<CartLine>)
      modifies queue
      ensures var items := RestrictedItems(CustomerCountry(src), cfg, cart);
        queue.notices == old(queue.notices) +
          (if isCart && items != [] then [Notice(Info, CartRestriction(ProductIds(items), cfg.message, ProductNames(items)))] else [])
    {
      if !isCart && !isCheckout {
        return;
      }
      var items := GetRestrictedItemsInCart(src, cfg, cart);
      if items == [] {
        return;
      }
      if isCart {
        queue.Add(Notice(Info, CartRestriction(ProductIds(items), cfg.message, ProductNames(items))));
      }
    }
  }

  /** The exception `prevent_checkout_if_restricted` throws, or none. */
  datatype Outcome = Proceed | Throws(message: string)

  /** `prevent_checkout_if_restricted`: throws exactly when some line is restricted. */
  function PreventCheckoutIfRestricted(src: CountrySources, cfg: Config, cart: seq<CartLine>): (r: Outcome)
    ensures r.Throws? <==>
      exists line :: line in cart &&
        !Unresolved(CustomerCountry(src)) && CustomerCountry(src).value in cfg.countries &&
        IsRestrictedLine(line, cfg.products)
  {
    var items := RestrictedItems(CustomerCountry(src), cfg, cart);
    if items != [] then
      assert items[0] in items;
      assert exists line :: line in cart && IsRestrictedLine(line, cfg.products) && items[0] == ItemOf(line);
      var line :| line in cart && IsRestrictedLine(line, cfg.products) && items[0] == ItemOf(line);
      RestrictedItemsMembership(CustomerCountry(src), cfg, cart, line);
      Throws("Checkout cannot be completed due to restricted products.")
    else
      assert forall line :: line in cart ==> ItemOf(line) !in items;
      assert forall line :: line in cart ==>
        !(!Unresolved(CustomerCountry(src)) && CustomerCountry(src).value in cfg.countries && IsRestrictedLine(line, cfg.products)) by {
        forall line | line in cart
          ensures !(!Unresolved(CustomerCountry(src)) && CustomerCountry(src).value in cfg.countries && IsRestrictedLine(line, cfg.products))
        {
          RestrictedItemsMembership(CustomerCountry(src), cfg, cart, line);
        }
      }
      Proceed
  }

  /** Checkout throws exactly when a validation with a clear latch would add notices. */
  lemma PreventAgreesWithGuard(src: CountrySources, cfg: Config, cart: seq<CartLine>, notices: seq<Notice>)
    ensures PreventCheckoutIfRestricted(src, cfg, cart).Throws? <==>
      Validate(GuardState(false, notices), RestrictedItems(CustomerCountry(src), cfg, cart), cfg.message) != GuardState(false, notices)
  {
    var items := RestrictedItems(CustomerCountry(src), cfg, cart);
    if items != [] {
      assert items[0] in items;
      var line :| line in cart && IsRestrictedLine(line, cfg.products) && items[0] == ItemOf(line);
      RestrictedItemsMembership(CustomerCountry(src), cfg, cart, line);
    } else {
      forall line | line in cart
        ensures ItemOf(line) !in items
      {
      }
    }
  }

  // ---------------------------------------------------------------------------
  // The cart and the removal endpoint

  /** Cart keys are unique: the host cart is an array keyed by them. */
  predicate DistinctKeys(lines: seq<CartLine>)
  {
    forall i, j :: 0 <= i < j < |lines| ==> lines[i].key != lines[j].key
  }

  /** The lines without the one keyed `key`. */
  function WithoutKey(lines: seq<CartLine>, key: string): (r: seq<CartLine>)
    ensures |r| <= |lines|
  {
    if lines == [] then []
    else (if lines[0].key == key then [] else [lines[0]]) + WithoutKey(lines[1..], key)
  }

  /** A line survives the removal of a key exactly when it was there under another key. */
  lemma {:induction false} WithoutKeyMembership(lines: seq<CartLine>, key: string, l: CartLine)
    ensures l in WithoutKey(lines, key) <==> l in lines && l.key != key
  {
    if lines != [] {
      WithoutKeyMembership(lines[1..], key, l);
      assert lines == [lines[0]] + lines[1..];
    }
  }

  lemma {:induction false} WithoutAbsentKey(lines: seq<CartLine>, key: string)
    requires forall l :: l in lines ==> l.key != key
    ensures WithoutKey(lines, key) == lines
  {
    if lines != [] {
      WithoutAbsentKey(lines[1..], key);
    }
  }

  /** Removing a key keeps the remaining keys distinct. */
  lemma {:induction false} WithoutKeyDistinct(lines: seq<CartLine>, key: string)
    requires DistinctKeys(lines)
    ensures DistinctKeys(WithoutKey(lines, key))
  {
    if lines != [] {
      var rest := lines[1..];
      assert DistinctKeys(rest) by {
        forall i, j | 0 <= i < j < |rest|
          ensures rest[i].key != rest[j].key
        {
          assert rest[i] == lines[i + 1] && rest[j] == lines[j + 1];
        }
      }
      WithoutKeyDistinct(rest, key);
      var w := WithoutKey(rest, key);
      if lines[0].key != key {
        forall l | l in w
          ensures l.key != lines[0].key
        {
          WithoutKeyMembership(rest, key, l);
          var m :| 0 <= m < |rest| && rest[m] == l;
          assert lines[m + 1] == l;
        }
        var r := [lines[0]] + w;
        forall i, j | 0 <= i < j < |r|
          ensures r[i].key != r[j].key
        {
          if i == 0 {
            assert r[j] in w;
          } else {
            assert r[i] == w[i - 1] && r[j] == w[j - 1];
          }
        }
      }
    }
  }

  /** Removing the key of a line that is the only one with that key takes out just that line. */
  lemma {:induction false} WithoutKeyAt(xs: seq<CartLine>, x: CartLine, ys: seq<CartLine>)
    requires forall l :: l in xs ==> l.key != x.key
    requires forall l :: l in ys ==> l.key != x.key
    ensures WithoutKey(xs + [x] + ys, x.key) == xs + ys
  {
    if xs == [] {
      assert xs + [x] + ys == [x] + ys;
      WithoutAbsentKey(ys, x.key);
    } else {
      assert (xs + [x] + ys)[1..] == xs[1..] + [x] + ys;
      WithoutKeyAt(xs[1..], x, ys);
      assert xs + ys == [xs[0]] + (xs[1..] + ys);
    }
  }

  /** The host cart (`WC()->cart`), reduced to its lines in order. */
  class Cart {
    var lines: seq<CartLine>

    ghost predicate Valid()
      reads this
    {
      DistinctKeys(lines)
    }

    constructor (initial: seq<CartLine>)
      requires DistinctKeys(initial)
      ensures Valid() && lines == initial
    {
      lines := initial;
    }

    /** `remove_cart_item($key)`: the line with that key goes, the keys stay distinct. */
    method RemoveCartItem(key: string)
      requires Valid()
      modifies this
      ensures Valid()
      ensures lines == WithoutKey(old(lines), key)
    {
      WithoutKeyDistinct(lines, key);
      lines := WithoutKey(lines, key);
    }
  }

  /** The removal test, exactly as the source writes it: product id or variation id in the list. */
  predicate RemovalMatch(line: CartLine, ids: seq<int>)
  {
    line.productId in ids || line.variationId in ids
  }

  /** The lines the removal leaves, in cart order. */
  function Kept(lines: seq<CartLine>, ids: seq<int>): (r: seq<CartLine>)
    ensures |r| <= |lines|
  {
    if lines == [] then []
    else
      var last := lines[|lines| - 1];
      Kept(lines[..|lines| - 1], ids) + (if RemovalMatch(last, ids) then [] else [last])
  }

  /** A line stays exactly when it does not match: nothing else is removed. */
  lemma {:induction false} KeptMembership(lines: seq<CartLine>, ids: seq<int>, l: CartLine)
    ensures l in Kept(lines, ids) <==> l in lines && !RemovalMatch(l, ids)
  {
    if lines != [] {
      var init := lines[..|lines| - 1];
      var last := lines[|lines| - 1];
      KeptMembership(init, ids, l);
      assert lines == init + [last];
    }
  }

  /** The names of the removed lines, in cart order. */
  function RemovedNames(lines: seq<CartLine>, ids: seq<int>): (r: seq<string>)
    ensures |r| <= |lines|
  {
    if lines == [] then []
    else
      var last := lines[|lines| - 1];
      RemovedNames(lines[..|lines| - 1], ids) + (if RemovalMatch(last, ids) then [last.name] else [])
  }

  /** Every line is either kept or named among the removed: the two counts add up to the cart. */
  lemma {:induction false} KeptRemovedCount(lines: seq<CartLine>, ids: seq<int>)
    ensures |Kept(lines, ids)| + |RemovedNames(lines, ids)| == |lines|
  {
    if lines != [] {
      KeptRemovedCount(lines[..|lines| - 1], ids);
    }
  }

  lemma {:induction false} KeptDistinct(lines: seq<CartLine>, ids: seq<int>)
    requires DistinctKeys(lines)
    ensures DistinctKeys(Kept(lines, ids))
  {
    if lines != [] {
      var init := lines[..|lines| - 1];
      var last := lines[|lines| - 1];
      assert DistinctKeys(init);
      KeptDistinct(init, ids);
      var k := Kept(init, ids);
      forall l | l in k
        ensures l.key != last.key
      {
        KeptMembership(init, ids, l);
        var m :| 0 <= m < |init| && init[m] == l;
        assert lines[m] == l;
      }
      if !RemovalMatch(last, ids) {
        var kl := k + [last];
        forall i, j | 0 <= i < j < |kl|
          ensures kl[i].key != kl[j].key
        {
          if j == |k| {
            assert kl[i] in k;
          } else {
            assert kl[i] == k[i] && kl[j] == k[j];
          }
        }
      } else {
        assert Kept(lines, ids) == k;
      }
    }
  }

  /** With distinct keys, the key of line `i` occurs neither in what was kept before it nor after it. */
  lemma KeyOnlyAt(snapshot: seq<CartLine>, ids: seq<int>, i: nat)
    requires DistinctKeys(snapshot) && i < |snapshot|
    ensures forall l :: l in Kept(snapshot[..i], ids) ==> l.key != snapshot[i].key
    ensures forall l :: l in snapshot[i + 1..] ==> l.key != snapshot[i].key
  {
    forall l | l in Kept(snapshot[..i], ids)
      ensures l.key != snapshot[i].key
    {
      KeptMembership(snapshot[..i], ids, l);
      var m :| 0 <= m < i && snapshot[m] == l;
    }
    forall l | l in snapshot[i + 1..]
      ensures l.key != snapshot[i].key
    {
      var m :| i + 1 <= m < |snapshot| && snapshot[m] == l;
    }
  }

  /** Extending the processed prefix by line `i`. */
  lemma PrefixStep(snapshot: seq<CartLine>, ids: seq<int>, i: nat)
    requires i < |snapshot|
    ensures Kept(snapshot[..i + 1], ids) ==
      Kept(snapshot[..i], ids) + (if RemovalMatch(snapshot[i], ids) then [] else [snapshot[i]])
    ensures RemovedNames(snapshot[..i + 1], ids) ==
      RemovedNames(snapshot[..i], ids) + (if RemovalMatch(snapshot[i], ids) then [snapshot[i].name] else [])
  {
    assert snapshot[..i + 1][..i] == snapshot[..i];
  }

  /** One iteration of the removal loop, on the cart as it stands after the first `i` lines. */
  lemma RemovalStep(snapshot: seq<CartLine>, ids: seq<int>, i: nat)
    requires i < |snapshot|
    requires forall l :: l in Kept(snapshot[..i], ids) ==> l.key != snapshot[i].key
    requires forall l :: l in snapshot[i + 1..] ==> l.key != snapshot[i].key
    ensures Kept(snapshot[..i + 1], ids) + snapshot[i + 1..] ==
      if RemovalMatch(snapshot[i], ids) then WithoutKey(Kept(snapshot[..i], ids) + snapshot[i..], snapshot[i].key)
      else Kept(snapshot[..i], ids) + snapshot[i..]
  {
    var line := snapshot[i];
    var rest := snapshot[i + 1..];
    var k := Kept(snapshot[..i], ids);
    PrefixStep(snapshot, ids, i);
    assert snapshot[i..] == [line] + rest;
    if RemovalMatch(line, ids) {
      assert k + snapshot[i..] == k + [line] + rest;
      WithoutKeyAt(k, line, rest);
    } else {
      assert k + snapshot[i..] == (k + [line]) + rest;
    }
  }

  /** What the endpoint answers. */
  datatype RemovalResponse =
    | NonceRejected
    | InvalidProductIds
    | Removed(removedItems: seq<string>)

  /** `$_POST['product_ids']` is set and is an array. */
  predicate IdsWellFormed(productIds: Option<FormValue>)
  {
    productIds.Some? && productIds.value.Many?
  }

  /**
   * `ajax_remove_restricted_products`: after the nonce and input checks, one
   * pass over a snapshot of the cart, removing every line whose product id or
   * variation id is among the `absint`-mapped request ids.
   */
  method AjaxRemoveRestrictedProducts(cart: Cart, nonceValid: bool, productIds: Option<FormValue>)
    returns (resp: RemovalResponse)
    requires cart.Valid()
    modifies cart
    ensures cart.Valid()
    ensures !nonceValid ==> resp == NonceRejected && cart.lines == old(cart.lines)
    ensures nonceValid && !IdsWellFormed(productIds) ==> resp == InvalidProductIds && cart.lines == old(cart.lines)
    ensures nonceValid && IdsWellFormed(productIds) ==>
      var ids := MapSeq(Absint, productIds.value.items);
      cart.lines == Kept(old(cart.lines), ids) && resp == Removed(RemovedNames(old(cart.lines), ids))
  {
    if !nonceValid {
      return NonceRejected;
    }
    if productIds.None? || productIds.value.Scalar? {
      return InvalidProductIds;
    }
    var ids: seq<int> := MapSeq(Absint, productIds.value.items);
    var removed := RemoveMatchingLines(cart, ids);
    resp := Removed(removed);
  }

  /** The removal loop: a pass over a snapshot of the cart, removing each matching line by key. */
  method RemoveMatchingLines(cart: Cart, ids: seq<int>) returns (removed: seq<string>)
    requires cart.Valid()
    modifies cart
    ensures cart.Valid()
    ensures cart.lines == Kept(old(cart.lines), ids)
    ensures removed == RemovedNames(old(cart.lines), ids)
  {
    var snapshot := cart.lines;
    removed := [];
    var i := 0;
    while i < |snapshot|
      invariant 0 <= i <= |snapshot|
      invariant cart.Valid()
      invariant cart.lines == Kept(snapshot[..i], ids) + snapshot[i..]
      invariant removed == RemovedNames(snapshot[..i], ids)
    {
      removed := VisitLine(cart, snapshot, ids, i, removed);
      i := i + 1;
    }
    assert snapshot[..i] == snapshot;
  }

  /**
   * The body of the removal loop for line `i` of the snapshot: a matching line
   * is named among the removed and taken out of the cart by its key.
   */
  method VisitLine(cart: Cart, snapshot: seq<CartLine>, ids: seq<int>, i: nat, removed: seq<string>)
    returns (removed': seq<string>)
    requires DistinctKeys(snapshot) && i < |snapshot|
    requires cart.Valid()
    requires cart.lines == Kept(snapshot[..i], ids) + snapshot[i..]
    requires removed == RemovedNames(snapshot[..i], ids)
    modifies cart
    ensures cart.Valid()
    ensures cart.lines == Kept(snapshot[..i + 1], ids) + snapshot[i + 1..]
    ensures removed' == RemovedNames(snapshot[..i + 1], ids)
  {
    var line := snapshot[i];
    KeyOnlyAt(snapshot, ids, i);
    RemovalStep(snapshot, ids, i);
    PrefixStep(snapshot, ids, i);
    removed' := removed;
    if line.productId in ids || line.variationId in ids {
      removed' := removed' + [line.name];
      cart.RemoveCartItem(line.key);
    }
  }

  /** Removing again with the same ids removes nothing more. */
  lemma {:induction false} RemovalIdempotent(lines: seq<CartLine>, ids: seq<int>)
    ensures Kept(Kept(lines, ids), ids) == Kept(lines, ids)
    ensures RemovedNames(Kept(lines, ids), ids) == []
  {
    if lines != [] {
      var init := lines[..|lines| - 1];
      var last := lines[|lines| - 1];
      RemovalIdempotent(init, ids);
      var k := Kept(init, ids);
      if !RemovalMatch(last, ids) {
        var kl := k + [last];
        assert kl[..|kl| - 1] == k && kl[|kl| - 1] == last;
        assert Kept(lines, ids) == kl;
        assert Kept(kl, ids) == Kept(k, ids) + [last];
        assert RemovedNames(kl, ids) == RemovedNames(k, ids);
      } else {
        assert Kept(lines, ids) == k + [];
        assert k + [] == k;
      }
    }
  }

  /** An id that no line carries removes nothing. */
  lemma {:induction false} RemovalOfAbsentIds(lines: seq<CartLine>, ids: seq<int>)
    requires forall l :: l in lines ==> !RemovalMatch(l, ids)
    ensures Kept(lines, ids) == lines && RemovedNames(lines, ids) == []
  {
    KeptOfAbsentIds(lines, ids);
    RemovedOfAbsentIds(lines, ids);
  }

  lemma {:induction false} KeptOfAbsentIds(lines: seq<CartLine>, ids: seq<int>)
    requires forall l :: l in lines ==> !RemovalMatch(l, ids)
    ensures Kept(lines, ids) == lines
  {
    if lines != [] {
      var init := lines[..|lines| - 1];
      var last := lines[|lines| - 1];
      assert lines == init + [last];
      assert !RemovalMatch(last, ids);
      KeptOfAbsentIds(init, ids);
    }
  }

  lemma {:induction false} RemovedOfAbsentIds(lines: seq<CartLine>, ids: seq<int>)
    requires forall l :: l in lines ==> !RemovalMatch(l, ids)
    ensures RemovedNames(lines, ids) == []
  {
    if lines != [] {
      var init := lines[..|lines| - 1];
      var last := lines[|lines| - 1];
      assert lines == init + [last];
      assert !RemovalMatch(last, ids);
      RemovedOfAbsentIds(init, ids);
    }
  }

  /**
   * The request carries text, not numbers: any entry with no leading number
   * becomes id 0, and 0 is the variation id of every non-variation line, so
   * every such line is removed.
   */
  lemma NonNumericIdRemovesSimpleProducts(lines: seq<CartLine>, request: seq<string>, k: nat)
    requires k < |request| && NonNumeric(request[k])
    ensures forall l :: l in lines && l.variationId == 0 ==> l !in Kept(lines, MapSeq(Absint, request))
  {
    var ids: seq<int> := MapSeq(Absint, request);
    NonNumericAbsintZero(request[k]);
    assert ids[k] == 0;
    forall l | l in lines && l.variationId == 0
      ensures l !in Kept(lines, ids)
    {
      KeptMembership(lines, ids, l);
    }
  }

  /** Two-line scenario: asking for line `a`'s id leaves only `b`, and reports `a`'s name. */
  lemma RemoveOneOfTwo(a: CartLine, b: CartLine, id: int)
    requires a.productId == id && id != 0
    requires b.productId != id && b.variationId != id
    ensures Kept([a, b], [id]) == [b]
    ensures RemovedNames([a, b], [id]) == [a.name]
  {
    assert [a, b][..1] == [a];
    assert [a][..0] == [];
  }

  // ---------------------------------------------------------------------------
  // The single-product notice

  /** A product: its id, whether it is variable, and its variation ids. */
  datatype Product = Product(id: int, isVariable: bool, children: seq<int>)

  /** The global product when it is a product object, else `wc_get_product(get_the_ID())`. */
  function ResolveProduct(global: Option<Product>, lookup: Option<Product>): Option<Product>
  {
    if global.Some? then global else lookup
  }

  /**
   * The product, or for a variable product one of its variations, is
   * configured. A product's own id always counts; a simple product counts
   * only by its own id, whatever children it lists.
   */
  function IsProductRestricted(p: Product, products: seq<int>): (r: bool)
    ensures p.id in products ==> r
    ensures !p.isVariable ==> (r <==> p.id in products)
    ensures p.isVariable && (exists c :: c in p.children && c in products) ==> r
  {
    p.id in products || (p.isVariable && exists j :: 0 <= j < |p.children| && p.children[j] in products)
  }

  /** The country's name when the host knows it, else the code itself. */
  function CountryLabel(names: map<string, string>, code: string): string
  {
    if code in names then names[code] else code
  }

  /** The notice's content: the message and the "Restricted in" labels. */
  datatype ProductNotice = ProductNotice(message: string, countryLabels: seq<string>)

  /**
   * `add_product_restriction_notice`: shown on a product page when the product
   * is restricted and some country is configured. The visitor's own country
   * is not consulted.
   */
  method AddProductRestrictionNotice(isProduct: bool, global: Option<Product>, lookup: Option<Product>,
                                     cfg: Config, countryNames: map<string, string>)
    returns (notice: Option<ProductNotice>)
    ensures notice.Some? <==>
      isProduct && ResolveProduct(global, lookup).Some? &&
      IsProductRestricted(ResolveProduct(global, lookup).value, cfg.products) && cfg.countries != []
    ensures notice.Some? ==>
      notice.value.message == cfg.message && |notice.value.countryLabels| == |cfg.countries| &&
      forall i :: 0 <= i < |cfg.countries| ==>
        notice.value.countryLabels[i] == CountryLabel(countryNames, cfg.countries[i])
  {
    if !isProduct {
      return None;
    }
    var product := ResolveProduct(global, lookup);
    if product.None? {
      return None;
    }
    var p := product.value;
    var isRestricted := false;
    if p.id in cfg.products {
      isRestricted := true;
    } else if p.isVariable {
      var i := 0;
      while i < |p.children|
        invariant 0 <= i <= |p.children|
        invariant isRestricted <==> exists j :: 0 <= j < i && p.children[j] in cfg.products
      {
        if p.children[i] in cfg.products {
          isRestricted := true;
        }
        i := i + 1;
      }
    }
    if isRestricted && cfg.countries != [] {
      var labels := MapSeq((code: string) => CountryLabel(countryNames, code), cfg.countries);
      return Some(ProductNotice(cfg.message, labels));
    }
    return None;
  }
}
