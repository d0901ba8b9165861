/**
 * `MatomoTracker`: one method per command of the Matomo JavaScript API. Each method turns
 * its typed, partly optional parameters into exactly one command and pushes it onto
 * `window['_paq']` inside a try/catch that ignores ReferenceError only.
 *
 * Optional trailing arguments are kept only as a prefix: an argument is sent only when
 * every argument before it was sent. Strings are tested for truthiness (`!!name`, so the
 * empty string counts as absent) and numbers with `typeof x === 'number'`.
 */
module Tracker {
  import opened Wrappers
  import opened Queue
  import opened Configuration

  /** `MatomoScope`. */
  datatype Scope = Page | Visit | Event

  function ScopeName(scope: Scope): string {
    match scope
    case Page => "page"
    case Visit => "visit"
    case Event => "event"
  }

  /** The `linkType` of `trackLink`. */
  datatype LinkType = Link | Download

  function LinkTypeName(linkType: LinkType): string {
    match linkType
    case Link => "link"
    case Download => "download"
  }

  /** The `method` of `setRequestMethod`. */
  datatype RequestMethod = Get | Post

  function RequestMethodName(requestMethod: RequestMethod): string {
    match requestMethod
    case Get => "GET"
    case Post => "POST"
  }

  /** `string | string[]`, the argument of `setDownloadClasses` and its look-alikes. */
  datatype ClassList = OneClass(name: string) | Classes(names: seq<string>)

  function ClassListValue(classes: ClassList): Value {
    match classes
    case OneClass(name) => Str(name)
    case Classes(names) => Strs(names)
  }

  /** `number | boolean`, the `discount` of `trackEcommerceOrder`. */
  datatype Discount = DiscountAmount(amount: int) | DiscountFlag(flag: bool)

  /** An optional string argument as the `!!s` test sees it. */
  function IfTruthy(s: Option<string>): Option<Value> {
    if Truthy(s) then Some(Str(s.value)) else None
  }

  /** An optional number argument as the `typeof n === 'number'` test sees it. */
  function IfNumber(n: Option<int>): Option<Value> {
    if n.Some? then Some(Num(n.value)) else None
  }

  /** The discount as `typeof d === 'number' || typeof d === 'boolean'` sees it. */
  function IfDiscount(d: Option<Discount>): Option<Value> {
    match d
    case None => None
    case Some(DiscountAmount(amount)) => Some(Num(amount))
    case Some(DiscountFlag(flag)) => Some(Bool(flag))
  }

  /**
   * The longest prefix of `xs` whose entries are all present, unwrapped: the rule the
   * nested `if`s of the builders below implement for optional trailing arguments.
   */
  function PresentPrefix(xs: seq<Option<Value>>): (r: seq<Value>)
    ensures |r| <= |xs|
    ensures forall i :: 0 <= i < |r| ==> xs[i] == Some(r[i])
    ensures |r| < |xs| ==> xs[|r|].None?
  {
    if xs == [] || xs[0].None? then [] else [xs[0].value] + PresentPrefix(xs[1..])
  }

  /** One unfolding of `PresentPrefix` on a literal list of optional arguments. */
  lemma PresentPrefixStep(x: Option<Value>, rest: seq<Option<Value>>)
    ensures PresentPrefix([x] + rest) == if x.None? then [] else [x.value] + PresentPrefix(rest)
  {
    assert ([x] + rest)[1..] == rest;
  }

  /** `trackPageView(customTitle?)`: the title is sent only when it is a non-empty string. */
  function TrackPageViewCommand(customTitle: Option<string>): (c: Command)
    ensures c.name == "trackPageView"
    ensures c.args == PresentPrefix([IfTruthy(customTitle)])
  {
    var args := if Truthy(customTitle) then [Str(customTitle.value)] else [];
    Command("trackPageView", args)
  }

  /** `trackEvent(category, action, name?, value?)`. */
  function TrackEventCommand(category: string, action: string, name: Option<string>, value: Option<int>)
    : (c: Command)
    ensures c.name == "trackEvent"
    ensures c.args == [Str(category), Str(action)] + PresentPrefix([IfTruthy(name), IfNumber(value)])
  {
    var args := [Str(category), Str(action)];
    var args :=
      if Truthy(name) then
        args + [Str(name.value)] + if value.Some? then [Num(value.value)] else []
      else args;
    Command("trackEvent", args)
  }

  /** `trackSiteSearch(keyword, category?, resultsCount?)`. */
  function TrackSiteSearchCommand(keyword: string, category: Option<string>, resultsCount: Option<int>)
    : (c: Command)
    ensures c.name == "trackSiteSearch"
    ensures c.args == [Str(keyword)] + PresentPrefix([IfTruthy(category), IfNumber(resultsCount)])
  {
    var args := [Str(keyword)];
    var args :=
      if Truthy(category) then
        args + [Str(category.value)] + if resultsCount.Some? then [Num(resultsCount.value)] else []
      else args;
    Command("trackSiteSearch", args)
  }

  /** `trackGoal(idGoal, customRevenue?)`. */
  function TrackGoalCommand(idGoal: int, customRevenue: Option<int>): (c: Command)
    ensures c.name == "trackGoal"
    ensures c.args == [Num(idGoal)] + PresentPrefix([IfNumber(customRevenue)])
  {
    var args := [Num(idGoal)];
    var args := if customRevenue.Some? then args + [Num(customRevenue.value)] else args;
    Command("trackGoal", args)
  }

  /** `addEcommerceItem(productSKU, productName?, productCategory?, price?, quantity?)`. */
  function AddEcommerceItemCommand(
    productSKU: string, productName: Option<string>, productCategory: Option<string>,
    price: Option<int>, quantity: Option<int>): (c: Command)
    ensures c.name == "addEcommerceItem"
    ensures c.args == [Str(productSKU)]
      + PresentPrefix([IfTruthy(productName), IfTruthy(productCategory), IfNumber(price), IfNumber(quantity)])
  {
    var withQuantity := if quantity.Some? then [Num(quantity.value)] else [];
    var withPrice := if price.Some? then [Num(price.value)] + withQuantity else [];
    var withCategory := if Truthy(productCategory) then [Str(productCategory.value)] + withPrice else [];
    var optional := if Truthy(productName) then [Str(productName.value)] + withCategory else [];
    assert withQuantity == PresentPrefix([IfNumber(quantity)]) by {
      PresentPrefixStep(IfNumber(quantity), []);
    }
    assert withPrice == PresentPrefix([IfNumber(price), IfNumber(quantity)]) by {
      PresentPrefixStep(IfNumber(price), [IfNumber(quantity)]);
    }
    assert withCategory == PresentPrefix([IfTruthy(productCategory), IfNumber(price), IfNumber(quantity)]) by {
      PresentPrefixStep(IfTruthy(productCategory), [IfNumber(price), IfNumber(quantity)]);
    }
    PresentPrefixStep(IfTruthy(productName), [IfTruthy(productCategory), IfNumber(price), IfNumber(quantity)]);
    var args := [Str(productSKU)] + optional;
    Command("addEcommerceItem", args)
  }

  /** `trackEcommerceOrder(orderId, grandTotal, subTotal?, tax?, shipping?, discount?)`. */
  function TrackEcommerceOrderCommand(
    orderId: string, grandTotal: int, subTotal: Option<int>, tax: Option<int>,
    shipping: Option<int>, discount: Option<Discount>): (c: Command)
    ensures c.name == "trackEcommerceOrder"
    ensures c.args == [Str(orderId), Num(grandTotal)]
      + PresentPrefix([IfNumber(subTotal), IfNumber(tax), IfNumber(shipping), IfDiscount(discount)])
  {
    var withDiscount := match discount
      case None => []
      case Some(DiscountAmount(amount)) => [Num(amount)]
      case Some(DiscountFlag(flag)) => [Bool(flag)];
    var withShipping := if shipping.Some? then [Num(shipping.value)] + withDiscount else [];
    var withTax := if tax.Some? then [Num(tax.value)] + withShipping else [];
    var optional := if subTotal.Some? then [Num(subTotal.value)] + withTax else [];
    assert withDiscount == PresentPrefix([IfDiscount(discount)]) by {
      PresentPrefixStep(IfDiscount(discount), []);
    }
    assert withShipping == PresentPrefix([IfNumber(shipping), IfDiscount(discount)]) by {
      PresentPrefixStep(IfNumber(shipping), [IfDiscount(discount)]);
    }
    assert withTax == PresentPrefix([IfNumber(tax), IfNumber(shipping), IfDiscount(discount)]) by {
      PresentPrefixStep(IfNumber(tax), [IfNumber(shipping), IfDiscount(discount)]);
    }
    PresentPrefixStep(IfNumber(subTotal), [IfNumber(tax), IfNumber(shipping), IfDiscount(discount)]);
    var args := [Str(orderId), Num(grandTotal)] + optional;
    Command("trackEcommerceOrder", args)
  }

  /** `rememberConsentGiven(hoursToExpire?)`. */
  function RememberConsentGivenCommand(hoursToExpire: Option<int>): (c: Command)
    ensures c.name == "rememberConsentGiven"
    ensures c.args == PresentPrefix([IfNumber(hoursToExpire)])
  {
    var args := if hoursToExpire.Some? then [Num(hoursToExpire.value)] else [];
    Command("rememberConsentGiven", args)
  }

  /** `rememberCookieConsentGiven(hoursToExpire?)`. */
  function RememberCookieConsentGivenCommand(hoursToExpire: Option<int>): (c: Command)
    ensures c.name == "rememberCookieConsentGiven"
    ensures c.args == PresentPrefix([IfNumber(hoursToExpire)])
  {
    var args := if hoursToExpire.Some? then [Num(hoursToExpire.value)] else [];
    Command("rememberCookieConsentGiven", args)
  }

  /** `enableLinkTracking(enable = false)`: the flag is sent always, `false` when omitted. */
  function EnableLinkTrackingCommand(enable: Option<bool>): (c: Command)
    ensures c.name == "enableLinkTracking"
    ensures c.args == [Bool(enable == Some(true))]
  {
    Command("enableLinkTracking", [Bool(enable.GetOr(false))])
  }

  /**
   * `setGenerationTimeMs(generationTime)`: the commands it pushes. The method is a no-op
   * unless the configured script version is below 4.
   */
  function GenerationTimeCommands(scriptVersion: int, generationTime: int): (cs: seq<Command>)
    ensures |cs| <= 1
    ensures cs != [] <==> scriptVersion < 4
    ensures forall c :: c in cs ==> c.name == "setGenerationTimeMs" && c.args == [Num(generationTime)]
  {
    if scriptVersion < 4 then [Command("setGenerationTimeMs", [Num(generationTime)])] else []
  }

  function SetDocumentTitleCommand(title: string): Command {
    Command("setDocumentTitle", [Str(title)])
  }

  function SetCustomUrlCommand(url: string): Command {
    Command("setCustomUrl", [Str(url)])
  }

  function SetReferrerUrlCommand(url: string): Command {
    Command("setReferrerUrl", [Str(url)])
  }

  function DeleteCustomVariablesCommand(scope: Scope): Command {
    Command("deleteCustomVariables", [Str(ScopeName(scope))])
  }

  function ContentImpressionsWithinNodeCommand(node: nat): Command {
    Command("trackContentImpressionsWithinNode", [Node(node)])
  }

  /** The one command that `setDownloadClasses` and five other setters push. */
  function DownloadClassesCommand(classes: ClassList): Command {
    Command("setDownloadClasses", [ClassListValue(classes)])
  }

  class MatomoTracker {
    /** The injected configuration; only `scriptVersion` is read here. */
    const configuration: Config
    /** The browser window whose `_paq` the methods push onto. */
    const host: Host

    /** The constructor only warns on the console when `_paq` is undefined. */
    constructor (configuration: Config, host: Host)
      ensures this.configuration == configuration && this.host == host
    {
      this.configuration := configuration;
      this.host := host;
    }

    /** `try { window['_paq'].push(c) } catch (e) { if (!(e instanceof ReferenceError)) throw e; }` */
    method Send(c: Command) returns (outcome: Outcome)
      modifies host
      ensures Step(host.global, outcome) == Call(old(host.global), c)
    {
      var err := host.Push(c);
      outcome := if err == Some(TypeError) then Raised(TypeError) else Returned;
    }

    /** `trackPageView(customTitle?)`. */
    method TrackPageView(customTitle: Option<string>) returns (outcome: Outcome)
      modifies host
      ensures Step(host.global, outcome) == Call(old(host.global), TrackPageViewCommand(customTitle))
    {
      outcome := Send(TrackPageViewCommand(customTitle));
    }

    /** `trackEvent(category, action, name?, value?)`. */
    method TrackEvent(category: string, action: string, name: Option<string>, value: Option<int>)
      returns (outcome: Outcome)
      modifies host
      ensures Step(host.global, outcome)
           == Call(old(host.global), TrackEventCommand(category, action, name, value))
    {
      outcome := Send(TrackEventCommand(category, action, name, value));
    }

    /** `trackSiteSearch(keyword, category?, resultsCount?)`. */
    method TrackSiteSearch(keyword: string, category: Option<string>, resultsCount: Option<int>)
      returns (outcome: Outcome)
      modifies host
      ensures Step(host.global, outcome)
           == Call(old(host.global), TrackSiteSearchCommand(keyword, category, resultsCount))
    {
      outcome := Send(TrackSiteSearchCommand(keyword, category, resultsCount));
    }

    /** `trackGoal(idGoal, customRevenue?)`. */
    method TrackGoal(idGoal: int, customRevenue: Option<int>) returns (outcome: Outcome)
      modifies host
      ensures Step(host.global, outcome) == Call(old(host.global), TrackGoalCommand(idGoal, customRevenue))
    {
      outcome := Send(TrackGoalCommand(idGoal, customRevenue));
    }

    /** `trackContentImpressionsWithinNode(node)`. */
    method TrackContentImpressionsWithinNode(node: nat) returns (outcome: Outcome)
      modifies host
      ensures Step(host.global, outcome) == Call(old(host.global), ContentImpressionsWithinNodeCommand(node))
    {
      outcome := Send(ContentImpressionsWithinNodeCommand(node));
    }

    /** `enableLinkTracking(enable = false)`. */
    method EnableLinkTracking(enable: Option<bool>) returns (outcome: Outcome)
      modifies host
      ensures Step(host.global, outcome) == Call(old(host.global), EnableLinkTrackingCommand(enable))
    {
      outcome := Send(EnableLinkTrackingCommand(enable));
    }

    /** `setDocumentTitle(title)`. */
    method SetDocumentTitle(title: string) returns (outcome: Outcome)
      modifies host
      ensures Step(host.global, outcome) == Call(old(host.global), SetDocumentTitleCommand(title))
    {
      outcome := Send(SetDocumentTitleCommand(title));
    }

    /** `setCustomUrl(url)`. */
    method SetCustomUrl(url: string) returns (outcome: Outcome)
      modifies host
      ensures Step(host.global, outcome) == Call(old(host.global), SetCustomUrlCommand(url))
    {
      outcome := Send(SetCustomUrlCommand(url));
    }

    /** `setReferrerUrl(url)`. */
    method SetReferrerUrl(url: string) returns (outcome: Outcome)
      modifies host
      ensures Step(host.global, outcome) == Call(old(host.global), SetReferrerUrlCommand(url))
    {
      outcome := Send(SetReferrerUrlCommand(url));
    }

    /** `deleteCustomVariables(scope)`. */
    method DeleteCustomVariables(scope: Scope) returns (outcome: Outcome)
      modifies host
      ensures Step(host.global, outcome) == Call(old(host.global), DeleteCustomVariablesCommand(scope))
    {
      outcome := Send(DeleteCustomVariablesCommand(scope));
    }

    /**
     * `setGenerationTimeMs(generationTime)`: pushes only while `configuration.scriptVersion < 4`;
     * otherwise the queue is left alone and nothing is thrown.
     */
    method SetGenerationTimeMs(generationTime: int) returns (outcome: Outcome)
      modifies host
      ensures Step(host.global, outcome)
           == Calls(old(host.global), GenerationTimeCommands(configuration.scriptVersion, generationTime))
    {
      if configuration.scriptVersion < 4 {
        outcome := Send(Command("setGenerationTimeMs", [Num(generationTime)]));
      } else {
        outcome := Returned;
      }
    }

    /** `addEcommerceItem(productSKU, productName?, productCategory?, price?, quantity?)`. */
    method AddEcommerceItem(
      productSKU: string, productName: Option<string>, productCategory: Option<string>,
      price: Option<int>, quantity: Option<int>) returns (outcome: Outcome)
      modifies host
      ensures Step(host.global, outcome) == Call(old(host.global),
        AddEcommerceItemCommand(productSKU, productName, productCategory, price, quantity))
    {
      outcome := Send(AddEcommerceItemCommand(productSKU, productName, productCategory, price, quantity));
    }

    /** `trackEcommerceOrder(orderId, grandTotal, subTotal?, tax?, shipping?, discount?)`. */
    method TrackEcommerceOrder(
      orderId: string, grandTotal: int, subTotal: Option<int>, tax: Option<int>,
      shipping: Option<int>, discount: Option<Discount>) returns (outcome: Outcome)
      modifies host
      ensures Step(host.global, outcome) == Call(old(host.global),
        TrackEcommerceOrderCommand(orderId, grandTotal, subTotal, tax, shipping, discount))
    {
      outcome := Send(TrackEcommerceOrderCommand(orderId, grandTotal, subTotal, tax, shipping, discount));
    }

    /** `rememberConsentGiven(hoursToExpire?)`. */
    method RememberConsentGiven(hoursToExpire: Option<int>) returns (outcome: Outcome)
      modifies host
      ensures Step(host.global, outcome) == Call(old(host.global), RememberConsentGivenCommand(hoursToExpire))
    {
      outcome := Send(RememberConsentGivenCommand(hoursToExpire));
    }

    /** `rememberCookieConsentGiven(hoursToExpire?)`. */
    method RememberCookieConsentGiven(hoursToExpire: Option<int>) returns (outcome: Outcome)
      modifies host
      ensures Step(host.global, outcome)
           == Call(old(host.global), RememberCookieConsentGivenCommand(hoursToExpire))
    {
      outcome := Send(RememberCookieConsentGivenCommand(hoursToExpire));
    }

    /** `setDownloadClasses(classes)`. */
    method SetDownloadClasses(classes: ClassList) returns (outcome: Outcome)
      modifies host
      ensures Step(host.global, outcome) == Call(old(host.global), DownloadClassesCommand(classes))
    {
      outcome := Send(DownloadClassesCommand(classes));
    }

    /** `setDownloadExtensions(classes)`: appends `['setDownloadClasses', classes]`, under the name of another command. */
    method SetDownloadExtensions(classes: ClassList) returns (outcome: Outcome)
      modifies host
      ensures Step(host.global, outcome) == Call(old(host.global), DownloadClassesCommand(classes))
    {
      outcome := Send(DownloadClassesCommand(classes));
    }

    /** `addDownloadExtensions(classes)`: appends `['setDownloadClasses', classes]`, under the name of another command. */
    method AddDownloadExtensions(classes: ClassList) returns (outcome: Outcome)
      modifies host
      ensures Step(host.global, outcome) == Call(old(host.global), DownloadClassesCommand(classes))
    {
      outcome := Send(DownloadClassesCommand(classes));
    }

    /** `removeDownloadExtensions(classes)`: appends `['setDownloadClasses', classes]`, under the name of another command. */
    method RemoveDownloadExtensions(classes: ClassList) returns (outcome: Outcome)
      modifies host
      ensures Step(host.global, outcome) == Call(old(host.global), DownloadClassesCommand(classes))
    {
      outcome := Send(DownloadClassesCommand(classes));
    }

    /** `setIgnoreClasses(classes)`: appends `['setDownloadClasses', classes]`, under the name of another command. */
    method SetIgnoreClasses(classes: ClassList) returns (outcome: Outcome)
      modifies host
      ensures Step(host.global, outcome) == Call(old(host.global), DownloadClassesCommand(classes))
    {
      outcome := Send(DownloadClassesCommand(classes));
    }

    /** `setLinkClasses(classes)`: appends `['setDownloadClasses', classes]`, under the name of another command. */
    method SetLinkClasses(classes: ClassList) returns (outcome: Outcome)
      modifies host
      ensures Step(host.global, outcome) == Call(old(host.global), DownloadClassesCommand(classes))
    {
      outcome := Send(DownloadClassesCommand(classes));
    }

    /** `trackLink(url, linkType)`: appends `['trackLink', url, linkType]`. */
    method TrackLink(url: string, linkType: LinkType) returns (outcome: Outcome)
      modifies host
      ensures Step(host.global, outcome) == Call(old(host.global), Command("trackLink", [Str(url), Str(LinkTypeName(linkType))]))
    {
      outcome := Send(Command("trackLink", [Str(url), Str(LinkTypeName(linkType))]));
    }

    /** `trackAllContentImpressions()`: appends `['trackAllContentImpressions']`. */
    method TrackAllContentImpressions() returns (outcome: Outcome)
      modifies host
      ensures Step(host.global, outcome) == Call(old(host.global), Command("trackAllContentImpressions", []))
    {
      outcome := Send(Command("trackAllContentImpressions", []));
    }

    /** `trackVisibleContentImpressions(checkOnScroll, timeInterval)`: appends `['trackVisibleContentImpressions', checkOnScroll, timeInterval]`. */
    method TrackVisibleContentImpressions(checkOnScroll: bool, timeInterval: int) returns (outcome: Outcome)
      modifies host
      ensures Step(host.global, outcome) == Call(old(host.global), Command("trackVisibleContentImpressions", [Bool(checkOnScroll), Num(timeInterval)]))
    {
      outcome := Send(Command("trackVisibleContentImpressions", [Bool(checkOnScroll), Num(timeInterval)]));
    }

    /** `trackContentInteractionNode(node, contentInteraction)`: appends `['trackContentInteractionNode', node, contentInteraction]`. */
    method TrackContentInteractionNode(node: nat, contentInteraction: string) returns (outcome: Outcome)
      modifies host
      ensures Step(host.global, outcome) == Call(old(host.global), Command("trackContentInteractionNode", [Node(node), Str(contentInteraction)]))
    {
      outcome := Send(Command("trackContentInteractionNode", [Node(node), Str(contentInteraction)]));
    }

    /** `trackContentImpression(contentName, contentPiece, contentTarget)`: appends `['trackContentImpression', contentName, contentPiece, contentTarget]`. */
    method TrackContentImpression(contentName: string, contentPiece: string, contentTarget: string) returns (outcome: Outcome)
      modifies host
      ensures Step(host.global, outcome) == Call(old(host.global), Command("trackContentImpression", [Str(contentName), Str(contentPiece), Str(contentTarget)]))
    {
      outcome := Send(Command("trackContentImpression", [Str(contentName), Str(contentPiece), Str(contentTarget)]));
    }

    /** `trackContentInteraction(contentInteraction, contentName, contentPiece, contentTarget)`: appends `['trackContentInteraction', contentInteraction, contentName, contentPiece, contentTarget]`. */
    method TrackContentInteraction(contentInteraction: string, contentName: string, contentPiece: string, contentTarget: string) returns (outcome: Outcome)
      modifies host
      ensures Step(host.global, outcome) == Call(old(host.global), Command("trackContentInteraction", [Str(contentInteraction), Str(contentName), Str(contentPiece), Str(contentTarget)]))
    {
      outcome := Send(Command("trackContentInteraction", [Str(contentInteraction), Str(contentName), Str(contentPiece), Str(contentTarget)]));
    }

    /** `logAllContentBlocksOnPage()`: appends `['logAllContentBlocksOnPage']`. */
    method LogAllContentBlocksOnPage() returns (outcome: Outcome)
      modifies host
      ensures Step(host.global, outcome) == Call(old(host.global), Command("logAllContentBlocksOnPage", []))
    {
      outcome := Send(Command("logAllContentBlocksOnPage", []));
    }

    /** `ping()`: appends `['ping']`. */
    method Ping() returns (outcome: Outcome)
      modifies host
      ensures Step(host.global, outcome) == Call(old(host.global), Command("ping", []))
    {
      outcome := Send(Command("ping", []));
    }

    /** `enableHeartBeatTimer(delay)`: appends `['enableHeartBeatTimer', delay]`. */
    method EnableHeartBeatTimer(delay: int) returns (outcome: Outcome)
      modifies host
      ensures Step(host.global, outcome) == Call(old(host.global), Command("enableHeartBeatTimer", [Num(delay)]))
    {
      outcome := Send(Command("enableHeartBeatTimer", [Num(delay)]));
    }

    /** `enableCrossDomainLinking()`: appends `['enableCrossDomainLinking']`. */
    method EnableCrossDomainLinking() returns (outcome: Outcome)
      modifies host
      ensures Step(host.global, outcome) == Call(old(host.global), Command("enableCrossDomainLinking", []))
    {
      outcome := Send(Command("enableCrossDomainLinking", []));
    }

    /** `setCrossDomainLinkingTimeout(timeout)`: appends `['setCrossDomainLinkingTimeout', timeout]`. */
    method SetCrossDomainLinkingTimeout(timeout: int) returns (outcome: Outcome)
      modifies host
      ensures Step(host.global, outcome) == Call(old(host.global), Command("setCrossDomainLinkingTimeout", [Num(timeout)]))
    {
      outcome := Send(Command("setCrossDomainLinkingTimeout", [Num(timeout)]));
    }

    /** `setDomains(domains)`: appends `['setDomains', domains]`. */
    method SetDomains(domains: seq<string>) returns (outcome: Outcome)
      modifies host
      ensures Step(host.global, outcome) == Call(old(host.global), Command("setDomains", [Strs(domains)]))
    {
      outcome := Send(Command("setDomains", [Strs(domains)]));
    }

    /** `setSiteId(siteId)`: appends `['setSiteId', siteId]`. */
    method SetSiteId(siteId: int) returns (outcome: Outcome)
      modifies host
      ensures Step(host.global, outcome) == Call(old(host.global), Command("setSiteId", [Num(siteId)]))
    {
      outcome := Send(Command("setSiteId", [Num(siteId)]));
    }

    /** `setApiUrl(url)`: appends `['setApiUrl', url]`. */
    method SetApiUrl(url: string) returns (outcome: Outcome)
      modifies host
      ensures Step(host.global, outcome) == Call(old(host.global), Command("setApiUrl", [Str(url)]))
    {
      outcome := Send(Command("setApiUrl", [Str(url)]));
    }

    /** `setTrackerUrl(url)`: appends `['setTrackerUrl', url]`. */
    method SetTrackerUrl(url: string) returns (outcome: Outcome)
      modifies host
      ensures Step(host.global, outcome) == Call(old(host.global), Command("setTrackerUrl", [Str(url)]))
    {
      outcome := Send(Command("setTrackerUrl", [Str(url)]));
    }

    /** `setLinkTrackingTimer(delay)`: appends `['setLinkTrackingTimer', delay]`. */
    method SetLinkTrackingTimer(delay: int) returns (outcome: Outcome)
      modifies host
      ensures Step(host.global, outcome) == Call(old(host.global), Command("setLinkTrackingTimer", [Num(delay)]))
    {
      outcome := Send(Command("setLinkTrackingTimer", [Num(delay)]));
    }

    /** `discardHashTag(value)`: appends `['discardHashTag', value]`. */
    method DiscardHashTag(value: bool) returns (outcome: Outcome)
      modifies host
      ensures Step(host.global, outcome) == Call(old(host.global), Command("discardHashTag", [Bool(value)]))
    {
      outcome := Send(Command("discardHashTag", [Bool(value)]));
    }

    /** `appendToTrackingUrl(appendToUrl)`: appends `['appendToTrackingUrl', appendToUrl]`. */
    method AppendToTrackingUrl(appendToUrl: string) returns (outcome: Outcome)
      modifies host
      ensures Step(host.global, outcome) == Call(old(host.global), Command("appendToTrackingUrl", [Str(appendToUrl)]))
    {
      outcome := Send(Command("appendToTrackingUrl", [Str(appendToUrl)]));
    }

    /** `killFrame()`: appends `['killFrame']`. */
    method KillFrame() returns (outcome: Outcome)
      modifies host
      ensures Step(host.global, outcome) == Call(old(host.global), Command("killFrame", []))
    {
      outcome := Send(Command("killFrame", []));
    }

    /** `redirectFile(url)`: appends `['redirectFile', url]`. */
    method RedirectFile(url: string) returns (outcome: Outcome)
      modifies host
      ensures Step(host.global, outcome) == Call(old(host.global), Command("redirectFile", [Str(url)]))
    {
      outcome := Send(Command("redirectFile", [Str(url)]));
    }

    /** `setHeartBeatTimer(minimumVisitLength, heartBeatDelay)`: appends `['setHeartBeatTimer', minimumVisitLength, heartBeatDelay]`. */
    method SetHeartBeatTimer(minimumVisitLength: int, heartBeatDelay: int) returns (outcome: Outcome)
      modifies host
      ensures Step(host.global, outcome) == Call(old(host.global), Command("setHeartBeatTimer", [Num(minimumVisitLength), Num(heartBeatDelay)]))
    {
      outcome := Send(Command("setHeartBeatTimer", [Num(minimumVisitLength), Num(heartBeatDelay)]));
    }

    /** `setUserId(userId)`: appends `['setUserId', userId]`. */
    method SetUserId(userId: string) returns (outcome: Outcome)
      modifies host
      ensures Step(host.global, outcome) == Call(old(host.global), Command("setUserId", [Str(userId)]))
    {
      outcome := Send(Command("setUserId", [Str(userId)]));
    }

    /** `resetUserId()`: appends `['resetUserId']`. */
    method ResetUserId() returns (outcome: Outcome)
      modifies host
      ensures Step(host.global, outcome) == Call(old(host.global), Command("resetUserId", []))
    {
      outcome := Send(Command("resetUserId", []));
    }

    /** `setCustomVariable(index, name, value, scope)`: appends `['setCustomVariable', index, name, value, scope]`. */
    method SetCustomVariable(index: int, name: string, value: string, scope: Scope) returns (outcome: Outcome)
      modifies host
      ensures Step(host.global, outcome) == Call(old(host.global), Command("setCustomVariable", [Num(index), Str(name), Str(value), Str(ScopeName(scope))]))
    {
      outcome := Send(Command("setCustomVariable", [Num(index), Str(name), Str(value), Str(ScopeName(scope))]));
    }

    /** `deleteCustomVariable(index, scope)`: appends `['deleteCustomVariable', index, scope]`. */
    method DeleteCustomVariable(index: int, scope: Scope) returns (outcome: Outcome)
      modifies host
      ensures Step(host.global, outcome) == Call(old(host.global), Command("deleteCustomVariable", [Num(index), Str(ScopeName(scope))]))
    {
      outcome := Send(Command("deleteCustomVariable", [Num(index), Str(ScopeName(scope))]));
    }

    /** `storeCustomVariablesInCookie()`: appends `['storeCustomVariablesInCookie']`. */
    method StoreCustomVariablesInCookie() returns (outcome: Outcome)
      modifies host
      ensures Step(host.global, outcome) == Call(old(host.global), Command("storeCustomVariablesInCookie", []))
    {
      outcome := Send(Command("storeCustomVariablesInCookie", []));
    }

    /** `setCustomDimension(customDimensionId, customDimensionValue)`: appends `['setCustomDimension', customDimensionId, customDimensionValue]`. */
    method SetCustomDimension(customDimensionId: int, customDimensionValue: string) returns (outcome: Outcome)
      modifies host
      ensures Step(host.global, outcome) == Call(old(host.global), Command("setCustomDimension", [Num(customDimensionId), Str(customDimensionValue)]))
    {
      outcome := Send(Command("setCustomDimension", [Num(customDimensionId), Str(customDimensionValue)]));
    }

    /** `deleteCustomDimension(customDimensionId)`: appends `['deleteCustomDimension', customDimensionId]`. */
    method DeleteCustomDimension(customDimensionId: int) returns (outcome: Outcome)
      modifies host
      ensures Step(host.global, outcome) == Call(old(host.global), Command("deleteCustomDimension", [Num(customDimensionId)]))
    {
      outcome := Send(Command("deleteCustomDimension", [Num(customDimensionId)]));
    }

    /** `setCampaignNameKey(name)`: appends `['setCampaignNameKey', name]`. */
    method SetCampaignNameKey(name: string) returns (outcome: Outcome)
      modifies host
      ensures Step(host.global, outcome) == Call(old(host.global), Command("setCampaignNameKey", [Str(name)]))
    {
      outcome := Send(Command("setCampaignNameKey", [Str(name)]));
    }

    /** `setCampaignKeywordKey(keyword)`: appends `['setCampaignKeywordKey', keyword]`. */
    method SetCampaignKeywordKey(keyword: string) returns (outcome: Outcome)
      modifies host
      ensures Step(host.global, outcome) == Call(old(host.global), Command("setCampaignKeywordKey", [Str(keyword)]))
    {
      outcome := Send(Command("setCampaignKeywordKey", [Str(keyword)]));
    }

    /** `setConversionAttributionFirstReferrer(conversionToFirstReferrer)`: appends `['setConversionAttributionFirstReferrer', conversionToFirstReferrer]`. */
    method SetConversionAttributionFirstReferrer(conversionToFirstReferrer: bool) returns (outcome: Outcome)
      modifies host
      ensures Step(host.global, outcome) == Call(old(host.global), Command("setConversionAttributionFirstReferrer", [Bool(conversionToFirstReferrer)]))
    {
      outcome := Send(Command("setConversionAttributionFirstReferrer", [Bool(conversionToFirstReferrer)]));
    }

    /** `setEcommerceView(productSKU, productName, productCategory, price)`: appends `['setEcommerceView', productSKU, productName, productCategory, price]`. */
    method SetEcommerceView(productSKU: string, productName: string, productCategory: string, price: int) returns (outcome: Outcome)
      modifies host
      ensures Step(host.global, outcome) == Call(old(host.global), Command("setEcommerceView", [Str(productSKU), Str(productName), Str(productCategory), Num(price)]))
    {
      outcome := Send(Command("setEcommerceView", [Str(productSKU), Str(productName), Str(productCategory), Num(price)]));
    }

    /** `removeEcommerceItem(productSKU)`: appends `['removeEcommerceItem', productSKU]`. */
    method RemoveEcommerceItem(productSKU: string) returns (outcome: Outcome)
      modifies host
      ensures Step(host.global, outcome) == Call(old(host.global), Command("removeEcommerceItem", [Str(productSKU)]))
    {
      outcome := Send(Command("removeEcommerceItem", [Str(productSKU)]));
    }

    /** `clearEcommerceCart()`: appends `['clearEcommerceCart']`. */
    method ClearEcommerceCart() returns (outcome: Outcome)
      modifies host
      ensures Step(host.global, outcome) == Call(old(host.global), Command("clearEcommerceCart", []))
    {
      outcome := Send(Command("clearEcommerceCart", []));
    }

    /** `trackEcommerceCartUpdate(grandTotal)`: appends `['trackEcommerceCartUpdate', grandTotal]`. */
    method TrackEcommerceCartUpdate(grandTotal: int) returns (outcome: Outcome)
      modifies host
      ensures Step(host.global, outcome) == Call(old(host.global), Command("trackEcommerceCartUpdate", [Num(grandTotal)]))
    {
      outcome := Send(Command("trackEcommerceCartUpdate", [Num(grandTotal)]));
    }

    /** `requireConsent()`: appends `['requireConsent']`. */
    method RequireConsent() returns (outcome: Outcome)
      modifies host
      ensures Step(host.global, outcome) == Call(old(host.global), Command("requireConsent", []))
    {
      outcome := Send(Command("requireConsent", []));
    }

    /** `requireCookieConsent()`: appends `['requireCookieConsent']`. */
    method RequireCookieConsent() returns (outcome: Outcome)
      modifies host
      ensures Step(host.global, outcome) == Call(old(host.global), Command("requireCookieConsent", []))
    {
      outcome := Send(Command("requireCookieConsent", []));
    }

    /** `setConsentGiven()`: appends `['setConsentGiven']`. */
    method SetConsentGiven() returns (outcome: Outcome)
      modifies host
      ensures Step(host.global, outcome) == Call(old(host.global), Command("setConsentGiven", []))
    {
      outcome := Send(Command("setConsentGiven", []));
    }

    /** `setCookieConsentGiven()`: appends `['setCookieConsentGiven']`. */
    method SetCookieConsentGiven() returns (outcome: Outcome)
      modifies host
      ensures Step(host.global, outcome) == Call(old(host.global), Command("setCookieConsentGiven", []))
    {
      outcome := Send(Command("setCookieConsentGiven", []));
    }

    /** `forgetConsentGiven()`: appends `['forgetConsentGiven']`. */
    method ForgetConsentGiven() returns (outcome: Outcome)
      modifies host
      ensures Step(host.global, outcome) == Call(old(host.global), Command("forgetConsentGiven", []))
    {
      outcome := Send(Command("forgetConsentGiven", []));
    }

    /** `forgetCookieConsentGiven()`: appends `['forgetCookieConsentGiven']`. */
    method ForgetCookieConsentGiven() returns (outcome: Outcome)
      modifies host
      ensures Step(host.global, outcome) == Call(old(host.global), Command("forgetCookieConsentGiven", []))
    {
      outcome := Send(Command("forgetCookieConsentGiven", []));
    }

    /** `setDoNotTrack(doNotTrack)`: appends `['setDoNotTrack', doNotTrack]`. */
    method SetDoNotTrack(doNotTrack: bool) returns (outcome: Outcome)
      modifies host
      ensures Step(host.global, outcome) == Call(old(host.global), Command("setDoNotTrack", [Bool(doNotTrack)]))
    {
      outcome := Send(Command("setDoNotTrack", [Bool(doNotTrack)]));
    }

    /** `disableCookies()`: appends `['disableCookies']`. */
    method DisableCookies() returns (outcome: Outcome)
      modifies host
      ensures Step(host.global, outcome) == Call(old(host.global), Command("disableCookies", []))
    {
      outcome := Send(Command("disableCookies", []));
    }

    /** `deleteCookies()`: appends `['deleteCookies']`. */
    method DeleteCookies() returns (outcome: Outcome)
      modifies host
      ensures Step(host.global, outcome) == Call(old(host.global), Command("deleteCookies", []))
    {
      outcome := Send(Command("deleteCookies", []));
    }

    /** `setCookieNamePrefix(prefix)`: appends `['setCookieNamePrefix', prefix]`. */
    method SetCookieNamePrefix(prefix: string) returns (outcome: Outcome)
      modifies host
      ensures Step(host.global, outcome) == Call(old(host.global), Command("setCookieNamePrefix", [Str(prefix)]))
    {
      outcome := Send(Command("setCookieNamePrefix", [Str(prefix)]));
    }

    /** `setCookieDomain(domain)`: appends `['setCookieDomain', domain]`. */
    method SetCookieDomain(domain: string) returns (outcome: Outcome)
      modifies host
      ensures Step(host.global, outcome) == Call(old(host.global), Command("setCookieDomain", [Str(domain)]))
    {
      outcome := Send(Command("setCookieDomain", [Str(domain)]));
    }

    /** `setCookiePath(path)`: appends `['setCookiePath', path]`. */
    method SetCookiePath(path: string) returns (outcome: Outcome)
      modifies host
      ensures Step(host.global, outcome) == Call(old(host.global), Command("setCookiePath", [Str(path)]))
    {
      outcome := Send(Command("setCookiePath", [Str(path)]));
    }

    /** `setSecureCookie(secure)`: appends `['setSecureCookie', secure]`. */
    method SetSecureCookie(secure: bool) returns (outcome: Outcome)
      modifies host
      ensures Step(host.global, outcome) == Call(old(host.global), Command("setSecureCookie", [Bool(secure)]))
    {
      outcome := Send(Command("setSecureCookie", [Bool(secure)]));
    }

    /** `setVisitorCookieTimeout(timeout)`: appends `['setVisitorCookieTimeout', timeout]`. */
    method SetVisitorCookieTimeout(timeout: int) returns (outcome: Outcome)
      modifies host
      ensures Step(host.global, outcome) == Call(old(host.global), Command("setVisitorCookieTimeout", [Num(timeout)]))
    {
      outcome := Send(Command("setVisitorCookieTimeout", [Num(timeout)]));
    }

    /** `setReferralCookieTimeout(timeout)`: appends `['setReferralCookieTimeout', timeout]`. */
    method SetReferralCookieTimeout(timeout: int) returns (outcome: Outcome)
      modifies host
      ensures Step(host.global, outcome) == Call(old(host.global), Command("setReferralCookieTimeout", [Num(timeout)]))
    {
      outcome := Send(Command("setReferralCookieTimeout", [Num(timeout)]));
    }

    /** `setSessionCookieTimeout(timeout)`: appends `['setSessionCookieTimeout', timeout]`. */
    method SetSessionCookieTimeout(timeout: int) returns (outcome: Outcome)
      modifies host
      ensures Step(host.global, outcome) == Call(old(host.global), Command("setSessionCookieTimeout", [Num(timeout)]))
    {
      outcome := Send(Command("setSessionCookieTimeout", [Num(timeout)]));
    }

    /** `addListener(element)`: appends `['addListener', element]`. */
    method AddListener(element: nat) returns (outcome: Outcome)
      modifies host
      ensures Step(host.global, outcome) == Call(old(host.global), Command("addListener", [Node(element)]))
    {
      outcome := Send(Command("addListener", [Node(element)]));
    }

    /** `setRequestMethod(requestMethod)`: appends `['setRequestMethod', requestMethod]`. */
    method SetRequestMethod(requestMethod: RequestMethod) returns (outcome: Outcome)
      modifies host
      ensures Step(host.global, outcome) == Call(old(host.global), Command("setRequestMethod", [Str(RequestMethodName(requestMethod))]))
    {
      outcome := Send(Command("setRequestMethod", [Str(RequestMethodName(requestMethod))]));
    }

    /** `setCustomRequestProcessing(callback)`: appends `['setCustomRequestProcessing', callback]`. */
    method SetCustomRequestProcessing(callback: nat) returns (outcome: Outcome)
      modifies host
      ensures Step(host.global, outcome) == Call(old(host.global), Command("setCustomRequestProcessing", [Callback(callback)]))
    {
      outcome := Send(Command("setCustomRequestProcessing", [Callback(callback)]));
    }

    /** `setRequestContentType(contentType)`: appends `['setRequestContentType', contentType]`. */
    method SetRequestContentType(contentType: string) returns (outcome: Outcome)
      modifies host
      ensures Step(host.global, outcome) == Call(old(host.global), Command("setRequestContentType", [Str(contentType)]))
    {
      outcome := Send(Command("setRequestContentType", [Str(contentType)]));
    }

    /** `disableQueueRequest()`: appends `['disableQueueRequest']`. */
    method DisableQueueRequest() returns (outcome: Outcome)
      modifies host
      ensures Step(host.global, outcome) == Call(old(host.global), Command("disableQueueRequest", []))
    {
      outcome := Send(Command("disableQueueRequest", []));
    }

  }
}
