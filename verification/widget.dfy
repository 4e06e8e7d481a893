/**
 * The checkout widget served as `/widget.js`: it picks a language, finds the
 * shipping form, and on a button press acquires the device position, asks the
 * server to reverse-geocode it and fills the address fields.
 *
 * `detectLocation` is an async function that suspends at its awaits. The
 * model splits it at those points: `DetectLocation` is the part before the
 * first await, `CompleteDetection` the rest (the try body, catch and finally)
 * once the position and the server reply are known. Between the two the
 * attempt is in flight and `isLoading` holds. A retry scheduled with
 * `setTimeout` is a pending retry; `RetryTimerFires` is its callback.
 */
module Widget {
  import opened Wrappers
  import opened Dom
  import opened Autofill
  import Geocode

  // ---------------------------------------------------------------------
  // Language

  datatype Lang = Ar | Fr | En
  {
    function Code(): string
    {
      match this
      case Ar => "ar"
      case Fr => "fr"
      case En => "en"
    }
  }

  /** `s.includes(part)`. */
  predicate Contains(s: string, part: string)
    decreases |s|
  {
    |part| <= |s| && (s[..|part|] == part || Contains(s[1..], part))
  }

  /** The html `lang` names a language when it includes its code in lower or upper case. */
  predicate HtmlNames(htmlLang: string, code: string, upper: string)
  {
    Contains(htmlLang, code) || Contains(htmlLang, upper)
  }

  predicate HtmlNamesAny(htmlLang: string)
  {
    HtmlNames(htmlLang, "ar", "AR") || HtmlNames(htmlLang, "fr", "FR") || HtmlNames(htmlLang, "en", "EN")
  }

  /** The widget language: the html `lang` first (ar, fr, en), then the navigator's (ar, fr), else English. */
  function DetectLanguage(htmlLang: string, userLang: string): (lang: Lang)
    ensures lang == Ar <==>
      HtmlNames(htmlLang, "ar", "AR") || (!HtmlNamesAny(htmlLang) && Contains(userLang, "ar"))
    ensures lang == Fr <==>
      (!HtmlNames(htmlLang, "ar", "AR") && HtmlNames(htmlLang, "fr", "FR")) ||
      (!HtmlNamesAny(htmlLang) && !Contains(userLang, "ar") && Contains(userLang, "fr"))
    ensures lang == En <==>
      (!HtmlNames(htmlLang, "ar", "AR") && !HtmlNames(htmlLang, "fr", "FR") && HtmlNames(htmlLang, "en", "EN")) ||
      (!HtmlNamesAny(htmlLang) && !Contains(userLang, "ar") && !Contains(userLang, "fr"))
  {
    if HtmlNames(htmlLang, "ar", "AR") then Ar
    else if HtmlNames(htmlLang, "fr", "FR") then Fr
    else if HtmlNames(htmlLang, "en", "EN") then En
    else if Contains(userLang, "ar") then Ar
    else if Contains(userLang, "fr") then Fr
    else En
  }

  /** A page whose html `lang` names one of the three languages ignores the browser's language. */
  lemma HtmlLangDecides(htmlLang: string, user1: string, user2: string)
    requires HtmlNamesAny(htmlLang)
    ensures DetectLanguage(htmlLang, user1) == DetectLanguage(htmlLang, user2)
  {
  }

  /** The test is a substring test: `lang="es-AR"` (Spanish, Argentina) selects Arabic. */
  lemma ArgentineSpanishReadsAsArabic(userLang: string)
    ensures DetectLanguage("es-AR", userLang) == Ar
  {
    assert Contains("AR", "AR");
    assert Contains("-AR", "AR");
    assert Contains("s-AR", "AR");
    assert Contains("es-AR", "AR");
  }

  // ---------------------------------------------------------------------
  // Messages and geolocation

  /** The keys of the widget's localized message table. */
  datatype MessageKey = SuccessMsg | ErrorMsg | PermissionMsg | TimeoutMsg

  /** A message: an entry of the localized table, or a fixed text. */
  datatype Notice = Localized(key: MessageKey, lang: Lang) | Fixed(text: string)

  /** The position-unavailable text, which is not localized. */
  const PositionUnavailableText: string := "الموقع غير متاح حاليًا"

  /** The codes of a geolocation error. */
  const PERMISSION_DENIED: int := 1
  const POSITION_UNAVAILABLE: int := 2
  const TIMEOUT: int := 3

  /** What the platform's `getCurrentPosition` did before the widget's own timer ran out. */
  datatype PositionOutcome =
    | Fix(latitude: real, longitude: real)
    | PlatformError(code: int)
    | NoAnswer   // neither callback ran within the timeout plus one second

  /** The message of the error a failed position request rejects with. */
  function PositionErrorNotice(code: int, lang: Lang): (n: Notice)
    ensures n == Localized(PermissionMsg, lang) <==> code == PERMISSION_DENIED
    ensures n == Fixed(PositionUnavailableText) <==> code == POSITION_UNAVAILABLE
    ensures n == Localized(TimeoutMsg, lang) <==> code == TIMEOUT
    ensures n == Localized(ErrorMsg, lang) <==> code !in {PERMISSION_DENIED, POSITION_UNAVAILABLE, TIMEOUT}
  {
    if code == PERMISSION_DENIED then Localized(PermissionMsg, lang)
    else if code == POSITION_UNAVAILABLE then Fixed(PositionUnavailableText)
    else if code == TIMEOUT then Localized(TimeoutMsg, lang)
    else Localized(ErrorMsg, lang)
  }

  /** `getPosition`: the coordinates, or the message it rejects with. */
  function GetPosition(position: PositionOutcome, lang: Lang): (r: Result<(real, real), Notice>)
    ensures r.Ok? <==> position.Fix?
    ensures r.Ok? ==> r.value == (position.latitude, position.longitude)
    ensures position.NoAnswer? ==> r == Err(Localized(TimeoutMsg, lang))
    ensures position.PlatformError? ==> r == Err(PositionErrorNotice(position.code, lang))
  {
    match position
    case Fix(lat, lng) => Ok((lat, lng))
    case PlatformError(code) => Err(PositionErrorNotice(code, lang))
    case NoAnswer => Err(Localized(TimeoutMsg, lang))
  }

  // ---------------------------------------------------------------------
  // The server round trip

  /** What `fetch` to `/api/geocode` produced: a network failure, or a status and a body that parsed or not. */
  datatype FetchOutcome = NetworkFailure | Reply(status: int, body: Option<Geocode.GeocodeResponse>)

  /** Why the widget's `geocode` threw. */
  datatype GeocodeFailure = Unreachable | HttpError(status: int) | BadBody | Refused

  /** The widget's `geocode`: a non-2xx status throws, then a body without `success` throws. */
  function ClientGeocode(reply: FetchOutcome): (r: Result<Geocode.Address, GeocodeFailure>)
    ensures r.Ok? <==>
      reply.Reply? && 200 <= reply.status <= 299 && reply.body.Some? && reply.body.value.Success()
    ensures r.Ok? ==> r.value == reply.body.value.address
    ensures reply.Reply? && !(200 <= reply.status <= 299) ==> r == Err(HttpError(reply.status))
  {
    match reply
    case NetworkFailure => Err(Unreachable)
    case Reply(status, body) =>
      if !(200 <= status <= 299) then Err(HttpError(status))
      else if body.None? then Err(BadBody)
      else if !body.value.Success() then Err(Refused)
      else Ok(body.value.address)
  }

  /** How the server's response reaches the widget. */
  function Respond(response: Geocode.GeocodeResponse): FetchOutcome
  {
    Reply(response.Status(), Some(response))
  }

  /** The widget accepts exactly the server's success responses, and takes their address. */
  lemma ServerResponseReachesWidget(response: Geocode.GeocodeResponse)
    ensures ClientGeocode(Respond(response)).Ok? <==> response.Resolved?
    ensures response.Resolved? ==> ClientGeocode(Respond(response)).value == response.address
    ensures !response.Resolved? ==> ClientGeocode(Respond(response)) == Err(HttpError(response.Status()))
  {
  }

  /** A device exactly on the equator sends latitude 0, which the server refuses, so the attempt fails. */
  lemma EquatorNeverResolves(longitude: real, primary: Geocode.Fetch, backup: Geocode.Fetch)
    ensures ClientGeocode(Respond(Geocode.HandleGeocode(Geocode.Number(0.0), Geocode.Number(longitude), primary, backup)))
      == Err(HttpError(400))
  {
  }

  // ---------------------------------------------------------------------
  // Controller state

  /** The widget's settings that the controller reads. */
  datatype Settings = Settings(language: Lang, showMessages: bool, retryCount: int)

  const DefaultRetryCount: int := 2

  /** The controller's state: the loading flag, the retry counter, the last message shown, scheduled retries. */
  datatype Ui = Ui(isLoading: bool, retryAttempts: int, notice: Option<Notice>, pendingRetries: nat)

  /** The state every reachable configuration satisfies. */
  predicate Inv(u: Ui)
  {
    0 <= u.retryAttempts <= 1 && (u.isLoading ==> u.retryAttempts == 0)
  }

  /** `showMessage(messages[key][language])`, which does nothing when messages are switched off. */
  function Show(u: Ui, cfg: Settings, key: MessageKey): (v: Ui)
    ensures v.isLoading == u.isLoading && v.retryAttempts == u.retryAttempts && v.pendingRetries == u.pendingRetries
    ensures v.notice == if cfg.showMessages then Some(Localized(key, cfg.language)) else u.notice
  {
    if cfg.showMessages then u.(notice := Some(Localized(key, cfg.language))) else u
  }

  /** `detectLocation` up to its first await. */
  function Enter(u: Ui, cfg: Settings, hasGeolocation: bool): (v: Ui)
    ensures u.isLoading ==> v == u
    ensures !u.isLoading && !hasGeolocation ==>
      && !v.isLoading && v.retryAttempts == u.retryAttempts
      && v.notice == if cfg.showMessages then Some(Localized(ErrorMsg, cfg.language)) else u.notice
    ensures !u.isLoading && hasGeolocation ==>
      v.isLoading && v.retryAttempts == 0 && v.notice == u.notice
    ensures v.pendingRetries == u.pendingRetries
  {
    if u.isLoading then u
    else if !hasGeolocation then Show(u, cfg, ErrorMsg)
    else u.(isLoading := true, retryAttempts := 0)
  }

  /** The rest of `detectLocation`: success message, or a retry while the counter allows, else the error message. */
  function Settle(u: Ui, cfg: Settings, succeeded: bool): (v: Ui)
    ensures !v.isLoading
    ensures succeeded ==>
      && v.retryAttempts == 0 && v.pendingRetries == u.pendingRetries
      && v.notice == if cfg.showMessages then Some(Localized(SuccessMsg, cfg.language)) else u.notice
    ensures !succeeded && u.retryAttempts < cfg.retryCount ==>
      && v.retryAttempts == u.retryAttempts + 1 && v.pendingRetries == u.pendingRetries + 1
      && v.notice == u.notice
    ensures !succeeded && u.retryAttempts >= cfg.retryCount ==>
      && v.retryAttempts == u.retryAttempts && v.pendingRetries == u.pendingRetries
      && v.notice == if cfg.showMessages then Some(Localized(ErrorMsg, cfg.language)) else u.notice
  {
    var w :=
      if succeeded then Show(u, cfg, SuccessMsg).(retryAttempts := 0)
      else if u.retryAttempts < cfg.retryCount then
        u.(retryAttempts := u.retryAttempts + 1, pendingRetries := u.pendingRetries + 1)
      else Show(u, cfg, ErrorMsg);
    w.(isLoading := false)
  }

  /** A scheduled retry runs `detectLocation` again. */
  function Fire(u: Ui, cfg: Settings, hasGeolocation: bool): (v: Ui)
    requires u.pendingRetries > 0
    ensures v.pendingRetries == u.pendingRetries - 1
    ensures u.isLoading ==> v == u.(pendingRetries := u.pendingRetries - 1)
    ensures !u.isLoading && hasGeolocation ==> v.isLoading && v.retryAttempts == 0 && v.notice == u.notice
    ensures !u.isLoading && !hasGeolocation ==>
      && !v.isLoading && v.retryAttempts == u.retryAttempts
      && v.notice == if cfg.showMessages then Some(Localized(ErrorMsg, cfg.language)) else u.notice
  {
    Enter(u.(pendingRetries := u.pendingRetries - 1), cfg, hasGeolocation)
  }

  /** Every step keeps the invariant; Settle runs only on an attempt in flight. */
  lemma InvPreserved(u: Ui, cfg: Settings, hasGeolocation: bool, succeeded: bool)
    requires Inv(u)
    ensures Inv(Enter(u, cfg, hasGeolocation))
    ensures u.pendingRetries > 0 ==> Inv(Fire(u, cfg, hasGeolocation))
    ensures u.isLoading ==> Inv(Settle(u, cfg, succeeded))
  {
  }

  /**
   * The counter is reset on every entry, so an attempt in flight always sees
   * zero: a failure shows the error message only when the retry count is not
   * positive, and otherwise schedules a retry and shows nothing.
   */
  lemma FailureOutcome(u: Ui, cfg: Settings)
    requires Inv(u) && u.isLoading
    ensures var v := Settle(u, cfg, false);
      if cfg.retryCount > 0 then
        v.notice == u.notice && v.pendingRetries == u.pendingRetries + 1 && v.retryAttempts == 1
      else
        v.notice == Show(u, cfg, ErrorMsg).notice && v.pendingRetries == u.pendingRetries
  {
  }

  /** `n` scheduled retries that fire and fail in turn. */
  function FailedRetries(u: Ui, cfg: Settings, n: nat): Ui
    requires u.pendingRetries > 0
    decreases n
  {
    if n == 0 then u
    else
      var v := Settle(Fire(u, cfg, true), cfg, false);
      if v.pendingRetries > 0 then FailedRetries(v, cfg, n - 1) else v
  }

  /**
   * With a positive retry count, persistent failure never reaches the error
   * message: each failed retry schedules the next one, without end.
   */
  lemma {:induction false} RetriesNeverEnd(u: Ui, cfg: Settings, n: nat)
    requires Inv(u) && !u.isLoading && u.pendingRetries > 0
    requires cfg.retryCount > 0
    ensures var v := FailedRetries(u, cfg, n);
      !v.isLoading && v.notice == u.notice && v.pendingRetries == u.pendingRetries && Inv(v)
    decreases n
  {
    if n > 0 {
      var v := Settle(Fire(u, cfg, true), cfg, false);
      FailureOutcome(Fire(u, cfg, true), cfg);
      RetriesNeverEnd(v, cfg, n - 1);
    }
  }

  /** Under the default settings (two retries), a widget whose every attempt fails retries forever. */
  lemma DefaultSettingsRetryForever(u: Ui, lang: Lang, showMessages: bool, n: nat)
    requires Inv(u) && !u.isLoading && u.pendingRetries > 0
    ensures var v := FailedRetries(u, Settings(lang, showMessages, DefaultRetryCount), n);
      v.notice == u.notice && v.pendingRetries == u.pendingRetries
  {
    RetriesNeverEnd(u, Settings(lang, showMessages, DefaultRetryCount), n);
  }

  /**
   * The catch block shows the generic error message, never the message the
   * position request rejected with: after a refused permission, a timeout or
   * an unavailable position the specific text does not appear.
   */
  lemma PositionErrorNeverShown(u: Ui, cfg: Settings, code: int, reply: FetchOutcome)
    requires code in {PERMISSION_DENIED, POSITION_UNAVAILABLE, TIMEOUT}
    requires u.notice != Some(PositionErrorNotice(code, cfg.language))
    ensures Settle(u, cfg, AttemptSucceeds(PlatformError(code), reply)).notice
      != Some(PositionErrorNotice(code, cfg.language))
  {
  }

  // ---------------------------------------------------------------------
  // The widget object

  /** The shipping-form selectors, in priority order. */
  const FormSelectors: seq<string> := [
    "[data-shipping-address]",
    "#shipping-address",
    "form[action*=\"checkout\"]",
    ".checkout-form",
    "#checkout_shipping_address",
    "form[data-checkout-form]",
    ".step__sections [data-shipping]",
    "[data-section=\"shipping-address\"]"
  ]

  /** One detection attempt succeeds when a position came back and the server resolved it. */
  predicate AttemptSucceeds(position: PositionOutcome, reply: FetchOutcome)
  {
    position.Fix? && ClientGeocode(reply).Ok?
  }

  class YouCanLocationWidget {
    const language: Lang
    const showMessages: bool
    const retryCount: int
    /** The page the widget runs on. */
    const doc: Document
    /** Whether a shipping form was found, so that the button and message box were added. */
    var injected: bool
    var isLoading: bool
    var retryAttempts: int
    /** The last message shown in the message box. */
    var notice: Option<Notice>
    /** Retries scheduled with `setTimeout` that have not fired yet. */
    var pendingRetries: nat

    function Config(): Settings
    {
      Settings(language, showMessages, retryCount)
    }

    function State(): Ui
      reads this
    {
      Ui(isLoading, retryAttempts, notice, pendingRetries)
    }

    ghost predicate Valid()
      reads this
    {
      Inv(State())
    }

    /** Picks the language and looks for the shipping form, as the constructor and `injectWidget` do. */
    constructor(htmlLang: string, userLang: string, showMessages: bool, retryCount: int, doc: Document)
      ensures Valid()
      ensures language == DetectLanguage(htmlLang, userLang)
      ensures this.showMessages == showMessages && this.retryCount == retryCount && this.doc == doc
      ensures State() == Ui(false, 0, None, 0)
      ensures injected <==> FirstMatch(doc.query, FormSelectors).Some?
    {
      language := DetectLanguage(htmlLang, userLang);
      this.showMessages := showMessages;
      this.retryCount := retryCount;
      this.doc := doc;
      retryAttempts := 0;
      isLoading := false;
      notice := None;
      pendingRetries := 0;
      new;
      var form := FindShippingForm();
      injected := form.Some?;
    }

    /** The first shipping-form selector that matches decides the form; none matching gives null. */
    method FindShippingForm() returns (form: Option<Element>)
      ensures form == FirstMatch(doc.query, FormSelectors)
    {
      for k := 0 to |FormSelectors|
        invariant forall j :: 0 <= j < k ==> FormSelectors[j] !in doc.query
      {
        var selector := FormSelectors[k];
        if selector in doc.query {
          FirstMatchAt(doc.query, FormSelectors, k);
          return Some(doc.query[selector]);
        }
      }
      return None;
    }

    /** The lookup of one field: the first of its candidate names found by name or id. */
    method FindField(names: seq<string>) returns (element: Option<Element>)
      ensures element == FirstMatch(doc.query, FieldSelectors(names))
    {
      for j := 0 to |names|
        invariant forall k :: 0 <= k < j ==> FieldSelectors(names)[k] !in doc.query
      {
        var selector := FieldSelector(names[j]);
        if selector in doc.query {
          FirstMatchAt(doc.query, FieldSelectors(names), j);
          return Some(doc.query[selector]);
        }
      }
      return None;
    }

    /** The walk over the field map: each rule with a value writes into its element when found. */
    method FillFields(rules: seq<FieldRule>) returns (filledFields: nat)
      modifies doc
      ensures doc.values == Apply(old(doc.values), RuleWrites(doc.query, rules))
      ensures filledFields == |RuleWrites(doc.query, rules)|
    {
      filledFields := 0;
      for i := 0 to |rules|
        invariant doc.values == Apply(old(doc.values), RuleWrites(doc.query, rules[..i]))
        invariant filledFields == |RuleWrites(doc.query, rules[..i])|
      {
        RuleWritesStep(doc.query, rules, i);
        ghost var done := RuleWrites(doc.query, rules[..i]);
        var rule := rules[i];
        if rule.value != "" {
          var element := FindField(rule.names);
          if element.Some? {
            assert RuleWrite(doc.query, rule) == [Write(element.value, rule.value)];
            ApplyStep(old(doc.values), done, Write(element.value, rule.value));
            doc.values := doc.values[element.value := rule.value];
            filledFields := filledFields + 1;
          } else {
            assert RuleWrite(doc.query, rule) == [];
            assert done + [] == done;
          }
        } else {
          assert RuleWrite(doc.query, rule) == [];
          assert done + [] == done;
        }
      }
      assert rules[..|rules|] == rules;
    }

    /**
     * Writes each structured field into the first element found by one of its
     * names, then the formatted address into the first full-address field,
     * searching the whole document. Reports whether anything was written.
     */
    method FillAddress(address: Geocode.Address) returns (filled: bool)
      modifies doc
      ensures doc.values == Apply(old(doc.values), PlannedWrites(doc.query, address))
      ensures filled <==> |PlannedWrites(doc.query, address)| > 0
    {
      ghost var before := doc.values;
      ghost var planned := PlannedWrites(doc.query, address);
      var rules := FieldRules(address);
      var filledFields := FillFields(rules);
      ghost var structured := RuleWrites(doc.query, rules);
      assert planned == structured + FullAddressWrite(doc.query, address.formatted);
      for k := 0 to |FullAddressSelectors|
        invariant forall j :: 0 <= j < k ==> FullAddressSelectors[j] !in doc.query || address.formatted == ""
        invariant doc.values == Apply(before, structured)
        invariant filledFields == |structured|
      {
        var selector := FullAddressSelectors[k];
        if selector in doc.query && address.formatted != "" {
          var w := Write(doc.query[selector], address.formatted);
          FirstMatchAt(doc.query, FullAddressSelectors, k);
          assert planned == structured + [w];
          ApplyStep(before, structured, w);
          doc.values := doc.values[w.element := w.value];
          assert doc.values == Apply(before, planned);
          filledFields := filledFields + 1;
          return filledFields > 0;
        }
      }
      assert FullAddressWrite(doc.query, address.formatted) == [];
      assert planned == structured;
      filled := filledFields > 0;
    }

    method SetLoading(loading: bool)
      modifies this`isLoading
      ensures State() == old(State()).(isLoading := loading)
    {
      isLoading := loading;
    }

    method ShowMessage(key: MessageKey)
      modifies this`notice
      ensures State() == Show(old(State()), Config(), key)
    {
      if showMessages {
        notice := Some(Localized(key, language));
      }
    }

    /** The button's click handler, up to its first await: ignored while an attempt is in flight. */
    method DetectLocation(hasGeolocation: bool) returns (started: bool)
      requires Valid()
      modifies this`isLoading, this`retryAttempts, this`notice
      ensures Valid()
      ensures State() == Enter(old(State()), Config(), hasGeolocation)
      ensures started <==> !old(isLoading) && hasGeolocation
    {
      if isLoading {
        return false;
      }
      if !hasGeolocation {
        ShowMessage(ErrorMsg);
        return false;
      }
      SetLoading(true);
      retryAttempts := 0;
      return true;
    }

    /** The rest of an attempt in flight, once the position and the server reply are known. */
    method CompleteDetection(position: PositionOutcome, reply: FetchOutcome)
      requires Valid() && isLoading
      modifies this`isLoading, this`retryAttempts, this`notice, this`pendingRetries, doc
      ensures Valid()
      ensures State() == Settle(old(State()), Config(), AttemptSucceeds(position, reply))
      ensures doc.values ==
        if AttemptSucceeds(position, reply)
        then Apply(old(doc.values), PlannedWrites(doc.query, ClientGeocode(reply).value))
        else old(doc.values)
    {
      var succeeded := false;
      var located := GetPosition(position, language);
      if located.Ok? {
        var address := ClientGeocode(reply);
        if address.Ok? {
          var filled := FillAddress(address.value);
          ShowMessage(SuccessMsg);
          retryAttempts := 0;
          succeeded := true;
        }
      }
      if !succeeded {
        if retryAttempts < retryCount {
          retryAttempts := retryAttempts + 1;
          pendingRetries := pendingRetries + 1;
        } else {
          ShowMessage(ErrorMsg);
        }
      }
      SetLoading(false);
    }

    /** A scheduled retry fires and calls the click handler again. */
    method RetryTimerFires(hasGeolocation: bool) returns (started: bool)
      requires Valid() && pendingRetries > 0
      modifies this`isLoading, this`retryAttempts, this`notice, this`pendingRetries
      ensures Valid()
      ensures State() == Fire(old(State()), Config(), hasGeolocation)
    {
      pendingRetries := pendingRetries - 1;
      started := DetectLocation(hasGeolocation);
    }
  }
}
