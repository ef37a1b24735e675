/**
 * The converter controller: the pure decisions (option list, default
 * selection, the amount filter, the conversion short-circuits) and the
 * component's state slots as a class whose handler methods update them.
 * A handler that awaits a service call is split at the await into a start
 * and a finish method; the service's outcome is the finish method's input.
 */
module Converter {
  import opened Wrappers
  import opened Text
  import opened Amount
  import opened Types
  import opened Api
  import opened Service
  import opened Dropdown

  const FetchFallbackMessage: string := "Failed to fetch currencies"
  const ConvertFallbackMessage: string := "Failed to convert currency"

  /** The selector option of a currency: its short code as value, "name (code)" as label. */
  function CurrencyOption(c: Currency): DropdownOption
  {
    DropdownOption(c.shortCode, c.name + " (" + c.shortCode + ")")
  }

  /** `currencyOptions`: one option per currency, in the currencies' order. */
  function CurrencyOptions(cs: seq<Currency>): (r: seq<DropdownOption>)
    ensures |r| == |cs|
    ensures forall i :: 0 <= i < |cs| ==> r[i] == CurrencyOption(cs[i])
  {
    seq(|cs|, i requires 0 <= i < |cs| => CurrencyOption(cs[i]))
  }

  /** The index of the first currency with the given short code (`find`), or the length when there is none. */
  function FindCode(cs: seq<Currency>, code: string): (k: nat)
    ensures k <= |cs|
    ensures forall j :: 0 <= j < k ==> cs[j].shortCode != code
    ensures k < |cs| ==> cs[k].shortCode == code
  {
    if cs == [] then 0 else if cs[0].shortCode == code then 0 else 1 + FindCode(cs[1..], code)
  }

  /** A closed selector over the currency options shows "name (code)" of the first currency with the selected code, or "". */
  lemma SelectedCurrencyLabel(cs: seq<Currency>, code: string)
    ensures var k := FindCode(cs, code);
      SelectedLabel(CurrencyOptions(cs), code) == if k < |cs| then cs[k].name + " (" + code + ")" else ""
  {
    var opts := CurrencyOptions(cs);
    var k := FindCode(cs, code);
    if k < |cs| {
      assert opts[k].value == code && forall j :: 0 <= j < k ==> opts[j].value != code;
    } else {
      assert forall j :: 0 <= j < |opts| ==> opts[j].value != code;
    }
  }

  /** Searching a selector for a currency's short code always keeps that currency's option. */
  lemma SearchByCodeKeepsCurrency(cs: seq<Currency>, i: nat)
    requires i < |cs|
    ensures CurrencyOption(cs[i]) in Filter(CurrencyOptions(cs), cs[i].shortCode)
  {
    var o := CurrencyOption(cs[i]);
    var opts := CurrencyOptions(cs);
    ContainsSelf(Lower(cs[i].shortCode));
    assert Matches(o, cs[i].shortCode);
    assert opts[i] == o;
    assert multiset(opts)[o] > 0;
    assert multiset(Filter(opts, cs[i].shortCode))[o] > 0;
  }

  /** The default source currency: USD when listed, else the first code, else "". A non-empty default is a listed code. */
  function DefaultFrom(cs: seq<Currency>): (r: string)
    ensures r == "" || exists i :: 0 <= i < |cs| && cs[i].shortCode == r
  {
    var usd := FindCode(cs, "USD");
    if usd < |cs| then OrElse(cs[usd].shortCode, OrElse(if |cs| > 0 then cs[0].shortCode else "", ""))
    else OrElse(if |cs| > 0 then cs[0].shortCode else "", "")
  }

  /** The default target currency: EUR when listed, else the second code, else "". A non-empty default is a listed code. */
  function DefaultTo(cs: seq<Currency>): (r: string)
    ensures r == "" || exists i :: 0 <= i < |cs| && cs[i].shortCode == r
  {
    var eur := FindCode(cs, "EUR");
    if eur < |cs| then OrElse(cs[eur].shortCode, OrElse(if |cs| > 1 then cs[1].shortCode else "", ""))
    else OrElse(if |cs| > 1 then cs[1].shortCode else "", "")
  }

  /** The defaults prefer USD and EUR and otherwise fall back to the first and second currencies. */
  lemma DefaultsChosen(cs: seq<Currency>)
    ensures (exists i :: 0 <= i < |cs| && cs[i].shortCode == "USD") ==> DefaultFrom(cs) == "USD"
    ensures (forall i :: 0 <= i < |cs| ==> cs[i].shortCode != "USD") ==>
      DefaultFrom(cs) == if |cs| > 0 then cs[0].shortCode else ""
    ensures (exists i :: 0 <= i < |cs| && cs[i].shortCode == "EUR") ==> DefaultTo(cs) == "EUR"
    ensures (forall i :: 0 <= i < |cs| ==> cs[i].shortCode != "EUR") ==>
      DefaultTo(cs) == if |cs| > 1 then cs[1].shortCode else ""
  {
  }

  /** The fallbacks can pick one currency for both sides: a list [X, USD] without EUR defaults to USD to USD. */
  lemma DefaultsMayCoincide(x: Currency, usd: Currency)
    requires x.shortCode != "USD" && x.shortCode != "EUR" && usd.shortCode == "USD"
    ensures DefaultFrom([x, usd]) == "USD" && DefaultTo([x, usd]) == "USD"
  {
    assert FindCode([x, usd], "USD") == 1;
    assert FindCode([x, usd], "EUR") == 2 by {
      assert FindCode([x, usd][1..], "EUR") == 1;
    }
  }

  /** What `convertCurrency` does once it runs. */
  datatype Decision =
    | ClearResult                        // missing selection or non-positive amount: result cleared, no call
    | Identity(amount: Number)          // same currency on both sides: the amount itself, no call
    | Remote(request: ConversionRequest) // a call to the conversion service

  /** The short-circuit rules of `convertCurrency` for a selection and an admitted amount string. */
  function Decide(from: string, to: string, amount: string): (r: Decision)
    requires MatchesAmountPattern(amount)
    ensures !r.ClearResult? ==> from != "" && to != "" && amount != ""
    ensures r.Identity? <==> !r.ClearResult? && from == to
    ensures r.Remote? ==> r.request.from == from && r.request.to == to && r.request.from != r.request.to
  {
    if from == "" || to == "" || amount == "" || AtMostZero(ParseAmount(amount)) then ClearResult
    else if from == to then Identity(ParseAmount(amount))
    else Remote(ConversionRequest(from, to, ParseAmount(amount)))
  }

  /**
   * The result is cleared exactly when a side is unselected or the amount has
   * no digit other than '0' — except ".", which `parseFloat` turns into NaN and
   * which therefore gets past the `<= 0` test.
   */
  lemma DecideClears(from: string, to: string, amount: string)
    requires MatchesAmountPattern(amount)
    ensures Decide(from, to, amount).ClearResult? <==>
      from == "" || to == "" || (!HasNonzeroDigit(amount) && amount != ".")
  {
    ParseAmountNaN(amount);
    ParseAmountPositive(amount);
    if amount == "" {
      assert !HasNonzeroDigit(amount);
    }
  }

  /** With both sides the same and an amount that passes, the result is the parsed amount and no call is made. */
  lemma DecideIdentity(code: string, amount: string)
    requires MatchesAmountPattern(amount) && code != "" && HasNonzeroDigit(amount)
    ensures Decide(code, code, amount) == Identity(ParseAmount(amount))
    ensures ParseAmount(amount).Finite? && ParseAmount(amount).value > 0.0
  {
    ParseAmountPositive(amount);
  }

  /** With two different selected currencies and a positive amount, a call is made with exactly that query. */
  lemma DecideRemote(from: string, to: string, amount: string)
    requires MatchesAmountPattern(amount) && from != "" && to != "" && from != to && HasNonzeroDigit(amount)
    ensures Decide(from, to, amount) == Remote(ConversionRequest(from, to, ParseAmount(amount)))
    ensures ParseAmount(amount).Finite? && ParseAmount(amount).value > 0.0
  {
    ParseAmountPositive(amount);
  }

  /** The amount "." with a selection on both sides is not cleared: it yields NaN, as the identity or as a remote query. */
  lemma DecideLoneDot(from: string, to: string)
    requires from != "" && to != ""
    ensures MatchesAmountPattern(".")
    ensures Decide(from, to, ".") == if from == to then Identity(NaN) else Remote(ConversionRequest(from, to, NaN))
  {
    assert DotIndex(".") == 0;
    assert AllDigits(""[..0]) && AllDigits("."[1..]);
    ParseAmountNaN(".");
  }

  /** The values a pending debounce timer captured: the dependencies of `convertCurrency`. */
  datatype Snapshot = Snapshot(from: string, to: string, amount: string)

  /** What a running `fetchCurrencies` saw when it started: whether both selections were empty. */
  datatype FetchTicket = FetchTicket(noSelection: bool)

  /** What `retry` started. */
  datatype RetryAction = RefetchCurrencies(ticket: FetchTicket) | Reconvert(decision: Decision)

  class CurrencyConverter {
    var currencies: seq<Currency>
    var fromCurrency: string
    var toCurrency: string
    var amount: string
    var convertedAmount: Option<Number>
    var loadingCurrencies: bool
    var loadingConversion: bool
    var error: Option<string>
    /** The single debounce slot: the closure of the one timer not yet fired, if any. */
    var pendingTimer: Option<Snapshot>

    /** The amount is always an admitted string, and a pending timer always holds the current selection and amount. */
    ghost predicate Valid()
      reads this
    {
      MatchesAmountPattern(amount) && (pendingTimer.Some? ==> pendingTimer.value == Current())
    }

    function Current(): Snapshot
      reads this
    {
      Snapshot(fromCurrency, toCurrency, amount)
    }

    /**
     * The first render: empty slots, and the debounce effect's mount timer
     * pending. The other mount effect, the first `fetchCurrencies`, is not
     * applied here: a caller runs it as `StartFetchCurrencies` followed by
     * `FinishFetchCurrencies`.
     */
    constructor ()
      ensures Valid()
      ensures currencies == [] && fromCurrency == "" && toCurrency == "" && amount == ""
      ensures convertedAmount == None && !loadingCurrencies && !loadingConversion && error == None
      ensures pendingTimer == Some(Snapshot("", "", ""))
    {
      currencies, fromCurrency, toCurrency, amount := [], "", "", "";
      convertedAmount, loadingCurrencies, loadingConversion, error := None, false, false, None;
      pendingTimer := Some(Snapshot("", "", ""));
    }

    /**
     * Stores a new selection and amount. When any of the three changed, the
     * debounce effect clears the pending timer and schedules a new one with
     * the new values; otherwise the pending timer stays as it is.
     */
    method Update(from: string, to: string, amt: string)
      requires Valid() && MatchesAmountPattern(amt)
      modifies this
      ensures Valid()
      ensures fromCurrency == from && toCurrency == to && amount == amt
      ensures pendingTimer == if Current() != old(Current()) then Some(Current()) else old(pendingTimer)
      ensures currencies == old(currencies) && convertedAmount == old(convertedAmount) && error == old(error)
      ensures loadingCurrencies == old(loadingCurrencies) && loadingConversion == old(loadingConversion)
    {
      var before := Current();
      fromCurrency, toCurrency, amount := from, to, amt;
      if Current() != before {
        pendingTimer := Some(Current());
      }
    }

    /** `handleAmountChange`: an admitted string becomes the amount; any other input leaves everything unchanged. */
    method HandleAmountChange(value: string)
      requires Valid()
      modifies this
      ensures Valid()
      ensures !AcceptsAmount(value) ==> unchanged(this)
      ensures AcceptsAmount(value) ==> amount == value && fromCurrency == old(fromCurrency) && toCurrency == old(toCurrency)
      ensures AcceptsAmount(value) ==> pendingTimer == if value != old(amount) then Some(Current()) else old(pendingTimer)
      ensures currencies == old(currencies) && convertedAmount == old(convertedAmount) && error == old(error)
      ensures loadingCurrencies == old(loadingCurrencies) && loadingConversion == old(loadingConversion)
    {
      if AcceptsAmount(value) {
        Update(fromCurrency, toCurrency, value);
      }
    }

    /** The source selector's `onChange`. */
    method SelectFrom(code: string)
      requires Valid()
      modifies this
      ensures Valid()
      ensures fromCurrency == code && toCurrency == old(toCurrency) && amount == old(amount)
      ensures pendingTimer == if code != old(fromCurrency) then Some(Current()) else old(pendingTimer)
      ensures currencies == old(currencies) && convertedAmount == old(convertedAmount) && error == old(error)
      ensures loadingCurrencies == old(loadingCurrencies) && loadingConversion == old(loadingConversion)
    {
      Update(code, toCurrency, amount);
    }

    /** The target selector's `onChange`. */
    method SelectTo(code: string)
      requires Valid()
      modifies this
      ensures Valid()
      ensures toCurrency == code && fromCurrency == old(fromCurrency) && amount == old(amount)
      ensures pendingTimer == if code != old(toCurrency) then Some(Current()) else old(pendingTimer)
      ensures currencies == old(currencies) && convertedAmount == old(convertedAmount) && error == old(error)
      ensures loadingCurrencies == old(loadingCurrencies) && loadingConversion == old(loadingConversion)
    {
      Update(fromCurrency, code, amount);
    }

    /** `swapCurrencies`: exchanges source and target. */
    method SwapCurrencies()
      requires Valid()
      modifies this
      ensures Valid()
      ensures fromCurrency == old(toCurrency) && toCurrency == old(fromCurrency) && amount == old(amount)
      ensures pendingTimer == if Current() != old(Current()) then Some(Current()) else old(pendingTimer)
      ensures currencies == old(currencies) && convertedAmount == old(convertedAmount) && error == old(error)
      ensures loadingCurrencies == old(loadingCurrencies) && loadingConversion == old(loadingConversion)
    {
      Update(toCurrency, fromCurrency, amount);
    }

    /** The start of `fetchCurrencies`, up to the await: loading on, error cleared. */
    method StartFetchCurrencies() returns (ticket: FetchTicket)
      requires Valid()
      modifies this
      ensures Valid()
      ensures ticket.noSelection == (old(fromCurrency) == "" && old(toCurrency) == "")
      ensures loadingCurrencies && error == None
      ensures currencies == old(currencies) && Current() == old(Current()) && pendingTimer == old(pendingTimer)
      ensures convertedAmount == old(convertedAmount) && loadingConversion == old(loadingConversion)
    {
      loadingCurrencies := true;
      error := None;
      ticket := FetchTicket(fromCurrency == "" && toCurrency == "");
    }

    /**
     * The end of `fetchCurrencies`, given what `getCurrencies` produced. On
     * success the list is stored and, if both selections were empty when the
     * fetch started, the defaults are selected; on failure the error is the
     * thrown message, or the fallback text. Loading ends either way.
     */
    method FinishFetchCurrencies(ticket: FetchTicket, outcome: Result<seq<Currency>, ServiceError>)
      requires Valid()
      modifies this
      ensures Valid()
      ensures !loadingCurrencies
      ensures outcome.Success? ==> currencies == outcome.value && error == old(error)
      ensures outcome.Success? && ticket.noSelection ==>
        fromCurrency == DefaultFrom(outcome.value) && toCurrency == DefaultTo(outcome.value)
      ensures outcome.Failure? || !ticket.noSelection ==>
        fromCurrency == old(fromCurrency) && toCurrency == old(toCurrency) && pendingTimer == old(pendingTimer)
      ensures outcome.Failure? ==>
        currencies == old(currencies) && error == Some(OrElse(outcome.error.Message(), FetchFallbackMessage))
      ensures amount == old(amount) && convertedAmount == old(convertedAmount) && loadingConversion == old(loadingConversion)
      ensures pendingTimer == if Current() != old(Current()) then Some(Current()) else old(pendingTimer)
    {
      match outcome {
        case Success(list) =>
          currencies := list;
          if ticket.noSelection {
            Update(DefaultFrom(list), DefaultTo(list), amount);
          }
        case Failure(e) =>
          error := Some(OrElse(e.Message(), FetchFallbackMessage));
      }
      loadingCurrencies := false;
    }

    /**
     * `convertCurrency` up to its await. A cleared or identity result is set
     * at once; for a remote call, loading starts and the error is cleared.
     */
    method StartConversion() returns (d: Decision)
      requires Valid()
      modifies this
      ensures Valid()
      ensures d == Decide(old(fromCurrency), old(toCurrency), old(amount))
      ensures d.ClearResult? ==> convertedAmount == None && unchanged(this`loadingConversion, this`error)
      ensures d.Identity? ==> convertedAmount == Some(d.amount) && unchanged(this`loadingConversion, this`error)
      ensures d.Remote? ==> loadingConversion && error == None && convertedAmount == old(convertedAmount)
      ensures currencies == old(currencies) && Current() == old(Current()) && pendingTimer == old(pendingTimer)
      ensures loadingCurrencies == old(loadingCurrencies)
    {
      d := Decide(fromCurrency, toCurrency, amount);
      match d
      case ClearResult =>
        convertedAmount := None;
      case Identity(n) =>
        convertedAmount := Some(n);
      case Remote(_) =>
        loadingConversion := true;
        error := None;
    }

    /**
     * The end of a remote `convertCurrency`, given the service's outcome: the
     * value, or the error message (or the fallback text) with the result
     * cleared. Loading ends either way. Nothing checks that the reply belongs
     * to the latest query.
     */
    method FinishConversion(outcome: Result<real, ServiceError>)
      requires Valid()
      modifies this
      ensures Valid()
      ensures !loadingConversion
      ensures outcome.Success? ==> convertedAmount == Some(Finite(outcome.value)) && error == old(error)
      ensures outcome.Failure? ==>
        convertedAmount == None && error == Some(OrElse(outcome.error.Message(), ConvertFallbackMessage))
      ensures currencies == old(currencies) && Current() == old(Current()) && pendingTimer == old(pendingTimer)
      ensures loadingCurrencies == old(loadingCurrencies)
    {
      match outcome {
        case Success(v) =>
          convertedAmount := Some(Finite(v));
        case Failure(e) =>
          error := Some(OrElse(e.Message(), ConvertFallbackMessage));
          convertedAmount := None;
      }
      loadingConversion := false;
    }

    /** The debounce timer expires: the pending closure, if any, runs `convertCurrency` with the values it captured. */
    method TimerFires() returns (d: Option<Decision>)
      requires Valid()
      modifies this
      ensures Valid()
      ensures pendingTimer == None
      ensures d.Some? <==> old(pendingTimer).Some?
      ensures d.Some? ==> var p := old(pendingTimer).value; d.value == Decide(p.from, p.to, p.amount)
      ensures d.None? ==> unchanged(this)
      ensures d.Some? && d.value.ClearResult? ==>
        convertedAmount == None && unchanged(this`loadingConversion, this`error)
      ensures d.Some? && d.value.Identity? ==>
        convertedAmount == Some(d.value.amount) && unchanged(this`loadingConversion, this`error)
      ensures d.Some? && d.value.Remote? ==>
        loadingConversion && error == None && convertedAmount == old(convertedAmount)
      ensures currencies == old(currencies) && Current() == old(Current()) && loadingCurrencies == old(loadingCurrencies)
    {
      if pendingTimer.None? {
        return None;
      }
      pendingTimer := None;
      var decision := StartConversion();
      d := Some(decision);
    }

    /** `retry`: refetches the currencies when none are loaded, and re-runs the conversion otherwise. */
    method Retry() returns (action: RetryAction)
      requires Valid()
      modifies this
      ensures Valid()
      ensures action.RefetchCurrencies? <==> |old(currencies)| == 0
      ensures action.RefetchCurrencies? ==>
        action.ticket.noSelection == (old(fromCurrency) == "" && old(toCurrency) == "") && loadingCurrencies && error == None
      ensures action.RefetchCurrencies? ==>
        convertedAmount == old(convertedAmount) && loadingConversion == old(loadingConversion)
      ensures action.Reconvert? ==>
        action.decision == Decide(old(fromCurrency), old(toCurrency), old(amount)) && loadingCurrencies == old(loadingCurrencies)
      ensures action.Reconvert? && action.decision.ClearResult? ==>
        convertedAmount == None && unchanged(this`loadingConversion, this`error)
      ensures action.Reconvert? && action.decision.Identity? ==>
        convertedAmount == Some(action.decision.amount) && unchanged(this`loadingConversion, this`error)
      ensures action.Reconvert? && action.decision.Remote? ==>
        loadingConversion && error == None && convertedAmount == old(convertedAmount)
      ensures currencies == old(currencies) && Current() == old(Current()) && pendingTimer == old(pendingTimer)
    {
      if |currencies| == 0 {
        var t := StartFetchCurrencies();
        action := RefetchCurrencies(t);
      } else {
        var d := StartConversion();
        action := Reconvert(d);
      }
    }
  }

  /** Swapping twice gives back the original pair. */
  method SwapTwice(c: CurrencyConverter)
    requires c.Valid()
    modifies c
    ensures c.fromCurrency == old(c.fromCurrency) && c.toCurrency == old(c.toCurrency)
  {
    c.SwapCurrencies();
    c.SwapCurrencies();
  }

  /**
   * Typing "1", "12", "123" before the timer expires leaves one pending timer;
   * when it fires it converts "123", and nothing else is left to fire.
   */
  method TypingIsDebounced(c: CurrencyConverter) returns (first: Option<Decision>, second: Option<Decision>)
    requires c.Valid()
    modifies c
    ensures first == Some(Decide(old(c.fromCurrency), old(c.toCurrency), "123"))
    ensures second == None
  {
    assert MatchesAmountPattern("1") && MatchesAmountPattern("12") && MatchesAmountPattern("123") by {
      assert AllDigits("1") && AllDigits("12") && AllDigits("123");
    }
    c.HandleAmountChange("1");
    c.HandleAmountChange("12");
    c.HandleAmountChange("123");
    first := c.TimerFires();
    second := c.TimerFires();
  }

  /** A rejected keystroke such as "abc" leaves the amount as it was. */
  method RejectsLetters(c: CurrencyConverter)
    requires c.Valid()
    modifies c
    ensures c.amount == old(c.amount)
  {
    assert !MatchesAmountPattern("abc") by {
      AmountPatternCharacterisation("abc");
      assert !IsDigit("abc"[0]);
    }
    c.HandleAmountChange("abc");
  }

  /** With nothing selected, loading [USD, EUR, GBP] selects USD as source and EUR as target. */
  method DefaultSelectionScenario(c: CurrencyConverter, usd: Currency, eur: Currency, gbp: Currency)
    requires c.Valid() && c.fromCurrency == "" && c.toCurrency == ""
    requires usd.shortCode == "USD" && eur.shortCode == "EUR" && gbp.shortCode == "GBP"
    modifies c
    ensures c.currencies == [usd, eur, gbp]
    ensures c.fromCurrency == "USD" && c.toCurrency == "EUR"
  {
    var ticket := c.StartFetchCurrencies();
    c.FinishFetchCurrencies(ticket, Success([usd, eur, gbp]));
    DefaultsChosen([usd, eur, gbp]);
    assert [usd, eur, gbp][0].shortCode == "USD" && [usd, eur, gbp][1].shortCode == "EUR";
  }

  /** Amount "100" from USD to USD: the result is 100 and no call is made. */
  method IdentityScenario(c: CurrencyConverter)
    requires c.Valid() && c.fromCurrency == "USD" && c.toCurrency == "USD" && c.amount == "100"
    modifies c
    ensures c.convertedAmount == Some(Finite(100.0))
  {
    assert ParseAmount("100") == Finite(100.0) by {
      assert DotIndex("100") == 3;
      assert IntegerPart("100") == "100";
      assert DigitsValue("100") == 100 by {
        assert "100"[..2] == "10" && "10"[..1] == "1" && "1"[..0] == "";
      }
    }
    var d := c.StartConversion();
    assert !AtMostZero(ParseAmount("100"));
  }

  /**
   * A conversion reply with `meta.code` 500 inside a delivered body gives the
   * service's own message; an HTTP 500 rejection gives the server-error text.
   * Either way the result is cleared.
   */
  method ServerErrorScenario(c: CurrencyConverter, s: CurrencyService, body: ConversionResponse, failure: TransportFailure)
      returns (metaCodeError: Option<string>, httpError: Option<string>)
    requires c.Valid() && body.metaCode == 500
    requires failure.response.Some? && failure.response.value.status == 500
    modifies c
    ensures metaCodeError == Some(ConvertFailedMessage)
    ensures httpError == Some(ServerErrorMessage)
    ensures c.convertedAmount == None
  {
    c.FinishConversion(s.ConvertCurrency(Delivered(body)));
    metaCodeError := c.error;
    c.FinishConversion(s.ConvertCurrency(Rejected(failure)));
    httpError := c.error;
  }
}
