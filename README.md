# Currency converter client core, in Dafny

This project models the client-side decision logic of a browser currency
converter: the searchable currency selector, the cached currency list service,
the converter controller, and the HTTP client's interceptors. The React UI and
the HTTP transport are left out. What the remote API sends and what the clock
reads are inputs to the methods that use them.

- `wrappers.dfy` (`Wrappers`): `Option` and `Result`.
- `text.dfy` (`Text`): the string functions the code takes from the runtime.
  - `toLowerCase` becomes ASCII lower-casing (`Lower`).
  - `includes` becomes substring search (`Contains`).
  - `localeCompare` becomes lexicographic order on character codes (`LessEq`). It is proved total, transitive and antisymmetric.
  - Decimal digits and `String(n)` are also here.
- `amount.dfy` (`Amount`): the amount field's filter `^\d*\.?\d*$` and `parseFloat`.
  - `parseFloat` is modelled on the strings that filter admits, which are the only values the amount ever holds.
  - It gives an exact real, or `NaN` for "" and ".".
- `types.dfy` (`Types`): the currency, currency-list reply and conversion reply records.
- `api.dfy` (`Api`): the request interceptor as `InjectApiKey`, and the response-error interceptor as the total function `MapError`.
- `service.dfy` (`Service`): the class `CurrencyService`.
  - Its fields are `currencyCache` and `cacheTimestamp`.
  - The cache lives for 300000 ms, with a strict `<` test.
  - The reply array is sorted in place by name (`SortByName`, an insertion sort).
  - Conversion checks `meta.code` and reads no field.
- `dropdown.dfy` (`Dropdown`): the selector's pure filter and label lookup, and the class `Selector`.
  - `Selector` holds `isOpen`, `searchTerm` and `highlightedIndex`.
  - It has one method per event handler.
  - A handler that selects returns the value it hands to `onChange`.
- `converter.dfy` (`Converter`): the option list, the default selection, the conversion short-circuits, and the class `CurrencyConverter`.
  - The class holds the component's state slots.
  - It holds one debounce slot, `pendingTimer`.
  - A handler that awaits a service call is split at the `await` into a start method and a finish method. The finish method takes the outcome as input.

Properties worth noting:
- A pending timer always holds the current (from, to, amount). This is part of `Valid()`. So only the latest trigger can fire.
- On an empty filtered list, ArrowDown sets the highlight to 0 and ArrowUp sets it to -1. So "-1 <= highlight < n" is not an invariant.
  - What does hold is `HighlightReachable`: the highlight is -1, an index into the list, or 0 on an empty list.
  - Enter's range test makes the stray 0 harmless.
- A focus event followed by a click on a closed, enabled selector leaves it closed (`FocusThenClick`). Focus opens it, and the click's toggle then closes it.
- The amount "." passes the `<= 0` test, because `parseFloat(".")` is NaN (`DecideLoneDot`).
- A list holding USD but not EUR can default both sides to the same currency (`DefaultsMayCoincide`).

Behaviour of the code worth noting:
- A conversion reply whose body has `meta.code` 500 yields "Failed to convert currency". The server-error text appears only for an HTTP 500 rejection (`ServerErrorScenario`).
- The swap handler itself has no guard. Only the button's `disabled` attribute stops it while loading or while a side is unselected.
- The finish methods do not check that a reply belongs to the latest query, because the code does not.

## Model

| member | source | states |
|---|---|---|
| Text.Lower | src/components/ui/SearchableDropdown.tsx:40-41 | the stand-in for `toLowerCase` keeps the length, maps each character by `LowerChar`, and leaves no upper-case ASCII letter |
| Text.Contains | src/components/ui/SearchableDropdown.tsx:40-41 | `includes` is true exactly when the needle occurs at some position of the haystack |
| Text.LessEq | src/services/currencyService.ts:34 | the stand-in for `localeCompare` puts every prefix of a name at or before it, and a proper extension of a name after it |
| Text.LessEqTotal | src/services/currencyService.ts:33-35 | the name order that stands in for `localeCompare` relates every pair of strings |
| Text.LessEqTransitive | src/services/currencyService.ts:33-35 | the name order is transitive, so neighbour order of a sorted list gives full order |
| Text.LessEqAntisymmetric | src/services/currencyService.ts:33-35 | two names each at most the other are equal |
| Text.DigitsValuePositive | src/components/CurrencyConverter.tsx:54 | a digit string has a positive value exactly when one of its digits is not '0' |
| Text.NatToStringRoundTrip | src/config/api.ts:70 | the decimal digits interpolated for a status read back to the status |
| Text.IntToString | src/config/api.ts:70 | `${status}` is non-empty, digits for a non-negative status, and '-' then the digits of its magnitude for a negative one |
| Amount.MatchesAmountPattern | src/components/CurrencyConverter.tsx:92 | the regular expression `^\d*\.?\d*$` admits only strings made of digits and '.' |
| Amount.AcceptsAmount | src/components/CurrencyConverter.tsx:92 | a keystroke is kept exactly when the pattern admits it: the `value === ''` test in front of the regular expression changes nothing |
| Amount.AmountPatternCharacterisation | src/components/CurrencyConverter.tsx:92 | `^\d*\.?\d*$` holds exactly when every character is a digit or '.', with at most one '.' |
| Amount.ParseAmount | src/components/CurrencyConverter.tsx:54-71 | `parseFloat` of an admitted amount is NaN or a non-negative number whose whole part is the value of the digits before the point |
| Amount.ParseAmountNaN | src/components/CurrencyConverter.tsx:54 | on an admitted amount, `parseFloat` is NaN exactly for "" and "." |
| Amount.ParseAmountPositive | src/components/CurrencyConverter.tsx:54 | on an admitted amount, `parseFloat` is positive exactly when some digit is not '0' |
| Api.OrElse | src/config/api.ts:70-75 | JavaScript's logical or on two strings (also `CurrencyConverter.tsx` lines 43-44, 47 and 76): the first operand when it is non-empty, else the second |
| Amount.AtMostZero | src/components/CurrencyConverter.tsx:54 | the guard `parseFloat(amount) <= 0`: NaN never passes it, and a number that passes is at most 0 |
| Api.InjectApiKey | src/config/api.ts:25-32 | with a defined, non-empty key, `api_key` is added with the key's value and every other parameter is kept; the URL is kept; without a key the configuration is returned unchanged |
| Api.InjectApiKeyIdempotent | src/config/api.ts:25-32 | running the request interceptor twice gives the same configuration as running it once |
| Api.MapError | src/config/api.ts:44-83 | the response-error interceptor as a function of the failure: the error's code is the response status when there is a response, and absent otherwise; the message of each case is stated by the lemmas below |
| Api.MapErrorKnownStatus | src/config/api.ts:53-68 | statuses 401, 403, 404, 429 and 500 give their fixed messages |
| Api.MapErrorOtherStatus | src/config/api.ts:69-70 | any other status gives the body's non-empty message, else "Request failed with status " followed by the status, which can be read back |
| Api.MapErrorNoResponse | src/config/api.ts:72-76 | without a response: the network message when the request was sent, else the failure's own message, else the generic one |
| Api.MapErrorMessageNonEmpty | src/config/api.ts:44-83 | every error the interceptor rejects with has a non-empty message |
| Service.SortByName | src/services/currencyService.ts:33-35 | after the in-place sort the array is sorted by name and is a permutation of what it was |
| Service.CurrenciesRequestWithKey | src/services/currencyService.ts:27 | after the request interceptor the currency-list request goes to `/currencies` with the key as its only parameter |
| Service.ConvertRequest | src/services/currencyService.ts:49-55 | a conversion request goes to `/convert` with exactly the parameters `from`, `to` and `amount` of the query |
| Service.ConvertRequestWithKey | src/services/currencyService.ts:49-55 | after the request interceptor a conversion request carries exactly the query's three parameters and `api_key` |
| Service.CurrencyService.constructor | src/services/currencyService.ts:6-7 | a new service has no cached list and timestamp 0 |
| Service.CurrencyService.CacheFresh | src/services/currencyService.ts:22 | a cached list is served from its timestamp until just before 300000 ms have passed; from then on, or with no list, it is stale |
| Service.CurrencyService.GetCurrencies | src/services/currencyService.ts:19-45 | it fetches exactly when there is no list or the list is at least 300000 ms old. Without a fetch it returns the cached list and changes nothing. A reply with `meta.code` 200 yields the reply's list sorted by name as a permutation, which becomes the cache with timestamp `now`. A rejection or another code fails with that error, leaves cache and timestamp as they were, and does not fall back to the stale list |
| Service.CurrencyService.ConvertCurrency | src/services/currencyService.ts:47-66 | succeeds exactly when the reply is delivered with `meta.code` 200, and then returns its value; fails with the mapped transport error or "Failed to convert currency" otherwise; reads no field |
| Service.CurrencyService.GetPopularCurrencies | src/services/currencyService.ts:69-71 | ten distinct three-letter upper-case codes, USD first and EUR second |
| Service.CurrencyService.ClearCache | src/services/currencyService.ts:74-77 | the cache becomes empty with timestamp 0, so no clock reading finds it fresh |
| Service.TwoRequestsWithinTtl | src/services/currencyService.ts:19-40 | two requests less than 300000 ms apart, the first of which must fetch and succeeds, make exactly one fetch and return the same list |
| Dropdown.Matches | src/components/ui/SearchableDropdown.tsx:40-41 | an option matches when its lower-cased label or value contains the lower-cased term; the empty term matches every option |
| Dropdown.MatchesIgnoresTermCase | src/components/ui/SearchableDropdown.tsx:40-41 | the term's case does not matter: a term matches exactly like its lower-cased form |
| Dropdown.Filter | src/components/ui/SearchableDropdown.tsx:39-42 | the shown options all match the term, appear in the options' order, and each matching option is kept as often as it occurs while no other option is kept |
| Dropdown.FilterEmptyTerm | src/components/ui/SearchableDropdown.tsx:39-42 | an empty search term shows every option |
| Dropdown.FilterIdempotent | src/components/ui/SearchableDropdown.tsx:39-42 | filtering the shown options again by the same term gives them back |
| Dropdown.FindValue | src/components/ui/SearchableDropdown.tsx:45 | `find` returns the first option with the selected value, or none |
| Dropdown.SelectedLabel | src/components/ui/SearchableDropdown.tsx:45-46 | the shown label is that of the first option with the selected value, or "" when there is none |
| Dropdown.ArrowDownIndex | src/components/ui/SearchableDropdown.tsx:91-93 | ArrowDown moves one entry down or goes to the top; on a non-empty list, from no highlight or any entry, it lands on an entry |
| Dropdown.ArrowUpIndex | src/components/ui/SearchableDropdown.tsx:100-102 | ArrowUp moves one entry up or goes to the last entry; on a non-empty list, from no highlight or any entry, it lands on an entry |
| Dropdown.ArrowsWrap | src/components/ui/SearchableDropdown.tsx:86-104 | ArrowDown from the last entry goes to the first, and ArrowUp from the first goes to the last |
| Dropdown.ArrowsInverse | src/components/ui/SearchableDropdown.tsx:86-104 | inside the list, ArrowUp undoes ArrowDown and the other way round |
| Dropdown.ArrowsOnEmptyList | src/components/ui/SearchableDropdown.tsx:86-104 | on an empty list ArrowDown gives 0 and ArrowUp gives -1, both out of range |
| Dropdown.ArrowsKeepReachable | src/components/ui/SearchableDropdown.tsx:86-104 | both arrows keep the highlight at -1, on an entry, or at 0 on an empty list |
| Dropdown.Selector.constructor | src/components/ui/SearchableDropdown.tsx:27-29 | a new selector is closed with an empty search and no highlight |
| Dropdown.Selector.InputText | src/components/ui/SearchableDropdown.tsx:161 | the input shows the search term while open, and the selected option's label while closed |
| Dropdown.Selector.HandleKeyDown | src/components/ui/SearchableDropdown.tsx:63-114 | nothing happens when disabled. Enter while open on an in-range highlight hands that option's value to `onChange`, then closes with a reset; closed, it only opens, and open with the highlight out of range it changes nothing; in both cases nothing is handed to `onChange`. Escape always closes with a reset. ArrowDown opens a closed list and otherwise moves down with wrap-around. ArrowUp moves up with wrap-around only while open. Tab closes with a reset only while open. Only Enter selects. The reachable-highlight invariant is kept |
| Dropdown.Selector.HandleInputChange | src/components/ui/SearchableDropdown.tsx:117-125 | typing sets the search term, clears the highlight and opens the list |
| Dropdown.Selector.HandleInputClick | src/components/ui/SearchableDropdown.tsx:128-136 | when enabled, a click toggles the list; opening clears search and highlight, closing keeps them; when disabled nothing changes |
| Dropdown.Selector.HandleOptionClick | src/components/ui/SearchableDropdown.tsx:139-145 | clicking an option hands its value to `onChange` and closes with a reset |
| Dropdown.Selector.HandleInputFocus | src/components/ui/SearchableDropdown.tsx:148-152 | focus opens the list only when enabled; search and highlight are kept |
| Dropdown.Selector.HandleClickOutside | src/components/ui/SearchableDropdown.tsx:49-56 | a mouse press outside closes with a reset and selects nothing |
| Dropdown.FocusThenClick | src/components/ui/SearchableDropdown.tsx:128-152 | focus then click on a closed, enabled selector leaves it closed with search and highlight as they were |
| Converter.CurrencyOptions | src/components/CurrencyConverter.tsx:19-24 | one option per currency in the same order, valued by short code and labelled "name (code)" |
| Converter.FindCode | src/components/CurrencyConverter.tsx:40-41 | `find` by short code returns the first currency with that code, or none |
| Converter.SelectedCurrencyLabel | src/components/CurrencyConverter.tsx:19-24 | a closed selector over the currency options shows "name (code)" of the first currency with the selected code, or "" |
| Converter.SearchByCodeKeepsCurrency | src/components/CurrencyConverter.tsx:19-24 | searching for a listed currency's short code keeps that currency's option |
| Converter.DefaultsChosen | src/components/CurrencyConverter.tsx:39-45 | the source default is USD when listed, else the first code, else ""; the target default is EUR when listed, else the second code, else "" |
| Converter.DefaultFrom | src/components/CurrencyConverter.tsx:40-41 | a non-empty default source is always the short code of a listed currency |
| Converter.DefaultTo | src/components/CurrencyConverter.tsx:43-44 | a non-empty default target is always the short code of a listed currency |
| Converter.DefaultsMayCoincide | src/components/CurrencyConverter.tsx:43-44 | a list [X, USD] without EUR gives USD on both sides |
| Converter.Decide | src/components/CurrencyConverter.tsx:54-72 | a result other than clearing needs both sides selected and a non-empty amount; the identity result is given exactly when the two sides are equal, and a call always carries the selected pair, two different codes |
| Converter.DecideClears | src/components/CurrencyConverter.tsx:54-57 | the result is cleared without a call exactly when a side is unselected, or the amount has no non-zero digit and is not "." |
| Converter.DecideIdentity | src/components/CurrencyConverter.tsx:59-62 | with the same currency on both sides and a positive amount, the result is the parsed amount and no call is made |
| Converter.DecideRemote | src/components/CurrencyConverter.tsx:64-72 | with two different selected currencies and a positive amount, a call is made with exactly that query |
| Converter.DecideLoneDot | src/components/CurrencyConverter.tsx:54-62 | the amount "." is not cleared: it yields NaN as the identity result or as the queried amount |
| Converter.CurrencyConverter.constructor | src/components/CurrencyConverter.tsx:8-17 | the first render has empty slots, no loading, no error, and the debounce effect's mount timer pending; the mount fetch is `StartFetchCurrencies` then `FinishFetchCurrencies` |
| Converter.CurrencyConverter.Update | src/components/CurrencyConverter.tsx:83-89 | a change of from, to or amount replaces the pending timer by one holding the new values; no change keeps it |
| Converter.CurrencyConverter.HandleAmountChange | src/components/CurrencyConverter.tsx:91-95 | an admitted string becomes the amount and reschedules the timer when it changed, with the list, result, error and loading flags kept; anything else leaves the whole state unchanged |
| Converter.CurrencyConverter.SelectFrom | src/components/CurrencyConverter.tsx:156 | choosing a source currency sets it and reschedules the timer when it changed; the list, result, error and loading flags are kept |
| Converter.CurrencyConverter.SelectTo | src/components/CurrencyConverter.tsx:195 | choosing a target currency sets it and reschedules the timer when it changed; the list, result, error and loading flags are kept |
| Converter.CurrencyConverter.SwapCurrencies | src/components/CurrencyConverter.tsx:97-101 | source and target are exchanged and the timer rescheduled when the pair changed; the amount, list, result, error and loading flags are kept |
| Converter.CurrencyConverter.StartFetchCurrencies | src/components/CurrencyConverter.tsx:31-33 | loading of currencies starts, the error is cleared, and the ticket records whether both selections were empty |
| Converter.CurrencyConverter.FinishFetchCurrencies | src/components/CurrencyConverter.tsx:35-50 | success stores the list and, only if both selections were empty at the start, selects the defaults. Failure keeps the list and sets the error to the thrown message or "Failed to fetch currencies". Loading ends either way. The timer is rescheduled when the defaults changed the selection |
| Converter.CurrencyConverter.StartConversion | src/components/CurrencyConverter.tsx:53-65 | applies the decision: clear, identity value, or loading on with the error cleared before the call |
| Converter.CurrencyConverter.FinishConversion | src/components/CurrencyConverter.tsx:67-80 | success sets the converted value. Failure sets the error to the message or "Failed to convert currency" and clears the result. Loading ends either way |
| Converter.CurrencyConverter.TimerFires | src/components/CurrencyConverter.tsx:83-89 | the pending timer, if any, is consumed and runs the decision on the values it captured, and the decision is applied (clear, identity value, or loading on with the error cleared); with none nothing happens |
| Converter.CurrencyConverter.Retry | src/components/CurrencyConverter.tsx:104-110 | refetches the currencies exactly when none are loaded, keeping the result and conversion loading; otherwise re-runs the conversion decision and applies it as `StartConversion` does |
| Converter.SwapTwice | src/components/CurrencyConverter.tsx:97-101 | swapping twice restores the original pair |
| Converter.TypingIsDebounced | src/components/CurrencyConverter.tsx:83-89 | typing "1", "12", "123" before the timer fires gives one conversion, of "123", and nothing further |
| Converter.RejectsLetters | src/components/CurrencyConverter.tsx:91-95 | typing "abc" leaves the amount unchanged |
| Converter.DefaultSelectionScenario | src/components/CurrencyConverter.tsx:39-45 | with nothing selected, loading [USD, EUR, GBP] selects USD to EUR |
| Converter.IdentityScenario | src/components/CurrencyConverter.tsx:59-62 | amount "100" from USD to USD gives 100 without a call |
| Converter.ServerErrorScenario | src/components/CurrencyConverter.tsx:74-80 | a body with `meta.code` 500 gives "Failed to convert currency", an HTTP 500 gives the server-error text, and the result is cleared |

## Left out

- HTTP client construction, base URL, timeout, headers, and reading the environment (src/config/api.ts:1-21): configuration of an external library. The API key is a parameter of `InjectApiKey`.
- All `console.error` logging: output only.
- Promises and `await`. A service call's outcome is an input: `Reply` for the service, and `Result` for the controller's finish methods. The clock reading `Date.now()` is the `now` parameter.
- Real timer delays. The 500 ms debounce is one replaceable slot, and `TimerFires` is the expiry event.
- The mount call of `fetchCurrencies` (src/components/CurrencyConverter.tsx:112-114) is not part of the constructor: `StartFetchCurrencies` followed by `FinishFetchCurrencies` stands for it.
- `formatCurrencyValue` (src/services/currencyService.ts:80-91): it depends on `Intl.NumberFormat` and floating-point `toFixed`.
- The implied-rate line (src/components/CurrencyConverter.tsx:235): it re-parses a formatted string and divides floating-point numbers.
- Floating-point rounding. `ParseAmount` gives the exact decimal value, where `parseFloat` gives the nearest double. So an amount with more than about 324 zeros before its first non-zero fraction digit is positive here but 0 in the browser.
- `parseFloat` on strings the amount filter rejects: the amount never holds one.
- `localeCompare` and `toLowerCase`: Unicode and locale library functions. They are replaced by lexicographic character-code order and ASCII lower-casing.
- Service.SortByName: promises sorted-and-permutation but not the stability of `Array.prototype.sort`. Currencies with equal names may end up in another relative order.
- The cache's aliasing of the reply array: the cache stores the sorted contents as a sequence. No code mutates the array afterwards.
- The singleton accessor `getInstance` (src/services/currencyService.ts:12-17): one object is constructed and passed by reference instead.
- React machinery:
  - refs, `focus()`/`blur()` and the `mousedown` listener registration (click-outside is the event `HandleClickOutside`);
  - `useId` ARIA attributes, JSX markup and styling, and `memo`/`useMemo`/`useCallback`;
  - the effect re-running `fetchCurrencies` whenever from or to changes (src/components/CurrencyConverter.tsx:51, 112-114). In the program its visible effect is that every currency change sets the currencies' loading flag and clears the error banner (lines 32-33). `SelectFrom`, `SelectTo` and `SwapCurrencies` keep both, and a caller runs `StartFetchCurrencies` for the re-run.
- The `disabled` attributes on the amount field, the swap button and the selectors: these are markup. `disabled` is a parameter of the selector handlers that test it in code.
- src/components/ui/ErrorMessage.tsx: presentation only.
- Out-of-order conversion replies: there is no guard in the code, so none is modelled. `FinishConversion` applies whatever reply it is given.
