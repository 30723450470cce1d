# Pony Express tariff gateway — a Dafny model

This project models the request-translation and response-reconciliation core of a
courier-tariff gateway. A REST request for a delivery quote is turned into a SOAP
`Calculation` request for the Pony Express provider. The provider's XML reply is
checked for its embedded status. Each returned rate offer is then normalised into an
`OrderCalcResponse` record with computed pickup and delivery timestamps.

The model is purely functional, as the source is: it has no classes and no loops, and
the one comprehension becomes a recursive function. Modules:

- `Wrappers`: `Option` and `Result`.
- `Numbers`: what Python's `str(int)`, `int(str)`, `float(str)` and `int(float)` do to
  the numbers in play. Floats are exact reals.
- `Orders`: the records of `internal/schemas/orders.py`. A timezone-aware `datetime`
  is an instant in microseconds plus a UTC offset.
- `Xml`: the request document as an element tree, and the queries used to read it
  back.
- `PyData`: the tree `xmltodict.parse` produces (`None`, `str`, `list`, `dict`).
  It also defines the Python operations the gateway applies to that tree (`.get`,
  `[]`, `in`, iteration, `int()`, `float()`), each with the exception Python raises on
  the wrong kind of value.
- `PonyExpress`: `createBody`, `getSafeData`, `apiResponse` (with `calc_period`) and
  `PonyExpress.get_calc_tariff`.
- `BodyFacts`, `SafeDataFacts`, `TariffFacts`: what those operations are proved to do.

Things that are parameters rather than code:

- The SOAP call is a parameter `submitRequest`, a function from the access key and
  the request document to a `Reply`. A reply is one of four things:
  - the tree `xmltodict` parsed;
  - a SOAP `Fault`;
  - a reply that is not well-formed XML;
  - a call that raised something other than a Fault (`CallFailed`, for example the
    WSDL load or the transport failing).
- The wall clock is a parameter `clock: nat -> int`. `clock(i)` is the reading taken
  for the `i`th offer, because `datetime.now` is called once inside every
  `apiResponse`.

What the code does with failures:

- Inside `getSafeData`, every exception is caught and raised again as an
  `HTTPException` with status 500, error "SOAP Fault" and the caught exception as
  its message. This includes the two explicit raises, which are therefore wrapped
  twice.
- The `.get` chain down to `StatusList` runs before the `try`. A non-dict value on
  that chain raises `AttributeError`, and that error escapes unwrapped.
- A reply with no `OrderList` does not reach the `"OrderList" not in ...` test. The
  status lookup then gives `None`, and `None.get` fails inside the `try`.
  `SafeDataFacts.OrderListCheckNeverFires` proves that test can never raise.
- `get_calc_tariff` catches only a SOAP Fault. Every other exception leaves it.
- A single `DeliveryRate` offer makes `get_calc_tariff` raise TypeError (see
  Findings). `PonyExpress.GetCalcTariff` is the code as written.
  `PonyExpress.GetCalcTariffCorrected` keeps a single offer as a one-element list.
  `TariffFacts.CorrectionOnlyForSingleOffer` proves that the two pipelines differ
  only on such replies.

## Model

| member | source | states |
|---|---|---|
| `Numbers.IntToStringRoundTrip` | internal/services/pony_express.py:63-65 | an integer the request builder writes as text reads back through `int()` as the same integer, negative ones included |
| `Numbers.Truncate` | internal/services/pony_express.py:67 | `int()` of a number truncates toward zero: for x ≥ 0 the result is the largest integer ≤ x, for x < 0 the smallest integer ≥ x |
| `Numbers.TruncateNumeral` | internal/services/pony_express.py:26 | the exact value of a decimal numeral truncates toward zero to its signed whole part, so the fraction digits never change the exact value's truncation (Python's `float()` in between: see "## Left out") |
| `PyData.Lookup` | internal/services/pony_express.py:81 | a dict lookup finds a value exactly when the key is present, and the value found is stored under that key |
| `PyData.Get` | internal/services/pony_express.py:81 | `x.get(k, d)` raises AttributeError exactly when x is not a dict; otherwise it is the stored value when the key is present and the default when it is absent |
| `PyData.Subscript` | internal/services/pony_express.py:97-99 | `x[k]` succeeds exactly when x is a dict holding k; it is a KeyError on a dict without k and a TypeError on any other value |
| `PyData.IsSubstring` | internal/services/pony_express.py:85 | `sub in s` for strings holds exactly when sub occurs in s at some position |
| `PyData.Contains` | internal/services/pony_express.py:85 | `k in x` is a key test on a dict, a substring test on a str, a membership test on a list, and a TypeError on None |
| `PyData.Iterate` | internal/services/pony_express.py:123 | `for item in x` yields a list's items, a dict's keys as strs, or a str's characters, and is a TypeError on None |
| `PyData.PyInt` | internal/services/pony_express.py:21 | `int(x)` succeeds exactly on text that is an integer numeral, with that value; it is a ValueError on other text and a TypeError on other kinds |
| `PyData.PyFloat` | internal/services/pony_express.py:26 | `float(x)` succeeds exactly on text that is a decimal numeral, giving the numeral's exact value (not its nearest double: see "## Left out"); it is a ValueError on other text and a TypeError on other kinds |
| `PonyExpress.CalcPeriod` | internal/services/pony_express.py:14-19 | pickup is the clock reading at the Moscow offset; delivery is exactly `days` days later at the same offset |
| `PonyExpress.ApiResponse` | internal/services/pony_express.py:13-32 | an offer converts exactly when MinTerm and Sum are numeral texts, Description is text and DeliveryMethod is text or None; the record then carries PONY_EXPRESS, no rating, int(MinTerm) days, the truncated Sum, pickup now and delivery MinTerm days later at +03:00, and the two texts; otherwise the exception is one of the listed kinds |
| `PonyExpress.OfferItems` | internal/services/pony_express.py:123 | the corrected iteration over DeliveryRate: a list gives its offers, a single dict offer gives a one-element list, and None is a TypeError |
| `PonyExpress.Comprehension` | internal/services/pony_express.py:123 | the comprehension succeeds exactly when every offer converts, giving one record per offer in order; otherwise it raises the exception of the first offer that fails |
| `PonyExpress.AddressElement` | internal/services/pony_express.py:49-52 | the Address element with City and StreetAddress (what it reads back as: `BodyFacts.ReadAddressOf`) |
| `PonyExpress.DimensionsElement` | internal/services/pony_express.py:62-66 | the Dimentions element with Length, Width and Height as decimal text (`BodyFacts.ReadDimensionsOf`) |
| `PonyExpress.CargoElement` | internal/services/pony_express.py:61-68 | the Cargo element: the dimensions and the weight truncated toward zero (`BodyFacts.ReadWeightOf`) |
| `PonyExpress.ServiceElement` | internal/services/pony_express.py:47-70 | the DeliveryService with Sender, Recipient and CargoList (`BodyFacts.ServiceShape`, `BodyFacts.ReadAddressOf`) |
| `PonyExpress.CreateBody` | internal/services/pony_express.py:35-75 | createBody (`BodyFacts.CreateBodyReadBack`, `BodyFacts.RequestShape`, `BodyFacts.CreateBodyShape`, `BodyFacts.CreateBodyInjective`) |
| `BodyFacts.ReadAddressOf` | internal/services/pony_express.py:48-59 | the Sender address holds the origin city and the Recipient address the destination city, each at the placeholder street |
| `BodyFacts.ReadDimensionsOf` | internal/services/pony_express.py:62-66 | the Dimentions element's Length, Width and Height read back as the package's three dimensions |
| `BodyFacts.ReadWeightOf` | internal/services/pony_express.py:67 | the Cargo holds one Dimentions element and a Weight that reads back as the weight truncated toward zero |
| `BodyFacts.CreateBodyReadBack` | internal/services/pony_express.py:35-75 | the document reads back as a Calculation request from the origin city to the destination city, both at the placeholder street, with the package's dimensions and truncated weight |
| `BodyFacts.RequestShape` | internal/services/pony_express.py:40-43 | the document is XML 1.0 in utf-8, and its root is a Request of xsi:type OrderRequest in Calculation mode |
| `BodyFacts.ServiceShape` | internal/services/pony_express.py:47-69 | the Service has xsi:type DeliveryService, and its CargoList holds exactly one Cargo |
| `BodyFacts.CreateBodyShape` | internal/services/pony_express.py:40-75 | the Request holds exactly one Order with exactly one Service, which is of type DeliveryService and holds one Cargo |
| `BodyFacts.CreateBodyInjective` | internal/services/pony_express.py:35-75 | two requests give the same document exactly when they agree on both cities, the three dimensions and the truncated weight |
| `PonyExpress.StatusLookup` | internal/services/pony_express.py:80-82 | the `.get` chain before the `try` raises only AttributeError (exactly when: `SafeDataFacts.StatusLookupSpec`) |
| `PonyExpress.CheckedData` | internal/services/pony_express.py:84-100 | the body of the `try` raises only AttributeError, TypeError, a KeyError or the SOAP Fault carrying the status; on success it returns error None and the node the subscript chain reaches |
| `PonyExpress.GetSafeData` | internal/services/pony_express.py:79-104 | getSafeData raises only the unwrapped AttributeError or a 500 SOAP Fault carrying the caught exception, and on success returns error None and the DeliveryRate node (exactly when: `SafeDataFacts.GetSafeDataSucceedsIff`) |
| `SafeDataFacts.SubscriptPathFindsPath` | internal/services/pony_express.py:97-99 | the subscript chain succeeds exactly when the key path exists through dicts, and then yields the node at its end |
| `PyData.SubscriptPath` | internal/services/pony_express.py:97-99 | a failing chain of subscripts raises only KeyError or TypeError (what it yields: `SafeDataFacts.SubscriptPathFindsPath`) |
| `SafeDataFacts.StatusLookupSpec` | internal/services/pony_express.py:80-82 | the status lookup raises AttributeError exactly when a value on the Response/OrderList/Order chain is present but not a dict; when the path exists it yields the StatusList node, and a status other than None is always the node at that path |
| `SafeDataFacts.OrderListCheckNeverFires` | internal/services/pony_express.py:90-93 | whenever the status lookup gives a dict, Response is a dict holding OrderList, so the second raise is unreachable |
| `SafeDataFacts.GetSafeDataSucceedsIff` | internal/services/pony_express.py:79-104 | getSafeData succeeds exactly when the status subtree exists without an error marker and the DeliveryRate path exists; it then returns error None and the DeliveryRate node |
| `SafeDataFacts.ErrorMarkerFails` | internal/services/pony_express.py:85-88 | when the test `'ErrorCode' in OrderStatus` finds ErrorCode (a key of a dict, a substring of a str, or an item equal to "ErrorCode" of a list — not a key inside one of a list's dicts), getSafeData raises the 500 SOAP Fault that wraps the inner SOAP Fault carrying the status, whatever else the reply holds |
| `SafeDataFacts.ErrorCodeKeyFails` | internal/services/pony_express.py:85-88 | the same outcome when OrderStatus is a dict with an ErrorCode key |
| `SafeDataFacts.MissingOrderListFails` | internal/services/pony_express.py:80-85 | with no Response, or a Response without OrderList, the failure is the SOAP Fault wrapping the AttributeError of `None.get` |
| `SafeDataFacts.MissingStatusListFails` | internal/services/pony_express.py:80-85 | an Order without StatusList fails the same way |
| `SafeDataFacts.MissingRatesFail` | internal/services/pony_express.py:95-104 | with a clear status, a missing or broken DeliveryRate path is a SOAP Fault wrapping the KeyError or TypeError of the subscript chain, never an empty result |
| `SafeDataFacts.FailureKinds` | internal/services/pony_express.py:79-104 | every failure is a 500 SOAP Fault carrying the caught exception, except an AttributeError of the status lookup, which escapes unwrapped and happens only when the lookup chain meets a value that is not a dict |
| `TariffFacts.ApiResponseFirstFailure` | internal/services/pony_express.py:21-32 | the first of MinTerm, Sum, Description and DeliveryMethod that is missing or malformed decides the exception: KeyError for a missing key, TypeError for a non-text numeral, ValueError for bad numeral text, ValidationError for a field the schema refuses |
| `TariffFacts.ApiResponseClockFree` | internal/services/pony_express.py:13-32 | the clock reading changes only the two timestamps: not whether an offer converts, not its exception, not its other fields |
| `TariffFacts.ClockOnlyMovesDates` | internal/services/pony_express.py:123 | the same for a whole list of offers: different clock readings give the same outcome except for the timestamps |
| `PonyExpress.TariffPipeline` | internal/services/pony_express.py:108-125 | with the iteration as a parameter: the call returns None exactly on a SOAP Fault, raises ExpatError exactly on a reply that is not XML, raises TransportError exactly when the SOAP call failed, and raises nothing outside TariffError |
| `PonyExpress.ParsedOffers` | internal/services/pony_express.py:121-123 | after parsing, the only exceptions are those of getSafeData, of the iteration and of apiResponse |
| `PonyExpress.GetCalcTariff` | internal/services/pony_express.py:108-125 | get_calc_tariff as written: the same outcomes as TariffPipeline; its records: `TariffFacts.TariffOneEntryPerOffer`, its clock: `TariffFacts.TariffClockOnlyMovesDates`, a single offer: `TariffFacts.SingleOfferFailsAsWritten` |
| `PonyExpress.GetCalcTariffCorrected` | internal/services/pony_express.py:108-125 | get_calc_tariff with the corrected iteration: the same outcomes; a single offer: `TariffFacts.SingleOfferKept` |
| `TariffFacts.TariffClockOnlyMovesDates` | internal/services/pony_express.py:108-125 | two clocks give the same outcome except for the timestamps: the same None, the same exception, or as many records agreeing on every other field |
| `TariffFacts.CorrectionOnlyForSingleOffer` | internal/services/pony_express.py:123 | the corrected pipeline differs from the one as written only on replies whose DeliveryRate is a single dict offer |
| `TariffFacts.TariffDependsOnlyOnReply` | internal/services/pony_express.py:111-119 | only the provider's reply to createBody's document under the access key decides the outcome |
| `TariffFacts.TariffOneEntryPerOffer` | internal/services/pony_express.py:119-123 | a reply whose DeliveryRate is a list of N readable offers gives exactly N records in the provider's order, each from PONY_EXPRESS with no rating, the truncated Sum as price, and MinTerm days between pickup and delivery |
| `TariffFacts.TariffProviderError` | internal/services/pony_express.py:121 | an error marker in the reply ends the whole call with a 500 SOAP Fault |
| `TariffFacts.SingleOfferFailsAsWritten` | internal/services/pony_express.py:123 | a reply whose DeliveryRate is a single offer, which arrives as a dict, makes get_calc_tariff raise TypeError: the comprehension walks the dict's keys and the first key cannot be subscripted |
| `TariffFacts.SingleOfferKept` | internal/services/pony_express.py:123 | with the corrected iteration, a reply holding one readable offer gives exactly that offer's record |
| `TariffFacts.ExampleNumbers` | internal/services/pony_express.py:21-27 | "5" converts to 5, and "123.99" converts and truncates to 123 |
| `TariffFacts.FiveDayOffer` | internal/services/pony_express.py:13-32 | an offer with MinTerm "5" and Sum "123.99" gives price 123, 5 days, pickup now and delivery five days later, both at +03:00 |

## Left out

- The SOAP client (`zeep`): the WSDL load and the network call are the `submitRequest` parameter. Any exception of the SOAP layer other than a Fault is the `CallFailed` reply, and the model raises it as the one `TransportError`; which exception it was is not modelled. `print` of a Fault is not modelled; the `None` it returns is.
- `xmltodict.parse`: its output is the reply's `Parsed` tree, and its failure on malformed XML is the `NotXml` reply.
- The clock and time zones: `datetime.now(pytz.timezone("Europe/Moscow"))` is a clock reading with the fixed offset +03:00, which Moscow has kept all year since 2014. Overflow of `timedelta`/`datetime` past year 9999 is not modelled.
- The request text: `textwrap.dedent`, whitespace, the `<!--Required-->` comments and serialisation to a string are left out. The document is modelled as an element tree. The cities are spliced into the text without escaping; the model treats each city as the element's text.
- BodyFacts.CreateBodyReadBack: holds for the element tree, and for the text the source sends only when the cities hold no markup and no newline. The source splices the cities into the text without escaping (lines 50 and 56). A city containing `&` makes the text ill-formed, and a city such as `<b>X</b>` gives City an element child instead of text. A newline also breaks it, because `textwrap.dedent` runs on the filled-in text (line 40): a city `"Kazan\n"` puts the next template line at column 0, the common margin becomes empty, and the XML declaration keeps its leading spaces, which makes the document ill-formed; a city `"A\n        B"` comes back as `"A\nB"`.
- BodyFacts.CreateBodyInjective: holds for the element tree, not for the text the source sends. Let M be the template text between the two City values. The requests (from `X`+M+`Y`, to `Z`) and (from `X`, to `Y`+M+`Z`) produce the same text.
- `PyData.PyFloat`, `Numbers.TruncateNumeral` and `PonyExpress.ApiResponse`: `float()` is modelled as the exact decimal value of the numeral, so the price is the truncation of the exact decimal value of Sum, not of its nearest binary float. The two differ when rounding to a double crosses an integer, for example a Sum with 17 or more nines after the point. They also differ when the Sum is at or beyond the double range, for example "1" followed by 309 zeros. Python's `float()` then gives inf, and `int(inf)` raises OverflowError at line 26, but the model returns the exact, huge price.
- `Numbers.ParseInt` and `Numbers.ParseFloat`: only an optional sign, decimal digits and, for `float`, an optional fraction are accepted. Python also accepts surrounding whitespace, underscores between digits, Unicode decimal digits of other scripts (`int("٥") == 5`), exponents, `inf` and `nan`. As in Python, ".5" and "5." are numerals for `float`.
- `Numbers.Truncate`: the weight is a finite real. `int()` of a NaN or infinite weight raises in the source; that case is not modelled.
- `str(status)` in the detail message: the status subtree is kept as it is rather than rendered as text.
- The response schema: pydantic coercions are not modelled beyond accepting a str for the text fields and a str or None for the rate description.
- Request validation: the inbound request is assumed well-typed, which FastAPI validation guarantees before the handler runs.
- Python dicts: keys are unique. A node's entries are searched for the first key that matches, which is the same thing for a dict xmltodict builds.
- `async`, the FastAPI wiring in `internal/main.py` and `app/main.py`, and `internal/config.py` (the WSDL URL and access key become parameters). These are not part of this model.

## Findings

| source | as written | input that shows it | evidently intended | confidence | as-written member | corrected member |
|---|---|---|---|---|---|---|
| internal/services/pony_express.py:123 | `for item in offers["data"]` iterates the DeliveryRate node as parsed; for a single offer xmltodict gives a dict, so the loop walks the dict's keys and `"MinTerm"` is subscripted on a str (modelled by `PonyExpress.GetCalcTariff`; the correction is `PonyExpress.GetCalcTariffCorrected`) | a reply whose DeliveryRateSet holds exactly one DeliveryRate, e.g. `{"MinTerm": "5", "Sum": "123.99", "Description": "Express", "DeliveryMethod": "Door to door"}`: the first item is the str "MinTerm" and `"MinTerm"["MinTerm"]` raises TypeError | one offer gives a one-element list with one normalised record | not executed | `TariffFacts.SingleOfferFailsAsWritten` | `TariffFacts.SingleOfferKept` |
