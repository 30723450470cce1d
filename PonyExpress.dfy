/** The Pony Express tariff pipeline (internal/services/pony_express.py):
    the request builder `createBody`, the reply validator `getSafeData`,
    the offer normaliser `apiResponse` and the orchestration in
    `PonyExpress.get_calc_tariff`. */
module PonyExpress {
  import opened Wrappers
  import opened Orders
  import opened PyData
  import opened Xml
  import Numbers

  const CourierService := "PONY_EXPRESS"

  /** The street written for both addresses, whatever the request says. */
  const PlaceholderStreet := "ул.Ленина, д.1"

  const XsdNamespace := "http://www.w3.org/2001/XMLSchema"
  const XsiNamespace := "http://www.w3.org/2001/XMLSchema-instance"

  /** Europe/Moscow is UTC+03:00 all year round. */
  const MoscowOffsetSeconds := 3 * 3600

  const MicrosPerDay := 86400 * 1000000

  // ---------------------------------------------------------------------
  // createBody

  function AddressElement(city: string, street: string): Xml {
    Elem("Address", [Leaf("City", city), Leaf("StreetAddress", street)])
  }

  function DimensionsElement(p: PackagesRequest): Xml {
    Elem("Dimentions", [
      Leaf("Length", Numbers.IntToString(p.length)),
      Leaf("Width", Numbers.IntToString(p.width)),
      Leaf("Height", Numbers.IntToString(p.height))])
  }

  function CargoElement(p: PackagesRequest): Xml {
    Elem("Cargo", [
      DimensionsElement(p),
      Leaf("Weight", Numbers.IntToString(Numbers.Truncate(p.weight)))])
  }

  function ServiceElement(params: OrderCalcRequest): Xml {
    var fromStreet := PlaceholderStreet;
    var toStreet := PlaceholderStreet;
    Element("Service", [Attr("xsi:type", "DeliveryService")], [
      Elem("Sender", [AddressElement(params.fromLocation, fromStreet)]),
      Elem("Recipient", [AddressElement(params.toLocation, toStreet)]),
      Elem("CargoList", [CargoElement(params.packages)])])
  }

  /** createBody: the `Request` document in Calculation mode for one order
      with one delivery service and one cargo. The cities are copied
      verbatim, the dimensions written as decimal integers, the weight
      truncated toward zero. */
  function CreateBody(params: OrderCalcRequest): Document {
    Document("1.0", "utf-8",
      Element("Request",
        [Attr("xmlns:xsd", XsdNamespace), Attr("xmlns:xsi", XsiNamespace), Attr("xsi:type", "OrderRequest")],
        [ Leaf("Mode", "Calculation"),
          Elem("OrderList", [Elem("Order", [Elem("ServiceList", [ServiceElement(params)])])])]))
  }

  // ---------------------------------------------------------------------
  // getSafeData

  const StatusPath := ["Response", "OrderList", "Order", "StatusList"]
  const RatePath := ["Response", "OrderList", "Order", "ServiceList", "Service",
                     "Calculation", "DeliveryRateSet", "DeliveryRate"]

  /** The dict getSafeData returns: `{"error": None, "data": ...}`. */
  datatype SafeData = SafeData(error: Option<Exc>, data: Node)

  /** `HTTPException(status_code=500, detail={"error": "SOAP Fault", "message": m})`. */
  function SoapFault(message: Message): (e: Exc)
    ensures e.HttpException? && e.statusCode == 500 && e.detail.error == "SOAP Fault"
  {
    HttpException(500, Detail("SOAP Fault", message))
  }

  /** The `.get` chain down to StatusList, evaluated before the `try`:
      a missing key yields the default, a value that is not a dict raises. */
  function StatusLookup(data: Node): (r: Result<Node, Exc>)
    ensures r.Err? ==> r.error == AttributeError
  {
    var response :- Get(data, "Response", EmptyMap);
    var orderList :- Get(response, "OrderList", EmptyMap);
    var order :- Get(orderList, "Order", EmptyMap);
    Get(order, "StatusList", Null)
  }

  /** The body of the `try`: the error-marker test, the OrderList test and
      the subscript chain down to DeliveryRate. */
  function CheckedData(data: Node, status: Node): (r: Result<SafeData, Exc>)
    ensures r.Ok? ==> r.value.error.None? && SubscriptPath(data, RatePath) == Ok(r.value.data)
    ensures r.Err? ==> r.error in {AttributeError, TypeError, SoapFault(StatusText(status))} || r.error.KeyError?
  {
    var orderStatus :- Get(status, "OrderStatus", EmptyMap);
    var failed :- Contains(orderStatus, "ErrorCode");
    if failed then Err(SoapFault(StatusText(status)))
    else
      var response :- Get(data, "Response", EmptyMap);
      var hasOrderList :- Contains(response, "OrderList");
      if !hasOrderList then Err(SoapFault(StatusText(status)))
      else
        var rates :- SubscriptPath(data, RatePath);
        Ok(SafeData(None, rates))
  }

  /** getSafeData: an exception of the status lookup escapes as it is; every
      exception inside the `try`, the two explicit raises included, is
      caught and raised again as a 500 "SOAP Fault" carrying it. */
  function GetSafeData(data: Node): (r: Result<SafeData, Exc>)
    ensures r.Ok? ==> r.value.error.None? && SubscriptPath(data, RatePath) == Ok(r.value.data)
    ensures r.Err? ==>
              || r.error == AttributeError
              || (r.error.HttpException? && r.error.statusCode == 500 && r.error.detail.error == "SOAP Fault"
                  && r.error.detail.message.Raised?)
  {
    var status :- StatusLookup(data);
    match CheckedData(data, status)
    case Ok(safe) => Ok(safe)
    case Err(e) => Err(SoapFault(Raised(e)))
  }

  // ---------------------------------------------------------------------
  // apiResponse

  /** The text stored under `key` in a dict node. */
  function FieldText(offer: Node, key: string): Option<string> {
    if offer.Map? then
      match Lookup(offer.entries, key)
      case Some(Text(s)) => Some(s)
      case _ => None
    else
      None
  }

  /** calc_period: the pickup moment is the clock reading `now` shown at the
      Moscow offset; delivery is `days` days later at the same offset. */
  function CalcPeriod(days: int, now: int): (period: (DateTime, DateTime))
    ensures period.0.utcMicros == now && period.0.offsetSeconds == MoscowOffsetSeconds
    ensures period.1.offsetSeconds == period.0.offsetSeconds
    ensures period.1.utcMicros - period.0.utcMicros == days * MicrosPerDay
  {
    var sendDate := DateTime(now, MoscowOffsetSeconds);
    var receiveDate := DateTime(sendDate.utcMicros + days * MicrosPerDay, sendDate.offsetSeconds);
    (sendDate, receiveDate)
  }

  /** apiResponse: one provider offer as a response record, with the clock
      reading `now` taken for it. Fields are read in the order the source
      reads them, so the first missing or malformed one decides the exception;
      the response schema then refuses a Description that is not a str and a
      DeliveryMethod that is neither a str nor None. */
  function ApiResponse(offer: Node, now: int): (r: Result<OrderCalcResponse, Exc>)
    ensures r.Ok? <==>
              && offer.Map?
              && FieldText(offer, "MinTerm").Some? && Numbers.ParseInt(FieldText(offer, "MinTerm").value).Some?
              && FieldText(offer, "Sum").Some? && Numbers.ParseFloat(FieldText(offer, "Sum").value).Some?
              && FieldText(offer, "Description").Some?
              && (FieldText(offer, "DeliveryMethod").Some? || Lookup(offer.entries, "DeliveryMethod") == Some(Null))
    ensures r.Ok? ==>
              var resp := r.value;
              && resp.courierService == CourierService
              && resp.courierServiceRating == None
              && Numbers.ParseInt(FieldText(offer, "MinTerm").value) == Some(resp.deliveryTimeInDay)
              && resp.price == Numbers.Truncate(Numbers.ParseFloat(FieldText(offer, "Sum").value).value)
              && resp.pickupDay == DateTime(now, MoscowOffsetSeconds)
              && resp.deliveryDay.offsetSeconds == MoscowOffsetSeconds
              && resp.deliveryDay.utcMicros == now + resp.deliveryTimeInDay * MicrosPerDay
              && FieldText(offer, "Description") == Some(resp.deliveryRate)
              && resp.deliveryRateDescription == FieldText(offer, "DeliveryMethod")
    ensures r.Err? ==> r.error in {TypeError, KeyError("MinTerm"), KeyError("Sum"), KeyError("Description"),
                                   KeyError("DeliveryMethod"), ValueError, ValidationError}
  {
    var minTermText :- Subscript(offer, "MinTerm");
    var minTerm :- PyInt(minTermText);
    var (pickupDay, deliveryDay) := CalcPeriod(minTerm, now);
    var sumText :- Subscript(offer, "Sum");
    var sum :- PyFloat(sumText);
    var description :- Subscript(offer, "Description");
    var deliveryMethod :- Subscript(offer, "DeliveryMethod");
    // The second int(offer["MinTerm"]) of the source reads the same text again.
    match (description, deliveryMethod)
    case (Text(rate), Text(rateDescription)) =>
      Ok(OrderCalcResponse(CourierService, None, Numbers.Truncate(sum), minTerm, pickupDay, deliveryDay,
                           rate, Some(rateDescription)))
    case (Text(rate), Null) =>
      Ok(OrderCalcResponse(CourierService, None, Numbers.Truncate(sum), minTerm, pickupDay, deliveryDay,
                           rate, None))
    case _ => Err(ValidationError)
  }

  // ---------------------------------------------------------------------
  // get_calc_tariff

  /** The offers under DeliveryRate. xmltodict gives a list for repeated
      elements and a dict for a single one; a single offer is kept as a
      one-element list (the source iterates the dict instead, see
      TariffFacts.SingleOfferFailsAsWritten and TariffFacts.SingleOfferKept). */
  function OfferItems(rates: Node): (r: Result<seq<Node>, Exc>)
    ensures rates.List? ==> r == Ok(rates.items)
    ensures rates.Map? ==> r == Ok([rates])
    ensures r.Err? <==> rates.Null?
  {
    if rates.Map? then Ok([rates]) else Iterate(rates)
  }

  /** `[f(item) for item in items]`, item `i` reading the clock as `nows[i]`:
      one result per item in the items' order, or the exception of the first
      item that fails. */
  function Comprehension<T>(f: (Node, int) -> Result<T, Exc>, items: seq<Node>, nows: seq<int>): (r: Result<seq<T>, Exc>)
    requires |nows| == |items|
    ensures r.Ok? <==> forall i :: 0 <= i < |items| ==> f(items[i], nows[i]).Ok?
    ensures r.Ok? ==>
              && |r.value| == |items|
              && forall i :: 0 <= i < |items| ==> r.value[i] == f(items[i], nows[i]).value
    ensures r.Err? ==>
              exists k :: 0 <= k < |items|
                          && f(items[k], nows[k]) == Err(r.error)
                          && forall j :: 0 <= j < k ==> f(items[j], nows[j]).Ok?
  {
    if items == [] then Ok([])
    else
      var head :- f(items[0], nows[0]);
      var tail := Comprehension(f, items[1..], nows[1..]);
      match tail
      case Err(e) =>
        var k :| 0 <= k < |items[1..]|
                 && f(items[1..][k], nows[1..][k]) == Err(e)
                 && forall j :: 0 <= j < k ==> f(items[1..][j], nows[1..][j]).Ok?;
        assert f(items[k + 1], nows[k + 1]) == Err(e);
        Err(e)
      case Ok(rest) => Ok([head] + rest)
  }

  /** The first `n` readings of the clock: `datetime.now` is called once per offer. */
  function Readings(clock: nat -> int, n: nat): (r: seq<int>)
    ensures |r| == n && forall i :: 0 <= i < n ==> r[i] == clock(i)
  {
    seq(n, i requires 0 <= i => clock(i))
  }

  /** What the SOAP call gives back: the reply parsed by xmltodict, a SOAP
      Fault, a reply that is not well-formed XML, or a call that raised
      something other than a Fault (the WSDL load or the transport failed). */
  datatype Reply = Parsed(data: Node) | Fault(message: string) | NotXml | CallFailed

  /** The body of get_calc_tariff, with the iteration over DeliveryRate as a
      parameter: the body built from the request is submitted with the access
      key; a SOAP Fault makes the method return None; any other exception of
      the SOAP layer propagates; otherwise the validated offers are normalised
      by apiResponse in the provider's order. */
  function TariffPipeline(iterate: Node -> Result<seq<Node>, Exc>, body: OrderCalcRequest, accessKey: string,
                          submitRequest: (string, Document) -> Reply, clock: nat -> int)
    : (r: Result<Option<seq<OrderCalcResponse>>, Exc>)
    requires forall x :: iterate(x).Err? ==> iterate(x).error == TypeError
    ensures r == Ok(None) <==> submitRequest(accessKey, CreateBody(body)).Fault?
    ensures r == Err(ExpatError) <==> submitRequest(accessKey, CreateBody(body)).NotXml?
    ensures r == Err(TransportError) <==> submitRequest(accessKey, CreateBody(body)).CallFailed?
    ensures r.Err? ==> TariffError(r.error)
  {
    match submitRequest(accessKey, CreateBody(body))
    case Fault(_) => Ok(None)
    case CallFailed => Err(TransportError)
    case NotXml => Err(ExpatError)
    case Parsed(data) =>
      var responses :- ParsedOffers(iterate, data, clock);
      Ok(Some(responses))
  }

  /** The part of get_calc_tariff after parsing: getSafeData, the iteration
      over DeliveryRate and the comprehension. Its exceptions are those of
      getSafeData, the iteration and apiResponse. */
  function ParsedOffers(iterate: Node -> Result<seq<Node>, Exc>, data: Node, clock: nat -> int)
    : (r: Result<seq<OrderCalcResponse>, Exc>)
    requires forall x :: iterate(x).Err? ==> iterate(x).error == TypeError
    ensures r.Err? ==> TariffError(r.error) && r.error != ExpatError && r.error != TransportError
  {
    var offers :- GetSafeData(data);
    var items :- iterate(offers.data);
    var nows := Readings(clock, |items|);
    match Comprehension(ApiResponse, items, nows)
    case Ok(responses) => Ok(responses)
    case Err(e) =>
      var k :| 0 <= k < |items| && ApiResponse(items[k], nows[k]) == Err(e);
      Err(e)
  }

  /** An exception get_calc_tariff can end with: the unwrapped AttributeError
      of the status lookup, the 500 "SOAP Fault" of getSafeData, a failure of
      the SOAP layer or of the XML parser, or an exception of apiResponse. */
  predicate TariffError(e: Exc) {
    || e == AttributeError
    || (e.HttpException? && e.statusCode == 500 && e.detail.error == "SOAP Fault" && e.detail.message.Raised?)
    || e in {TransportError, ExpatError, TypeError, KeyError("MinTerm"), KeyError("Sum"), KeyError("Description"),
             KeyError("DeliveryMethod"), ValueError, ValidationError}
  }

  /** get_calc_tariff as written: the comprehension iterates the DeliveryRate
      node as xmltodict gave it. It returns None exactly on a SOAP Fault,
      raises ExpatError exactly on a reply that is not XML, and raises
      nothing outside TariffError. */
  function GetCalcTariff(body: OrderCalcRequest, accessKey: string, submitRequest: (string, Document) -> Reply,
                         clock: nat -> int): (r: Result<Option<seq<OrderCalcResponse>>, Exc>)
    ensures r == Ok(None) <==> submitRequest(accessKey, CreateBody(body)).Fault?
    ensures r == Err(ExpatError) <==> submitRequest(accessKey, CreateBody(body)).NotXml?
    ensures r == Err(TransportError) <==> submitRequest(accessKey, CreateBody(body)).CallFailed?
    ensures r.Err? ==> TariffError(r.error)
  {
    TariffPipeline(Iterate, body, accessKey, submitRequest, clock)
  }

  /** get_calc_tariff with the corrected iteration of OfferItems, which keeps
      a single offer as a one-element list; the same outcomes otherwise. */
  function GetCalcTariffCorrected(body: OrderCalcRequest, accessKey: string, submitRequest: (string, Document) -> Reply,
                                  clock: nat -> int): (r: Result<Option<seq<OrderCalcResponse>>, Exc>)
    ensures r == Ok(None) <==> submitRequest(accessKey, CreateBody(body)).Fault?
    ensures r == Err(ExpatError) <==> submitRequest(accessKey, CreateBody(body)).NotXml?
    ensures r == Err(TransportError) <==> submitRequest(accessKey, CreateBody(body)).CallFailed?
    ensures r.Err? ==> TariffError(r.error)
  {
    TariffPipeline(OfferItems, body, accessKey, submitRequest, clock)
  }
}
