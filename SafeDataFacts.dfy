/** What getSafeData accepts and what it raises, stated over key paths of
    the parsed reply. */
module SafeDataFacts {
  import opened Wrappers
  import opened PyData
  import opened PonyExpress

  /** The node reached by following `path` through dicts that hold each key. */
  function PathTo(x: Node, path: seq<string>): Option<Node> {
    if path == [] then Some(x)
    else if x.Map? && HasKey(x.entries, path[0]) then PathTo(Lookup(x.entries, path[0]).value, path[1..])
    else None
  }

  /** A `.get(k, {})` chain along `path` cannot raise: every value on it
      that is present is a dict. */
  predicate GetChainSafe(x: Node, path: seq<string>) {
    x.Map? && (path != [] && HasKey(x.entries, path[0]) ==> GetChainSafe(Lookup(x.entries, path[0]).value, path[1..]))
  }

  /** The status subtree has no error marker: it is a dict, and its
      OrderStatus (a missing one counts as `{}`) does not contain "ErrorCode". */
  predicate StatusClear(status: Node) {
    status.Map? && Contains(Get(status, "OrderStatus", EmptyMap).value, "ErrorCode") == Ok(false)
  }

  /** A subscript chain succeeds exactly when the path exists through dicts,
      and then yields the node found there. */
  lemma {:induction false} SubscriptPathFindsPath(x: Node, path: seq<string>)
    ensures SubscriptPath(x, path).Ok? <==> PathTo(x, path).Some?
    ensures SubscriptPath(x, path).Ok? ==> SubscriptPath(x, path).value == PathTo(x, path).value
    decreases |path|
  {
    if path != [] && x.Map? && HasKey(x.entries, path[0]) {
      SubscriptPathFindsPath(Lookup(x.entries, path[0]).value, path[1..]);
    }
  }

  /** The status lookup raises exactly when a value on the
      Response/OrderList/Order chain is present but is not a dict. It yields
      the StatusList node when the path exists, and any status other than
      None sits at that path. */
  lemma StatusLookupSpec(data: Node)
    ensures StatusLookup(data).Err? <==> !GetChainSafe(data, ["Response", "OrderList", "Order"])
    ensures StatusLookup(data).Err? ==> StatusLookup(data).error == AttributeError
    ensures PathTo(data, StatusPath).Some? ==> StatusLookup(data) == Ok(PathTo(data, StatusPath).value)
    ensures StatusLookup(data).Ok? && StatusLookup(data).value != Null ==>
              PathTo(data, StatusPath) == Some(StatusLookup(data).value)
  {
    var chain := ["Response", "OrderList", "Order"];
    assert StatusPath[1..] == ["OrderList", "Order", "StatusList"];
    assert StatusPath[1..][1..] == ["Order", "StatusList"];
    assert StatusPath[1..][1..][1..] == ["StatusList"];
    assert chain[1..] == ["OrderList", "Order"];
    assert chain[1..][1..] == ["Order"];
    if data.Map? && HasKey(data.entries, "Response") {
      var response := Lookup(data.entries, "Response").value;
      assert PathTo(data, StatusPath) == PathTo(response, StatusPath[1..]);
      assert GetChainSafe(data, chain) == GetChainSafe(response, chain[1..]);
      if response.Map? && HasKey(response.entries, "OrderList") {
        var orderList := Lookup(response.entries, "OrderList").value;
        assert PathTo(response, StatusPath[1..]) == PathTo(orderList, StatusPath[1..][1..]);
        assert GetChainSafe(response, chain[1..]) == GetChainSafe(orderList, chain[1..][1..]);
        if orderList.Map? && HasKey(orderList.entries, "Order") {
          var order := Lookup(orderList.entries, "Order").value;
          assert PathTo(orderList, StatusPath[1..][1..]) == PathTo(order, ["StatusList"]);
          assert GetChainSafe(orderList, chain[1..][1..]) == GetChainSafe(order, []);
          if order.Map? && HasKey(order.entries, "StatusList") {
            assert ["StatusList"][1..] == [];
            assert PathTo(order, ["StatusList"]) == Some(Lookup(order.entries, "StatusList").value);
          }
        }
      }
    }
  }

  /** The `"OrderList" not in Response` test can never raise: whenever the
      status lookup gave a dict, Response is a dict that holds OrderList. */
  lemma OrderListCheckNeverFires(data: Node)
    requires StatusLookup(data).Ok? && StatusLookup(data).value.Map?
    ensures Get(data, "Response", EmptyMap).Ok?
    ensures Contains(Get(data, "Response", EmptyMap).value, "OrderList") == Ok(true)
  {
    StatusLookupSpec(data);
  }

  /** getSafeData succeeds exactly when the status subtree exists with no error
      marker and the DeliveryRate path exists; it then returns `error` None and
      the DeliveryRate node itself. */
  lemma GetSafeDataSucceedsIff(data: Node)
    ensures GetSafeData(data).Ok? <==>
              && PathTo(data, StatusPath).Some? && StatusClear(PathTo(data, StatusPath).value)
              && PathTo(data, RatePath).Some?
    ensures GetSafeData(data).Ok? ==> GetSafeData(data).value == SafeData(None, PathTo(data, RatePath).value)
  {
    StatusLookupSpec(data);
    SubscriptPathFindsPath(data, RatePath);
    if StatusLookup(data).Ok? && StatusLookup(data).value.Map? {
      OrderListCheckNeverFires(data);
    }
  }

  /** An error marker in the status subtree is a failure whatever else the
      reply holds: the 500 "SOAP Fault" wrapping the inner 500 "SOAP Fault"
      whose message is the status. */
  lemma ErrorMarkerFails(data: Node)
    requires PathTo(data, StatusPath).Some?
    requires var status := PathTo(data, StatusPath).value;
      status.Map? && Contains(Get(status, "OrderStatus", EmptyMap).value, "ErrorCode") == Ok(true)
    ensures GetSafeData(data) == Err(SoapFault(Raised(SoapFault(StatusText(PathTo(data, StatusPath).value)))))
  {
    StatusLookupSpec(data);
  }

  /** The usual case of the marker: OrderStatus is a dict with an ErrorCode key. */
  lemma ErrorCodeKeyFails(data: Node, orderStatus: seq<(string, Node)>)
    requires PathTo(data, StatusPath).Some? && PathTo(data, StatusPath).value.Map?
    requires Lookup(PathTo(data, StatusPath).value.entries, "OrderStatus") == Some(Map(orderStatus))
    requires HasKey(orderStatus, "ErrorCode")
    ensures GetSafeData(data) == Err(SoapFault(Raised(SoapFault(StatusText(PathTo(data, StatusPath).value)))))
  {
    ErrorMarkerFails(data);
  }

  /** With no OrderList under Response (or no Response at all) the lookup
      gives None, and `None.get` inside the `try` ends as a SOAP Fault. */
  lemma MissingOrderListFails(data: Node)
    requires data.Map?
    requires !HasKey(data.entries, "Response")
             || (Lookup(data.entries, "Response").value.Map?
                 && !HasKey(Lookup(data.entries, "Response").value.entries, "OrderList"))
    ensures GetSafeData(data) == Err(SoapFault(Raised(AttributeError)))
  {
  }

  /** The same for an Order without a StatusList. */
  lemma MissingStatusListFails(data: Node)
    requires PathTo(data, ["Response", "OrderList", "Order"]).Some?
    requires var order := PathTo(data, ["Response", "OrderList", "Order"]).value;
      order.Map? && !HasKey(order.entries, "StatusList")
    ensures GetSafeData(data) == Err(SoapFault(Raised(AttributeError)))
  {
    var response := Lookup(data.entries, "Response").value;
    var orderList := Lookup(response.entries, "OrderList").value;
    assert PathTo(data, ["Response", "OrderList", "Order"]) == PathTo(orderList, ["Order"]);
  }

  /** With a clear status, a DeliveryRate path that is absent or broken is the
      failure of the subscript chain wrapped as a SOAP Fault, never an empty
      result. */
  lemma MissingRatesFail(data: Node)
    requires PathTo(data, StatusPath).Some? && StatusClear(PathTo(data, StatusPath).value)
    requires PathTo(data, RatePath).None?
    ensures SubscriptPath(data, RatePath).Err?
    ensures SubscriptPath(data, RatePath).error.KeyError? || SubscriptPath(data, RatePath).error == TypeError
    ensures GetSafeData(data) == Err(SoapFault(Raised(SubscriptPath(data, RatePath).error)))
  {
    StatusLookupSpec(data);
    SubscriptPathFindsPath(data, RatePath);
    OrderListCheckNeverFires(data);
  }

  /** Every failure is a 500 "SOAP Fault" carrying the caught exception,
      except an AttributeError of the status lookup, which escapes unwrapped;
      when every value on the lookup chain is a dict, that cannot happen. */
  lemma FailureKinds(data: Node)
    requires GetSafeData(data).Err?
    ensures var e := GetSafeData(data).error;
      || (e == AttributeError && !GetChainSafe(data, ["Response", "OrderList", "Order"]))
      || (e.HttpException? && e.statusCode == 500 && e.detail.error == "SOAP Fault" && e.detail.message.Raised?)
    ensures GetChainSafe(data, ["Response", "OrderList", "Order"]) ==>
              GetSafeData(data).error == SoapFault(Raised(GetSafeData(data).error.detail.message.cause))
  {
    StatusLookupSpec(data);
  }
}
