/** What the request document built by createBody holds, read back from
    the tree. */
module BodyFacts {
  import opened Wrappers
  import opened Orders
  import opened Xml
  import Numbers
  import opened PonyExpress

  /** The fields of a Calculation request document, as the provider reads them. */
  datatype BodyFields = BodyFields(
    mode: string,
    fromCity: string, fromStreet: string,
    toCity: string, toStreet: string,
    length: int, width: int, height: int, weight: int)

  /** The integer written as the text of the child element `name`. */
  function ReadInt(x: Xml, name: string): Option<int> {
    var text :- TextOf(Child(x, name));
    Numbers.ParseInt(text)
  }

  /** The city and street of the `party` element's address. */
  function ReadAddress(service: Xml, party: string): Option<(string, string)> {
    var partyElement :- Child(service, party);
    var address :- Child(partyElement, "Address");
    ReadCityStreet(address)
  }

  function ReadCityStreet(address: Xml): Option<(string, string)> {
    var city :- TextOf(Child(address, "City"));
    var street :- TextOf(Child(address, "StreetAddress"));
    Some((city, street))
  }

  /** The one Service of the one Order of a Request root. */
  function ReadService(root: Xml): Option<Xml> {
    var orderList :- Child(root, "OrderList");
    var order :- Child(orderList, "Order");
    var serviceList :- Child(order, "ServiceList");
    Child(serviceList, "Service")
  }

  /** The one Cargo of a Service. */
  function ReadCargo(service: Xml): Option<Xml> {
    var cargoList :- Child(service, "CargoList");
    Child(cargoList, "Cargo")
  }

  /** Reads a request document; every step must reach exactly one element. */
  function ReadBody(doc: Document): Option<BodyFields> {
    var root := doc.root;
    if !(root.Element? && root.name == "Request") then None
    else
      var mode :- TextOf(Child(root, "Mode"));
      var service :- ReadService(root);
      var from :- ReadAddress(service, "Sender");
      var to :- ReadAddress(service, "Recipient");
      var cargo :- ReadCargo(service);
      var dimensions :- Child(cargo, "Dimentions");
      var length :- ReadInt(dimensions, "Length");
      var width :- ReadInt(dimensions, "Width");
      var height :- ReadInt(dimensions, "Height");
      var weight :- ReadInt(cargo, "Weight");
      Some(BodyFields(mode, from.0, from.1, to.0, to.1, length, width, height, weight))
  }

  lemma ReadServiceOf(params: OrderCalcRequest)
    ensures ReadService(CreateBody(params).root) == Some(ServiceElement(params))
  {
    var root := CreateBody(params).root;
    ChildAt(root, "OrderList", 1);
    OrderListOf(root.children[1], ServiceElement(params));
  }

  /** The OrderList createBody writes leads to its one Service. */
  lemma OrderListOf(orderList: Xml, service: Xml)
    requires service.Element? && service.name == "Service"
    requires orderList == Elem("OrderList", [Elem("Order", [Elem("ServiceList", [service])])])
    ensures Child(orderList, "Order").Some?
    ensures var order := Child(orderList, "Order").value;
      Child(order, "ServiceList").Some? && Child(Child(order, "ServiceList").value, "Service") == Some(service)
  {
    ChildAt(orderList, "Order", 0);
    var order := orderList.children[0];
    ChildAt(order, "ServiceList", 0);
    ChildAt(order.children[0], "Service", 0);
  }

  lemma ReadCityStreetOf(city: string, street: string)
    ensures ReadCityStreet(AddressElement(city, street)) == Some((city, street))
  {
    var address := AddressElement(city, street);
    ChildAt(address, "City", 0);
    ChildAt(address, "StreetAddress", 1);
  }

  lemma ReadAddressOf(params: OrderCalcRequest)
    ensures ReadAddress(ServiceElement(params), "Sender") == Some((params.fromLocation, PlaceholderStreet))
    ensures ReadAddress(ServiceElement(params), "Recipient") == Some((params.toLocation, PlaceholderStreet))
  {
    ReadSenderOf(params);
    ReadRecipientOf(params);
  }

  lemma ReadSenderOf(params: OrderCalcRequest)
    ensures ReadAddress(ServiceElement(params), "Sender") == Some((params.fromLocation, PlaceholderStreet))
  {
    var service := ServiceElement(params);
    ChildAt(service, "Sender", 0);
    ChildAt(service.children[0], "Address", 0);
    ReadCityStreetOf(params.fromLocation, PlaceholderStreet);
  }

  lemma ReadRecipientOf(params: OrderCalcRequest)
    ensures ReadAddress(ServiceElement(params), "Recipient") == Some((params.toLocation, PlaceholderStreet))
  {
    var service := ServiceElement(params);
    ChildAt(service, "Recipient", 1);
    ChildAt(service.children[1], "Address", 0);
    ReadCityStreetOf(params.toLocation, PlaceholderStreet);
  }

  lemma ReadCargoOf(params: OrderCalcRequest)
    ensures ReadCargo(ServiceElement(params)) == Some(CargoElement(params.packages))
  {
    var service := ServiceElement(params);
    ChildAt(service, "CargoList", 2);
    ChildAt(service.children[2], "Cargo", 0);
  }

  lemma ReadIntOf(x: Xml, name: string, i: nat, n: int)
    requires x.Element? && i < |x.children| && x.children[i] == Leaf(name, Numbers.IntToString(n))
    requires forall j :: 0 <= j < |x.children| && j != i ==> !(x.children[j].Element? && x.children[j].name == name)
    ensures ReadInt(x, name) == Some(n)
  {
    ChildAt(x, name, i);
    Numbers.IntToStringRoundTrip(n);
  }

  lemma ReadDimensionsOf(p: PackagesRequest)
    ensures ReadInt(DimensionsElement(p), "Length") == Some(p.length)
    ensures ReadInt(DimensionsElement(p), "Width") == Some(p.width)
    ensures ReadInt(DimensionsElement(p), "Height") == Some(p.height)
  {
    var dimensions := DimensionsElement(p);
    ReadIntOf(dimensions, "Length", 0, p.length);
    ReadIntOf(dimensions, "Width", 1, p.width);
    ReadIntOf(dimensions, "Height", 2, p.height);
  }

  lemma ReadWeightOf(p: PackagesRequest)
    ensures Child(CargoElement(p), "Dimentions") == Some(DimensionsElement(p))
    ensures ReadInt(CargoElement(p), "Weight") == Some(Numbers.Truncate(p.weight))
  {
    var cargo := CargoElement(p);
    ChildAt(cargo, "Dimentions", 0);
    ReadIntOf(cargo, "Weight", 1, Numbers.Truncate(p.weight));
  }

  /** The document reads back as a Calculation request from the origin city
      to the destination city, both at the placeholder street, with the
      package's dimensions and its weight truncated toward zero. */
  lemma CreateBodyReadBack(params: OrderCalcRequest)
    ensures ReadBody(CreateBody(params)) == Some(BodyFields(
              "Calculation",
              params.fromLocation, PlaceholderStreet,
              params.toLocation, PlaceholderStreet,
              params.packages.length, params.packages.width, params.packages.height,
              Numbers.Truncate(params.packages.weight)))
  {
    var root := CreateBody(params).root;
    ChildAt(root, "Mode", 0);
    assert TextOf(Child(root, "Mode")) == Some("Calculation");
    ReadServiceOf(params);
    ReadAddressOf(params);
    ReadCargoOf(params);
    ReadDimensionsOf(params.packages);
    ReadWeightOf(params.packages);
    var service := ServiceElement(params);
    var cargo := CargoElement(params.packages);
    assert ReadService(root) == Some(service);
    assert ReadCargo(service) == Some(cargo);
  }

  /** The request root: an XML 1.0 utf-8 document whose `Request` root
      has type OrderRequest and is in Calculation mode. */
  lemma RequestShape(params: OrderCalcRequest)
    ensures CreateBody(params).version == "1.0" && CreateBody(params).encoding == "utf-8"
    ensures CreateBody(params).root.Element? && CreateBody(params).root.name == "Request"
    ensures AttrValue(CreateBody(params).root.attrs, "xsi:type") == Some("OrderRequest")
    ensures TextOf(Child(CreateBody(params).root, "Mode")) == Some("Calculation")
  {
    var root := CreateBody(params).root;
    var attrs := root.attrs;
    assert attrs[0].name != "xsi:type" && attrs[1].name != "xsi:type";
    assert AttrValue(attrs, "xsi:type") == AttrValue(attrs[1..], "xsi:type") == AttrValue(attrs[2..], "xsi:type");
    ChildAt(root, "Mode", 0);
  }

  /** The service: of type DeliveryService, with a CargoList holding one
      Cargo and nothing else. */
  lemma ServiceShape(params: OrderCalcRequest)
    ensures AttrValue(ServiceElement(params).attrs, "xsi:type") == Some("DeliveryService")
    ensures Child(ServiceElement(params), "CargoList").Some?
    ensures Child(ServiceElement(params), "CargoList").value.children == [CargoElement(params.packages)]
    ensures CargoElement(params.packages).name == "Cargo"
  {
    var service := ServiceElement(params);
    ChildAt(service, "CargoList", 2);
  }

  /** The fixed shape: the request root holds exactly one Order with exactly
      one Service, the one ServiceShape describes. */
  lemma CreateBodyShape(params: OrderCalcRequest)
    ensures CreateBody(params).root.Element? && CreateBody(params).root.name == "Request"
    ensures AttrValue(CreateBody(params).root.attrs, "xsi:type") == Some("OrderRequest")
    ensures ReadService(CreateBody(params).root) == Some(ServiceElement(params))
    ensures AttrValue(ServiceElement(params).attrs, "xsi:type") == Some("DeliveryService")
    ensures Child(ServiceElement(params), "CargoList").Some?
    ensures Child(ServiceElement(params), "CargoList").value.children == [CargoElement(params.packages)]
  {
    RequestShape(params);
    ReadServiceOf(params);
    ServiceShape(params);
  }

  /** Two requests give the same document exactly when they agree on both
      cities, the three dimensions and the truncated weight. */
  lemma CreateBodyInjective(a: OrderCalcRequest, b: OrderCalcRequest)
    ensures CreateBody(a) == CreateBody(b) <==>
              && a.fromLocation == b.fromLocation && a.toLocation == b.toLocation
              && a.packages.length == b.packages.length
              && a.packages.width == b.packages.width
              && a.packages.height == b.packages.height
              && Numbers.Truncate(a.packages.weight) == Numbers.Truncate(b.packages.weight)
  {
    if CreateBody(a) == CreateBody(b) {
      CreateBodyReadBack(a);
      CreateBodyReadBack(b);
    }
  }
}
