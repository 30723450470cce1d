/** Properties of the offer normaliser and of the whole get_calc_tariff
    pipeline. */
module TariffFacts {
  import opened Wrappers
  import opened Orders
  import opened PyData
  import opened Xml
  import opened PonyExpress
  import SafeDataFacts
  import Numbers

  /** Two records that agree on every field except the two timestamps. */
  predicate SameButDates(a: OrderCalcResponse, b: OrderCalcResponse) {
    a.(pickupDay := b.pickupDay, deliveryDay := b.deliveryDay) == b
  }

  /** MinTerm is present as text that int() accepts. */
  predicate MinTermReadable(offer: Node) {
    FieldText(offer, "MinTerm").Some? && Numbers.ParseInt(FieldText(offer, "MinTerm").value).Some?
  }

  /** Sum is present as text that float() accepts. */
  predicate SumReadable(offer: Node) {
    FieldText(offer, "Sum").Some? && Numbers.ParseFloat(FieldText(offer, "Sum").value).Some?
  }

  /** The exception apiResponse raises is decided by the first field, in the
      order MinTerm, Sum, Description, DeliveryMethod, that is missing or of
      the wrong kind: a missing key is a KeyError, a value int() or float()
      cannot take is a TypeError, text that is not a numeral a ValueError,
      and a Description or DeliveryMethod the schema refuses a ValidationError. */
  lemma ApiResponseFirstFailure(offer: Node, now: int)
    ensures !offer.Map? ==> ApiResponse(offer, now) == Err(TypeError)
    ensures offer.Map? && !HasKey(offer.entries, "MinTerm") ==> ApiResponse(offer, now) == Err(KeyError("MinTerm"))
    ensures offer.Map? && HasKey(offer.entries, "MinTerm") && FieldText(offer, "MinTerm").None? ==>
              ApiResponse(offer, now) == Err(TypeError)
    ensures FieldText(offer, "MinTerm").Some? && Numbers.ParseInt(FieldText(offer, "MinTerm").value).None? ==>
              ApiResponse(offer, now) == Err(ValueError)
    ensures MinTermReadable(offer) && !HasKey(offer.entries, "Sum") ==> ApiResponse(offer, now) == Err(KeyError("Sum"))
    ensures MinTermReadable(offer) && HasKey(offer.entries, "Sum") && FieldText(offer, "Sum").None? ==>
              ApiResponse(offer, now) == Err(TypeError)
    ensures MinTermReadable(offer) && FieldText(offer, "Sum").Some? && Numbers.ParseFloat(FieldText(offer, "Sum").value).None? ==>
              ApiResponse(offer, now) == Err(ValueError)
    ensures MinTermReadable(offer) && SumReadable(offer) && !HasKey(offer.entries, "Description") ==>
              ApiResponse(offer, now) == Err(KeyError("Description"))
    ensures MinTermReadable(offer) && SumReadable(offer) && HasKey(offer.entries, "Description")
            && !HasKey(offer.entries, "DeliveryMethod") ==>
              ApiResponse(offer, now) == Err(KeyError("DeliveryMethod"))
    ensures MinTermReadable(offer) && SumReadable(offer)
            && HasKey(offer.entries, "Description") && HasKey(offer.entries, "DeliveryMethod")
            && (FieldText(offer, "Description").None?
                || (FieldText(offer, "DeliveryMethod").None? && Lookup(offer.entries, "DeliveryMethod") != Some(Null))) ==>
              ApiResponse(offer, now) == Err(ValidationError)
  {
  }

  /** The clock reading only moves the two timestamps of an offer: whether it
      converts, the exception it raises, and every other field do not depend
      on it. */
  lemma ApiResponseClockFree(offer: Node, now1: int, now2: int)
    ensures ApiResponse(offer, now1).Ok? <==> ApiResponse(offer, now2).Ok?
    ensures ApiResponse(offer, now1).Err? ==> ApiResponse(offer, now1) == ApiResponse(offer, now2)
    ensures ApiResponse(offer, now1).Ok? ==> SameButDates(ApiResponse(offer, now1).value, ApiResponse(offer, now2).value)
  {
  }

  /** The same for a list of offers: the clock readings change nothing but
      the timestamps, so repeated calls on the same reply agree on prices and
      durations. */
  lemma {:induction false} ClockOnlyMovesDates(items: seq<Node>, nows1: seq<int>, nows2: seq<int>)
    requires |nows1| == |items| && |nows2| == |items|
    ensures Comprehension(ApiResponse, items, nows1).Ok? <==> Comprehension(ApiResponse, items, nows2).Ok?
    ensures Comprehension(ApiResponse, items, nows1).Err? ==> Comprehension(ApiResponse, items, nows1) == Comprehension(ApiResponse, items, nows2)
    ensures Comprehension(ApiResponse, items, nows1).Ok? ==>
              forall i :: 0 <= i < |items| ==>
                SameButDates(Comprehension(ApiResponse, items, nows1).value[i], Comprehension(ApiResponse, items, nows2).value[i])
  {
    if items != [] {
      ApiResponseClockFree(items[0], nows1[0], nows2[0]);
      ClockOnlyMovesDates(items[1..], nows1[1..], nows2[1..]);
      if Comprehension(ApiResponse, items, nows1).Ok? {
        var r1 := Comprehension(ApiResponse, items, nows1).value;
        var r2 := Comprehension(ApiResponse, items, nows2).value;
        assert r1 == [ApiResponse(items[0], nows1[0]).value] + Comprehension(ApiResponse, items[1..], nows1[1..]).value;
        assert r2 == [ApiResponse(items[0], nows2[0]).value] + Comprehension(ApiResponse, items[1..], nows2[1..]).value;
      }
    }
  }

  /** Only the reply to createBody's document matters: two SOAP services
      that answer that request alike give the same result. */
  lemma TariffDependsOnlyOnReply(body: OrderCalcRequest, accessKey: string,
                                 submit1: (string, Document) -> Reply, submit2: (string, Document) -> Reply,
                                 clock: nat -> int)
    requires submit1(accessKey, CreateBody(body)) == submit2(accessKey, CreateBody(body))
    ensures GetCalcTariff(body, accessKey, submit1, clock) == GetCalcTariff(body, accessKey, submit2, clock)
  {
  }

  /** A reply with N well-formed offers gives exactly N records, in the
      provider's order, each from PONY_EXPRESS with no rating, the offer's
      truncated Sum as its price and MinTerm days between pickup and delivery. */
  lemma TariffOneEntryPerOffer(body: OrderCalcRequest, accessKey: string, submitRequest: (string, Document) -> Reply,
                               clock: nat -> int, items: seq<Node>)
    requires submitRequest(accessKey, CreateBody(body)).Parsed?
    requires GetSafeData(submitRequest(accessKey, CreateBody(body)).data) == Ok(SafeData(None, List(items)))
    requires forall i :: 0 <= i < |items| ==> ApiResponse(items[i], clock(i)).Ok?
    ensures GetCalcTariff(body, accessKey, submitRequest, clock).Ok?
    ensures GetCalcTariff(body, accessKey, submitRequest, clock).value.Some?
    ensures var rs := GetCalcTariff(body, accessKey, submitRequest, clock).value.value;
      && |rs| == |items|
      && forall i :: 0 <= i < |items| ==>
           && rs[i] == ApiResponse(items[i], clock(i)).value
           && rs[i].courierService == "PONY_EXPRESS"
           && rs[i].courierServiceRating == None
           && rs[i].price == Numbers.Truncate(Numbers.ParseFloat(FieldText(items[i], "Sum").value).value)
           && rs[i].deliveryDay.utcMicros - rs[i].pickupDay.utcMicros == rs[i].deliveryTimeInDay * MicrosPerDay
  {
    var data := submitRequest(accessKey, CreateBody(body)).data;
    assert Iterate(List(items)) == Ok(items);
    var nows := Readings(clock, |items|);
    assert forall i :: 0 <= i < |items| ==> ApiResponse(items[i], nows[i]) == ApiResponse(items[i], clock(i));
    var c := Comprehension(ApiResponse, items, nows);
    assert c.Ok?;
    assert ParsedOffers(Iterate, data, clock) == c;
    assert GetCalcTariff(body, accessKey, submitRequest, clock) == Ok(Some(c.value));
    forall i | 0 <= i < |items|
      ensures c.value[i] == ApiResponse(items[i], clock(i)).value
      ensures c.value[i].deliveryDay.utcMicros - c.value[i].pickupDay.utcMicros == c.value[i].deliveryTimeInDay * MicrosPerDay
    {
    }
  }

  /** Two clocks give the same outcome of get_calc_tariff except for the
      timestamps: the same None, the same exception, or the same number of
      records agreeing on every other field. */
  lemma TariffClockOnlyMovesDates(body: OrderCalcRequest, accessKey: string, submitRequest: (string, Document) -> Reply,
                                  clock1: nat -> int, clock2: nat -> int)
    ensures GetCalcTariff(body, accessKey, submitRequest, clock1).Ok? <==> GetCalcTariff(body, accessKey, submitRequest, clock2).Ok?
    ensures GetCalcTariff(body, accessKey, submitRequest, clock1).Err? ==>
              GetCalcTariff(body, accessKey, submitRequest, clock1) == GetCalcTariff(body, accessKey, submitRequest, clock2)
    ensures GetCalcTariff(body, accessKey, submitRequest, clock1) == Ok(None) <==>
              GetCalcTariff(body, accessKey, submitRequest, clock2) == Ok(None)
    ensures var r1 := GetCalcTariff(body, accessKey, submitRequest, clock1);
            var r2 := GetCalcTariff(body, accessKey, submitRequest, clock2);
      r1.Ok? && r1.value.Some? ==>
        && r2.Ok? && r2.value.Some? && |r1.value.value| == |r2.value.value|
        && forall i :: 0 <= i < |r1.value.value| ==> SameButDates(r1.value.value[i], r2.value.value[i])
  {
    var reply := submitRequest(accessKey, CreateBody(body));
    if reply.Parsed? && GetSafeData(reply.data).Ok? && Iterate(GetSafeData(reply.data).value.data).Ok? {
      var items := Iterate(GetSafeData(reply.data).value.data).value;
      var nows1 := Readings(clock1, |items|);
      var nows2 := Readings(clock2, |items|);
      ClockOnlyMovesDates(items, nows1, nows2);
      var c1 := Comprehension(ApiResponse, items, nows1);
      var c2 := Comprehension(ApiResponse, items, nows2);
      assert ParsedOffers(Iterate, reply.data, clock1) == c1;
      assert ParsedOffers(Iterate, reply.data, clock2) == c2;
    }
  }

  /** A reply whose status carries an error marker ends the call with the
      500 "SOAP Fault", whatever offers it also holds. */
  lemma TariffProviderError(body: OrderCalcRequest, accessKey: string, submitRequest: (string, Document) -> Reply,
                            clock: nat -> int, data: Node)
    requires submitRequest(accessKey, CreateBody(body)) == Parsed(data)
    requires SafeDataFacts.PathTo(data, StatusPath).Some?
    requires var status := SafeDataFacts.PathTo(data, StatusPath).value;
      status.Map? && Contains(Get(status, "OrderStatus", EmptyMap).value, "ErrorCode") == Ok(true)
    ensures GetCalcTariff(body, accessKey, submitRequest, clock).Err?
    ensures var e := GetCalcTariff(body, accessKey, submitRequest, clock).error;
      e.HttpException? && e.statusCode == 500 && e.detail.error == "SOAP Fault"
  {
    SafeDataFacts.ErrorMarkerFails(data);
  }

  /** A reply with a single offer makes get_calc_tariff raise TypeError:
      xmltodict gives the lone DeliveryRate as a dict, the comprehension walks
      its keys, and the first key, a str, cannot be subscripted by "MinTerm". */
  lemma SingleOfferFailsAsWritten(body: OrderCalcRequest, accessKey: string, submitRequest: (string, Document) -> Reply,
                                  clock: nat -> int, entries: seq<(string, Node)>)
    requires submitRequest(accessKey, CreateBody(body)).Parsed?
    requires GetSafeData(submitRequest(accessKey, CreateBody(body)).data) == Ok(SafeData(None, Map(entries)))
    requires |entries| > 0
    ensures GetCalcTariff(body, accessKey, submitRequest, clock) == Err(TypeError)
  {
    var data := submitRequest(accessKey, CreateBody(body)).data;
    var items := Iterate(Map(entries)).value;
    var nows := Readings(clock, |items|);
    assert items[0] == Text(entries[0].0);
    assert ApiResponse(items[0], nows[0]) == Err(TypeError);
    assert Comprehension(ApiResponse, items, nows) == Err(TypeError);
    assert ParsedOffers(Iterate, data, clock) == Err(TypeError);
  }

  /** The corrected iteration keeps a single offer as a one-element list, so
      a reply with one well-formed offer gives one record. */
  lemma SingleOfferKept(body: OrderCalcRequest, accessKey: string, submitRequest: (string, Document) -> Reply,
                        clock: nat -> int, offer: Node)
    requires submitRequest(accessKey, CreateBody(body)).Parsed?
    requires GetSafeData(submitRequest(accessKey, CreateBody(body)).data) == Ok(SafeData(None, offer))
    requires offer.Map? && ApiResponse(offer, clock(0)).Ok?
    ensures GetCalcTariffCorrected(body, accessKey, submitRequest, clock) == Ok(Some([ApiResponse(offer, clock(0)).value]))
  {
    var data := submitRequest(accessKey, CreateBody(body)).data;
    var nows := Readings(clock, 1);
    var r := Comprehension(ApiResponse, [offer], nows);
    assert r.Ok? && |r.value| == 1 && r.value[0] == ApiResponse(offer, clock(0)).value;
    assert r.value == [ApiResponse(offer, clock(0)).value];
    assert ParsedOffers(OfferItems, data, clock) == r;
  }

  /** The correction changes get_calc_tariff only on replies whose
      DeliveryRate is a single dict offer: on every other reply the two
      pipelines agree. */
  lemma CorrectionOnlyForSingleOffer(body: OrderCalcRequest, accessKey: string, submitRequest: (string, Document) -> Reply,
                                     clock: nat -> int)
    ensures GetCalcTariff(body, accessKey, submitRequest, clock) != GetCalcTariffCorrected(body, accessKey, submitRequest, clock) ==>
              var reply := submitRequest(accessKey, CreateBody(body));
              reply.Parsed? && GetSafeData(reply.data).Ok? && GetSafeData(reply.data).value.data.Map?
  {
    var reply := submitRequest(accessKey, CreateBody(body));
    if reply.Parsed? && GetSafeData(reply.data).Ok? && !GetSafeData(reply.data).value.data.Map? {
      var rates := GetSafeData(reply.data).value.data;
      assert OfferItems(rates) == Iterate(rates);
      assert ParsedOffers(Iterate, reply.data, clock) == ParsedOffers(OfferItems, reply.data, clock);
    }
  }

  /** The two numerals of the example offer: "5" parses to 5, and "123.99"
      parses and truncates to 123. */
  lemma ExampleNumbers()
    ensures Numbers.ParseInt("5") == Some(5)
    ensures Numbers.ParseFloat("123.99").Some? && Numbers.Truncate(Numbers.ParseFloat("123.99").value) == 123
  {
    ExampleMinTerm();
    ExampleSum();
  }

  lemma ExampleMinTerm()
    ensures Numbers.ParseInt("5") == Some(5)
  {
    assert Numbers.DigitsValue("5") == 5 by {
      assert "5"[..0] == [];
    }
  }

  lemma ExampleSum()
    ensures Numbers.ParseFloat("123.99").Some? && Numbers.Truncate(Numbers.ParseFloat("123.99").value) == 123
  {
    var n := Numbers.Numeral(false, "123", "99");
    ExampleNumeral();
    assert Numbers.ParseFloat("123.99") == Some(Numbers.NumeralValue(n));
    ExampleWhole();
    Numbers.TruncateNumeral(n);
  }

  lemma ExampleWhole()
    ensures Numbers.DigitsValue("123") == 123
  {
    assert "123"[..2] == "12" && "12"[..1] == "1" && "1"[..0] == [];
  }

  lemma ExampleNumeral()
    ensures Numbers.ParseNumeral("123.99") == Some(Numbers.Numeral(false, "123", "99"))
  {
    ExampleSplit();
    assert Numbers.SplitSign("123.99") == ("123.99", false);
  }

  lemma ExampleSplit()
    ensures Numbers.SplitAtDot("123.99") == ("123", Some("99"))
  {
    assert ".99"[0] == '.' && ".99"[1..] == "99";
    assert Numbers.SplitAtDot(".99") == ([], Some("99"));
    assert "3.99"[0] == '3' && "3.99"[1..] == ".99";
    assert Numbers.SplitAtDot("3.99") == (['3'] + [], Some("99"));
    assert ['3'] + [] == "3";
    assert "23.99"[0] == '2' && "23.99"[1..] == "3.99";
    assert Numbers.SplitAtDot("23.99") == (['2'] + "3", Some("99"));
    assert ['2'] + "3" == "23";
    assert "123.99"[0] == '1' && "123.99"[1..] == "23.99";
    assert Numbers.SplitAtDot("123.99") == (['1'] + "23", Some("99"));
    assert ['1'] + "23" == "123";
  }

  /** An offer with MinTerm "5" and Sum "123.99" is priced 123 and delivered
      exactly five days after pickup. */
  lemma FiveDayOffer(now: int)
    ensures var offer := Map([("MinTerm", Text("5")), ("Sum", Text("123.99")),
                              ("Description", Text("Express")), ("DeliveryMethod", Text("Door to door"))]);
      ApiResponse(offer, now)
        == Ok(OrderCalcResponse("PONY_EXPRESS", None, 123, 5,
                                DateTime(now, 10800), DateTime(now + 5 * 86400000000, 10800),
                                "Express", Some("Door to door")))
  {
    var offer := Map([("MinTerm", Text("5")), ("Sum", Text("123.99")),
                      ("Description", Text("Express")), ("DeliveryMethod", Text("Door to door"))]);
    ExampleNumbers();
    OfferFields(offer);
    var r := ApiResponse(offer, now);
    assert r.Ok?;
    var resp := r.value;
    assert resp.deliveryTimeInDay == 5;
    assert resp.price == 123;
    assert resp.deliveryDay == DateTime(now + 5 * 86400000000, 10800);
  }

  /** The four fields of the example offer, as apiResponse reads them. */
  lemma OfferFields(offer: Node)
    requires offer == Map([("MinTerm", Text("5")), ("Sum", Text("123.99")),
                           ("Description", Text("Express")), ("DeliveryMethod", Text("Door to door"))])
    ensures FieldText(offer, "MinTerm") == Some("5")
    ensures FieldText(offer, "Sum") == Some("123.99")
    ensures FieldText(offer, "Description") == Some("Express")
    ensures FieldText(offer, "DeliveryMethod") == Some("Door to door")
  {
  }
}
