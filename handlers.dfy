/**
 * The four POST handlers as methods over the store and the SMS gateway. Each
 * validates its input before touching storage, performs its statements, and
 * only then sends its SMS; a failed send never changes the response.
 *
 * As written, the Python handlers answer a validation failure with 500: the
 * `finally` block reads `connection` before it is assigned (see module
 * `AsWritten`). These methods return the intended 400 response.
 */
module Handlers {

  import Phone
  import opened Storage
  import opened Messages
  import opened Notification
  import opened Api

  /** POST /subscribe. The SELECT and the following INSERT are not atomic:
      two concurrent first subscriptions of one phone can both take the
      INSERT branch, and the second then fails on the UNIQUE key. Sequential
      requests, as modelled here, always find the INSERT admissible. */
  method Subscribe(store: Store, gateway: Gateway, phone: Field<string>, area: Field<string>, db: Db)
    returns (resp: Response)
    modifies store, gateway
    ensures var o := SubscribeSpec(old(store.subscribers), phone, area, db);
      resp == o.resp && store.subscribers == o.state && Dispatched(old(gateway.outbox), gateway.outbox, o.notify)
    ensures store.emergencies == old(store.emergencies) && store.resources == old(store.resources)
  {
    var number := Get(phone);
    if !Truthy(number) {
      return BadRequest(PhoneRequired);
    }
    if db.Down? {
      return ServerError(ConnectionFailed);
    }
    if db.Faulty? {
      // A failed statement or commit: nothing is committed.
      return ServerError(SubscribeFailed);
    }
    var p, a := number.value, GetOr(area, DefaultArea);
    var existing := store.FindSubscriber(p);
    var reply;
    if existing {
      store.UpdateSubscriber(p, a);
      reply := Reactivated;
    } else {
      var inserted := store.InsertSubscriber(p, a);
      assert inserted;
      reply := SubscribedNew;
    }
    var _ := gateway.Send(p, SubscribeSms(reply, a));
    resp := Ok(reply);
  }

  /** POST /emergency-request. */
  method EmergencyRequest(store: Store, gateway: Gateway, phone: Field<string>, category: Field<string>,
                          area: Field<string>, message: Field<string>, db: Db)
    returns (resp: Response)
    modifies store, gateway
    ensures var o := EmergencySpec(old(store.emergencies), phone, category, area, message, db);
      resp == o.resp && store.emergencies == o.state && Dispatched(old(gateway.outbox), gateway.outbox, o.notify)
    ensures store.subscribers == old(store.subscribers) && store.resources == old(store.resources)
  {
    if !EmergencyFieldsPresent(phone, category, area) {
      return BadRequest(FieldsMissing);
    }
    if db.Down? {
      return ServerError(ConnectionFailed);
    }
    if db.Faulty? {
      return ServerError(SubmitFailed);
    }
    store.InsertEmergency(EmergencyRow(phone.value, category.value, area.value, GetOr(message, ""), Pending));
    var _ := gateway.Send(phone.value, EmergencySms(category.value, area.value));
    resp := Ok(EmergencySubmitted);
  }

  /** POST /resource-request. */
  method ResourceRequest(store: Store, gateway: Gateway, resource: Field<string>, quantity: Field<int>,
                         area: Field<string>, phone: Field<string>, db: Db)
    returns (resp: Response)
    modifies store, gateway
    ensures var o := ResourceSpec(old(store.resources), resource, quantity, area, phone, db);
      resp == o.resp && store.resources == o.state && Dispatched(old(gateway.outbox), gateway.outbox, o.notify)
    ensures store.subscribers == old(store.subscribers) && store.emergencies == old(store.emergencies)
  {
    if !ResourceFieldsPresent(resource, quantity, area) {
      return BadRequest(FieldsMissing);
    }
    if db.Down? {
      return ServerError(ConnectionFailed);
    }
    if db.Faulty? {
      return ServerError(SubmitFailed);
    }
    store.InsertResource(ResourceRow(resource.value, quantity.value, area.value, Get(phone), Pending));
    if Truthy(Get(phone)) {
      var _ := gateway.Send(phone.value, ResourceSms(quantity.value, resource.value, area.value));
    }
    resp := Ok(ResourceSubmitted);
  }

  /** POST /broadcast-alert. `rows` is the listing the query returned; the
      alert goes to each listed phone in turn, and the reply counts the
      sends the gateway accepted. No table changes. */
  method BroadcastAlert(store: Store, gateway: Gateway, message: Field<string>, area: Field<string>, db: Db)
    returns (resp: Response, ghost rows: seq<string>)
    modifies gateway
    ensures BroadcastGuard(message, db).Some? ==>
      resp == BroadcastGuard(message, db).value && gateway.outbox == old(gateway.outbox) && rows == []
    ensures BroadcastGuard(message, db).None? ==>
      && Distinct(rows)
      && (forall p :: p in rows <==> p in Recipients(store.subscribers, AreaFilter(area)))
      && Dispatched(old(gateway.outbox), gateway.outbox, Alerts(rows, message.value))
    ensures BroadcastGuard(message, db).None? ==>
      var sent := gateway.outbox[|old(gateway.outbox)|..];
      && resp == Ok(AlertSummary(Delivered(sent)))
      && Delivered(sent) <= |Recipients(store.subscribers, AreaFilter(area))|
  {
    rows := [];
    var guard := BroadcastGuard(message, db);
    if guard.Some? {
      return guard.value, rows;
    }
    var phones := store.SelectActive(AreaFilter(area));
    rows := phones;
    ghost var before := gateway.outbox;
    var text := AlertSms(message.value);
    var count := 0;
    for i := 0 to |phones|
      invariant |gateway.outbox| == |before| + i
      invariant gateway.outbox[..|before|] == before
      invariant forall k :: 0 <= k < i ==>
        gateway.outbox[|before| + k].to == Phone.Normalise(phones[k]) && gateway.outbox[|before| + k].body == text
      invariant count == Delivered(gateway.outbox[|before|..])
    {
      ghost var sentSoFar := gateway.outbox[|before|..];
      var ok := gateway.Send(phones[i], text);
      assert gateway.outbox[|before|..] == sentSoFar + [gateway.outbox[|gateway.outbox| - 1]];
      DeliveredAppend(sentSoFar, gateway.outbox[|gateway.outbox| - 1]);
      if ok {
        count := count + 1;
      }
    }
    resp := Ok(AlertSummary(count));
  }
}
