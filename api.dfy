/**
 * The request handlers' decisions, as values: how a JSON field is read, which
 * response is given, and, for each handler, what it does to its table and
 * which SMS it asks for. The methods in `Handlers` are proved against these.
 */
module Api {

  import opened Wrappers
  import opened Storage
  import opened Messages
  import Notification

  /** A field of the JSON body: missing, `null`, or given. */
  datatype Field<T> = Absent | Null | Present(value: T)

  /** `data.get(key)`. */
  function Get<T>(f: Field<T>): (o: Option<T>)
    ensures o.Some? <==> f.Present?
    ensures f.Present? ==> o == Some(f.value)
  {
    if f.Present? then Some(f.value) else None
  }

  /** `data.get(key, default)`: the default replaces a missing key only. */
  function GetOr<T>(f: Field<T>, default: T): (o: Option<T>)
    ensures f.Absent? ==> o == Some(default)
    ensures f.Null? ==> o == None
    ensures f.Present? ==> o == Some(f.value)
  {
    match f
    case Absent => Some(default)
    case Null => None
    case Present(v) => Some(v)
  }

  /** Python truthiness of a string value: present and non-empty. */
  predicate Truthy(o: Option<string>) {
    o.Some? && o.value != ""
  }

  /** Python truthiness of an integer value: present and non-zero. */
  predicate TruthyInt(o: Option<int>) {
    o.Some? && o.value != 0
  }

  /** What opening a connection and running the handler's statements gives:
      no connection, a statement or commit raising a database error, or success. */
  datatype Db = Down | Faulty | Up

  datatype Response = Ok(message: string) | BadRequest(error: string) | ServerError(error: string)

  /** The status code each response is meant to carry. */
  function HttpStatus(r: Response): (code: int)
    ensures code == 200 <==> r.Ok?
    ensures code == 400 <==> r.BadRequest?
    ensures code == 500 <==> r.ServerError?
  {
    match r
    case Ok(_) => 200
    case BadRequest(_) => 400
    case ServerError(_) => 500
  }

  const PhoneRequired: string := "Phone number is required"
  const FieldsMissing: string := "Missing required fields"
  const MessageRequired: string := "Message is required"
  const ConnectionFailed: string := "Database connection failed"
  const SubscribeFailed: string := "Failed to subscribe"
  const SubmitFailed: string := "Failed to submit request"
  const BroadcastFailed: string := "Failed to broadcast alert"
  const EmergencySubmitted: string := "Emergency request submitted successfully"
  const ResourceSubmitted: string := "Resource request submitted successfully"
  const DefaultArea: string := "Not specified"

  /** What a handler does: its response, the new contents of its table, and
      the SMS it sends, in order. */
  datatype Outcome<S> = Outcome(resp: Response, state: S, notify: seq<Notification.Message>)

  /** The subscribe handler. */
  function SubscribeSpec(subs: map<string, Subscriber>, phone: Field<string>, area: Field<string>, db: Db)
    : (o: Outcome<map<string, Subscriber>>)
    ensures o.resp.BadRequest? <==> !Truthy(Get(phone))
    ensures o.resp.BadRequest? ==> o.resp.error == PhoneRequired
    ensures Truthy(Get(phone)) && db.Down? ==> o.resp == ServerError(ConnectionFailed)
    ensures Truthy(Get(phone)) && db.Faulty? ==> o.resp == ServerError(SubscribeFailed)
    ensures o.resp.Ok? <==> Truthy(Get(phone)) && db.Up?
    ensures !o.resp.Ok? ==> o.state == subs && o.notify == []
    ensures o.resp.Ok? ==>
      var p, a := phone.value, GetOr(area, DefaultArea);
      && o.state.Keys == subs.Keys + {p}
      && o.state[p] == Subscriber(a, true)
      && (forall q :: q in subs && q != p ==> o.state[q] == subs[q])
      && (o.resp.message == Reactivated <==> p in subs)
      && (o.resp.message == SubscribedNew <==> p !in subs)
      && o.notify == [Notification.Message(p, SubscribeSms(o.resp.message, a))]
  {
    if !Truthy(Get(phone)) then Outcome(BadRequest(PhoneRequired), subs, [])
    else if db.Down? then Outcome(ServerError(ConnectionFailed), subs, [])
    else if db.Faulty? then Outcome(ServerError(SubscribeFailed), subs, [])
    else
      var p, a := phone.value, GetOr(area, DefaultArea);
      var reply := SubscribeReply(p in subs);
      Outcome(Ok(reply), subs[p := Subscriber(a, true)], [Notification.Message(p, SubscribeSms(reply, a))])
  }

  /** Subscribing the same phone and area again leaves the same table, and
      the second reply is the reactivation notice. */
  lemma SubscribeIdempotent(subs: map<string, Subscriber>, phone: Field<string>, area: Field<string>)
    requires Truthy(Get(phone))
    ensures var once := SubscribeSpec(subs, phone, area, Up).state;
      var twice := SubscribeSpec(once, phone, area, Up);
      twice.state == once && twice.resp == Ok(Reactivated)
  {
  }

  /** Subscribing one phone twice with different areas keeps one entry, with
      the later area, active. */
  lemma ResubscribeMovesArea(subs: map<string, Subscriber>, p: string, a1: string, a2: string)
    requires p != ""
    ensures var once := SubscribeSpec(subs, Present(p), Present(a1), Up).state;
      var twice := SubscribeSpec(once, Present(p), Present(a2), Up).state;
      twice.Keys == subs.Keys + {p} && twice[p] == Subscriber(Some(a2), true)
  {
  }

  /** An explicit `null` area is stored as NULL, not as the default. */
  lemma NullAreaIsNotDefaulted(subs: map<string, Subscriber>, p: string)
    requires p != ""
    ensures SubscribeSpec(subs, Present(p), Null, Up).state[p].area == None
    ensures SubscribeSpec(subs, Present(p), Absent, Up).state[p].area == Some(DefaultArea)
  {
  }

  /** Emergency rows as the handler writes them. */
  predicate ValidEmergency(r: EmergencyRow) {
    r.phone != "" && r.category != "" && r.area != "" && r.status == Pending
  }

  /** Resource rows as the handler writes them. */
  predicate ValidResource(r: ResourceRow) {
    r.resource != "" && r.quantity != 0 && r.area != "" && r.status == Pending
  }

  predicate EmergencyFieldsPresent(phone: Field<string>, category: Field<string>, area: Field<string>) {
    Truthy(Get(phone)) && Truthy(Get(category)) && Truthy(Get(area))
  }

  /** The emergency-request handler. */
  function EmergencySpec(rows: seq<EmergencyRow>, phone: Field<string>, category: Field<string>,
                         area: Field<string>, message: Field<string>, db: Db)
    : (o: Outcome<seq<EmergencyRow>>)
    ensures o.resp.BadRequest? <==> !EmergencyFieldsPresent(phone, category, area)
    ensures o.resp.BadRequest? ==> o.resp.error == FieldsMissing
    ensures EmergencyFieldsPresent(phone, category, area) && db.Down? ==> o.resp == ServerError(ConnectionFailed)
    ensures EmergencyFieldsPresent(phone, category, area) && db.Faulty? ==> o.resp == ServerError(SubmitFailed)
    ensures o.resp.Ok? <==> EmergencyFieldsPresent(phone, category, area) && db.Up?
    ensures !o.resp.Ok? ==> o.state == rows && o.notify == []
    ensures o.resp.Ok? ==>
      && o.resp.message == EmergencySubmitted
      && |o.state| == |rows| + 1 && o.state[..|rows|] == rows
      && o.state[|rows|] == EmergencyRow(phone.value, category.value, area.value, GetOr(message, ""), Pending)
      && o.notify == [Notification.Message(phone.value, EmergencySms(category.value, area.value))]
    ensures (forall i :: 0 <= i < |rows| ==> ValidEmergency(rows[i])) ==>
      forall i :: 0 <= i < |o.state| ==> ValidEmergency(o.state[i])
  {
    if !EmergencyFieldsPresent(phone, category, area) then Outcome(BadRequest(FieldsMissing), rows, [])
    else if db.Down? then Outcome(ServerError(ConnectionFailed), rows, [])
    else if db.Faulty? then Outcome(ServerError(SubmitFailed), rows, [])
    else
      var row := EmergencyRow(phone.value, category.value, area.value, GetOr(message, ""), Pending);
      Outcome(Ok(EmergencySubmitted), rows + [row],
              [Notification.Message(phone.value, EmergencySms(category.value, area.value))])
  }

  predicate ResourceFieldsPresent(resource: Field<string>, quantity: Field<int>, area: Field<string>) {
    Truthy(Get(resource)) && TruthyInt(Get(quantity)) && Truthy(Get(area))
  }

  /** The resource-request handler. */
  function ResourceSpec(rows: seq<ResourceRow>, resource: Field<string>, quantity: Field<int>,
                        area: Field<string>, phone: Field<string>, db: Db)
    : (o: Outcome<seq<ResourceRow>>)
    ensures o.resp.BadRequest? <==> !ResourceFieldsPresent(resource, quantity, area)
    ensures o.resp.BadRequest? ==> o.resp.error == FieldsMissing
    ensures ResourceFieldsPresent(resource, quantity, area) && db.Down? ==> o.resp == ServerError(ConnectionFailed)
    ensures ResourceFieldsPresent(resource, quantity, area) && db.Faulty? ==> o.resp == ServerError(SubmitFailed)
    ensures o.resp.Ok? <==> ResourceFieldsPresent(resource, quantity, area) && db.Up?
    ensures !o.resp.Ok? ==> o.state == rows && o.notify == []
    ensures o.resp.Ok? ==>
      && o.resp.message == ResourceSubmitted
      && |o.state| == |rows| + 1 && o.state[..|rows|] == rows
      && o.state[|rows|] == ResourceRow(resource.value, quantity.value, area.value, Get(phone), Pending)
    ensures o.resp.Ok? ==> (o.notify != [] <==> Truthy(Get(phone)))
    ensures o.notify != [] ==>
      o.notify == [Notification.Message(phone.value, ResourceSms(quantity.value, resource.value, area.value))]
    ensures (forall i :: 0 <= i < |rows| ==> ValidResource(rows[i])) ==>
      forall i :: 0 <= i < |o.state| ==> ValidResource(o.state[i])
  {
    if !ResourceFieldsPresent(resource, quantity, area) then Outcome(BadRequest(FieldsMissing), rows, [])
    else if db.Down? then Outcome(ServerError(ConnectionFailed), rows, [])
    else if db.Faulty? then Outcome(ServerError(SubmitFailed), rows, [])
    else
      var row := ResourceRow(resource.value, quantity.value, area.value, Get(phone), Pending);
      var sms := if Truthy(Get(phone))
        then [Notification.Message(phone.value, ResourceSms(quantity.value, resource.value, area.value))]
        else [];
      Outcome(Ok(ResourceSubmitted), rows + [row], sms)
  }

  /** A quantity of zero is refused like a missing one. */
  lemma ZeroQuantityRefused(rows: seq<ResourceRow>, resource: Field<string>, area: Field<string>,
                            phone: Field<string>, db: Db)
    ensures ResourceSpec(rows, resource, Present(0), area, phone, db).resp == BadRequest(FieldsMissing)
  {
  }

  /** The area filter of the broadcast: only a non-empty target area filters. */
  function AreaFilter(area: Field<string>): (f: Option<string>)
    ensures f.Some? <==> Truthy(Get(area))
    ensures f.Some? ==> f == Get(area)
  {
    if Truthy(Get(area)) then Get(area) else None
  }

  /** The broadcast handler's refusals; `None` when it goes on to send. */
  function BroadcastGuard(message: Field<string>, db: Db): (r: Option<Response>)
    ensures r.None? <==> Truthy(Get(message)) && db.Up?
    ensures !Truthy(Get(message)) ==> r == Some(BadRequest(MessageRequired))
    ensures Truthy(Get(message)) && db.Down? ==> r == Some(ServerError(ConnectionFailed))
    ensures Truthy(Get(message)) && db.Faulty? ==> r == Some(ServerError(BroadcastFailed))
  {
    if !Truthy(Get(message)) then Some(BadRequest(MessageRequired))
    else if db.Down? then Some(ServerError(ConnectionFailed))
    else if db.Faulty? then Some(ServerError(BroadcastFailed))
    else None
  }

  /** The alert each recipient gets, in the order the recipients were listed. */
  function Alerts(phones: seq<string>, message: string): (msgs: seq<Notification.Message>)
    ensures |msgs| == |phones|
    ensures forall i :: 0 <= i < |phones| ==> msgs[i] == Notification.Message(phones[i], AlertSms(message))
  {
    if phones == [] then [] else [Notification.Message(phones[0], AlertSms(message))] + Alerts(phones[1..], message)
  }
}
