/**
 * How each handler's response actually reaches the client. Every handler
 * is one `try` with `except Error` and a `finally` block whose first step
 * is the test `connection and connection.is_connected()`. The local
 * `connection` is first assigned by `connection = create_db_connection()`,
 * which comes after validation. A handler that returns its validation
 * refusal therefore reaches the `finally` block with `connection` unbound,
 * and the test raises `UnboundLocalError`. That exception is raised by the
 * `finally` block itself, so the handler's own `except Error` does not see
 * it, the pending return value is discarded, and Flask answers the
 * unhandled exception with 500.
 */
module AsWritten {

  import opened Storage
  import opened Api

  /** The local `connection` when the handler's `finally` block runs. */
  datatype Binding =
    | Unbound       // returned before `connection = create_db_connection()`
    | NoConnection  // bound to `None`: the connection could not be opened
    | Open          // bound to an open connection

  /** How the Python function exits: with its return value, or an exception. */
  datatype Exit = Returns(resp: Response) | Raises(exception: string)

  /** The binding at the handler's return, given whether validation passed:
      validation returns first, then the connection is opened. (A database
      error from `connection.cursor()` would also leave `cursor` unbound;
      that path answers 500 either way, so it is folded into `Open`.) */
  function BindingAt(validated: bool, db: Db): (b: Binding)
    ensures b.Unbound? <==> !validated
    ensures b.NoConnection? <==> validated && db.Down?
    ensures b.Open? <==> validated && !db.Down?
  {
    if !validated then Unbound else if db.Down? then NoConnection else Open
  }

  /** The `finally` block run on a pending return of `r`. */
  function RunFinally(b: Binding, r: Response): (e: Exit)
    ensures e.Raises? <==> b.Unbound?
    ensures e.Returns? ==> e.resp == r
  {
    match b
    case Unbound => Raises("UnboundLocalError")
    case NoConnection => Returns(r)  // `None and ...` is false: nothing to close
    case Open => Returns(r)          // cursor and connection are closed
  }

  /** The status Flask sends for a handler's exit. */
  function Served(e: Exit): (code: int)
    ensures e.Returns? ==> code == HttpStatus(e.resp)
    ensures e.Raises? ==> code == 500
  {
    match e
    case Returns(r) => HttpStatus(r)
    case Raises(_) => 500
  }

  function SubscribeServed(subs: map<string, Subscriber>, phone: Field<string>, area: Field<string>, db: Db): int {
    Served(RunFinally(BindingAt(Truthy(Get(phone)), db), SubscribeSpec(subs, phone, area, db).resp))
  }

  function EmergencyServed(rows: seq<EmergencyRow>, phone: Field<string>, category: Field<string>,
                           area: Field<string>, message: Field<string>, db: Db): int {
    Served(RunFinally(BindingAt(EmergencyFieldsPresent(phone, category, area), db),
                      EmergencySpec(rows, phone, category, area, message, db).resp))
  }

  function ResourceServed(rows: seq<ResourceRow>, resource: Field<string>, quantity: Field<int>,
                          area: Field<string>, phone: Field<string>, db: Db): int {
    Served(RunFinally(BindingAt(ResourceFieldsPresent(resource, quantity, area), db),
                      ResourceSpec(rows, resource, quantity, area, phone, db).resp))
  }

  /** The broadcast's intended response status: its refusal, or success. */
  function BroadcastIntended(message: Field<string>, db: Db): int {
    var guard := BroadcastGuard(message, db);
    if guard.Some? then HttpStatus(guard.value) else 200
  }

  function BroadcastServed(message: Field<string>, db: Db): int {
    var guard := BroadcastGuard(message, db);
    var resp := if guard.Some? then guard.value else Ok("");
    Served(RunFinally(BindingAt(Truthy(Get(message)), db), resp))
  }

  /** As written, /subscribe answers 500 where 400 is intended, and keeps
      every other status; the two differ exactly for a missing phone. */
  lemma SubscribeRefusalServedAs500(subs: map<string, Subscriber>, phone: Field<string>, area: Field<string>, db: Db)
    ensures var intended := HttpStatus(SubscribeSpec(subs, phone, area, db).resp);
      && SubscribeServed(subs, phone, area, db) == (if intended == 400 then 500 else intended)
      && (SubscribeServed(subs, phone, area, db) != intended <==> !Truthy(Get(phone)))
  {
  }

  /** The same for /emergency-request and its missing fields. */
  lemma EmergencyRefusalServedAs500(rows: seq<EmergencyRow>, phone: Field<string>, category: Field<string>,
                                    area: Field<string>, message: Field<string>, db: Db)
    ensures var intended := HttpStatus(EmergencySpec(rows, phone, category, area, message, db).resp);
      && EmergencyServed(rows, phone, category, area, message, db) == (if intended == 400 then 500 else intended)
      && (EmergencyServed(rows, phone, category, area, message, db) != intended
          <==> !EmergencyFieldsPresent(phone, category, area))
  {
  }

  /** The same for /resource-request and its missing fields. */
  lemma ResourceRefusalServedAs500(rows: seq<ResourceRow>, resource: Field<string>, quantity: Field<int>,
                                   area: Field<string>, phone: Field<string>, db: Db)
    ensures var intended := HttpStatus(ResourceSpec(rows, resource, quantity, area, phone, db).resp);
      && ResourceServed(rows, resource, quantity, area, phone, db) == (if intended == 400 then 500 else intended)
      && (ResourceServed(rows, resource, quantity, area, phone, db) != intended
          <==> !ResourceFieldsPresent(resource, quantity, area))
  {
  }

  /** The same for /broadcast-alert and its missing message. */
  lemma BroadcastRefusalServedAs500(message: Field<string>, db: Db)
    ensures var intended := BroadcastIntended(message, db);
      && BroadcastServed(message, db) == (if intended == 400 then 500 else intended)
      && (BroadcastServed(message, db) != intended <==> !Truthy(Get(message)))
  {
  }

  /** The request of the finding: POST /subscribe with an empty body. */
  lemma EmptySubscribeServedAs500(subs: map<string, Subscriber>, db: Db)
    ensures HttpStatus(SubscribeSpec(subs, Absent, Absent, db).resp) == 400
    ensures SubscribeServed(subs, Absent, Absent, db) == 500
    ensures SubscribeSpec(subs, Absent, Absent, db).state == subs
  {
  }
}
