/**
 * The three tables of the service's database, held in memory. The
 * `subscribers` table has a UNIQUE phone number and so is a map from phone to
 * row; the two request tables only ever receive appended rows. Each method is
 * one SQL statement of a handler.
 */
module Storage {

  import opened Wrappers

  /** A `subscribers` row; `area` is a nullable column. */
  datatype Subscriber = Subscriber(area: Option<string>, active: bool)

  /** An `emergency_requests` row; `message` is a nullable column. */
  datatype EmergencyRow = EmergencyRow(
    phone: string, category: string, area: string, message: Option<string>, status: string)

  /** A `resource_requests` row; `requesterPhone` is a nullable column. */
  datatype ResourceRow = ResourceRow(
    resource: string, quantity: int, area: string, requesterPhone: Option<string>, status: string)

  /** The column default of `status` in both request tables. */
  const Pending: string := "pending"

  /** The WHERE clause of the broadcast query: active, and in the target
      area when one is given. SQL `area = %s` is false on a NULL area. */
  predicate Selected(s: Subscriber, filter: Option<string>) {
    s.active && (filter.None? || s.area == filter)
  }

  /** The phones the broadcast query returns. */
  function Recipients(subs: map<string, Subscriber>, filter: Option<string>): set<string> {
    set p | p in subs && Selected(subs[p], filter)
  }

  /** Recipients are active subscribers, and with a target area only those
      whose area is exactly that target. */
  lemma RecipientsMatch(subs: map<string, Subscriber>, filter: Option<string>, p: string)
    ensures p in Recipients(subs, filter) <==>
      p in subs && subs[p].active && (filter.Some? ==> subs[p].area == filter)
  {
  }

  /** Filtering by area only ever removes recipients. */
  lemma FilterNarrows(subs: map<string, Subscriber>, target: string)
    ensures Recipients(subs, Some(target)) <= Recipients(subs, None)
  {
  }

  /** Two active subscribers in Zone A and B and an inactive one in Zone A:
      an alert for Zone A reaches the first subscriber only. */
  lemma ZoneExample()
    ensures
      var subs := map[
        "+911111111111" := Subscriber(Some("Zone A"), true),
        "+912222222222" := Subscriber(Some("Zone B"), true),
        "+913333333333" := Subscriber(Some("Zone A"), false)];
      Recipients(subs, Some("Zone A")) == {"+911111111111"}
  {
  }

  predicate Distinct(s: seq<string>) {
    forall i, j :: 0 <= i < j < |s| ==> s[i] != s[j]
  }

  /** A duplicate-free listing of a set has as many entries as the set. */
  lemma {:induction false} DistinctListingSize(s: seq<string>, r: set<string>)
    requires Distinct(s)
    requires forall p :: p in s <==> p in r
    ensures |s| == |r|
  {
    if s != [] {
      var last := s[|s| - 1];
      var init := s[..|s| - 1];
      forall p ensures p in init <==> p in r - {last} {
        if p in init {
          var i :| 0 <= i < |init| && init[i] == p;
          assert s[i] == p && s[|s| - 1] == last;
        }
        if p in r - {last} {
          assert p in s;
          var i :| 0 <= i < |s| && s[i] == p;
          assert i < |s| - 1 && init[i] == p;
        }
      }
      DistinctListingSize(init, r - {last});
    } else {
      assert forall p :: p !in r;
    }
  }

  class Store {
    var subscribers: map<string, Subscriber>
    var emergencies: seq<EmergencyRow>
    var resources: seq<ResourceRow>

    /** The tables as created at start-up: empty. */
    constructor ()
      ensures subscribers == map[] && emergencies == [] && resources == []
    {
      subscribers := map[];
      emergencies := [];
      resources := [];
    }

    /** `SELECT * FROM subscribers WHERE phone_number = %s`, then `fetchone()`. */
    method FindSubscriber(phone: string) returns (found: bool)
      ensures found <==> phone in subscribers
    {
      found := phone in subscribers;
    }

    /** `UPDATE subscribers SET is_active = TRUE, area = %s WHERE phone_number = %s`;
        it touches no row when the phone is unknown. */
    method UpdateSubscriber(phone: string, area: Option<string>)
      modifies this
      ensures subscribers.Keys == old(subscribers).Keys
      ensures phone in subscribers ==> subscribers[phone] == Subscriber(area, true)
      ensures forall q :: q in subscribers && q != phone ==> subscribers[q] == old(subscribers)[q]
      ensures emergencies == old(emergencies) && resources == old(resources)
    {
      if phone in subscribers {
        subscribers := subscribers[phone := Subscriber(area, true)];
      }
    }

    /** `INSERT INTO subscribers (phone_number, area)`, with `is_active`
        defaulting to TRUE; the UNIQUE key refuses a phone that is present. */
    method InsertSubscriber(phone: string, area: Option<string>) returns (ok: bool)
      modifies this
      ensures ok <==> phone !in old(subscribers)
      ensures ok ==> subscribers == old(subscribers)[phone := Subscriber(area, true)]
      ensures !ok ==> subscribers == old(subscribers)
      ensures emergencies == old(emergencies) && resources == old(resources)
    {
      ok := phone !in subscribers;
      if ok {
        subscribers := subscribers[phone := Subscriber(area, true)];
      }
    }

    /** `INSERT INTO emergency_requests`: rows are never deduplicated. */
    method InsertEmergency(row: EmergencyRow)
      modifies this
      ensures emergencies == old(emergencies) + [row]
      ensures subscribers == old(subscribers) && resources == old(resources)
    {
      emergencies := emergencies + [row];
    }

    /** `INSERT INTO resource_requests`: rows are never deduplicated. */
    method InsertResource(row: ResourceRow)
      modifies this
      ensures resources == old(resources) + [row]
      ensures subscribers == old(subscribers) && emergencies == old(emergencies)
    {
      resources := resources + [row];
    }

    /** The broadcast query followed by `fetchall()`: every selected phone
        once, in an order the database chooses. */
    method SelectActive(filter: Option<string>) returns (phones: seq<string>)
      ensures Distinct(phones)
      ensures forall p :: p in phones <==> p in Recipients(subscribers, filter)
      ensures |phones| == |Recipients(subscribers, filter)|
    {
      phones := [];
      var rest := subscribers.Keys;
      while rest != {}
        invariant rest <= subscribers.Keys
        invariant Distinct(phones)
        invariant forall p :: p in phones <==> p in Recipients(subscribers, filter) && p !in rest
        decreases rest
      {
        var p :| p in rest;
        rest := rest - {p};
        if Selected(subscribers[p], filter) {
          phones := phones + [p];
        }
      }
      DistinctListingSize(phones, Recipients(subscribers, filter));
    }
  }
}
