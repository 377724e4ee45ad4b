/**
 * The SMS side of the service: `send_sms` asks an external gateway to deliver
 * a text and reports whether the gateway accepted it. Every attempt is kept in
 * an outbox, with the normalised destination and the outcome.
 */
module Notification {

  import Phone

  /** One `send_sms` call as a handler issues it: raw phone and body. */
  datatype Message = Message(phone: string, body: string)

  /** One attempt as the gateway saw it. */
  datatype Sms = Sms(to: string, body: string, delivered: bool)

  /** How many attempts the gateway accepted. */
  function Delivered(sent: seq<Sms>): (n: nat)
    ensures n <= |sent|
  {
    if sent == [] then 0 else (if sent[0].delivered then 1 else 0) + Delivered(sent[1..])
  }

  lemma {:induction false} DeliveredAppend(sent: seq<Sms>, m: Sms)
    ensures Delivered(sent + [m]) == Delivered(sent) + (if m.delivered then 1 else 0)
  {
    if sent != [] {
      assert (sent + [m])[1..] == sent[1..] + [m];
      DeliveredAppend(sent[1..], m);
    }
  }

  /** Every attempt counts exactly when every attempt was accepted. */
  lemma {:induction false} DeliveredAllIff(sent: seq<Sms>)
    ensures Delivered(sent) == |sent| <==> forall i :: 0 <= i < |sent| ==> sent[i].delivered
  {
    if sent != [] {
      DeliveredAllIff(sent[1..]);
      assert forall i :: 1 <= i < |sent| ==> sent[i] == sent[1..][i - 1];
    }
  }

  /** `after` is `before` followed by one attempt per message, in order, each
      addressed to the normalised phone and carrying the message's body. */
  ghost predicate Dispatched(before: seq<Sms>, after: seq<Sms>, msgs: seq<Message>) {
    && |after| == |before| + |msgs|
    && after[..|before|] == before
    && forall i :: 0 <= i < |msgs| ==>
         after[|before| + i].to == Phone.Normalise(msgs[i].phone) && after[|before| + i].body == msgs[i].body
  }

  class Gateway {
    var outbox: seq<Sms>

    constructor ()
      ensures outbox == []
    {
      outbox := [];
    }

    /** `send_sms`: the number is normalised, the gateway may accept or
        fail, and any failure is reported as `false`, never raised. */
    method Send(phone: string, body: string) returns (ok: bool)
      modifies this
      ensures outbox == old(outbox) + [Sms(Phone.Normalise(phone), body, ok)]
    {
      ok :| true;
      outbox := outbox + [Sms(Phone.Normalise(phone), body, ok)];
    }
  }
}
