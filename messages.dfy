/**
 * The fixed texts of the service: the subscription replies, the category
 * symbols of emergency confirmations, and the bodies of the four kinds of SMS.
 */
module Messages {

  import opened Wrappers
  import Decimal

  const SosSymbol: string := "\U{1F198}"
  const MedicalSymbol: string := "\U{1F3E5}"
  const ShelterSymbol: string := "\U{1F3E0}"
  const FoodSymbol: string := "\U{1F372}"
  /** The warning sign followed by the emoji variation selector. */
  const WarningSymbol: string := "\U{26A0}\U{FE0F}"

  /** The `category_emojis` table of the emergency handler. */
  const CategorySymbols: map<string, string> :=
    map["sos" := SosSymbol, "medical" := MedicalSymbol, "shelter" := ShelterSymbol, "food" := FoodSymbol]

  /** `category_emojis.get(category, '⚠️')`. */
  function CategorySymbol(category: string): (symbol: string)
    ensures category == "sos" ==> symbol == SosSymbol
    ensures category == "medical" ==> symbol == MedicalSymbol
    ensures category == "shelter" ==> symbol == ShelterSymbol
    ensures category == "food" ==> symbol == FoodSymbol
    ensures symbol == WarningSymbol <==> category !in {"sos", "medical", "shelter", "food"}
  {
    if category in CategorySymbols then CategorySymbols[category] else WarningSymbol
  }

  /** The four known categories get four different symbols. */
  lemma CategorySymbolsDistinct(c: string, d: string)
    requires c in CategorySymbols && d in CategorySymbols && c != d
    ensures CategorySymbol(c) != CategorySymbol(d)
  {
  }

  /** `str.upper()` on ASCII letters; every other character is kept. */
  function UpperChar(c: char): char {
    if 'a' <= c <= 'z' then (c as int - 32) as char else c
  }

  function AsciiUpper(s: string): (r: string)
    ensures |r| == |s|
    ensures forall i :: 0 <= i < |s| && 'a' <= s[i] <= 'z' ==> r[i] as int == s[i] as int - 32 && 'A' <= r[i] <= 'Z'
    ensures forall i :: 0 <= i < |s| && !('a' <= s[i] <= 'z') ==> r[i] == s[i]
  {
    seq(|s|, i requires 0 <= i < |s| => UpperChar(s[i]))
  }

  const Reactivated: string := "Your subscription has been reactivated!"
  const SubscribedNew: string := "Successfully subscribed for disaster alerts!"

  /** The subscription reply, chosen by whether the phone was already known. */
  function SubscribeReply(existed: bool): (reply: string)
    ensures reply == Reactivated <==> existed
    ensures reply == SubscribedNew <==> !existed
  {
    if existed then Reactivated else SubscribedNew
  }

  /** What an f-string prints for a value that may be `None`. */
  function PyStr(o: Option<string>): string {
    match o
    case Some(s) => s
    case None => "None"
  }

  function SubscribeSms(reply: string, area: Option<string>): string {
    "SDRRAS Alert: " + reply + " You will receive updates for " + PyStr(area) + " area."
  }

  const EmergencyPrefix: string := "SDRRAS Emergency: "

  function EmergencySms(category: string, area: string): string {
    EmergencyPrefix + CategorySymbol(category) + " Your " + AsciiUpper(category)
      + " request for " + area + " has been registered. Help is on the way!"
  }

  /** An emergency confirmation opens with the symbol of its category. */
  lemma EmergencySmsShowsSymbol(category: string, area: string)
    ensures var n := |EmergencyPrefix + CategorySymbol(category)|;
      n <= |EmergencySms(category, area)| &&
      EmergencySms(category, area)[..n] == EmergencyPrefix + CategorySymbol(category)
  {
  }

  function ResourceSms(quantity: int, resource: string, area: string): string {
    "SDRRAS: Your request for " + Decimal.IntToString(quantity) + "x " + resource + " in " + area
      + " has been submitted. We'll process it soon!"
  }

  const AlertPrefix: string := "SDRRAS ALERT: "

  function AlertSms(message: string): string {
    AlertPrefix + message
  }

  /** The alert text carries the admin's message unaltered after the prefix. */
  lemma AlertSmsCarriesMessage(message: string)
    ensures AlertSms(message)[..|AlertPrefix|] == AlertPrefix
    ensures AlertSms(message)[|AlertPrefix|..] == message
  {
  }

  const SummaryHead: string := "Alert sent to "
  const SummaryTail: string := " subscribers"

  /** The broadcast reply, reporting the number of delivered alerts. */
  function AlertSummary(count: nat): string {
    SummaryHead + Decimal.IntToString(count) + SummaryTail
  }

  /** The broadcast reply determines the count it reports. */
  lemma AlertSummaryInjective(m: nat, n: nat)
    requires AlertSummary(m) == AlertSummary(n)
    ensures m == n
  {
    var s, t := AlertSummary(m), AlertSummary(n);
    assert s[|SummaryHead|..|s| - |SummaryTail|] == Decimal.IntToString(m);
    assert t[|SummaryHead|..|t| - |SummaryTail|] == Decimal.IntToString(n);
    Decimal.IntToStringInjective(m, n);
  }
}
