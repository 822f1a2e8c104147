/**
 * The lead record (the `Dentist` interface), the pipeline stages and the
 * specialty vocabulary, and the card's helpers: the status badge, the
 * specialty label, the WhatsApp link and the Instagram guard.
 */
module DentistCard {
  import opened JsText
  import Seqs

  /** A record as a JavaScript object whose values are strings; a key that
      is not in the map is `undefined`. */
  type Record = map<string, string>

  /** `r.k`, which is a string or `undefined`. */
  function Field(r: Record, k: string): Option<string> {
    if k in r then Some(r[k]) else None
  }

  /** `r.k || ''` */
  function Get(r: Record, k: string): string {
    OrElse(Field(r, k), "")
  }

  /** The five pipeline stages, in board order. */
  datatype Status = Prospecting | Contacted | Negotiation | Closed | Lost {
    /** The string stored in a record's `status`. */
    function Key(): string {
      match this
      case Prospecting => "Prospecting"
      case Contacted => "Contacted"
      case Negotiation => "Negotiation"
      case Closed => "Closed"
      case Lost => "Lost"
    }
  }

  const AllStatuses: seq<Status> := [Prospecting, Contacted, Negotiation, Closed, Lost]

  /** The stage whose key is `k`, if any. */
  function StatusOfKey(k: string): (r: Option<Status>)
    ensures r.Some? ==> r.value.Key() == k
    ensures forall s: Status :: s.Key() == k ==> r == Some(s)
  {
    if k == "Prospecting" then Some(Prospecting)
    else if k == "Contacted" then Some(Contacted)
    else if k == "Negotiation" then Some(Negotiation)
    else if k == "Closed" then Some(Closed)
    else if k == "Lost" then Some(Lost)
    else None
  }

  /** Every stage is listed once and its key names it back. */
  lemma StatusKeysRoundTrip(s: Status)
    ensures StatusOfKey(s.Key()) == Some(s)
    ensures s in AllStatuses
  {
  }

  /** The filter predicate `d => d.status === s`. */
  function HasStatus(s: Status): Record -> bool {
    d => Field(d, "status") == Some(s.Key())
  }

  /** The Portuguese badge label of `statusConfig`. */
  function StatusLabel(s: Status): (r: string)
    ensures r != ""
  {
    match s
    case Prospecting => "Prospecção"
    case Contacted => "Contatado"
    case Negotiation => "Negociação"
    case Closed => "Fechado"
    case Lost => "Perdido"
  }

  /** `statusConfig` gives each stage its own label. */
  lemma StatusLabelsDistinct(s: Status, t: Status)
    ensures s != t ==> StatusLabel(s) != StatusLabel(t)
  {
  }

  /** `statusConfig[dentist.status].label`: no label (the lookup is
      `undefined` and reading `.label` throws) for a status outside the five. */
  function CardStatusLabel(d: Record): (r: Option<string>)
    ensures r.Some? <==> "status" in d && StatusOfKey(d["status"]).Some?
    ensures r.Some? ==> exists s: Status :: s.Key() == d["status"] && r.value == StatusLabel(s)
  {
    match Field(d, "status")
    case Some(k) =>
      (match StatusOfKey(k)
       case Some(s) => Some(StatusLabel(s))
       case None => None)
    case None => None
  }

  /** The seven specialty codes, in the form's order. */
  const SpecialtyCodes: seq<string> := [
    "Orthodontics", "Endodontics", "Implants", "Prosthodontics",
    "Periodontics", "Pediatric Dentistry", "Aesthetic Dentistry"
  ]

  /** `specialtyTranslation`: code to Portuguese label. */
  const SpecialtyLabels: map<string, string> := map[
    "Orthodontics" := "Ortodontia",
    "Endodontics" := "Endodontia",
    "Implants" := "Implantes",
    "Prosthodontics" := "Prótese",
    "Periodontics" := "Periodontia",
    "Pediatric Dentistry" := "Odontopediatria",
    "Aesthetic Dentistry" := "Dentística"
  ]

  /** `specialtyTranslation[specialty] || specialty` */
  function SpecialtyDisplay(specialty: string): (r: string)
    ensures specialty in SpecialtyCodes ==> r == SpecialtyLabels[specialty]
    ensures specialty !in SpecialtyCodes ==> r == specialty
  {
    if specialty in SpecialtyLabels then SpecialtyLabels[specialty] else specialty
  }

  /** The label table covers exactly the seven codes. */
  lemma SpecialtyLabelsCoverCodes()
    ensures SpecialtyLabels.Keys == set c | c in SpecialtyCodes
  {
  }

  /** No two codes show the same label. */
  lemma SpecialtyLabelsDistinct()
    ensures forall i, j :: 0 <= i < j < |SpecialtyCodes| ==>
      SpecialtyDisplay(SpecialtyCodes[i]) != SpecialtyDisplay(SpecialtyCodes[j])
  {
  }

  /** Every code is shown translated, never as the code itself. */
  lemma SpecialtyLabelsTranslate()
    ensures forall c :: c in SpecialtyCodes ==> SpecialtyDisplay(c) != c
  {
  }

  predicate IsDigit(c: char) {
    '0' <= c <= '9'
  }

  /** `phone.replace(/\D/g, '')`: the digits of `phone`, in order. */
  function Digits(phone: string): (r: string)
    ensures forall i :: 0 <= i < |r| ==> IsDigit(r[i])
    ensures |r| <= |phone|
  {
    if phone == [] then []
    else if IsDigit(phone[0]) then [phone[0]] + Digits(phone[1..])
    else Digits(phone[1..])
  }

  /** The removal drops exactly the non-digits: it keeps every digit of the
      phone, in order, and nothing else. */
  lemma {:induction false} DigitsKeepsEveryDigit(phone: string)
    ensures Digits(phone) == Seqs.Filter(IsDigit, phone)
  {
    if phone != [] {
      DigitsKeepsEveryDigit(phone[1..]);
    }
  }

  /** A string of digits is left as it is; so extracting twice is extracting once. */
  lemma {:induction false} DigitsOfDigits(s: string)
    requires forall i :: 0 <= i < |s| ==> IsDigit(s[i])
    ensures Digits(s) == s
  {
    if s != [] {
      DigitsOfDigits(s[1..]);
    }
  }

  lemma DigitsIdempotent(phone: string)
    ensures Digits(Digits(phone)) == Digits(phone)
  {
    DigitsOfDigits(Digits(phone));
  }

  const WhatsAppPrefix := "https://wa.me/55"

  /** `Olá Dr(a). ${dentist.name}! Tudo bem?`; an undefined name prints as "undefined". */
  const GreetingPrefix := "Olá Dr(a). "
  const GreetingSuffix := "! Tudo bem?"

  /** The name can be read back from the message, between its fixed opening
      and closing. */
  function GreetingMessage(d: Record): (r: string)
    ensures |r| >= |GreetingPrefix| + |GreetingSuffix|
    ensures r[..|GreetingPrefix|] == GreetingPrefix && r[|r| - |GreetingSuffix|..] == GreetingSuffix
    ensures r[|GreetingPrefix|..|r| - |GreetingSuffix|] == OrElseUndefined(Field(d, "name"))
  {
    var name := OrElseUndefined(Field(d, "name"));
    GreetingPrefix + name + GreetingSuffix
  }

  /** A template literal prints a missing value as `undefined`. */
  function OrElseUndefined(x: Option<string>): string {
    match x case Some(n) => n case None => "undefined"
  }

  /** The link `handleWhatsApp` opens, with `encodeURIComponent` given as
      `encode`. With no phone, `dentist.phone.replace` throws: no link. */
  function WhatsAppUrl(d: Record, encode: string -> string): (r: Option<string>)
    ensures r.Some? <==> "phone" in d
    ensures r.Some? ==> r.value == WhatsAppPrefix + Digits(d["phone"]) + "?text=" + encode(GreetingMessage(d))
  {
    if "phone" in d then
      Some(WhatsAppPrefix + Digits(d["phone"]) + "?text=" + encode(GreetingMessage(d)))
    else None
  }

  /** The text up to the first `c` (all of `s` when there is none). */
  function UpTo(s: string, c: char): string {
    if s == [] || s[0] == c then [] else [s[0]] + UpTo(s[1..], c)
  }

  lemma {:induction false} UpToStopsAtSeparator(a: string, b: string, c: char)
    requires c !in a
    ensures UpTo(a + [c] + b, c) == a
  {
    if a != [] {
      assert (a + [c] + b)[1..] == a[1..] + [c] + b;
      UpToStopsAtSeparator(a[1..], b, c);
    }
  }

  /** The number dialled: what follows the `wa.me/55` prefix up to the query. */
  function DialledNumber(url: string): string {
    if WhatsAppPrefix <= url then UpTo(url[|WhatsAppPrefix|..], '?') else ""
  }

  /** A link built from a string of digits and any message reads back that
      string as its number. */
  lemma DialledNumberOfLink(digits: string, message: string)
    requires forall i :: 0 <= i < |digits| ==> IsDigit(digits[i])
    ensures DialledNumber(WhatsAppPrefix + digits + "?text=" + message) == digits
  {
    var tail := "text=" + message;
    var url := WhatsAppPrefix + digits + "?text=" + message;
    assert url == WhatsAppPrefix + (digits + ['?'] + tail);
    assert url[|WhatsAppPrefix|..] == digits + ['?'] + tail;
    assert '?' !in digits by {
      forall i | 0 <= i < |digits| ensures digits[i] != '?' {
        assert IsDigit(digits[i]);
      }
    }
    UpToStopsAtSeparator(digits, tail, '?');
  }

  /** The link carries exactly the phone's digits as the number, whatever the
      message encodes to. */
  lemma WhatsAppNumberRoundTrip(d: Record, encode: string -> string)
    requires "phone" in d
    ensures DialledNumber(WhatsAppUrl(d, encode).value) == Digits(d["phone"])
  {
    DialledNumberOfLink(Digits(d["phone"]), encode(GreetingMessage(d)));
  }

  /** `handleInstagram` and the button beside it: the profile opened, only
      when `instagram` is a non-empty string. */
  function InstagramTarget(d: Record): (r: Option<string>)
    ensures r.Some? <==> "instagram" in d && d["instagram"] != ""
    ensures r.Some? ==> r.value == d["instagram"]
  {
    if Get(d, "instagram") != "" then Some(d["instagram"]) else None
  }
}
