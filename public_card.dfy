/**
 * The public card page (src/pages/PublicCard.tsx): where the contact buttons
 * lead, the day names of the opening hours, the mobile-money provider table
 * and the colour defaults. The navigation itself (window.open, location) is
 * the returned `Navigation` value.
 */
module PublicCard {
  import opened Wrappers
  import opened JsValues
  import opened Types

  const DefaultPrimary := "#667eea"
  const DefaultSecondary := "#764ba2"

  /** Where a map link points: coordinates, or a search for the address and city (URL encoding not modelled). */
  datatype MapsLink = AtCoordinates(latitude: int, longitude: int) | SearchFor(query: string)

  /** A navigation a contact button starts. */
  datatype Navigation =
    | Dial(number: string)          // tel:
    | OpenWhatsApp(number: string)  // https://wa.me/
    | MailTo(address: string)       // mailto:
    | OpenMaps(link: MapsLink)

  /** `s.replace(/\+/g, '')`. */
  function StripPlus(s: string): (r: string)
    ensures |r| <= |s|
    ensures forall c :: c in r <==> c in s && c != '+'
    decreases |s|
  {
    if |s| == 0 then ""
    else (if s[0] == '+' then "" else [s[0]]) + StripPlus(s[1..])
  }

  /** The number wa.me gets: without any '+' when it starts with '+', else behind the 221 country code. */
  function FormatWhatsApp(phone: string): (r: string)
    ensures StartsWith(phone, "+") ==> r == StripPlus(phone) && '+' !in r
    ensures !StartsWith(phone, "+") ==> r == "221" + phone
  {
    if StartsWith(phone, "+") then StripPlus(phone) else "221" + phone
  }

  /** Stripping is idempotent: the formatted number of an international number is stable. */
  lemma {:induction false} StripPlusIdempotent(s: string)
    ensures StripPlus(StripPlus(s)) == StripPlus(s)
    decreases |s|
  {
    if |s| > 0 {
      StripPlusIdempotent(s[1..]);
      StripPlusAppend(if s[0] == '+' then "" else [s[0]], StripPlus(s[1..]));
      if s[0] != '+' {
        assert ([s[0]] + StripPlus(s[1..]))[1..] == StripPlus(s[1..]);
      }
    }
  }

  lemma {:induction false} StripPlusAppend(a: string, b: string)
    ensures StripPlus(a + b) == StripPlus(a) + StripPlus(b)
    decreases |a|
  {
    if |a| == 0 {
      assert a + b == b;
    } else {
      assert (a + b)[1..] == a[1..] + b;
      StripPlusAppend(a[1..], b);
    }
  }

  /** The number the WhatsApp button uses: the WhatsApp number if non-empty, else the phone number. */
  function WhatsAppNumber(m: Merchant): (r: string)
    ensures TruthyString(m.whatsappNumber) ==> r == m.whatsappNumber.value
    ensures !TruthyString(m.whatsappNumber) ==> r == m.phoneNumber
  {
    OrElse(m.whatsappNumber, m.phoneNumber)
  }

  /** `handleCall`: dial the phone number, if there is one. */
  function CallTarget(m: Option<Merchant>): (n: Option<Navigation>)
    ensures n.Some? <==> m.Some? && m.value.phoneNumber != ""
    ensures n.Some? ==> n.value == Dial(m.value.phoneNumber)
  {
    if m.Some? && m.value.phoneNumber != "" then Some(Dial(m.value.phoneNumber)) else None
  }

  /** `handleWhatsApp`: nothing when both numbers are empty. */
  function WhatsAppTarget(m: Option<Merchant>): (n: Option<Navigation>)
    ensures n.Some? <==> m.Some? && WhatsAppNumber(m.value) != ""
    ensures n.Some? ==> n.value == OpenWhatsApp(FormatWhatsApp(WhatsAppNumber(m.value)))
  {
    if m.Some? && WhatsAppNumber(m.value) != "" then Some(OpenWhatsApp(FormatWhatsApp(WhatsAppNumber(m.value)))) else None
  }

  /** `handleEmail`: write to the e-mail address, if there is one. */
  function EmailTarget(m: Option<Merchant>): (n: Option<Navigation>)
    ensures n.Some? <==> m.Some? && TruthyString(m.value.email)
    ensures n.Some? ==> n.value == MailTo(m.value.email.value)
  {
    if m.Some? && TruthyString(m.value.email) then Some(MailTo(m.value.email.value)) else None
  }

  /**
   * `handleMaps`: coordinates when both are truthy (0 counts as absent), else a
   * search for "address, city" when there is an address, else nothing.
   */
  function MapsTarget(m: Option<Merchant>): (n: Option<Navigation>)
    ensures m.Some? && TruthyNumber(m.value.latitude) && TruthyNumber(m.value.longitude) ==>
      n == Some(OpenMaps(AtCoordinates(m.value.latitude.value, m.value.longitude.value)))
    ensures m.Some? && !(TruthyNumber(m.value.latitude) && TruthyNumber(m.value.longitude)) && TruthyString(m.value.address) ==>
      n == Some(OpenMaps(SearchFor(m.value.address.value + ", " + m.value.city)))
    ensures n.None? <==> m.None? || (!(TruthyNumber(m.value.latitude) && TruthyNumber(m.value.longitude)) && !TruthyString(m.value.address))
  {
    if m.None? then None
    else if TruthyNumber(m.value.latitude) && TruthyNumber(m.value.longitude) then
      Some(OpenMaps(AtCoordinates(m.value.latitude.value, m.value.longitude.value)))
    else if TruthyString(m.value.address) then
      Some(OpenMaps(SearchFor(m.value.address.value + ", " + m.value.city)))
    else None
  }

  const DayNames := ["Dim", "Lun", "Mar", "Mer", "Jeu", "Ven", "Sam"]

  /** `getDayName`: Sunday-first abbreviations for 0..6; undefined otherwise. */
  function DayName(dayOfWeek: int): (r: Option<string>)
    ensures r.Some? <==> 0 <= dayOfWeek < 7
    ensures r.Some? ==> r.value == DayNames[dayOfWeek]
  {
    if 0 <= dayOfWeek < 7 then Some(DayNames[dayOfWeek]) else None
  }

  /** Different days have different names. */
  lemma DayNamesDistinct(d: int, e: int)
    requires 0 <= d < 7 && 0 <= e < 7 && d != e
    ensures DayName(d) != DayName(e)
  {
    var a, b := DayNames[d], DayNames[e];
    assert a[0] != b[0] || a[1] != b[1] || a[2] != b[2];
  }

  /** The hours shown on an opening-hours row. */
  function HoursLabel(h: OpeningHours): (text: string)
    ensures h.isClosed ==> text == "Fermé"
    ensures !h.isClosed ==> text == h.openTime + " - " + h.closeTime
  {
    if h.isClosed then "Fermé" else h.openTime + " - " + h.closeTime
  }

  /** A mobile-money provider as the page shows it. */
  datatype Provider = Provider(name: string, color: string, bgColor: string, ussd: string)

  /** `MOBILE_MONEY_PROVIDERS[kind]`: only the three mobile-money kinds have an entry. */
  function ProviderOf(kind: PaymentKind): (p: Option<Provider>)
    ensures p.Some? <==> kind in {WAVE, ORANGE_MONEY, FREE_MONEY}
    ensures p.Some? && kind in {WAVE, ORANGE_MONEY} ==> p.value.ussd == "*144#"
    ensures p.Some? && kind == FREE_MONEY ==> p.value.ussd == "*400#"
  {
    match kind
    case WAVE => Some(Provider("Wave", "#F37335", "#FFF5F0", "*144#"))
    case ORANGE_MONEY => Some(Provider("Orange Money", "#FF7900", "#FFF7F0", "*144#"))
    case FREE_MONEY => Some(Provider("Free Money", "#722ed1", "#F5F0FF", "*400#"))
    case BANK_CARD => None
    case CASH => None
  }

  /** The payment rows rendered: one per mobile-money method, in order; the others render nothing. */
  function PaymentRows(methods: seq<PaymentMethod>): (rows: seq<(PaymentMethod, Provider)>)
    ensures |rows| <= |methods|
    ensures forall i :: 0 <= i < |rows| ==> ProviderOf(rows[i].0.paymentMethod) == Some(rows[i].1) && rows[i].0 in methods
    decreases |methods|
  {
    if |methods| == 0 then []
    else
      var p := ProviderOf(methods[0].paymentMethod);
      var rest := PaymentRows(methods[1..]);
      var head := if p.Some? then [(methods[0], p.value)] else [];
      var r := head + rest;
      assert forall i :: 0 <= i < |r| ==> ProviderOf(r[i].0.paymentMethod) == Some(r[i].1) && r[i].0 in methods by {
        forall i | 0 <= i < |r| ensures ProviderOf(r[i].0.paymentMethod) == Some(r[i].1) && r[i].0 in methods {
          if i < |head| {
            assert r[i] == (methods[0], p.value);
          } else {
            assert r[i] == rest[i - |head|];
            assert rest[i - |head|].0 in methods[1..];
          }
        }
      }
      r
  }

  /** Every mobile-money method of the merchant gets a row. */
  lemma {:induction false} PaymentRowsComplete(methods: seq<PaymentMethod>, p: PaymentMethod)
    requires p in methods && ProviderOf(p.paymentMethod).Some?
    ensures exists i :: 0 <= i < |PaymentRows(methods)| && PaymentRows(methods)[i].0 == p
    decreases |methods|
  {
    var rows := PaymentRows(methods);
    var head := if ProviderOf(methods[0].paymentMethod).Some? then [(methods[0], ProviderOf(methods[0].paymentMethod).value)] else [];
    var rest := PaymentRows(methods[1..]);
    assert rows == head + rest;
    if methods[0] == p {
      assert rows[0].0 == p;
    } else {
      assert p in methods[1..];
      PaymentRowsComplete(methods[1..], p);
      var i :| 0 <= i < |rest| && rest[i].0 == p;
      assert rows[|head| + i] == rest[i];
    }
  }


  /** `handleUSSD`: dial the provider's code. */
  function UssdTarget(p: Provider): Navigation {
    Dial(p.ussd)
  }

  /** The page's colours: the merchant's, or the defaults when missing or empty. */
  function PrimaryColour(m: Merchant): (c: string)
    ensures c != ""
    ensures TruthyString(m.primaryColor) ==> c == m.primaryColor.value
    ensures !TruthyString(m.primaryColor) ==> c == "#667eea"
  {
    OrElse(m.primaryColor, DefaultPrimary)
  }

  function SecondaryColour(m: Merchant): (c: string)
    ensures c != ""
    ensures TruthyString(m.secondaryColor) ==> c == m.secondaryColor.value
    ensures !TruthyString(m.secondaryColor) ==> c == "#764ba2"
  {
    OrElse(m.secondaryColor, DefaultSecondary)
  }
}
