/**
 * The business-cards page (src/pages/CardsPage.tsx): one row per merchant
 * with the state of its card, the actions offered on it, the calls those
 * actions make, and the two modals (QR code and printable card).
 */
module CardsPage {
  import opened Wrappers
  import opened JsValues
  import opened Types
  import opened Api
  import opened MerchantService

  // ---------------------------------------------------------------------------
  // Columns
  // ---------------------------------------------------------------------------

  datatype CardStatus = NotCreated | Expired | Active | Inactive {
    function Text(): string {
      match this
      case NotCreated => "Non créée"
      case Expired => "Expirée"
      case Active => "Active"
      case Inactive => "Inactive"
    }

    /** The tag colour; "" is antd's default grey tag. */
    function Colour(): string {
      match this
      case NotCreated => ""
      case Expired => "error"
      case Active => "success"
      case Inactive => "warning"
    }
  }

  /**
   * The status column at time `now`: no card, then expiry (strictly after
   * `expiresAt`), then the card's own active flag.
   */
  function StatusOf(m: Merchant, now: int): (st: CardStatus)
    ensures st == NotCreated <==> m.businessCard.None?
    ensures st == Expired <==> m.businessCard.Some? && now > m.businessCard.value.expiresAt
    ensures st == Active <==> m.businessCard.Some? && now <= m.businessCard.value.expiresAt && m.businessCard.value.isActive
    ensures st == Inactive <==> m.businessCard.Some? && now <= m.businessCard.value.expiresAt && !m.businessCard.value.isActive
  {
    if m.businessCard.None? then NotCreated
    else if now > m.businessCard.value.expiresAt then Expired
    else if m.businessCard.value.isActive then Active
    else Inactive
  }

  /** Expiry is final: a card shown as expired stays expired at every later time. */
  lemma ExpiredStaysExpired(m: Merchant, now: int, later: int)
    requires now <= later && StatusOf(m, now) == Expired
    ensures StatusOf(m, later) == Expired
  {
  }

  /** Before expiry the status does not depend on the time. */
  lemma StatusStableUntilExpiry(m: Merchant, t1: int, t2: int)
    requires m.businessCard.Some? && t1 <= m.businessCard.value.expiresAt && t2 <= m.businessCard.value.expiresAt
    ensures StatusOf(m, t1) == StatusOf(m, t2)
  {
  }

  /** The card-type column. */
  datatype TypeCell = NoCardTag | TypeTag(cardType: CardType)

  function TypeCellOf(m: Merchant): (c: TypeCell)
    ensures c == NoCardTag <==> m.businessCard.None?
    ensures c.TypeTag? ==> m.businessCard.Some? && c.cardType == m.businessCard.value.cardType
  {
    if m.businessCard.Some? then TypeTag(m.businessCard.value.cardType) else NoCardTag
  }

  /** The expiration column; the date text itself (DD/MM/YYYY) is not modelled. */
  datatype DateCell = Dash | Date(at: int)

  function ExpirationCell(m: Merchant): (c: DateCell)
    ensures c == Dash <==> m.businessCard.None?
    ensures c.Date? ==> m.businessCard.Some? && c.at == m.businessCard.value.expiresAt
  {
    if m.businessCard.Some? then Date(m.businessCard.value.expiresAt) else Dash
  }

  /** The QR-code column: the card's QR image, which opens the QR modal for that card. */
  datatype QrCell = NoQr | QrImage(src: string, card: BusinessCard)

  function QrCellOf(m: Merchant): (c: QrCell)
    ensures c == NoQr <==> m.businessCard.None?
    ensures c.QrImage? ==> m.businessCard == Some(c.card) && c.src == c.card.qrCodeImage
  {
    if m.businessCard.Some? then QrImage(m.businessCard.value.qrCodeImage, m.businessCard.value) else NoQr
  }

  // ---------------------------------------------------------------------------
  // Actions
  // ---------------------------------------------------------------------------

  /** The buttons of the actions column (Régénérer and Supprimer after their confirmation). */
  datatype Action =
    | View(path: string)
    | ShowQr(card: BusinessCard)
    | Print(merchant: Merchant)
    | Regenerate(cardId: string)
    | Renew(cardId: string)
    | DeleteCard(cardId: string)
    | CreateCard(merchantId: string)

  /** A row with a card gets the six card actions; a row without one only "Créer une carte". */
  function Actions(m: Merchant): (acts: seq<Action>)
    ensures m.businessCard.None? ==> acts == [CreateCard(m.id)]
    ensures m.businessCard.Some? ==> |acts| == 6
    ensures forall a :: a in acts && a.CreateCard? ==> m.businessCard.None? && a.merchantId == m.id
    ensures forall a :: a in acts && (a.Regenerate? || a.Renew? || a.DeleteCard?) ==>
      m.businessCard.Some? && a.cardId == m.businessCard.value.id
    ensures forall a :: a in acts && a.ShowQr? ==> m.businessCard == Some(a.card)
    ensures forall a :: a in acts && a.Print? ==> a.merchant == m && m.businessCard.Some?
    ensures m.businessCard.Some? ==>
      var card := m.businessCard.value;
      View("/merchants/" + m.id) in acts && ShowQr(card) in acts && Print(m) in acts &&
      Regenerate(card.id) in acts && Renew(card.id) in acts && DeleteCard(card.id) in acts
  {
    if m.businessCard.None? then [CreateCard(m.id)]
    else
      var card := m.businessCard.value;
      [View("/merchants/" + m.id), ShowQr(card), Print(m), Regenerate(card.id), Renew(card.id), DeleteCard(card.id)]
  }

  /** The calls the page makes to the card service, and its reload of the list. */
  datatype CardCall =
    | CreateCardCall(merchantId: string, cardType: CardType)   // POST /cards
    | RegenerateCall(cardId: string)                           // POST /cards/{id}/regenerate
    | RenewCall(cardId: string, months: int)                   // POST /cards/{id}/renew
    | DeleteCall(cardId: string)                               // DELETE /cards/{id}
    | LoadCall(filters: MerchantFilters)                       // GET /merchants

  /** The service call an action makes, if any. */
  function CallOf(a: Action): (c: Option<CardCall>)
    ensures c.Some? <==> a.Regenerate? || a.Renew? || a.DeleteCard? || a.CreateCard?
  {
    match a
    case CreateCard(id) => Some(CreateCardCall(id, BASIC))
    case Regenerate(id) => Some(RegenerateCall(id))
    case Renew(id) => Some(RenewCall(id, 12))
    case DeleteCard(id) => Some(DeleteCall(id))
    case _ => None
  }

  /** Every card the page creates is BASIC, and every renewal asks for twelve months. */
  lemma CallParameters(m: Merchant, a: Action)
    requires a in Actions(m) && CallOf(a).Some?
    ensures CallOf(a).value.CreateCardCall? ==> CallOf(a).value == CreateCardCall(m.id, BASIC)
    ensures CallOf(a).value.RenewCall? ==> CallOf(a).value == RenewCall(m.businessCard.value.id, 12)
    ensures !CallOf(a).value.LoadCall?
  {
  }

  /** The list the page loads: at most 100 merchants, no other filter. */
  const LoadFilters := MerchantFilters(None, Some(100), None, None, None)

  /** Loading sends only `limit=100`. */
  lemma LoadQuery()
    ensures QueryParams(LoadFilters) == [Param(LimitKey, "100")]
  {
    assert NatToString(10) == "10" by {
      assert NatToString(1) == "1";
      assert NatToString(0) == "0";
    }
    assert NatToString(100) == "100";
  }

  /** The message after a card call, and whether the list is reloaded. */
  function Respond(call: CardCall, reply: Outcome<ApiError>): (r: (Notice, Option<CardCall>))
    requires !call.LoadCall?
    ensures reply.Pass? <==> r.1 == Some(LoadCall(LoadFilters))
    ensures reply.Fail? <==> r.1.None?
    ensures reply.Pass? <==> r.0.Success?
  {
    match reply
    case Pass =>
      var text := match call
        case CreateCardCall(_, _) => "Carte créée avec succès"
        case RegenerateCall(_) => "QR code régénéré avec succès"
        case RenewCall(_, _) => "Carte renouvelée pour 12 mois"
        case DeleteCall(_) => "Carte supprimée avec succès";
      (Success(text), Some(LoadCall(LoadFilters)))
    case Fail(_) =>
      var text := match call
        case CreateCardCall(_, _) => "Erreur lors de la création de la carte"
        case RegenerateCall(_) => "Erreur lors de la régénération"
        case RenewCall(_, _) => "Erreur lors du renouvellement"
        case DeleteCall(_) => "Erreur lors de la suppression";
      (Failure(text), None)
  }

  // ---------------------------------------------------------------------------
  // Page state
  // ---------------------------------------------------------------------------

  datatype PageState = PageState(
    merchants: seq<Merchant>,
    loading: bool,
    qrModalVisible: bool,
    selectedCard: Option<BusinessCard>,
    selectedMerchant: Option<Merchant>,
    printModalVisible: bool)

  const InitialPage := PageState([], true, false, None, None, false)

  /**
   * `loadMerchants` finished: the list is the reply's merchants, or stays as
   * it was on failure, which is reported with an error message.
   */
  function Loaded(st: PageState, reply: Result<PaginatedResponse, ApiError>): (r: (PageState, Option<Notice>))
    ensures !r.0.loading
    ensures reply.Ok? ==> r.0.merchants == reply.value.data
    ensures reply.Err? ==> r.0.merchants == st.merchants
    ensures r.0.(merchants := st.merchants, loading := st.loading) == st
    ensures reply.Err? <==> r.1 == Some(Failure("Erreur lors du chargement"))
    ensures reply.Ok? <==> r.1.None?
  {
    match reply
    case Ok(page) => (st.(merchants := page.data, loading := false), None)
    case Err(_) => (st.(loading := false), Some(Failure("Erreur lors du chargement")))
  }

  /** What a click changes on the page itself: only QR and Imprimer open a modal. */
  function Click(st: PageState, a: Action): (r: PageState)
    ensures a.ShowQr? ==> r == st.(selectedCard := Some(a.card), qrModalVisible := true)
    ensures a.Print? ==> r == st.(selectedMerchant := Some(a.merchant), printModalVisible := true)
    ensures !a.ShowQr? && !a.Print? ==> r == st
  {
    match a
    case ShowQr(card) => st.(selectedCard := Some(card), qrModalVisible := true)
    case Print(m) => st.(selectedMerchant := Some(m), printModalVisible := true)
    case _ => st
  }

  /** The printable card is rendered only for a selected merchant that has a card. */
  function PrintContent(st: PageState): (r: Option<(Merchant, BusinessCard)>)
    ensures r.Some? <==> st.selectedMerchant.Some? && st.selectedMerchant.value.businessCard.Some?
    ensures r.Some? ==> r.value.0 == st.selectedMerchant.value && Some(r.value.1) == r.value.0.businessCard
  {
    if st.selectedMerchant.Some? && st.selectedMerchant.value.businessCard.Some? then
      Some((st.selectedMerchant.value, st.selectedMerchant.value.businessCard.value))
    else None
  }

  /** Imprimer, offered only on rows with a card, always opens a modal with that merchant's card. */
  lemma PrintShowsCard(st: PageState, m: Merchant, a: Action)
    requires a in Actions(m) && a.Print?
    ensures Click(st, a).printModalVisible
    ensures PrintContent(Click(st, a)) == Some((m, m.businessCard.value))
  {
  }

  /** `${selectedCard?.merchant?.businessName}`: "undefined" when the card carries no merchant. */
  function SelectedName(card: Option<BusinessCard>): (name: string)
    ensures card.Some? && card.value.merchant.Some? ==> name == card.value.merchant.value.businessName
    ensures card.None? || card.value.merchant.None? ==> name == "undefined"
  {
    if card.Some? && card.value.merchant.Some? then card.value.merchant.value.businessName else "undefined"
  }

  /** The QR modal's title names the selected card's merchant. */
  function QrModalTitle(st: PageState): (title: string)
    ensures |title| >= 10 && title[..10] == "QR Code - "
    ensures st.selectedCard.Some? && st.selectedCard.value.merchant.Some? ==>
      title[10..] == st.selectedCard.value.merchant.value.businessName
    ensures st.selectedCard.None? || st.selectedCard.value.merchant.None? ==> title[10..] == "undefined"
  {
    "QR Code - " + SelectedName(st.selectedCard)
  }

  /** The downloaded QR image: `qr-`, the selected card's merchant name, `.png`. */
  function QrFileName(st: PageState): (name: string)
    ensures |name| >= 7 && name[..3] == "qr-" && name[|name| - 4..] == ".png"
    ensures st.selectedCard.Some? && st.selectedCard.value.merchant.Some? ==>
      name[3..|name| - 4] == st.selectedCard.value.merchant.value.businessName
    ensures st.selectedCard.None? || st.selectedCard.value.merchant.None? ==> name[3..|name| - 4] == "undefined"
  {
    "qr-" + SelectedName(st.selectedCard) + ".png"
  }
}
