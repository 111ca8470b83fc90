/**
 * The records the console receives from the REST API (src/types/index.ts).
 * Timestamps are integers (milliseconds); numbers are integers.
 */
module Types {
  import opened Wrappers

  datatype Role = ADMIN | AGENT

  datatype User = User(
    id: string,
    email: string,
    firstName: string,
    lastName: string,
    role: Role,
    isActive: bool,
    createdAt: int)

  datatype CardType = BASIC | PREMIUM | ENTERPRISE

  datatype BusinessCard = BusinessCard(
    id: string,
    merchantId: string,
    qrCode: string,
    qrCodeImage: string,
    nfcEnabled: bool,
    nfcTag: Option<string>,
    cardType: CardType,
    publicUrl: string,
    isActive: bool,
    activatedAt: int,
    expiresAt: int,
    createdAt: int,
    updatedAt: int,
    merchant: Option<Merchant>)

  datatype OpeningHours = OpeningHours(
    id: string,
    merchantId: string,
    dayOfWeek: int,
    openTime: string,
    closeTime: string,
    isClosed: bool)

  /** The payment kinds; FREE_MONEY is not in the record's declared union but the public card's provider table handles it. */
  datatype PaymentKind = WAVE | ORANGE_MONEY | FREE_MONEY | BANK_CARD | CASH

  datatype PaymentMethod = PaymentMethod(
    id: string,
    merchantId: string,
    paymentMethod: PaymentKind,
    accountNumber: string,
    accountName: string,
    isActive: bool,
    createdAt: int)

  datatype Counts = Counts(scans: int, subscriptions: int)

  datatype Merchant = Merchant(
    id: string,
    businessName: string,
    ownerName: string,
    phoneNumber: string,
    whatsappNumber: Option<string>,
    email: Option<string>,
    description: Option<string>,
    category: Option<string>,
    address: Option<string>,
    city: string,
    country: string,
    latitude: Option<int>,
    longitude: Option<int>,
    logo: Option<string>,
    coverImage: Option<string>,
    primaryColor: Option<string>,
    secondaryColor: Option<string>,
    useGradient: Option<bool>,
    isActive: bool,
    isVerified: bool,
    createdAt: int,
    updatedAt: int,
    businessCard: Option<BusinessCard>,
    openingHours: Option<seq<OpeningHours>>,
    paymentMethods: Option<seq<PaymentMethod>>,
    counts: Option<Counts>)

  datatype Scan = Scan(
    id: string,
    merchantId: string,
    scannedAt: int,
    userAgent: Option<string>,
    ipAddress: Option<string>,
    deviceType: Option<string>,
    location: Option<string>)

  datatype DashboardStats = DashboardStats(
    totalMerchants: int,
    activeMerchants: int,
    totalScans: int,
    totalRevenue: int,
    recentMerchants: seq<Merchant>,
    recentScans: seq<Scan>)

  /** Optional list filters; an absent field is `undefined` in the source. */
  datatype MerchantFilters = MerchantFilters(
    page: Option<int>,
    limit: Option<int>,
    search: Option<string>,
    isActive: Option<bool>,
    city: Option<string>)

  const NoFilters := MerchantFilters(None, None, None, None, None)

  datatype Pagination = Pagination(total: int, page: int, limit: int, totalPages: int)

  /** A server failure: the optional `response.data.message`. */
  datatype ApiError = ApiError(message: Option<string>)
}
