/**
 * The records and closed status enumerations of the admin console. Each
 * status is a datatype, so a record can only hold one of the listed values;
 * `Label()` gives the string the pages display and compare against.
 *
 * Store, Order, OrderItem, Customer, Settlement, Review and Report follow
 * src/types/index.ts; Banner, Coupon, PushNotification and Cohort are not
 * declared there, so their fields are the ones the banner, coupon and push
 * pages read and write.
 */
module Types {
  import opened Wrappers

  // ---------------------------------------------------------------- stores

  datatype StoreStatus = Drafting | UnderReview | Approved | TemporarilyClosed | Withdrawn
  {
    function Label(): (r: string)
      ensures r in StoreStatusLabels
    {
      match this
      case Drafting => "작성중"
      case UnderReview => "심사중"
      case Approved => "심사완료"
      case TemporarilyClosed => "임시휴무"
      case Withdrawn => "탈퇴"
    }
  }

  const StoreStatusLabels: set<string> := {"작성중", "심사중", "심사완료", "임시휴무", "탈퇴"}

  /** The owner fields are optional: a store may carry none of them. */
  datatype Store = Store(
    id: string,
    name: string,
    region: string,
    category: string,
    registeredAt: string,
    status: StoreStatus,
    ownerName: Option<string>,
    ownerPhone: Option<string>,
    ownerEmail: Option<string>,
    address: Option<string>)

  // ---------------------------------------------------------------- orders

  datatype OrderStatus =
    | Attempted | Reserved | PickedUp | CancelledByUser | CancelledByStore | CancelledByAdmin
  {
    function Label(): (r: string)
      ensures r in OrderStatusLabels
    {
      match this
      case Attempted => "주문시도"
      case Reserved => "예약완료"
      case PickedUp => "픽업확정"
      case CancelledByUser => "유저취소"
      case CancelledByStore => "가게취소"
      case CancelledByAdmin => "관리자취소"
    }

    /** One of the three cancellation statuses. */
    predicate IsCancellation() {
      CancelledByUser? || CancelledByStore? || CancelledByAdmin?
    }
  }

  const OrderStatusLabels: set<string> := {"주문시도", "예약완료", "픽업확정", "유저취소", "가게취소", "관리자취소"}
  const CancellationLabels: set<string> := {"유저취소", "가게취소", "관리자취소"}

  datatype OrderItem = OrderItem(id: string, name: string, quantity: int, price: int)

  datatype Order = Order(
    id: string,
    orderNumber: string,
    orderedAt: string,
    customerName: string,
    customerPhone: string,
    storeName: string,
    items: seq<OrderItem>,
    totalAmount: int,
    status: OrderStatus)

  // ------------------------------------------------------------- customers

  datatype CustomerStatus = Active | Left
  {
    function Label(): (r: string)
      ensures r in {"활성", "탈퇴"}
    {
      match this
      case Active => "활성"
      case Left => "탈퇴"
    }
  }

  /** Manner scores are integers; a new customer starts at 80 and the scale stops at 100. */
  const DefaultMannerScore: int := 80
  const MaxMannerScore: int := 100

  datatype Customer = Customer(
    id: string,
    nickname: string,
    phone: string,
    email: Option<string>,
    registeredAt: string,
    mannerScore: int,
    orderCount: int,
    status: CustomerStatus)

  // ----------------------------------------------------------- settlements

  datatype SettlementStatus = Pending | Settled | OnHold | Voided
  {
    function Label(): (r: string)
      ensures r in {"정산대기", "정산완료", "정산보류", "정산취소"}
    {
      match this
      case Pending => "정산대기"
      case Settled => "정산완료"
      case OnHold => "정산보류"
      case Voided => "정산취소"
    }
  }

  datatype Settlement = Settlement(
    id: string,
    storeName: string,
    periodStart: string,
    periodEnd: string,
    orderCount: int,
    totalSales: int,
    fee: int,
    settlementAmount: int,
    scheduledDate: string,
    status: SettlementStatus)

  // --------------------------------------------------------------- reviews

  datatype ReviewStatus = Normal | Hidden | Deleted
  {
    function Label(): (r: string)
      ensures r in {"정상", "숨김", "삭제"}
    {
      match this
      case Normal => "정상"
      case Hidden => "숨김"
      case Deleted => "삭제"
    }
  }

  datatype Review = Review(
    id: string,
    storeName: string,
    customerPhone: string,
    orderDate: string,
    reviewDate: string,
    rating: int,
    content: string,
    status: ReviewStatus)

  // --------------------------------------------------------------- reports

  /** The direction of a report: a store reporting a customer, or the reverse. */
  datatype ReportType = StoreToCustomer | CustomerToStore
  {
    function Label(): (r: string)
      ensures r in {"가게→고객", "고객→가게"}
    {
      match this
      case StoreToCustomer => "가게→고객"
      case CustomerToStore => "고객→가게"
    }
  }

  datatype ReportStatus = Received | Processing | Blacklisted | Released
  {
    function Label(): (r: string)
      ensures r in {"접수", "처리중", "블랙", "해제"}
    {
      match this
      case Received => "접수"
      case Processing => "처리중"
      case Blacklisted => "블랙"
      case Released => "해제"
    }
  }

  datatype Report = Report(
    id: string,
    reportedAt: string,
    reportType: ReportType,
    reporter: string,
    reported: string,
    reason: string,
    status: ReportStatus)

  // --------------------------------------------------------------- banners

  datatype BannerStatus = Showing | Waiting | Ended | Inactive
  {
    function Label(): (r: string)
      ensures r in {"노출중", "대기", "종료", "비활성"}
    {
      match this
      case Showing => "노출중"
      case Waiting => "대기"
      case Ended => "종료"
      case Inactive => "비활성"
    }
  }

  datatype Banner = Banner(
    id: string,
    title: string,
    imageUrl: string,
    linkUrl: Option<string>,
    startDate: string,
    endDate: string,
    order: int,
    status: BannerStatus,
    createdAt: string)

  // --------------------------------------------------------------- coupons

  datatype CouponStatus = Usable | Redeemed | Expired | Removed
  {
    function Label(): (r: string)
      ensures r in {"사용가능", "사용완료", "만료", "삭제"}
    {
      match this
      case Usable => "사용가능"
      case Redeemed => "사용완료"
      case Expired => "만료"
      case Removed => "삭제"
    }
  }

  datatype Coupon = Coupon(
    id: string,
    code: string,
    name: string,
    discount: int,
    customerName: string,
    customerPhone: string,
    issuedAt: string,
    expiresAt: string,
    usedAt: Option<string>,
    status: CouponStatus)

  // ------------------------------------------------------ push notifications

  datatype PushStatus = Delivered | Scheduled | Failed | Cancelled
  {
    function Label(): (r: string)
      ensures r in {"발송완료", "발송예정", "발송실패", "취소"}
    {
      match this
      case Delivered => "발송완료"
      case Scheduled => "발송예정"
      case Failed => "발송실패"
      case Cancelled => "취소"
    }
  }

  datatype TargetType = AllCustomers | SpecificCustomer | CohortMembers | AllSellers | SpecificSeller
  {
    function Label(): (r: string)
      ensures r in {"전체고객", "특정고객", "코호트", "전체판매자", "특정판매자"}
    {
      match this
      case AllCustomers => "전체고객"
      case SpecificCustomer => "특정고객"
      case CohortMembers => "코호트"
      case AllSellers => "전체판매자"
      case SpecificSeller => "특정판매자"
    }
  }

  datatype PushNotification = PushNotification(
    id: string,
    title: string,
    message: string,
    targetType: TargetType,
    targetDetail: Option<string>,
    scheduledAt: string,
    sentAt: Option<string>,
    targetCount: int,
    successCount: Option<int>,
    status: PushStatus,
    createdAt: string)

  datatype Cohort = Cohort(id: string, name: string, memberCount: int)

  // ---------------------------------------------------------------- lemmas

  /** Distinct statuses have distinct labels, so comparing labels is comparing statuses. */
  lemma {:induction false} LabelsAreInjective()
    ensures forall a: StoreStatus, b: StoreStatus :: a.Label() == b.Label() ==> a == b
    ensures forall a: OrderStatus, b: OrderStatus :: a.Label() == b.Label() ==> a == b
    ensures forall a: CustomerStatus, b: CustomerStatus :: a.Label() == b.Label() ==> a == b
    ensures forall a: SettlementStatus, b: SettlementStatus :: a.Label() == b.Label() ==> a == b
    ensures forall a: ReviewStatus, b: ReviewStatus :: a.Label() == b.Label() ==> a == b
    ensures forall a: ReportType, b: ReportType :: a.Label() == b.Label() ==> a == b
    ensures forall a: ReportStatus, b: ReportStatus :: a.Label() == b.Label() ==> a == b
    ensures forall a: BannerStatus, b: BannerStatus :: a.Label() == b.Label() ==> a == b
    ensures forall a: CouponStatus, b: CouponStatus :: a.Label() == b.Label() ==> a == b
    ensures forall a: PushStatus, b: PushStatus :: a.Label() == b.Label() ==> a == b
    ensures forall a: TargetType, b: TargetType :: a.Label() == b.Label() ==> a == b
  {
  }

  /** Exactly three of the six order statuses are cancellations. */
  lemma CancellationStatuses(s: OrderStatus)
    ensures s.IsCancellation() <==> s.Label() in CancellationLabels
  {
  }
}
