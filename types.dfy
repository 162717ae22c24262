/** The records of `types/index.ts`, plus the contract and meeting records the
    customer screens build, as values. */
module Types {
  import opened Wrappers

  /** A device-local calendar instant. `month` counts months from an arbitrary
      origin (year * 12 + month of the year); `offset` is the time elapsed since
      the first instant of that month (day, hour, ...). */
  datatype Instant = Instant(month: int, offset: nat)

  /** `a < b` on JavaScript dates. */
  predicate Before(a: Instant, b: Instant) {
    a.month < b.month || (a.month == b.month && a.offset < b.offset)
  }

  /** The same day and time, `n` calendar months later. */
  function AddMonths(d: Instant, n: int): Instant {
    Instant(d.month + n, d.offset)
  }

  /** The first instant (day 1, midnight) of the calendar month `now` falls in. */
  function StartOfMonth(now: Instant): (r: Instant)
    ensures !Before(now, r)
    ensures forall t :: !Before(t, r) <==> t.month >= now.month
  {
    Instant(now.month, 0)
  }

  datatype UserRole = Admin | Manager | Staff

  /** The string value a `UserRole` has at run time. */
  function RoleName(r: UserRole): string {
    match r
    case Admin => "Admin"
    case Manager => "Manager"
    case Staff => "Staff"
  }

  datatype User = User(
    id: string,
    email: string,
    fullName: string,
    role: UserRole,
    phoneNumber: Option<string>,
    avatar: Option<string>,
    createdBy: Option<string>,
    createdAt: Instant)

  datatype Classification = Signed | Potential | Dropped

  /** 'month' | 'quarter' | '6-month' | 'year' */
  datatype PaymentFrequency = Month | Quarter | HalfYear | Year

  /** An insurance record as declared by the shared types (the dashboard reads these). */
  datatype InsuranceDetail = InsuranceDetail(
    company: string,
    contractNumber: string,
    policyDetails: string,
    joinDate: Instant,
    premiumAmount: int,
    paymentFrequency: PaymentFrequency,
    nextPaymentDate: Instant)

  /** An insurance contract as the add-customer screen builds it. */
  datatype InsuranceContract = InsuranceContract(
    id: string,
    company: string,
    contractNumber: string,
    policyDetails: string,
    joinDate: Instant,
    premiumAmounts: string,
    paymentFrequency: PaymentFrequency,
    nextPaymentDate: Instant)

  /** A meeting note as the add-customer screen builds it. */
  datatype MeetingRecord = MeetingRecord(id: string, date: Instant, notes: string, createdAt: Instant)

  /** Everything a customer record holds except `id`, `createdAt` and `updatedAt`
      (`Omit<Customer, 'id' | 'createdAt' | 'updatedAt'>`). */
  datatype CustomerInfo = CustomerInfo(
    fullName: string,
    phoneNumber: string,
    dateOfBirth: Instant,
    occupation: Option<string>,
    financialStatus: Option<string>,
    familyInfo: Option<string>,
    meetingDate: Option<Instant>,
    meetingNotes: Option<string>,
    meetingRecords: Option<seq<MeetingRecord>>,
    classification: Classification,
    insuranceDetails: Option<seq<InsuranceDetail>>,
    insuranceContracts: Option<seq<InsuranceContract>>,
    createdBy: string)

  datatype Customer = Customer(id: string, info: CustomerInfo, createdAt: Instant, updatedAt: Instant)

  /** `Partial<Customer>`: `None` is a key the update object does not have; for an
      optional field, `Some(None)` is a key explicitly set to `undefined`. */
  datatype CustomerPatch = CustomerPatch(
    id: Option<string>,
    fullName: Option<string>,
    phoneNumber: Option<string>,
    dateOfBirth: Option<Instant>,
    occupation: Option<Option<string>>,
    financialStatus: Option<Option<string>>,
    familyInfo: Option<Option<string>>,
    meetingDate: Option<Option<Instant>>,
    meetingNotes: Option<Option<string>>,
    meetingRecords: Option<Option<seq<MeetingRecord>>>,
    classification: Option<Classification>,
    insuranceDetails: Option<Option<seq<InsuranceDetail>>>,
    insuranceContracts: Option<Option<seq<InsuranceContract>>>,
    createdBy: Option<string>,
    createdAt: Option<Instant>)

  /** `Omit<Meeting, 'id' | 'createdAt'>`. */
  datatype MeetingDraft = MeetingDraft(customerId: string, date: Instant, notes: string, createdBy: string)

  datatype Meeting = Meeting(id: string, draft: MeetingDraft, createdAt: Instant)

  /** 'video' | 'pdf' | 'announcement' */
  datatype LearningKind = Video | Pdf | Announcement

  /** `Omit<LearningContent, 'id' | 'createdAt'>`, with the `content` and `videoUrl`
      keys the add-learning screen passes in addition to the declared ones. */
  datatype LearningDraft = LearningDraft(
    title: string,
    description: string,
    content: Option<string>,
    kind: LearningKind,
    url: Option<string>,
    videoUrl: Option<string>,
    thumbnailUrl: Option<string>,
    createdBy: string)

  datatype LearningContent = LearningContent(id: string, draft: LearningDraft, createdAt: Instant)

  datatype DashboardStats = DashboardStats(
    totalCustomers: nat,
    signedCount: nat,
    potentialCount: nat,
    droppedCount: nat,
    upcomingMeetings: nat,
    upcomingPayments: nat,
    newCustomersThisMonth: nat)
}
