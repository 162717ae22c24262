/** The data provider of `contexts/DataContext.tsx`: the in-memory customer,
    meeting and learning-content collections, the operations that replace them,
    and the dashboard counters computed over the customer list. */
module DataContext {
  import opened Wrappers
  import opened Types
  import opened Seqs

  // ---------------------------------------------------------------------------
  // Dashboard statistics

  predicate IsSigned(c: Customer) { c.info.classification == Signed }
  predicate IsPotential(c: Customer) { c.info.classification == Potential }
  predicate IsDropped(c: Customer) { c.info.classification == Dropped }

  /** The customer has a meeting date, and it lies strictly after `now`. */
  predicate HasUpcomingMeeting(c: Customer, now: Instant) {
    c.info.meetingDate.Some? && Before(now, c.info.meetingDate.value)
  }

  /** At least one of the customer's insurance details falls due strictly after `now`;
      a customer without details has none. */
  predicate HasUpcomingPayment(c: Customer, now: Instant) {
    c.info.insuranceDetails.Some? &&
    exists i :: 0 <= i < |c.info.insuranceDetails.value| && IsDueAfter(c.info.insuranceDetails.value[i], now)
  }

  predicate IsDueAfter(d: InsuranceDetail, now: Instant) {
    Before(now, d.nextPaymentDate)
  }

  /** The customer was created at or after the first instant of the month of `now`. */
  predicate IsNewThisMonth(c: Customer, now: Instant) {
    !Before(c.createdAt, StartOfMonth(now))
  }

  /** The three tests that depend on the clock, as the function values `filter` receives. */
  function MeetingAfter(now: Instant): Customer -> bool { c => HasUpcomingMeeting(c, now) }
  function PaymentAfter(now: Instant): Customer -> bool { c => HasUpcomingPayment(c, now) }
  function CreatedThisMonth(now: Instant): Customer -> bool { c => IsNewThisMonth(c, now) }

  /** `calculateDashboardStats`, with the clock reading `now` as a parameter. Every
      counter is a number of customers, so none exceeds the total, and the three
      classification counters split the total between them. */
  function DashboardStatsOf(customers: seq<Customer>, now: Instant): (s: DashboardStats)
    ensures s.totalCustomers == |customers|
    ensures s.signedCount + s.potentialCount + s.droppedCount == s.totalCustomers
    ensures s.upcomingMeetings <= s.totalCustomers && s.upcomingPayments <= s.totalCustomers
    ensures s.newCustomersThisMonth <= s.totalCustomers
    ensures customers == [] ==> s == DashboardStats(0, 0, 0, 0, 0, 0, 0)
  {
    ClassificationsPartition(customers);
    DashboardStats(
      |customers|,
      |Filter(customers, IsSigned)|,
      |Filter(customers, IsPotential)|,
      |Filter(customers, IsDropped)|,
      |Filter(customers, MeetingAfter(now))|,
      |Filter(customers, PaymentAfter(now))|,
      |Filter(customers, CreatedThisMonth(now))|)
  }

  /** Every customer is Signed, Potential or Dropped, and only one of them. */
  lemma {:induction false} ClassificationsPartition(cs: seq<Customer>)
    ensures |Filter(cs, IsSigned)| + |Filter(cs, IsPotential)| + |Filter(cs, IsDropped)| == |cs|
  {
    if cs != [] {
      ClassificationsPartition(cs[1..]);
    }
  }

  /** What one customer contributes to each counter: a customer with an upcoming
      meeting counts once; one with any number of future payment dates counts once;
      one without insurance details counts zero; one created at or after the first
      instant of the current month counts as new. */
  lemma StatsOfOne(c: Customer, now: Instant)
    ensures DashboardStatsOf([c], now) == DashboardStats(
      1,
      if c.info.classification == Signed then 1 else 0,
      if c.info.classification == Potential then 1 else 0,
      if c.info.classification == Dropped then 1 else 0,
      if c.info.meetingDate.Some? && Before(now, c.info.meetingDate.value) then 1 else 0,
      if HasUpcomingPayment(c, now) then 1 else 0,
      if c.createdAt.month >= now.month then 1 else 0)
    ensures c.info.insuranceDetails.None? || c.info.insuranceDetails == Some([]) ==>
      DashboardStatsOf([c], now).upcomingPayments == 0
    ensures c.info.meetingDate == Some(now) ==> DashboardStatsOf([c], now).upcomingMeetings == 0
  {
  }

  function Plus(a: DashboardStats, b: DashboardStats): DashboardStats {
    DashboardStats(
      a.totalCustomers + b.totalCustomers,
      a.signedCount + b.signedCount,
      a.potentialCount + b.potentialCount,
      a.droppedCount + b.droppedCount,
      a.upcomingMeetings + b.upcomingMeetings,
      a.upcomingPayments + b.upcomingPayments,
      a.newCustomersThisMonth + b.newCustomersThisMonth)
  }

  /** Appending a customer adds exactly that customer's contribution to every counter. */
  lemma StatsAppend(cs: seq<Customer>, c: Customer, now: Instant)
    ensures DashboardStatsOf(cs + [c], now) == Plus(DashboardStatsOf(cs, now), DashboardStatsOf([c], now))
  {
    CountAppend(cs, c, IsSigned);
    CountAppend(cs, c, IsPotential);
    CountAppend(cs, c, IsDropped);
    CountAppend(cs, c, MeetingAfter(now));
    CountAppend(cs, c, PaymentAfter(now));
    CountAppend(cs, c, CreatedThisMonth(now));
  }

  lemma CountAppend(cs: seq<Customer>, c: Customer, p: Customer -> bool)
    ensures |Filter(cs + [c], p)| == |Filter(cs, p)| + |Filter([c], p)|
  {
    FilterAppend(cs, c, p);
    assert Filter([c], p) == (if p(c) then [c] else []) + Filter([], p);
  }

  /** A customer added during the current month is counted as new this month. */
  lemma AddedThisMonthIsNew(cs: seq<Customer>, id: string, info: CustomerInfo, t: Instant, now: Instant)
    requires t.month == now.month
    ensures DashboardStatsOf(cs + [Customer(id, info, t, t)], now).newCustomersThisMonth
         == DashboardStatsOf(cs, now).newCustomersThisMonth + 1
    ensures DashboardStatsOf(cs + [Customer(id, info, t, t)], now).totalCustomers
         == DashboardStatsOf(cs, now).totalCustomers + 1
  {
    StatsAppend(cs, Customer(id, info, t, t), now);
    StatsOfOne(Customer(id, info, t, t), now);
  }

  /** Number of insurance details, over all customers, whose next payment date is after `now`. */
  function FutureDetailCount(cs: seq<Customer>, now: Instant): nat {
    if cs == [] then 0
    else
      (if cs[0].info.insuranceDetails.Some?
       then |Filter(cs[0].info.insuranceDetails.value, d => IsDueAfter(d, now))| else 0)
      + FutureDetailCount(cs[1..], now)
  }

  /** `upcomingPayments` counts customers, not contracts: it never exceeds the number
      of future payment dates. */
  lemma {:induction false} UpcomingPaymentsAtMostFutureDetails(cs: seq<Customer>, now: Instant)
    ensures DashboardStatsOf(cs, now).upcomingPayments <= FutureDetailCount(cs, now)
  {
    if cs != [] {
      UpcomingPaymentsAtMostFutureDetails(cs[1..], now);
      var c := cs[0];
      if HasUpcomingPayment(c, now) {
        var i :| 0 <= i < |c.info.insuranceDetails.value| && IsDueAfter(c.info.insuranceDetails.value[i], now);
        FilterNonEmpty(c.info.insuranceDetails.value, d => IsDueAfter(d, now), i);
      }
    }
  }

  // ---------------------------------------------------------------------------
  // Updating and deleting customers

  /** One key of an object spread: when the update carries the key, the merged
      value is the update's; when it does not, it is the record's. */
  predicate Spread<T(==)>(key: Option<T>, before: T, after: T) {
    (key.Some? ==> after == key.value) && (key.None? ==> after == before)
  }

  /** One record of `updateCustomer`: every key the update object carries replaces
      the record's value, every other key keeps it, and `updatedAt` becomes the clock
      reading whatever the update says. */
  function Merge(c: Customer, p: CustomerPatch, now: Instant): (r: Customer)
    ensures r.updatedAt == now
    ensures Spread(p.id, c.id, r.id) && Spread(p.createdAt, c.createdAt, r.createdAt)
    ensures Spread(p.fullName, c.info.fullName, r.info.fullName)
    ensures Spread(p.phoneNumber, c.info.phoneNumber, r.info.phoneNumber)
    ensures Spread(p.dateOfBirth, c.info.dateOfBirth, r.info.dateOfBirth)
    ensures Spread(p.occupation, c.info.occupation, r.info.occupation)
    ensures Spread(p.financialStatus, c.info.financialStatus, r.info.financialStatus)
    ensures Spread(p.familyInfo, c.info.familyInfo, r.info.familyInfo)
    ensures Spread(p.meetingDate, c.info.meetingDate, r.info.meetingDate)
    ensures Spread(p.meetingNotes, c.info.meetingNotes, r.info.meetingNotes)
    ensures Spread(p.meetingRecords, c.info.meetingRecords, r.info.meetingRecords)
    ensures Spread(p.classification, c.info.classification, r.info.classification)
    ensures Spread(p.insuranceDetails, c.info.insuranceDetails, r.info.insuranceDetails)
    ensures Spread(p.insuranceContracts, c.info.insuranceContracts, r.info.insuranceContracts)
    ensures Spread(p.createdBy, c.info.createdBy, r.info.createdBy)
    ensures p == NoChanges ==> r == c.(updatedAt := now)
  {
    var i := c.info;
    Customer(
      p.id.GetOr(c.id),
      CustomerInfo(
        p.fullName.GetOr(i.fullName),
        p.phoneNumber.GetOr(i.phoneNumber),
        p.dateOfBirth.GetOr(i.dateOfBirth),
        p.occupation.GetOr(i.occupation),
        p.financialStatus.GetOr(i.financialStatus),
        p.familyInfo.GetOr(i.familyInfo),
        p.meetingDate.GetOr(i.meetingDate),
        p.meetingNotes.GetOr(i.meetingNotes),
        p.meetingRecords.GetOr(i.meetingRecords),
        p.classification.GetOr(i.classification),
        p.insuranceDetails.GetOr(i.insuranceDetails),
        p.insuranceContracts.GetOr(i.insuranceContracts),
        p.createdBy.GetOr(i.createdBy)),
      p.createdAt.GetOr(c.createdAt),
      now)
  }

  const NoChanges := CustomerPatch(None, None, None, None, None, None, None, None, None, None, None, None, None, None, None)

  /** Merging an empty update only refreshes `updatedAt`; merging the same update
      twice at the same instant is merging it once. */
  lemma MergeProperties(c: Customer, p: CustomerPatch, now: Instant)
    ensures Merge(c, NoChanges, now) == c.(updatedAt := now)
    ensures Merge(Merge(c, p, now), p, now) == Merge(c, p, now)
    ensures p.id.None? ==> Merge(c, p, now).id == c.id
  {
  }

  /** `updateCustomer` on the list: the records with the given id are merged with the
      update, all others are kept, and the order and length do not change. */
  function Updated(cs: seq<Customer>, id: string, p: CustomerPatch, now: Instant): (r: seq<Customer>)
    ensures |r| == |cs|
    ensures forall i :: 0 <= i < |cs| ==> r[i] == if cs[i].id == id then Merge(cs[i], p, now) else cs[i]
  {
    seq(|cs|, i requires 0 <= i < |cs| => if cs[i].id == id then Merge(cs[i], p, now) else cs[i])
  }

  /** An update whose id matches no record leaves the list as it was, and applying
      the same update twice at the same instant is applying it once. */
  lemma UpdateProperties(cs: seq<Customer>, id: string, p: CustomerPatch, now: Instant)
    ensures (forall i :: 0 <= i < |cs| ==> cs[i].id != id) ==> Updated(cs, id, p, now) == cs
    ensures Updated(Updated(cs, id, p, now), id, p, now) == Updated(cs, id, p, now)
  {
    var once := Updated(cs, id, p, now);
    forall i | 0 <= i < |cs|
      ensures Updated(once, id, p, now)[i] == once[i]
    {
      if cs[i].id == id { MergeProperties(cs[i], p, now); }
    }
  }

  /** The record has the given id, and the record does not have it. */
  function HasId(id: string): Customer -> bool { (c: Customer) => c.id == id }
  function LacksId(id: string): Customer -> bool { (c: Customer) => c.id != id }

  /** `deleteCustomer` on the list: every record with the given id goes, the rest
      stay in order, each as many times as it was there. */
  function WithoutId(cs: seq<Customer>, id: string): (r: seq<Customer>)
    ensures IsSubsequence(r, cs)
    ensures forall c :: c in r <==> c in cs && c.id != id
    ensures |r| + |Filter(cs, HasId(id))| == |cs|
  {
    FilterIsSubsequence(cs, LacksId(id));
    FilterSplitsCount(cs, LacksId(id), HasId(id));
    Filter(cs, LacksId(id))
  }

  /** Deleting twice is deleting once; deleting an id no record has changes nothing. */
  lemma DeleteProperties(cs: seq<Customer>, id: string)
    ensures WithoutId(WithoutId(cs, id), id) == WithoutId(cs, id)
    ensures (forall i :: 0 <= i < |cs| ==> cs[i].id != id) ==> WithoutId(cs, id) == cs
  {
    FilterIdempotent(cs, LacksId(id));
    if forall i :: 0 <= i < |cs| ==> cs[i].id != id {
      FilterAllPass(cs, LacksId(id));
    }
  }

  // ---------------------------------------------------------------------------
  // The provider's state

  class DataProvider {
    var customers: seq<Customer>
    var meetings: seq<Meeting>
    var learningContent: seq<LearningContent>
    var isLoading: bool

    constructor ()
      ensures customers == [] && meetings == [] && learningContent == [] && isLoading
    {
      customers, meetings, learningContent, isLoading := [], [], [], true;
    }

    /** `addCustomer`: `id` is the `Date.now()` string and `now` the clock reading of
        the call, used for both timestamps. */
    method AddCustomer(info: CustomerInfo, id: string, now: Instant)
      modifies this
      ensures customers == old(customers) + [Customer(id, info, now, now)]
      ensures meetings == old(meetings) && learningContent == old(learningContent) && isLoading == old(isLoading)
    {
      customers := customers + [Customer(id, info, now, now)];
    }

    method UpdateCustomer(id: string, updates: CustomerPatch, now: Instant)
      modifies this
      ensures customers == Updated(old(customers), id, updates, now)
      ensures meetings == old(meetings) && learningContent == old(learningContent) && isLoading == old(isLoading)
    {
      customers := Updated(customers, id, updates, now);
    }

    method DeleteCustomer(id: string)
      modifies this
      ensures customers == WithoutId(old(customers), id)
      ensures meetings == old(meetings) && learningContent == old(learningContent) && isLoading == old(isLoading)
    {
      customers := WithoutId(customers, id);
    }

    method AddMeeting(meeting: MeetingDraft, id: string, now: Instant)
      modifies this
      ensures meetings == old(meetings) + [Meeting(id, meeting, now)]
      ensures customers == old(customers) && learningContent == old(learningContent) && isLoading == old(isLoading)
    {
      meetings := meetings + [Meeting(id, meeting, now)];
    }

    method AddLearningContent(content: LearningDraft, id: string, now: Instant)
      modifies this
      ensures learningContent == old(learningContent) + [LearningContent(id, content, now)]
      ensures customers == old(customers) && meetings == old(meetings) && isLoading == old(isLoading)
    {
      learningContent := learningContent + [LearningContent(id, content, now)];
    }
  }
}
