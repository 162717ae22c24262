/** The logic of `app/customer/add.tsx`: rolling a contract's join date forward to
    its next payment date, the gates in front of adding a contract and saving a
    customer, and the customer record the screen hands to the data provider. */
module CustomerAdd {
  import opened Wrappers
  import opened Types
  import opened Text
  import opened DataContext

  // ---------------------------------------------------------------------------
  // Payment frequency

  /** Months between two payments. */
  function PeriodMonths(f: PaymentFrequency): (n: int)
    ensures n >= 1
  {
    match f
    case Month => 1
    case Quarter => 3
    case HalfYear => 6
    case Year => 12
  }

  /** `getFrequencyLabel`: the Vietnamese word for the period, which tells the
      periods apart exactly as their lengths in months do. */
  function FrequencyLabel(f: PaymentFrequency): (name: string)
    ensures name == "Tháng" <==> PeriodMonths(f) == 1
    ensures name == "Quý" <==> PeriodMonths(f) == 3
    ensures name == "Nửa năm" <==> PeriodMonths(f) == 6
    ensures name == "Năm" <==> PeriodMonths(f) == 12
  {
    match f
    case Month => "Tháng"
    case Quarter => "Quý"
    case HalfYear => "Nửa năm"
    case Year => "Năm"
  }

  /** No two frequencies share a label. */
  lemma FrequencyLabelsDistinct(f: PaymentFrequency, g: PaymentFrequency)
    ensures FrequencyLabel(f) == FrequencyLabel(g) ==> f == g
  {
  }

  // ---------------------------------------------------------------------------
  // Next payment date

  /** How far `d` still is from the end of `now`'s month; every step of the
      catch-up loop shrinks it. */
  function Lag(d: Instant, now: Instant): nat {
    if d.month <= now.month then now.month - d.month + 1 else 0
  }

  /** The date the catch-up loop stops at: `join` stepped forward one payment
      period at a time until it is no longer before `now`. It is not before `now`,
      it is the join date itself when that is not yet past, and it keeps the join
      date's day and time, never earlier than the join date. */
  function FirstDueDate(join: Instant, f: PaymentFrequency, now: Instant): (due: Instant)
    ensures !Before(due, now)
    ensures !Before(join, now) ==> due == join
    ensures due.offset == join.offset && due.month >= join.month
    decreases Lag(join, now)
  {
    if Before(join, now) then FirstDueDate(AddMonths(join, PeriodMonths(f)), f, now) else join
  }

  /** The next payment date falls a whole number of periods after the join date,
      and one period earlier it would still be before `now`, so no due date is
      skipped. */
  lemma {:induction false} FirstDueDateIsFirst(join: Instant, f: PaymentFrequency, now: Instant)
    ensures (FirstDueDate(join, f, now).month - join.month) % PeriodMonths(f) == 0
    ensures FirstDueDate(join, f, now) != join ==>
      Before(AddMonths(FirstDueDate(join, f, now), -PeriodMonths(f)), now)
    decreases Lag(join, now)
  {
    if Before(join, now) {
      var p := PeriodMonths(f);
      var step := AddMonths(join, p);
      FirstDueDateIsFirst(step, f, now);
      var r := FirstDueDate(step, f, now);
      WholePeriodsLonger(r.month - step.month, f);
      assert r.month - join.month == (r.month - step.month) + p;
    }
  }

  /** One more whole period is still a whole number of periods. */
  lemma WholePeriodsLonger(x: int, f: PaymentFrequency)
    requires x % PeriodMonths(f) == 0
    ensures (x + PeriodMonths(f)) % PeriodMonths(f) == 0
  {
    match f
    case Month =>
    case Quarter => assert x % 3 == 0;
    case HalfYear => assert x % 6 == 0;
    case Year => assert x % 12 == 0;
  }

  /** `calculateNextPaymentDate`: step the join date forward one period at a time
      while it is before `now` (the clock reading is a parameter). */
  method NextPaymentDate(joinDate: Instant, frequency: PaymentFrequency, now: Instant) returns (next: Instant)
    ensures next == FirstDueDate(joinDate, frequency, now)
  {
    next := joinDate;
    while Before(next, now)
      invariant FirstDueDate(next, frequency, now) == FirstDueDate(joinDate, frequency, now)
      decreases Lag(next, now)
    {
      match frequency {
        case Month => next := AddMonths(next, 1);
        case Quarter => next := AddMonths(next, 3);
        case HalfYear => next := AddMonths(next, 6);
        case Year => next := Instant(next.month + 12, next.offset);  // setFullYear(getFullYear() + 1)
      }
    }
  }

  // ---------------------------------------------------------------------------
  // Gates

  datatype ContractError = MissingCompany | MissingContractNumber | DuplicateContractNumber

  /** The checks `addInsuranceContract` makes, in order. `registered` stands for the
      contract numbers `checkContractNumberExists` reports as taken. */
  function CheckContract(company: string, contractNumber: string, registered: set<string>): (r: Option<ContractError>)
    ensures r == Some(MissingCompany) <==> company == ""
    ensures r == Some(MissingContractNumber) <==> company != "" && contractNumber == ""
    ensures r == Some(DuplicateContractNumber) <==> company != "" && contractNumber != "" && contractNumber in registered
    ensures r.None? <==> company != "" && contractNumber != "" && contractNumber !in registered
  {
    if company == "" then Some(MissingCompany)
    else if contractNumber == "" then Some(MissingContractNumber)
    else if contractNumber in registered then Some(DuplicateContractNumber)
    else None
  }

  datatype CustomerError = MissingName | MissingPhone | DuplicatePhone

  /** The checks of `handleSave` as written: the duplicate lookup is given the phone
      number as typed, untrimmed. `registered` stands for the phone numbers
      `checkPhoneNumberExists` reports as taken. */
  function CheckCustomerAsWritten(fullName: string, phoneNumber: string, registered: set<string>): (r: Option<CustomerError>)
    ensures r.None? <==> !IsBlank(fullName) && !IsBlank(phoneNumber) && phoneNumber !in registered
  {
    if Trim(fullName) == "" then Some(MissingName)
    else if Trim(phoneNumber) == "" then Some(MissingPhone)
    else if phoneNumber in registered then Some(DuplicatePhone)
    else None
  }

  /** The untrimmed lookup lets through " 1" although "1", the value that would be
      saved (see `TrimmedPhone`), is registered. */
  lemma AsWrittenAdmitsRegisteredPhone()
    ensures CheckCustomerAsWritten("A", " 1", {"1"}) == None
  {
    var typed := [' ', '1'];
    assert !IsSpace(typed[1]) && !IsSpace("A"[0]);
    assert !IsBlank(typed) && !IsBlank("A");
    assert typed !in {"1"};
    var r := CheckCustomerAsWritten("A", typed, {"1"});
    assert r.None?;
  }

  /** " 1" is saved as "1". */
  lemma TrimmedPhone()
    ensures Trim(" 1") == "1"
  {
    var typed := [' ', '1'];
    assert IsSpace(typed[0]);
    assert typed[1..] == ['1'];
    assert !IsSpace('1');
    assert TrimStart(typed) == ['1'];
    assert TrimEnd(['1']) == ['1'];
  }

  /** The checks of `handleSave`, in order, with the duplicate lookup given the
      trimmed phone number, the value that is saved. */
  function CheckCustomer(fullName: string, phoneNumber: string, registered: set<string>): (r: Option<CustomerError>)
    ensures r == Some(MissingName) <==> IsBlank(fullName)
    ensures r == Some(MissingPhone) <==> !IsBlank(fullName) && IsBlank(phoneNumber)
    ensures r == Some(DuplicatePhone) <==> !IsBlank(fullName) && !IsBlank(phoneNumber) && Trim(phoneNumber) in registered
    ensures r.None? <==> Trim(fullName) != "" && Trim(phoneNumber) != "" && Trim(phoneNumber) !in registered
  {
    if Trim(fullName) == "" then Some(MissingName)
    else if Trim(phoneNumber) == "" then Some(MissingPhone)
    else if Trim(phoneNumber) in registered then Some(DuplicatePhone)
    else None
  }

  /** The record `handleSave` passes to `addCustomer`. `now` is the clock reading
      stamped on the meeting record; `user` is the signed-in user. */
  function NewCustomerInfo(
    fullName: string, phoneNumber: string, dateOfBirth: Instant,
    occupation: string, financialStatus: string, familyInfo: string,
    classification: Classification, meetingDate: Instant, meetingNotes: string,
    contracts: seq<InsuranceContract>, user: Option<User>, now: Instant): (r: CustomerInfo)
    ensures r.fullName == Trim(fullName) && r.phoneNumber == Trim(phoneNumber)
    ensures r.meetingRecords.Some? && |r.meetingRecords.value| == (if meetingNotes == "" then 0 else 1)
    ensures meetingNotes != "" ==>
      r.meetingRecords.value[0].date == meetingDate && r.meetingRecords.value[0].notes == meetingNotes
    ensures r.insuranceContracts == Some(contracts) && r.classification == classification
    ensures r.meetingDate.None? && r.insuranceDetails.None?
    ensures r.dateOfBirth == dateOfBirth
    ensures r.occupation == Some(Trim(occupation)) && r.financialStatus == Some(Trim(financialStatus))
    ensures r.familyInfo == Some(Trim(familyInfo)) && r.meetingNotes.None?
    ensures r.createdBy != ""
    ensures user.Some? && user.value.id != "" ==> r.createdBy == user.value.id
    ensures !(user.Some? && user.value.id != "") ==> r.createdBy == "1"
  {
    var records := if meetingNotes != "" then [MeetingRecord("1", meetingDate, meetingNotes, now)] else [];
    var createdBy := if user.Some? && user.value.id != "" then user.value.id else "1";
    CustomerInfo(
      Trim(fullName), Trim(phoneNumber), dateOfBirth,
      Some(Trim(occupation)), Some(Trim(financialStatus)), Some(Trim(familyInfo)),
      None, None, Some(records), classification, None, Some(contracts), createdBy)
  }

  /** A customer that passes the checks is saved with a name and a phone number
      that are non-empty and free of surrounding white space, and with a phone
      number that is not registered yet. */
  lemma SavedCustomerIsNew(
    fullName: string, phoneNumber: string, dateOfBirth: Instant,
    occupation: string, financialStatus: string, familyInfo: string,
    classification: Classification, meetingDate: Instant, meetingNotes: string,
    contracts: seq<InsuranceContract>, user: Option<User>, now: Instant, registered: set<string>)
    requires CheckCustomer(fullName, phoneNumber, registered).None?
    ensures var r := NewCustomerInfo(fullName, phoneNumber, dateOfBirth, occupation, financialStatus,
        familyInfo, classification, meetingDate, meetingNotes, contracts, user, now);
      r.fullName != "" && IsTrimmed(r.fullName) &&
      r.phoneNumber != "" && IsTrimmed(r.phoneNumber) && r.phoneNumber !in registered
  {
  }

  /** The screen stores meetings and contracts under `meetingRecords` and
      `insuranceContracts`, while the dashboard reads `meetingDate` and
      `insuranceDetails`: a customer saved here never counts as having an upcoming
      meeting or payment. */
  lemma SavedCustomerMissesMeetingAndPaymentCounters(
    info: CustomerInfo, id: string, t: Instant, now: Instant)
    requires info.meetingDate.None? && info.insuranceDetails.None?
    ensures DashboardStatsOf([Customer(id, info, t, t)], now).upcomingMeetings == 0
    ensures DashboardStatsOf([Customer(id, info, t, t)], now).upcomingPayments == 0
  {
    StatsOfOne(Customer(id, info, t, t), now);
  }

  // ---------------------------------------------------------------------------
  // The form

  class AddCustomerForm {
    var fullName: string
    var phoneNumber: string
    var dateOfBirth: Instant
    var occupation: string
    var financialStatus: string
    var familyInfo: string
    var meetingDate: Instant
    var meetingNotes: string
    var classification: Classification
    var insuranceContracts: seq<InsuranceContract>
    var currentCompany: string
    var currentContractNumber: string
    var currentPolicyDetails: string
    var currentJoinDate: Instant
    var currentPremiumAmounts: string
    var currentPaymentFrequency: PaymentFrequency
    var showInsuranceForm: bool

    /** The screen's initial state; `today` is the `new Date()` the date fields start at. */
    constructor (today: Instant)
      ensures fullName == "" && phoneNumber == "" && meetingNotes == ""
      ensures occupation == "" && financialStatus == "" && familyInfo == ""
      ensures dateOfBirth == today && meetingDate == today && currentJoinDate == today
      ensures classification == Potential && insuranceContracts == []
      ensures currentCompany == "" && currentContractNumber == "" && currentPolicyDetails == ""
      ensures currentPremiumAmounts == "" && currentPaymentFrequency == Month && !showInsuranceForm
    {
      fullName, phoneNumber, meetingNotes := "", "", "";
      occupation, financialStatus, familyInfo := "", "", "";
      dateOfBirth, meetingDate, currentJoinDate := today, today, today;
      classification, insuranceContracts := Potential, [];
      currentCompany, currentContractNumber, currentPolicyDetails := "", "", "";
      currentPremiumAmounts, currentPaymentFrequency, showInsuranceForm := "", Month, false;
    }

    /** `addInsuranceContract`: `contractId` is the `Date.now()` string, `now` the clock. */
    method AddInsuranceContract(registered: set<string>, contractId: string, now: Instant)
      returns (r: Option<ContractError>)
      modifies this`insuranceContracts, this`currentCompany, this`currentContractNumber,
        this`currentPolicyDetails, this`currentJoinDate, this`currentPremiumAmounts,
        this`currentPaymentFrequency, this`showInsuranceForm
      ensures r == CheckContract(old(currentCompany), old(currentContractNumber), registered)
      ensures r.Some? ==> unchanged(this)
      ensures r.None? ==>
        insuranceContracts == old(insuranceContracts) + [InsuranceContract(
          contractId, old(currentCompany), old(currentContractNumber), old(currentPolicyDetails),
          old(currentJoinDate), old(currentPremiumAmounts), old(currentPaymentFrequency),
          FirstDueDate(old(currentJoinDate), old(currentPaymentFrequency), now))]
      ensures r.None? ==>
        currentCompany == "" && currentContractNumber == "" && currentPolicyDetails == "" &&
        currentJoinDate == now && currentPremiumAmounts == "" && currentPaymentFrequency == Month &&
        !showInsuranceForm
    {
      r := CheckContract(currentCompany, currentContractNumber, registered);
      if r.None? {
        var nextPaymentDate := NextPaymentDate(currentJoinDate, currentPaymentFrequency, now);
        var contract := InsuranceContract(
          contractId, currentCompany, currentContractNumber, currentPolicyDetails,
          currentJoinDate, currentPremiumAmounts, currentPaymentFrequency, nextPaymentDate);
        insuranceContracts := insuranceContracts + [contract];
        currentCompany, currentContractNumber, currentPolicyDetails := "", "", "";
        currentJoinDate, currentPremiumAmounts, currentPaymentFrequency := now, "", Month;
        showInsuranceForm := false;
      }
    }

    /** `handleSave`: on success exactly one customer, built from the form, is
        appended to the provider's list; on a rejection nothing is added.
        `customerId` is the `Date.now()` string of the provider, `now` the clock. */
    method HandleSave(store: DataProvider, registered: set<string>, user: Option<User>, customerId: string, now: Instant)
      returns (r: Option<CustomerError>)
      modifies store
      ensures r == CheckCustomer(fullName, phoneNumber, registered)
      ensures r.Some? ==> unchanged(store)
      ensures r.None? ==> store.customers == old(store.customers) + [Customer(customerId, NewCustomerInfo(
        fullName, phoneNumber, dateOfBirth, occupation, financialStatus, familyInfo,
        classification, meetingDate, meetingNotes, insuranceContracts, user, now), now, now)]
      ensures r.None? ==> store.meetings == old(store.meetings) && store.learningContent == old(store.learningContent)
      ensures r.None? ==> store.isLoading == old(store.isLoading)
    {
      r := CheckCustomer(fullName, phoneNumber, registered);
      if r.None? {
        var info := NewCustomerInfo(
          fullName, phoneNumber, dateOfBirth, occupation, financialStatus, familyInfo,
          classification, meetingDate, meetingNotes, insuranceContracts, user, now);
        store.AddCustomer(info, customerId, now);
      }
    }
  }
}
