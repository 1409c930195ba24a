/** The broker manager of the admin dashboard (js/admin/brokers.js): broker
    accounts, their validation, role labels and commission rates, the
    performance score, and create, update and delete over the list. */
module AdminBrokers {
  import opened Common
  import opened Numbers

  /** `brokerData` in `saveBroker`. */
  datatype BrokerData = BrokerData(name: string, phone: string, email: string, role: string,
                                   location: string, active: bool, password: string,
                                   confirmPassword: string)

  datatype Broker = Broker(id: int, name: string, phone: string, email: string, role: string,
                           location: string, active: bool, joinDate: string,
                           totalOrders: real, totalRevenue: real, commission: real)

  /** The checks of `validateBrokerData`, in the order they run. */
  datatype BrokerError =
    | NameRequired | PhoneRequired | PhoneInvalid | EmailInvalid | PasswordTooShort | PasswordMismatch

  function Rank(e: BrokerError): nat {
    match e
    case NameRequired => 0
    case PhoneRequired => 1
    case PhoneInvalid => 2
    case EmailInvalid => 3
    case PasswordTooShort => 4
    case PasswordMismatch => 5
  }

  // ------------------------------------------------------------ e-mail

  /** `[^\s@]` */
  predicate Plain(c: char) {
    !IsSpace(c) && c != '@'
  }

  predicate AllPlain(t: string) {
    forall i :: 0 <= i < |t| ==> Plain(t[i])
  }

  /** The part after '@': plain characters with a '.' that is neither first
      nor last. */
  predicate Domain(d: string) {
    AllPlain(d) && exists k :: 0 < k < |d| - 1 && d[k] == '.'
  }

  /** `isValidEmail(email)`: `/^[^\s@]+@[^\s@]+\.[^\s@]+$/.test(email)` */
  predicate IsValidEmail(s: string)
    ensures IsValidEmail(s) ==> |s| >= 5 && Plain(s[0]) && Plain(s[|s| - 1])
  {
    exists at :: 0 < at < |s| && SplitsAt(s, at)
  }

  /** `s` is a plain local part, the '@' at `at`, and a domain. */
  predicate SplitsAt(s: string, at: nat)
    requires at < |s|
  {
    s[at] == '@' && AllPlain(s[..at]) && Domain(s[at + 1..])
  }

  /** A valid address has exactly one '@' and no white space. */
  lemma ValidEmailShape(s: string)
    requires IsValidEmail(s)
    ensures Count(s, '@') == 1
    ensures forall i :: 0 <= i < |s| ==> !IsSpace(s[i])
  {
    var at :| 0 < at < |s| && SplitsAt(s, at);
    var a, b := s[..at], s[at + 1..];
    AroundAt(s, at);
    OneAt(a, b);
    NoSpaceAround(a, b);
  }

  lemma AroundAt(s: string, at: nat)
    requires at < |s| && s[at] == '@'
    ensures s == s[..at] + "@" + s[at + 1..]
  {
    SplitJoin(s, at);
    assert s[at..] == [s[at]] + s[at + 1..];
  }

  lemma NoSpaceAround(a: string, b: string)
    requires AllPlain(a) && AllPlain(b)
    ensures forall i :: 0 <= i < |a + "@" + b| ==> !IsSpace((a + "@" + b)[i])
  {
    var s := a + "@" + b;
    forall i | 0 <= i < |s|
      ensures !IsSpace(s[i])
    {
      if i < |a| {
        assert Plain(a[i]);
      } else if i > |a| {
        assert Plain(b[i - |a| - 1]);
      }
    }
  }

  lemma OneAt(a: string, b: string)
    requires AllPlain(a) && AllPlain(b)
    ensures Count(a + "@" + b, '@') == 1
  {
    CountAppend(a + "@", b, '@');
    CountAppend(a, "@", '@');
    CountAbsent(a, '@');
    CountAbsent(b, '@');
    assert "@"[1..] == [];
  }

  // ------------------------------------------------------------ validation

  /** Whether the check reported as `e` fails; the password checks run only
      for a new broker. */
  predicate Fails(d: BrokerData, isEdit: bool, e: BrokerError) {
    match e
    case NameRequired => IsBlank(d.name)
    case PhoneRequired => IsBlank(d.phone)
    case PhoneInvalid => !IsKenyanPhone(StripSpaces(d.phone))
    case EmailInvalid => d.email != "" && !IsValidEmail(d.email)
    case PasswordTooShort => !isEdit && |d.password| < 6
    case PasswordMismatch => !isEdit && d.password != d.confirmPassword
  }

  /** The brokers the validation lets through, without the order of the
      checks: a name, a Kenyan phone number once spaces are removed, an
      e-mail that is empty or valid, and for a new broker a password of at
      least 6 characters typed twice. */
  predicate Acceptable(d: BrokerData, isEdit: bool) {
    !IsBlank(d.name)
    && IsKenyanPhone(StripSpaces(d.phone))
    && (d.email == "" || IsValidEmail(d.email))
    && (!isEdit ==> |d.password| >= 6 && d.password == d.confirmPassword)
  }

  /** A number that passes the pattern is not blank. */
  lemma KenyanPhoneNotBlank(phone: string)
    requires IsKenyanPhone(StripSpaces(phone))
    ensures !IsBlank(phone)
  {
    var t := StripSpaces(phone);
    FilterMembers(phone, NotSpace);
    assert t[0] in phone;
  }

  /** `validateBrokerData(data)`: the first failing check, or `None`.
      `isEdit` is whether the dialog title says "Edit". */
  function ValidateBrokerData(d: BrokerData, isEdit: bool): (r: Option<BrokerError>)
    ensures r.Some? ==> Fails(d, isEdit, r.value)
                        && forall e :: Rank(e) < Rank(r.value) ==> !Fails(d, isEdit, e)
    ensures r.None? <==> Acceptable(d, isEdit)
  {
    if IsBlank(d.name) then Some(NameRequired)
    else if IsBlank(d.phone) then StripBlank(d.phone); Some(PhoneRequired)
    else if !IsKenyanPhone(StripSpaces(d.phone)) then Some(PhoneInvalid)
    else if d.email != "" && !IsValidEmail(d.email) then Some(EmailInvalid)
    else if !isEdit && |d.password| < 6 then Some(PasswordTooShort)
    else if !isEdit && d.password != d.confirmPassword then Some(PasswordMismatch)
    else
      KenyanPhoneNotBlank(d.phone);
      None
  }

  /** `validateBrokerForm()`: the save button is enabled iff name, phone and
      role are given and, for a new broker, the password has at least 6
      characters and matches its confirmation. */
  function ValidateBrokerForm(d: BrokerData, isEdit: bool): (enabled: bool)
    ensures enabled <==> d.name != "" && d.phone != "" && d.role != ""
                         && (!isEdit ==> |d.password| >= 6 && d.password == d.confirmPassword)
  {
    var isValid := d.name != "" && d.phone != "" && d.role != "";
    if !isEdit then isValid && d.password != "" && |d.password| >= 6 && d.password == d.confirmPassword
    else isValid
  }

  /** Data that the full validation accepts, with a role chosen, also
      enables the save button. */
  lemma AcceptedEnablesSave(d: BrokerData, isEdit: bool)
    requires ValidateBrokerData(d, isEdit).None? && d.role != ""
    ensures ValidateBrokerForm(d, isEdit)
  {
    assert d.name != "" by {
      assert !IsBlank(d.name);
    }
    KenyanPhoneNotBlank(d.phone);
  }

  // ------------------------------------------------------------ roles and scores

  /** `getRoleDisplay(role)`: the label of a known role, the role itself
      otherwise. */
  function RoleDisplay(role: string): (shown: string)
    ensures role == "broker" ==> shown == "Broker"
    ensures role == "senior_broker" ==> shown == "Senior Broker"
    ensures role == "manager" ==> shown == "Manager"
    ensures role !in {"broker", "senior_broker", "manager"} ==> shown == role
  {
    if role == "broker" then "Broker"
    else if role == "senior_broker" then "Senior Broker"
    else if role == "manager" then "Manager"
    else role
  }

  /** `getDefaultCommission(role)`, in percent. */
  function DefaultCommission(role: string): (rate: real)
    ensures 5.0 <= rate <= 6.0
    ensures role == "senior_broker" <==> rate == 5.5
    ensures role == "manager" <==> rate == 6.0
    ensures role != "senior_broker" && role != "manager" ==> rate == 5.0
  {
    if role == "broker" then 5.0
    else if role == "senior_broker" then 5.5
    else if role == "manager" then 6.0
    else 5.0
  }

  function Min(a: real, b: real): real {
    if a <= b then a else b
  }

  const AverageOrders: real := 35.0
  const AverageRevenue: real := 2000000.0

  /** Half of the score: the ratio to the average, as a share of 50, capped
      at 50. */
  function HalfScore(value: real, average: real): (s: real)
    requires average > 0.0
    ensures s <= 50.0
    ensures value >= 0.0 ==> s >= 0.0
    ensures value >= average ==> s == 50.0
  {
    Min(value / average * 50.0, 50.0)
  }

  /** `calculatePerformancePercentage(broker)` */
  function PerformancePercentage(totalOrders: real, totalRevenue: real): (p: int)
    ensures totalOrders >= 0.0 && totalRevenue >= 0.0 ==> 0 <= p <= 100
    ensures totalOrders >= AverageOrders && totalRevenue >= AverageRevenue ==> p == 100
  {
    Round(HalfScore(totalOrders, AverageOrders) + HalfScore(totalRevenue, AverageRevenue))
  }

  // ------------------------------------------------------------ the list

  function IdIs(id: Option<int>): Broker -> bool {
    (b: Broker) => id == Some(b.id)
  }

  function IdIsNot(id: int): Broker -> bool {
    (b: Broker) => b.id != id
  }

  /** The record `createBroker` pushes: the form's account fields, no
      orders or revenue yet, and the role's default commission. `today` is
      the date of creation. */
  function NewBroker(d: BrokerData, now: int, today: string): (b: Broker)
    ensures b.id == now && b.joinDate == today
    ensures b.name == d.name && b.phone == d.phone && b.email == d.email
    ensures b.role == d.role && b.location == d.location && b.active == d.active
    ensures b.totalOrders == 0.0 && b.totalRevenue == 0.0
    ensures b.commission == DefaultCommission(d.role)
  {
    Broker(now, d.name, d.phone, d.email, d.role, d.location, d.active, today, 0.0, 0.0,
           DefaultCommission(d.role))
  }

  /** The merge in `updateBroker`: the account fields replaced, id, join
      date, statistics and commission kept. */
  function Merge(d: BrokerData): Broker -> Broker {
    (b: Broker) => b.(name := d.name, phone := d.phone, email := d.email, role := d.role,
                      location := d.location, active := d.active)
  }

  function UpdatedBrokers(brokers: seq<Broker>, id: Option<int>, d: BrokerData): seq<Broker> {
    UpdateFirst(brokers, IdIs(id), Merge(d))
  }

  /** `brokers.filter(b => b.id !== brokerId)` */
  function WithoutId(brokers: seq<Broker>, id: int): (r: seq<Broker>)
    ensures forall i :: 0 <= i < |r| ==> r[i].id != id && r[i] in brokers
    ensures forall i :: 0 <= i < |brokers| && brokers[i].id != id ==> brokers[i] in r
    ensures IsSubsequence(r, brokers)
  {
    FilterIsSubsequence(brokers, IdIsNot(id));
    FilterMembers(brokers, IdIsNot(id));
    Filter(brokers, IdIsNot(id))
  }

  /** An update keeps the statistics of every broker and changes only the
      first broker with that id, and of it only the account fields. */
  lemma UpdateKeepsStats(brokers: seq<Broker>, id: Option<int>, d: BrokerData)
    ensures var r := UpdatedBrokers(brokers, id, d);
            |r| == |brokers|
            && (forall i :: 0 <= i < |r| ==>
                  r[i].id == brokers[i].id && r[i].joinDate == brokers[i].joinDate
                  && r[i].totalOrders == brokers[i].totalOrders
                  && r[i].totalRevenue == brokers[i].totalRevenue
                  && r[i].commission == brokers[i].commission)
            && (forall i :: 0 <= i < |r| && Some(brokers[i].id) != id ==> r[i] == brokers[i])
            && ((forall i :: 0 <= i < |brokers| ==> Some(brokers[i].id) != id) ==> r == brokers)
  {
    match FindIndex(brokers, IdIs(id))
    case None =>
    case Some(k) =>
      assert UpdatedBrokers(brokers, id, d) == brokers[k := Merge(d)(brokers[k])];
  }

  class BrokerManager {
    var brokers: seq<Broker>

    constructor ()
      ensures brokers == []
    {
      brokers := [];
    }

    /** `createBroker(brokerData)`; `now` and `today` come from the clock. */
    method CreateBroker(d: BrokerData, now: int, today: string)
      modifies this
      ensures brokers == old(brokers) + [NewBroker(d, now, today)]
    {
      brokers := brokers + [NewBroker(d, now, today)];
    }

    /** `updateBroker(brokerId, brokerData)` */
    method UpdateBroker(brokerId: Option<int>, d: BrokerData)
      modifies this
      ensures brokers == UpdatedBrokers(old(brokers), brokerId, d)
    {
      brokers := UpdatedBrokers(brokers, brokerId, d);
    }

    /** `deleteBroker(brokerId)`; `confirmed` is the answer to the
        confirmation dialog. */
    method DeleteBroker(brokerId: int, confirmed: bool)
      modifies this
      ensures brokers == if confirmed then WithoutId(old(brokers), brokerId) else old(brokers)
    {
      if confirmed {
        brokers := WithoutId(brokers, brokerId);
      }
    }

    /** `saveBroker()`: an invalid form changes nothing; a valid one creates
        a broker, or in edit mode is applied to the broker being edited,
        whose id `getEditingBrokerId()` always reports as `null`. */
    method SaveBroker(d: BrokerData, isEdit: bool, now: int, today: string) returns (error: Option<BrokerError>)
      modifies this
      ensures error == ValidateBrokerData(d, isEdit)
      ensures error.Some? ==> brokers == old(brokers)
      ensures error.None? && !isEdit ==> brokers == old(brokers) + [NewBroker(d, now, today)]
      ensures error.None? && isEdit ==> brokers == old(brokers)
    {
      error := ValidateBrokerData(d, isEdit);
      if error.Some? {
        return;
      }
      if isEdit {
        assert FindIndex(brokers, IdIs(None)).None?;
        UpdateBroker(None, d);
      } else {
        CreateBroker(d, now, today);
      }
    }
  }
}
