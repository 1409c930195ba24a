/** The settings manager of the admin dashboard (js/admin/settings.js): the
    general and security sections, their validation and merge on save, the
    check of a backup before it is restored, and the uptime display. */
module AdminSettings {
  import opened Common
  import opened Numbers

  /** A JSON value, as `JSON.parse` returns it and as the settings object is
      made of. */
  datatype Value =
    | Null
    | Bool(b: bool)
    | Num(n: real)
    | Str(s: string)
    | Arr(items: seq<Value>)
    | Obj(fields: map<string, Value>)

  /** JavaScript truthiness of a JSON value. */
  predicate Truthy(v: Value) {
    match v
    case Null => false
    case Bool(b) => b
    case Num(n) => n != 0.0
    case Str(s) => s != ""
    case Arr(_) => true
    case Obj(_) => true
  }

  /** `v[key]`; `None` for `undefined`. */
  function Get(v: Value, key: string): (r: Option<Value>)
    ensures r.Some? <==> v.Obj? && key in v.fields
  {
    if v.Obj? && key in v.fields then Some(v.fields[key]) else None
  }

  /** `v[key]` is there and truthy. */
  predicate TruthyAt(v: Value, key: string) {
    Get(v, key).Some? && Truthy(Get(v, key).value)
  }

  /** The own fields of `v` as a spread `{...v}` copies them; a value that
      is not an object (`undefined` included) contributes none. */
  function Fields(v: Option<Value>): map<string, Value> {
    if v.Some? && v.value.Obj? then v.value.fields else map[]
  }

  // ------------------------------------------------------------ general

  datatype GeneralForm = GeneralForm(companyName: string, whatsappNumber: string, currency: string)

  datatype GeneralError = CompanyNameRequired | WhatsappNumberRequired | WhatsappNumberInvalid

  /** `validateGeneralSettings(data)`: the first failing check, or `None`. */
  function ValidateGeneralSettings(d: GeneralForm): (r: Option<GeneralError>)
    ensures r.None? <==> !IsBlank(d.companyName) && IsKenyanPhone(StripSpaces(d.whatsappNumber))
    ensures r == Some(CompanyNameRequired) <==> IsBlank(d.companyName)
    ensures r == Some(WhatsappNumberRequired) <==> !IsBlank(d.companyName) && IsBlank(d.whatsappNumber)
  {
    if IsBlank(d.companyName) then Some(CompanyNameRequired)
    else if IsBlank(d.whatsappNumber) then StripBlank(d.whatsappNumber); Some(WhatsappNumberRequired)
    else if !IsKenyanPhone(StripSpaces(d.whatsappNumber)) then Some(WhatsappNumberInvalid)
    else
      assert !IsBlank(d.whatsappNumber) by {
        var t := StripSpaces(d.whatsappNumber);
        FilterMembers(d.whatsappNumber, NotSpace);
        assert t[0] in d.whatsappNumber;
      }
      None
  }

  /** The fields a general save writes. */
  function GeneralFields(d: GeneralForm): map<string, Value> {
    map["companyName" := Str(d.companyName), "whatsappNumber" := Str(d.whatsappNumber),
        "currency" := Str(d.currency)]
  }

  // ------------------------------------------------------------ security

  /** The security form, with `parseInt` already applied (`None` for NaN). */
  datatype SecurityForm = SecurityForm(sessionTimeout: Option<int>, maxLoginAttempts: Option<int>,
                                       twoFactorAuth: string)

  datatype SecurityError = SessionTimeoutOutOfRange | MaxLoginAttemptsOutOfRange

  /** `validateSecuritySettings(data)`: the session timeout must be 5 to 120
      minutes and the attempts 3 to 10; `NaN` and 0 fail. */
  function ValidateSecuritySettings(d: SecurityForm): (r: Option<SecurityError>)
    ensures r.None? <==> d.sessionTimeout.Some? && 5 <= d.sessionTimeout.value <= 120
                         && d.maxLoginAttempts.Some? && 3 <= d.maxLoginAttempts.value <= 10
    ensures r == Some(SessionTimeoutOutOfRange) <==>
              !(d.sessionTimeout.Some? && 5 <= d.sessionTimeout.value <= 120)
  {
    if d.sessionTimeout.None? || d.sessionTimeout.value == 0
       || d.sessionTimeout.value < 5 || d.sessionTimeout.value > 120 then Some(SessionTimeoutOutOfRange)
    else if d.maxLoginAttempts.None? || d.maxLoginAttempts.value == 0
       || d.maxLoginAttempts.value < 3 || d.maxLoginAttempts.value > 10 then Some(MaxLoginAttemptsOutOfRange)
    else None
  }

  /** The fields a security save writes; only called on a valid form. */
  function SecurityFields(d: SecurityForm): map<string, Value>
    requires d.sessionTimeout.Some? && d.maxLoginAttempts.Some?
  {
    map["sessionTimeout" := Num(d.sessionTimeout.value as real),
        "maxLoginAttempts" := Num(d.maxLoginAttempts.value as real),
        "twoFactorAuth" := Bool(d.twoFactorAuth == "on")]
  }

  /** `section = {...section, ...fields}` inside the settings object. */
  function Merged(settings: map<string, Value>, section: string, fields: map<string, Value>): map<string, Value> {
    settings[section := Obj(Fields(if section in settings then Some(settings[section]) else None) + fields)]
  }

  /** A merge writes the given fields, keeps every other field of the
      section, and leaves the other sections alone. */
  lemma MergeKeepsOthers(settings: map<string, Value>, section: string, fields: map<string, Value>)
    ensures var r := Merged(settings, section, fields);
            var old_ := Fields(if section in settings then Some(settings[section]) else None);
            r.Keys == settings.Keys + {section}
            && (forall k :: k in settings && k != section ==> r[k] == settings[k])
            && r[section].Obj?
            && (forall k :: k in fields ==> r[section].fields[k] == fields[k])
            && (forall k :: k in old_ && k !in fields ==> k in r[section].fields && r[section].fields[k] == old_[k])
            && r[section].fields.Keys == old_.Keys + fields.Keys
  {
  }

  // ------------------------------------------------------------ backups

  /** `validateBackupData(data)` */
  predicate ValidateBackupData(data: Value)
    ensures ValidateBackupData(data) ==>
              data.Obj? && "settings" in data.fields && data.fields["settings"].Obj?
              && "general" in data.fields["settings"].fields && "security" in data.fields["settings"].fields
              && Truthy(data.fields["settings"].fields["security"])
  {
    Truthy(data) && TruthyAt(data, "settings") && TruthyAt(data, "backupDate") && TruthyAt(data, "version")
    && TruthyAt(data.fields["settings"], "general") && TruthyAt(data.fields["settings"], "security")
  }

  const BackupVersion := "1.0.0"

  /** The object `backupSettings()` writes out; `date` is the ISO time. */
  function Backup(settings: map<string, Value>, date: string): Value {
    Obj(map["settings" := Obj(settings), "backupDate" := Str(date), "version" := Str(BackupVersion)])
  }

  /** A backup of settings that have both sections passes the check, and
      restoring it gives the settings back. */
  lemma BackupRestores(settings: map<string, Value>, date: string)
    requires date != ""
    requires "general" in settings && Truthy(settings["general"])
    requires "security" in settings && Truthy(settings["security"])
    ensures ValidateBackupData(Backup(settings, date))
    ensures Get(Backup(settings, date), "settings") == Some(Obj(settings))
  {
  }

  /** A backup without a security section is refused. */
  lemma BackupNeedsSecurity(settings: map<string, Value>, date: string)
    requires "security" !in settings
    ensures !ValidateBackupData(Backup(settings, date))
  {
    assert Backup(settings, date).fields["settings"] == Obj(settings);
  }

  // ------------------------------------------------------------ uptime

  const DayMs := 86400000
  const HourMs := 3600000
  const MinuteMs := 60000

  /** JavaScript `a % b` for `b > 0`: the remainder takes the sign of `a`. */
  function JsRem(a: int, b: int): (r: int)
    requires b > 0
    ensures a >= 0 ==> r == a % b
    ensures -b < r < b
  {
    if a >= 0 then a % b else -((-a) % b)
  }

  datatype Uptime = Uptime(days: int, hours: int, minutes: int)

  /** `getUptime()` for `diff` milliseconds since the start date:
      `Math.floor` of each quotient, with JavaScript remainders. */
  function GetUptime(diff: int): (u: Uptime)
    ensures diff >= 0 ==> u.days >= 0 && 0 <= u.hours <= 23 && 0 <= u.minutes <= 59
  {
    Uptime(diff / DayMs, JsRem(diff, DayMs) / HourMs, JsRem(diff, HourMs) / MinuteMs)
  }

  lemma MulAtLeast(k: int, b: int)
    requires k >= 1 && b > 0
    ensures k * b >= b
  {
    assert k * b == (k - 1) * b + b;
  }

  /** Division with remainder is unique. */
  lemma DivModUnique(a: int, b: int, q: int, r: int)
    requires b > 0 && a == q * b + r && 0 <= r < b
    ensures a / b == q && a % b == r
  {
    var q' := a / b;
    var r' := a % b;
    assert q * b - q' * b == r' - r;
    if q > q' {
      MulAtLeast(q - q', b);
      assert false;
    } else if q < q' {
      MulAtLeast(q' - q, b);
      assert false;
    }
  }

  /** For time since the start, the three parts recombine to the elapsed
      time rounded down to the minute. */
  lemma UptimeRecombines(diff: int)
    requires diff >= 0
    ensures var u := GetUptime(diff);
            u.days * DayMs + u.hours * HourMs + u.minutes * MinuteMs == diff - diff % MinuteMs
  {
    var u := GetUptime(diff);
    var r := diff % DayMs;
    var m := r % HourMs;
    var sec := m % MinuteMs;
    assert r == u.hours * HourMs + m;
    DivModUnique(diff, HourMs, u.days * 24 + u.hours, m);
    assert u.minutes == m / MinuteMs;
    assert m == u.minutes * MinuteMs + sec;
    DivModUnique(diff, MinuteMs, u.days * 1440 + u.hours * 60 + u.minutes, sec);
  }

  /** `s` is the plain decimal text of `n`, and `parseInt` reads it back. */
  predicate ReadsAs(s: string, n: int) {
    |s| >= 1 && AllDigits(s) && ParseInt(s) == Some(n)
  }

  /** The text `getUptime()` returns: for time since the start, the days,
      hours and minutes as plain decimal numbers, each before its unit. */
  function UptimeText(diff: int): (t: string)
    ensures diff >= 0 ==>
              exists d, h, m :: t == d + "d " + h + "h " + m + "m"
                && ReadsAs(d, GetUptime(diff).days) && ReadsAs(h, GetUptime(diff).hours)
                && ReadsAs(m, GetUptime(diff).minutes)
  {
    var u := GetUptime(diff);
    var d := IntToString(u.days);
    var h := IntToString(u.hours);
    var m := IntToString(u.minutes);
    ParseIntRoundTrip(u.days);
    ParseIntRoundTrip(u.hours);
    ParseIntRoundTrip(u.minutes);
    assert diff >= 0 ==> ReadsAs(d, u.days) && ReadsAs(h, u.hours) && ReadsAs(m, u.minutes);
    d + "d " + h + "h " + m + "m"
  }

  // ------------------------------------------------------------ the manager

  class SettingsManager {
    var settings: map<string, Value>

    constructor ()
      ensures settings == map[]
    {
      settings := map[];
    }

    /** `saveGeneralSettings()`: a valid form is merged into the general
        section; an invalid one changes nothing. */
    method SaveGeneralSettings(d: GeneralForm) returns (error: Option<GeneralError>)
      modifies this
      ensures error == ValidateGeneralSettings(d)
      ensures error.Some? ==> settings == old(settings)
      ensures error.None? ==> settings == Merged(old(settings), "general", GeneralFields(d))
    {
      error := ValidateGeneralSettings(d);
      if error.None? {
        settings := Merged(settings, "general", GeneralFields(d));
      }
    }

    /** `saveSecuritySettings()`: a valid form is merged into the security
        section, which keeps its password policy; an invalid one changes
        nothing. */
    method SaveSecuritySettings(d: SecurityForm) returns (error: Option<SecurityError>)
      modifies this
      ensures error == ValidateSecuritySettings(d)
      ensures error.Some? ==> settings == old(settings)
      ensures error.None? ==> settings == Merged(old(settings), "security", SecurityFields(d))
    {
      error := ValidateSecuritySettings(d);
      if error.None? {
        settings := Merged(settings, "security", SecurityFields(d));
      }
    }

    /** The load handler of `restoreSettings(file)`: `backup` is the parsed
        file and `confirmed` the answer to the confirmation dialog. The
        settings are replaced only by a backup that passes the check. */
    method RestoreSettings(backup: Value, confirmed: bool) returns (restored: bool)
      modifies this
      ensures restored <==> ValidateBackupData(backup) && confirmed
      ensures restored ==> settings == backup.fields["settings"].fields
                           && "general" in settings && "security" in settings
      ensures !restored ==> settings == old(settings)
    {
      if !ValidateBackupData(backup) || !confirmed {
        return false;
      }
      var restoredSettings := backup.fields["settings"];
      if !restoredSettings.Obj? {
        // a truthy non-object has no `general` field, so the check failed
        assert false;
        return false;
      }
      settings := restoredSettings.fields;
      restored := true;
    }
  }
}
