/** The TLS alert rule's message builder: it decides whether a certificate
    is expiring, aging or healthy against two absolute thresholds and
    produces the summary and status shown in the alert.

    The wall clock is the parameter `now` (epoch milliseconds). Translated
    strings and formatted dates are symbolic: a `Summary` constructor names
    the message template and carries the date and the day count passed to
    it. */
module TlsMessage {
  import opened Wrappers

  /** Milliseconds in a day: the unit of `diff(date, 'days')`. */
  const MsPerDay: int := 86_400_000

  /** A certificate date field as the rule receives it. `Absent` is every
      falsy value (undefined, null, the empty string); `Unparseable` is a
      non-empty string that JavaScript's `Date` cannot read; `At` is an
      instant in epoch milliseconds. */
  datatype CertDate = Absent | Unparseable | At(ms: int)

  datatype Cert = Cert(
    notBefore: CertDate,
    notAfter: CertDate,
    commonName: Option<string>,
    issuer: Option<string>,
    monitorName: string,
    monitorType: string,
    locationName: string,
    monitorUrl: string)

  /** The four status labels of the translations. */
  datatype Status = Expired | Expiring | Aging | Invalid

  /** The summary texts. `NoSummary` is the empty string; the two `Missing`
      texts are the fixed error summaries; the other four are the translated
      templates applied to the formatted date and a day count, where a
      `None` day count is JavaScript's NaN. */
  datatype Summary =
    | NoSummary
    | MissingNotBefore
    | MissingNotAfter
    | ValidBeforeExpired(date: CertDate, daysAgo: int)
    | ValidBeforeExpiring(date: CertDate, daysAhead: Option<int>)
    | ValidAfterExpired(date: CertDate, daysAgo: int)
    | ValidAfterExpiring(date: CertDate, daysAhead: Option<int>)

  /** What a formatter returns: a summary and, except on the missing-date
      path, a status. */
  datatype Content = Content(summary: Summary, status: Option<Status>)

  /** The flat alert payload; a `None` status is the empty string. */
  datatype Alert = Alert(
    summary: Summary,
    status: Option<Status>,
    commonName: string,
    issuer: string,
    monitorName: string,
    monitorType: string,
    locationName: string,
    monitorUrl: string)

  function Abs(x: int): nat {
    if x < 0 then -x else x
  }

  /** A span of milliseconds in whole days, truncated toward zero as moment
      does (Dafny's own `/` rounds negative spans the other way). */
  function WholeDays(ms: int): (days: int)
    ensures Abs(days) * MsPerDay <= Abs(ms) < (Abs(days) + 1) * MsPerDay
    ensures days > 0 ==> ms > 0
    ensures days < 0 ==> ms < 0
    ensures days >= 0 <==> ms > -MsPerDay
  {
    if ms >= 0 then ms / MsPerDay else -((-ms) / MsPerDay)
  }

  /** `new Date(field ?? '').valueOf()`, with NaN as `None`. */
  function Parsed(d: CertDate): Option<int> {
    match d
    case At(t) => Some(t)
    case _ => None
  }

  /** `moment().diff(date, 'days')`: whole days from `date` to `now`, `None`
      when the date cannot be read. */
  function RelativeDays(now: int, d: CertDate): (r: Option<int>)
    ensures r.Some? <==> d.At?
    ensures d.At? ==> (r.value >= 0 <==> d.ms < now + MsPerDay)
  {
    match d
    case At(t) => Some(WholeDays(now - t))
    case _ => None
  }

  /** `getValidBefore`: the message for a certificate on the aging branch,
      from its start-of-validity date. */
  function ValidBefore(cert: Cert, now: int): (c: Content)
    ensures cert.notBefore.Absent? <==> c == Content(MissingNotBefore, None)
    ensures cert.notBefore.At? ==>
      c.status == Some(if cert.notBefore.ms < now + MsPerDay then Aging else Invalid)
    ensures cert.notBefore.Unparseable? ==> c.status == Some(Invalid)
    ensures !cert.notBefore.Absent? ==>
      (c.summary.ValidBeforeExpired? || c.summary.ValidBeforeExpiring?) &&
      c.summary.date == cert.notBefore &&
      (c.summary.ValidBeforeExpired? <==> c.status == Some(Aging)) &&
      (c.summary.ValidBeforeExpiring? <==> c.status == Some(Invalid))
  {
    var date := cert.notBefore;
    if date.Absent? then Content(MissingNotBefore, None)
    else
      var relativeDate := RelativeDays(now, date);
      if relativeDate.Some? && relativeDate.value >= 0 then
        Content(ValidBeforeExpired(date, relativeDate.value), Some(Aging))
      else
        var magnitude := if relativeDate.Some? then Some(Abs(relativeDate.value)) else None;
        Content(ValidBeforeExpiring(date, magnitude), Some(Invalid))
  }

  /** `getValidAfter`: the message for a certificate on the expiring branch,
      from its end-of-validity date. */
  function ValidAfter(cert: Cert, now: int): (c: Content)
    ensures cert.notAfter.Absent? <==> c == Content(MissingNotAfter, None)
    ensures cert.notAfter.At? ==>
      c.status == Some(if cert.notAfter.ms < now + MsPerDay then Expired else Expiring)
    ensures cert.notAfter.Unparseable? ==> c.status == Some(Expiring)
    ensures !cert.notAfter.Absent? ==>
      (c.summary.ValidAfterExpired? || c.summary.ValidAfterExpiring?) &&
      c.summary.date == cert.notAfter &&
      (c.summary.ValidAfterExpired? <==> c.status == Some(Expired)) &&
      (c.summary.ValidAfterExpiring? <==> c.status == Some(Expiring))
  {
    var date := cert.notAfter;
    if date.Absent? then Content(MissingNotAfter, None)
    else
      var relativeDate := RelativeDays(now, date);
      if relativeDate.Some? && relativeDate.value >= 0 then
        Content(ValidAfterExpired(date, relativeDate.value), Some(Expired))
      else
        var magnitude := if relativeDate.Some? then Some(Abs(relativeDate.value)) else None;
        Content(ValidAfterExpiring(date, magnitude), Some(Expiring))
  }

  /** `new Date(cert.not_after ?? '').valueOf() < expirationThreshold`. */
  predicate IsExpiring(cert: Cert, expirationThreshold: int)
    ensures IsExpiring(cert, expirationThreshold) <==>
      cert.notAfter.At? && cert.notAfter.ms < expirationThreshold
  {
    match Parsed(cert.notAfter)
    case Some(t) => t < expirationThreshold
    case None => false
  }

  /** `new Date(cert.not_before ?? '').valueOf() < ageThreshold`. */
  predicate IsAging(cert: Cert, ageThreshold: int)
    ensures IsAging(cert, ageThreshold) <==>
      cert.notBefore.At? && cert.notBefore.ms < ageThreshold
  {
    match Parsed(cert.notBefore)
    case Some(t) => t < ageThreshold
    case None => false
  }

  /** `getCertSummary`: the alert payload for one certificate. */
  function CertSummary(cert: Cert, now: int, expirationThreshold: int, ageThreshold: int): (a: Alert)
    ensures a.commonName == cert.commonName.GetOr("")
    ensures a.issuer == cert.issuer.GetOr("")
    ensures a.monitorName == cert.monitorName && a.monitorType == cert.monitorType
    ensures a.locationName == cert.locationName && a.monitorUrl == cert.monitorUrl
  {
    var content: Option<Content> :=
      if IsExpiring(cert, expirationThreshold) then Some(ValidAfter(cert, now))
      else if IsAging(cert, ageThreshold) then Some(ValidBefore(cert, now))
      else None;
    Alert(
      if content.Some? then content.value.summary else NoSummary,
      if content.Some? then content.value.status else None,
      cert.commonName.GetOr(""),
      cert.issuer.GetOr(""),
      cert.monitorName,
      cert.monitorType,
      cert.locationName,
      cert.monitorUrl)
  }

  /** The status a certificate should get, stated on instants alone: an end
      date under the expiration threshold is expired once it is less than a
      day ahead of `now` and expiring otherwise; failing that, a start date
      under the age threshold is aging once it is less than a day ahead and
      invalid (not valid yet) otherwise; else no status. */
  function ExpectedStatus(cert: Cert, now: int, expirationThreshold: int, ageThreshold: int): Option<Status> {
    if cert.notAfter.At? && cert.notAfter.ms < expirationThreshold then
      Some(if cert.notAfter.ms < now + MsPerDay then Expired else Expiring)
    else if cert.notBefore.At? && cert.notBefore.ms < ageThreshold then
      Some(if cert.notBefore.ms < now + MsPerDay then Aging else Invalid)
    else None
  }

  /** Any count meeting truncation's bounds and sign is the one WholeDays
      computes: the contract of WholeDays pins its result down. */
  lemma WholeDaysUnique(ms: int, days: int)
    requires Abs(days) * MsPerDay <= Abs(ms) < (Abs(days) + 1) * MsPerDay
    requires days > 0 ==> ms > 0
    requires days < 0 ==> ms < 0
    ensures days == WholeDays(ms)
  {
  }

  /** A certificate on the expiring branch gets its content from
      getValidAfter, whether or not it is also aging. */
  lemma ExpiringTakesPrecedence(cert: Cert, now: int, expirationThreshold: int, ageThreshold: int)
    requires IsExpiring(cert, expirationThreshold)
    ensures var a := CertSummary(cert, now, expirationThreshold, ageThreshold);
      Content(a.summary, a.status) == ValidAfter(cert, now)
  {
  }

  /** getValidBefore is used exactly when the certificate is aging and not
      expiring. */
  lemma AgingBranch(cert: Cert, now: int, expirationThreshold: int, ageThreshold: int)
    requires !IsExpiring(cert, expirationThreshold) && IsAging(cert, ageThreshold)
    ensures var a := CertSummary(cert, now, expirationThreshold, ageThreshold);
      Content(a.summary, a.status) == ValidBefore(cert, now)
  {
  }

  /** Empty summary, empty status and "neither expiring nor aging" are the
      same thing: a healthy certificate yields no alert text and every
      alerting one yields both a summary and a status. */
  lemma HealthyMeansEmpty(cert: Cert, now: int, expirationThreshold: int, ageThreshold: int)
    ensures var a := CertSummary(cert, now, expirationThreshold, ageThreshold);
      var healthy := !IsExpiring(cert, expirationThreshold) && !IsAging(cert, ageThreshold);
      (a.summary == NoSummary <==> healthy) && (a.status == None <==> healthy)
  {
  }

  /** An end date that is missing or cannot be read never makes a
      certificate expiring, nor a missing start date aging; with both
      missing the alert is empty. */
  lemma MissingDatesNeverAlert(cert: Cert, now: int, expirationThreshold: int, ageThreshold: int)
    ensures !cert.notAfter.At? ==> !IsExpiring(cert, expirationThreshold)
    ensures !cert.notBefore.At? ==> !IsAging(cert, ageThreshold)
    ensures !cert.notAfter.At? && !cert.notBefore.At? ==>
      var a := CertSummary(cert, now, expirationThreshold, ageThreshold);
      a.summary == NoSummary && a.status == None
  {
  }

  /** The formatters' missing-date guards never fire inside getCertSummary:
      a formatter is only reached with a readable date. */
  lemma MissingDateGuardUnreachable(cert: Cert, now: int, expirationThreshold: int, ageThreshold: int)
    ensures var a := CertSummary(cert, now, expirationThreshold, ageThreshold);
      a.summary != MissingNotAfter && a.summary != MissingNotBefore
  {
  }

  /** The status getCertSummary reports is the one ExpectedStatus states on
      instants, so it is always exactly one of "", expired, expiring, aging
      or invalid, the first two only on the expiring branch and the last two
      only on the aging branch. */
  lemma StatusMatchesExpected(cert: Cert, now: int, expirationThreshold: int, ageThreshold: int)
    ensures var a := CertSummary(cert, now, expirationThreshold, ageThreshold);
      a.status == ExpectedStatus(cert, now, expirationThreshold, ageThreshold)
    ensures var a := CertSummary(cert, now, expirationThreshold, ageThreshold);
      (a.status == Some(Expired) || a.status == Some(Expiring) <==> IsExpiring(cert, expirationThreshold)) &&
      (a.status == Some(Aging) || a.status == Some(Invalid) <==>
        !IsExpiring(cert, expirationThreshold) && IsAging(cert, ageThreshold))
  {
  }

  /** The day count in an "expired" end-date message is the number of whole
      days since the end date: `days` full days have passed and `days + 1`
      have not (for zero: the end date is less than a day away either
      side of now). */
  lemma ValidAfterExpiredDays(cert: Cert, now: int)
    requires cert.notAfter.At?
    requires ValidAfter(cert, now).summary.ValidAfterExpired?
    ensures var days := ValidAfter(cert, now).summary.daysAgo;
      var t := cert.notAfter.ms;
      days >= 0 && -MsPerDay < now - t < (days + 1) * MsPerDay &&
      (days > 0 ==> days * MsPerDay <= now - t)
  {
  }

  /** In an "expires in" message for a readable end date, the day count is
      at least one and is the number of whole days until the end date. */
  lemma ValidAfterExpiringDays(cert: Cert, now: int)
    requires cert.notAfter.At?
    requires ValidAfter(cert, now).summary.ValidAfterExpiring?
    ensures var days := ValidAfter(cert, now).summary.daysAhead;
      var t := cert.notAfter.ms;
      days.Some? && days.value > 0 &&
      days.value * MsPerDay <= t - now < (days.value + 1) * MsPerDay
  {
  }

  /** In a "valid since" start-date message the day count is the whole days
      elapsed since the start date (zero when it is less than a day ahead). */
  lemma ValidBeforeExpiredDays(cert: Cert, now: int)
    requires cert.notBefore.At?
    requires ValidBefore(cert, now).summary.ValidBeforeExpired?
    ensures var days := ValidBefore(cert, now).summary.daysAgo;
      var t := cert.notBefore.ms;
      days >= 0 && -MsPerDay < now - t < (days + 1) * MsPerDay &&
      (days > 0 ==> days * MsPerDay <= now - t)
  {
  }

  /** In a "becomes valid in" message for a readable start date, the day
      count is at least one and is the number of whole days until the start
      date. */
  lemma ValidBeforeExpiringDays(cert: Cert, now: int)
    requires cert.notBefore.At?
    requires ValidBefore(cert, now).summary.ValidBeforeExpiring?
    ensures var days := ValidBefore(cert, now).summary.daysAhead;
      var t := cert.notBefore.ms;
      days.Some? && days.value > 0 &&
      days.value * MsPerDay <= t - now < (days.value + 1) * MsPerDay
  {
  }

  /** A date that is present but cannot be read passes the formatter's guard
      and reaches the "expires in" / "becomes valid in" texts with a NaN day
      count; getCertSummary never calls a formatter with such a date. */
  lemma UnparseableDateFormatting(cert: Cert, now: int)
    ensures cert.notAfter.Unparseable? ==>
      ValidAfter(cert, now) == Content(ValidAfterExpiring(Unparseable, None), Some(Expiring))
    ensures cert.notBefore.Unparseable? ==>
      ValidBefore(cert, now) == Content(ValidBeforeExpiring(Unparseable, None), Some(Invalid))
  {
  }

  // 2024-01-01, 2024-03-01, 2023-12-01, 2024-06-01 and 2020-01-01 at
  // midnight UTC, in epoch milliseconds.
  const Jan1st2024: int := 1_704_067_200_000
  const Mar1st2024: int := 1_709_251_200_000
  const Dec1st2023: int := 1_701_388_800_000
  const Jun1st2024: int := 1_717_200_000_000
  const Jan1st2020: int := 1_577_836_800_000

  /** A certificate that ended on 2024-01-01, seen on 2024-03-01 with an
      expiration threshold of 2024-06-01, expired 60 days ago. */
  lemma ExpiredSixtyDaysAgo(cert: Cert)
    requires cert.notAfter == At(Jan1st2024) && cert.notBefore == At(Jan1st2020)
    ensures var a := CertSummary(cert, Mar1st2024, Jun1st2024, Jan1st2020 + 1);
      a.status == Some(Expired) && a.summary == ValidAfterExpired(At(Jan1st2024), 60)
  {
  }

  /** The same certificate seen on 2023-12-01 expires in 31 days. */
  lemma ExpiresInThirtyOneDays(cert: Cert)
    requires cert.notAfter == At(Jan1st2024) && cert.notBefore == At(Jan1st2020)
    ensures var a := CertSummary(cert, Dec1st2023, Jun1st2024, Jan1st2020 + 1);
      a.status == Some(Expiring) && a.summary == ValidAfterExpiring(At(Jan1st2024), Some(31))
  {
  }
}
