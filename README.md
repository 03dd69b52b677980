# Synthetics TLS alert messages and server start-up, in Dafny

This project models two pieces of the Kibana synthetics server plugin.

**The TLS rule's message builder** (`TlsMessage`, in `tls_message.dfy`).
`getCertSummary` takes a certificate and two absolute thresholds in
milliseconds: one for expiration and one for age. It decides whether the
certificate is expiring (end date under the expiration threshold) or aging
(start date under the age threshold). Expiring wins when both hold. On the
expiring branch, `getValidAfter` turns the end date into an "expired N days
ago" or "expires in N days" message. On the aging branch, `getValidBefore`
turns the start date into a "valid since N days ago" message (status aging)
or a "becomes valid in N days" message (status invalid). The whole-day
difference from the date to now, truncated toward zero, is the N of the
"expired" and "valid since" texts; the "expires in" and "becomes valid in"
texts carry its absolute value. The payload then gets the certificate's
identity fields, with `""` as the default. `mapCertsToSummaryString` only
applies the chosen formatter to the certificate, so `CertSummary` calls
the formatter directly.

The model works on these terms:

- The clock is a parameter `now`, in epoch milliseconds.
- A certificate date is `Absent`, `Unparseable` or `At(ms)`. `Absent` covers
  undefined, null and the empty string, all falsy for the formatters'
  guard. `Unparseable` is a string that `Date` cannot read.
- NaN is `None`: for a parsed date, for a day count, and in a threshold
  comparison, where it makes the comparison false.
- Translated texts and formatted dates are symbolic. A `Summary` constructor
  names the template and carries the date and day count given to it. A
  `None` status, like `NoSummary`, stands for the empty string.

**Server start-up** (`SyntheticsServer`, in `synthetics_server.dfy`).
`initSyntheticsServer` runs through the REST route list in order:

1. It wraps each route.
2. It builds the definition `{path, validate, options}`.
3. It dispatches on the method string to `router.get`, `post`, `put` or
   `delete`, passing the handler beside the definition.
4. On any other method it throws `Handler for method <m> is not defined`.
   It undoes nothing.

When every route has dispatched, it registers the status-check rule type
and then the TLS-check rule type.

The router and the alerting registry are one class, `Host`. Its only field
is the ordered log of registration calls it received, so ordering between
route and rule registrations can be stated. `InitSyntheticsServer` is
proved against the specification functions `StartupLog` and
`StartupOutcome`. The lemmas about those functions state the dispatch,
ordering and failure properties.

Points where the code's behaviour is easy to misread:

- A missing or unreadable date is not treated as the earliest instant. A
  NaN comparison is false, so such a certificate is neither expiring nor
  aging, and the formatters' missing-date guard cannot be reached from
  `getCertSummary`.
- An end date less than one day ahead counts as "expired 0 days ago", not
  as expiring, because of the truncated day count.
- A start date one day or more ahead gives the fifth status, invalid. A
  start date less than one day ahead counts as aging, "valid since 0 days
  ago".
- An unknown method leaves the routes before it registered. Registration is
  not transactional.
- Duplicate path and method pairs are not detected.

## Model

| member | source | states |
|---|---|---|
| TlsMessage.WholeDays | x-pack/plugins/synthetics/server/alert_rules/tls_rule/message_utils.ts:18 | the day count d of a millisecond span s is truncation toward zero: abs(d) full days fit in abs(s) and abs(d)+1 do not, d has the sign of s, and d >= 0 exactly when s is more than minus one day |
| TlsMessage.WholeDaysUnique | x-pack/plugins/synthetics/server/alert_rules/tls_rule/message_utils.ts:32 | any count meeting those bounds and that sign is the one WholeDays computes, so WholeDays's contract determines it |
| TlsMessage.RelativeDays | x-pack/plugins/synthetics/server/alert_rules/tls_rule/message_utils.ts:32 | the day difference is a number exactly for a readable date, and it is non-negative exactly when the date is less than one day after now |
| TlsMessage.ValidBefore | x-pack/plugins/synthetics/server/alert_rules/tls_rule/message_utils.ts:16-29 | a missing start date gives exactly the fixed error summary with no status (and only that case does); a readable one gives aging when it is less than a day ahead of now and invalid otherwise; an unreadable one gives invalid. Otherwise the summary is the "valid since" text exactly when the status is aging and the "becomes valid in" text exactly when it is invalid, and it carries the certificate's own start date |
| TlsMessage.ValidAfter | x-pack/plugins/synthetics/server/alert_rules/tls_rule/message_utils.ts:30-43 | a missing end date gives exactly the fixed error summary with no status (and only that case does); a readable one gives expired when it is less than a day ahead of now and expiring otherwise; an unreadable one gives expiring. Otherwise the summary is the "expired" text exactly when the status is expired and the "expires in" text exactly when it is expiring, and it carries the certificate's own end date |
| TlsMessage.IsExpiring | x-pack/plugins/synthetics/server/alert_rules/tls_rule/message_utils.ts:49 | the certificate is expiring exactly when its end date is readable and before the expiration threshold; a missing or unreadable end date compares as NaN, which is false |
| TlsMessage.IsAging | x-pack/plugins/synthetics/server/alert_rules/tls_rule/message_utils.ts:50 | the certificate is aging exactly when its start date is readable and before the age threshold; a missing or unreadable start date compares as NaN, which is false |
| TlsMessage.CertSummary | x-pack/plugins/synthetics/server/alert_rules/tls_rule/message_utils.ts:60-69 | common name and issuer default to "" when absent and are otherwise copied; monitor name, type, location and URL are passed through on every branch |
| TlsMessage.ExpiringTakesPrecedence | x-pack/plugins/synthetics/server/alert_rules/tls_rule/message_utils.ts:44-54 | an expiring certificate's summary and status are getValidAfter's, whether or not it is also aging |
| TlsMessage.AgingBranch | x-pack/plugins/synthetics/server/alert_rules/tls_rule/message_utils.ts:44-57 | a certificate that is aging and not expiring gets getValidBefore's summary and status |
| TlsMessage.HealthyMeansEmpty | x-pack/plugins/synthetics/server/alert_rules/tls_rule/message_utils.ts:51-62 | the summary is empty if and only if the certificate is neither expiring nor aging, and so is the status |
| TlsMessage.MissingDatesNeverAlert | x-pack/plugins/synthetics/server/alert_rules/tls_rule/message_utils.ts:49-50 | a missing or unreadable end date never makes the certificate expiring, nor a start date aging; with both missing the summary and status are empty |
| TlsMessage.MissingDateGuardUnreachable | x-pack/plugins/synthetics/server/alert_rules/tls_rule/message_utils.ts:17-31 | the payload never carries either fixed missing-date error summary |
| TlsMessage.StatusMatchesExpected | x-pack/plugins/synthetics/server/alert_rules/tls_rule/message_utils.ts:48-59 | the status equals an independent definition on instants and thresholds. Expired or expiring occur if and only if the certificate is expiring; aging or invalid occur if and only if it is aging and not expiring |
| TlsMessage.ValidAfterExpiredDays | x-pack/plugins/synthetics/server/alert_rules/tls_rule/message_utils.ts:32-37 | in "expired N days ago", N >= 0, the end date is less than one day after now, N+1 full days have not passed since it, and N full days have (for N > 0) |
| TlsMessage.ValidAfterExpiringDays | x-pack/plugins/synthetics/server/alert_rules/tls_rule/message_utils.ts:39-41 | in "expires in N days" for a readable date, N is a number, N > 0, and N is the whole days from now to the end date |
| TlsMessage.ValidBeforeExpiredDays | x-pack/plugins/synthetics/server/alert_rules/tls_rule/message_utils.ts:18-24 | in "valid since N days ago", N >= 0, the start date is less than one day after now, N+1 full days have not passed since it, and N full days have (for N > 0) |
| TlsMessage.ValidBeforeExpiringDays | x-pack/plugins/synthetics/server/alert_rules/tls_rule/message_utils.ts:25-27 | in "becomes valid in N days" for a readable date, N is a number, N > 0, and N is the whole days from now to the start date |
| TlsMessage.UnparseableDateFormatting | x-pack/plugins/synthetics/server/alert_rules/tls_rule/message_utils.ts:30-43 | a present but unreadable date passes the guard and yields the expiring (end date) or invalid (start date) text with a NaN day count |
| TlsMessage.ExpiredSixtyDaysAgo | x-pack/plugins/synthetics/server/alert_rules/tls_rule/message_utils.ts:48-54 | a certificate that ended on 2024-01-01, seen on 2024-03-01 with threshold 2024-06-01, is expired with "60 days ago" |
| TlsMessage.ExpiresInThirtyOneDays | x-pack/plugins/synthetics/server/alert_rules/tls_rule/message_utils.ts:48-54 | the same certificate seen on 2023-12-01 is expiring "in 31 days" |
| SyntheticsServer.VerbOf | x-pack/plugins/synthetics/server/server.ts:42-56 | the switch selects a router function exactly for GET, POST, PUT and DELETE, and the function it selects is named by the method |
| SyntheticsServer.FirstUnknown | x-pack/plugins/synthetics/server/server.ts:29-58 | the index where the loop stops: every earlier route dispatches and the route there, if any, does not |
| SyntheticsServer.Host.RouterGet | x-pack/plugins/synthetics/server/server.ts:44 | appends one get registration with the definition and handler, and changes nothing else |
| SyntheticsServer.Host.RouterPost | x-pack/plugins/synthetics/server/server.ts:47 | appends one post registration with the definition and handler, and changes nothing else |
| SyntheticsServer.Host.RouterPut | x-pack/plugins/synthetics/server/server.ts:50 | appends one put registration with the definition and handler, and changes nothing else |
| SyntheticsServer.Host.RouterDelete | x-pack/plugins/synthetics/server/server.ts:53 | appends one delete registration with the definition and handler, and changes nothing else |
| SyntheticsServer.Host.RegisterRuleType | x-pack/plugins/synthetics/server/server.ts:72 | appends one rule-type registration, and changes nothing else |
| SyntheticsServer.InitSyntheticsServer | x-pack/plugins/synthetics/server/server.ts:18-83 | the host's log grows by exactly StartupLog of the wrapped routes, and the outcome is StartupOutcome |
| SyntheticsServer.ExactDispatch | x-pack/plugins/synthetics/server/server.ts:36-54 | for every route before the first unknown method, the call at its position is the router function named by its method, with {path, validate, options} as the definition and its handler passed separately |
| SyntheticsServer.AllRoutesThenRules | x-pack/plugins/synthetics/server/server.ts:64-82 | when every route dispatches, start-up ends normally with one router call per route and then exactly two rule registrations: status first, then TLS |
| SyntheticsServer.UnknownMethodThrows | x-pack/plugins/synthetics/server/server.ts:55-56 | an unknown method at index k throws "Handler for method m is not defined"; the calls made are exactly those for routes 0..k-1, with no rule registered |
| SyntheticsServer.RulesOnlyAfterRoutes | x-pack/plugins/synthetics/server/server.ts:29-82 | a rule type is registered if and only if every route dispatched |
| SyntheticsServer.LaterRoutesIgnored | x-pack/plugins/synthetics/server/server.ts:29-57 | routes after the first unknown method have no effect on the calls made or on the error |
| SyntheticsServer.FourVerbRoutes | x-pack/plugins/synthetics/server/server.ts:42-54 | GET /a, POST /b, PUT /c and DELETE /d each make one call on the matching router function with the matching path, followed by the two rules |
| SyntheticsServer.PatchRouteFails | x-pack/plugins/synthetics/server/server.ts:55-56 | GET /a followed by PATCH /b registers /a, then throws "Handler for method PATCH is not defined" and registers no rule |

## Left out

- The wall clock is the parameter `now`. moment's formatting of dates
  (`'MMM D, YYYY z'`) and the translated texts are symbolic constructors,
  not strings.
- WholeDays: uses the plain millisecond difference. It does not model the
  time-zone offset correction moment applies when the offset changes
  between the date and now (daylight saving time).
- Parsing of date strings is not modelled. A date arrives already
  classified as absent, unreadable or an instant.
- One instant stands for two separate parses of the same string: `new
  Date` for the threshold test (message_utils.ts:49-50) and `moment` for
  the day count (message_utils.ts:18, 32). The two can disagree on
  date-only strings, which `Date` reads as UTC and moment reads as local
  time. The model does not capture that disagreement.
- Thresholds and instants are integers. Fractional millisecond values are
  not modelled.
- The route wrappers `createSyntheticsRouteWithAuth` and
  `syntheticsRouteWrapper` are one opaque function `wrap`. Their own
  behaviour and any errors they raise are not modelled.
- `registerSyntheticsStatusCheckRule` and `registerSyntheticsTLSCheckRule`
  are not part of this model. The rule types they build are the labels
  `StatusCheckRule` and `TlsCheckRule`.
- Router and alerting registry internals are not modelled. Nor are the
  errors those hosts raise on a registration: in the model every
  registration call succeeds.
- The `libs` object (requests and license check) is only passed to the
  opaque factories and is left out.
