# Submission ledger of the areta360 form relay, in Dafny

The relay in `server.js` takes two kinds of form submission and mails each one
to a fixed address. A career application may carry a resume. A blog/contact
message has no attachment. Each email address may make at most 3 accepted
submissions per window. A window opens at the address's first submission and
lasts 24 hours from it. This is a limit per anchored window, not per sliding
24 hours: a stretch of consecutive requests inside one 24-hour span, with no
reset-all among them, can get 5 submissions accepted, and never more
(`SpanCanHoldFive`, `GrantedInSpanAtMostFive`). The reset endpoint, which
takes no credentials, empties every window, so the limit only holds between
resets (`ResetLetsSixThrough`). The state behind this limit is a process-wide map
from email address to `{count, firstSubmission}`. This project models that map
and the operations on it:

- check-and-record (`checkEmailLimit`);
- the status query behind `GET /api/email-limit/:email`, which also evicts an expired entry;
- reset-all (`POST /api/reset-email-limits`);
- the count snapshot (`GET /api/all-email-counts`).

It also models the upload allow-list that runs before a career handler, and
what the career and blog handlers do once the ledger has decided.

Files:

- `ledger_spec.dfy` (module `LedgerSpec`): the ledger as values. It holds
  `CheckAndRecord` and `QueryStatus` as functions from a map and a time to an
  answer and a new map. It also holds the lemmas about single calls and about
  runs of requests.
- `ledger.dfy` (module `Ledger`): class `SubmissionLedger`. Its
  `submissions: map<string, Record>` field is updated in place by
  `CheckEmailLimit`, `EmailLimitStatus` and `ResetEmailLimits`, as the source
  updates its `Map`. Each method is proved to leave exactly the state that the
  `LedgerSpec` function gives. `AllEmailCounts` builds the snapshot with a loop
  over the keys, as the source loops over `entries()`.
- `forms.dfy` (module `Forms`): `FileFilter`, the reply a handler chooses
  (`Respond`), and the handler methods `HandleSubmission` and `HandleCareerForm`.
  The handler methods call the ledger object.
- `decimal.dfy` (module `Decimal`): how a whole number is spelled in the 429
  message, with its parse-back round trip.
- `wrappers.dfy`: `Option`, which stands for JavaScript's `null`/`undefined`.

Time is a whole number of milliseconds, passed in as `now`. The source reads
`new Date()` at that point instead. No ordering is assumed between `now` and a
record's `firstSubmission`. Dafny's `/` with a positive divisor is floor
division, which is what `Math.floor` of the exact quotient gives. `Math.ceil`
is written as `CeilDiv`. So a clock that moves backwards is modelled exactly as
the JavaScript arithmetic behaves.

Both `/api/career-form` and its alias `/career-form` run the same handler body
(server.js:159-246 and 249-336). `HandleCareerForm` models both of them.

Some behaviour of the code differs from what its own comments and names
suggest. The model follows the code in each case:

- The status query is not read-only, although the source introduces it as a
  "Check" endpoint (server.js:406): it deletes an entry once at least 24
  hours have passed.
- Both operations carry the comment "24 hours have passed, reset"
  (server.js:121 and server.js:427), but they test it differently.
  Check-and-record reopens a window only when strictly more than 24 hours have
  passed. The status query evicts at 24 hours or more. So at exactly 24 hours
  a full window still refuses a submission, and the refusal reports a wait of
  `0` hours. Because `0` is falsy, the 429 message then falls back to "after 24
  hours". At that same millisecond the status query evicts the entry and reports
  a fresh quota, and the next submission is then accepted.
  `ExactWindowEndBoundary`, `RejectionWaitBounds` and `FullWindowRefusesCareer`
  state this.
- The limit is anchored at each window's first submission, not sliding. From
  an empty ledger, submissions at 0, W − 1, W, W + 1, W + 2 and W + 3
  (W = 24 hours) are all accepted. The last five lie in one half-open 24-hour
  span. The bound of 3 holds for a run of submissions and status queries
  that all lie in one span (`GrantedFromEmpty`, `GrantedWithinSpan`). A
  stretch of consecutive submissions and status queries that lie in one span,
  after any earlier requests, gets at most 5:
  at most two windows serve an address in a span, and the earlier one opened
  before it (`GrantedInSpanTwoWindows`, `GrantedInSpanAtMostFive`). With a
  clock that only moves forward, the requests of a run inside a span are
  consecutive. If the clock steps back by days, requests far outside the span
  can fall between them and reopen the window, and this bound does not apply.
- The reset endpoint (server.js:453-458) clears every address at once, and
  nothing guards it. Each of these bounds therefore holds only between two
  resets. Three submissions, a reset and three more submissions, all within
  7 milliseconds, are all accepted (`ResetLetsSixThrough`).
- A file refused by the upload filter fails the request through multer with the
  filter's error message, before the ledger is consulted. The model does not
  describe the status code of that reply (see Left out).

## Model

| member | source | states |
|---|---|---|
| `LedgerSpec.CheckAndRecord` | server.js:117-144 | Only the entry of the given address changes, and it is always present afterwards. The ledger invariant 1 ≤ count ≤ 3 is kept. A submission is accepted iff the live count (0 for an absent entry, or for one more than 24h old) is below 3. On acceptance the count becomes live count + 1, `remaining` = 3 − new count, and the window start is kept if the entry was live, otherwise it becomes `now`. On refusal the ledger is unchanged, `remaining` is 0, and `hoursUntilReset` is the whole-hour wait to the window's end (`ResetHint`). |
| `LedgerSpec.CeilDiv` | server.js:133 | `Math.ceil(a / b)` for b > 0: the unique q with (q − 1)·b < a ≤ q·b. |
| `LedgerSpec.HoursUntilReset` | server.js:132-133 | The wait reported on refusal: after h hours the 24h window has ended, and after h − 1 hours it has not. |
| `LedgerSpec.ResetHintUnique` | server.js:133 | Only one whole number of hours satisfies that description, so any two ways of computing the wait must agree. |
| `LedgerSpec.FreshStatus` | server.js:412-420 | Reply for an address with no entry: the address itself, submitted 0, remaining 3, limit 3, canSubmit true, no reset time. |
| `LedgerSpec.QueryStatus` | server.js:407-450 | Only the entry of the given address can change. The invariant is kept. An absent entry, or one at least 24h old, gives the fresh reply, and such an entry is deleted. A younger entry is kept and gives submitted = count, remaining = max(0, 3 − count), canSubmit iff count < 3, and a wait of at least 1 hour that is the whole-hour wait to the window's end. Under the invariant, submitted + remaining = 3. |
| `LedgerSpec.FreshWindowAllowsThree` | server.js:117-144 | From an address with no live entry, three submissions within 24h of the first are accepted with remaining 2, 1, 0. A fourth within that span is refused and leaves the record at (3, first time). |
| `LedgerSpec.ExpiredWindowRestarts` | server.js:121-125 | An entry more than 24h old is replaced by (1, now) with remaining 2, whatever count it held. |
| `LedgerSpec.RejectionWaitBounds` | server.js:131-135 | For a started window, the refusal's wait lies between 0 and 24 hours. It is 0 exactly when 24h have passed to the millisecond. |
| `LedgerSpec.QueryAndCheckAgreeOnWait` | server.js:423-425 | While fewer than 24h have passed, the status query's `hoursUntilReset` (24 − floor of hours elapsed) equals the refusal's ceiling-rounded wait. |
| `LedgerSpec.QueryPredictsNextCheck` | server.js:428-447 | After a status query, a submission at the same instant is accepted iff the query reported `canSubmit`. |
| `LedgerSpec.ExactWindowEndBoundary` | server.js:122-133 | At exactly 24h a full window is refused with a wait of 0. The status query evicts the same entry and reports canSubmit, and the next submission is then accepted. |
| `LedgerSpec.Apply` | server.js:117-144 | A submission or status query touches only the entry of its own address. A reset-all leaves the ledger empty. |
| `LedgerSpec.ReplayKeepsInvariant` | server.js:113-144 | Any run of submissions, status queries and resets keeps every stored count between 1 and 3. |
| `LedgerSpec.GrantedWithinSpan` | server.js:113-144 | The rate limit: take any half-open 24h span, and any run of submissions and queries in that span with no reset-all among them, for any addresses, in any order. An address whose entry began no earlier than the span has at most 3 accepted submissions, counting those already recorded. The span must be half-open: `ExactWindowEndBoundary` shows a fourth acceptance at its closing millisecond. |
| `LedgerSpec.GrantedFromEmpty` | server.js:113-144 | A run of submissions and status queries from an empty ledger, all in one half-open 24h span, gives no address more than 3 accepted submissions. |
| `LedgerSpec.SpanCanHoldFive` | server.js:122-143 | The limit is not sliding: from an empty ledger, submissions at 0, W − 1, W, W + 1, W + 2 and W + 3 are all accepted, and the last five lie in the half-open span [W − 1, 2W − 1). |
| `LedgerSpec.GrantedInSpanTwoWindows` | server.js:117-144 | From any ledger that keeps the invariant, submissions and status queries that all lie in one half-open 24h span grant an address at most 6 submissions counting its stored count: the stored window can only fill up to 3, and a window opened inside the span grants at most 3. |
| `LedgerSpec.GrantedInSpanAtMostFive` | server.js:117-144 | After any earlier run from an empty ledger (resets included), a following stretch of submissions and status queries inside one half-open 24h span gives an address at most 5 accepted submissions. |
| `LedgerSpec.GrantedAppend` | server.js:113-144 | Acceptances over two consecutive runs add up, the second run starting from the ledger the first left. |
| `LedgerSpec.ResetForgetsHistory` | server.js:453-458 | After a reset-all, the rest of a run is granted exactly what it would be granted from an empty ledger, whatever came before. |
| `LedgerSpec.BurstOfThree` | server.js:117-144 | From an empty ledger, three submissions from one address within two milliseconds are all accepted. |
| `LedgerSpec.ResetLetsSixThrough` | server.js:453-458 | Three submissions, a reset-all and three more submissions, all within one 24h span, are accepted six times: the limit holds only between resets. |
| `LedgerSpec.CareerTimeline` | server.js:117-144 | Submissions at 0, 1 and 2 minutes give remaining 2, 1, 0. A fourth at 10 minutes is refused with a 24-hour wait. One at 25 hours is accepted with remaining 2, and the record becomes (1, 25h). |
| `Ledger.SubmissionLedger.constructor` | server.js:114 | The ledger starts empty and valid. |
| `Ledger.SubmissionLedger.CheckEmailLimit` | server.js:117-144 | The in-place update leaves exactly the answer and map of `CheckAndRecord` and keeps the invariant. |
| `Ledger.SubmissionLedger.EmailLimitStatus` | server.js:407-450 | The in-place eviction leaves exactly the reply and map of `QueryStatus` and keeps the invariant. |
| `Ledger.SubmissionLedger.ResetEmailLimits` | server.js:453-458 | Afterwards the ledger is empty. |
| `Ledger.SubmissionLedger.AllEmailCounts` | server.js:461-467 | The snapshot has exactly the ledger's keys, each mapped to its stored count. Expired entries are not filtered out. |
| `Decimal.NatToDecimal` | server.js:177 | A number is rendered as at least one decimal digit, with a leading `0` only for zero. |
| `Decimal.IntToDecimal` | server.js:177 | A negative number gets a leading minus sign; otherwise the rendering is the plain digits. |
| `Decimal.DecimalRoundTrip` | server.js:177 | Parsing the rendered digits gives the number back. |
| `Decimal.IntToDecimalInjective` | server.js:177 | Different numbers render differently. |
| `Forms.ToLower` | server.js:51 | The result has no upper-case ASCII letter, and it spells the same word as the input up to letter case. |
| `Forms.FileFilter` | server.js:49-57 | A file is accepted iff its extension equals `.pdf`, `.doc` or `.docx` up to letter case. Otherwise it is refused with the fixed invalid-type message. |
| `Forms.FileFilterIgnoresCase` | server.js:51-52 | Lower-casing the extension first does not change the decision. |
| `Forms.FileFilterExamples` | server.js:50-56 | `.PDF`, `.Docx` and `.doc` are accepted. `.txt`, the empty extension and `.pdfx` are refused. |
| `Forms.ResetMessage` | server.js:176-178 | The reply falls back to "after 24 hours" exactly when `hoursUntilReset` is falsy, which means absent or 0. |
| `Forms.ResetMessageNamesWait` | server.js:176-178 | Two truthy waits give the same sentence only if they are equal. |
| `Forms.ResetMessageSpellsWait` | server.js:176-178 | For a truthy, non-negative wait the sentence is the fixed opening, then decimal digits, then " hours."; the digits parse back to the wait itself. |
| `Forms.MailFor` | server.js:199-381 | An accepted career application goes through the HR transporter with the resume (if any) as its attachment (the mail options at lines 199-212). An accepted blog message goes through the admin transporter with no attachment (lines 370-381). |
| `Forms.Respond` | server.js:166-245 | Refused: 429 with `EMAIL_LIMIT_EXCEEDED`, the decision's `hoursUntilReset`, the form's limit sentence followed by the reset sentence, and no mail. Accepted: the form's mail is sent, and the reply is 200 with no `error` iff delivery succeeded, else 500 carrying the provider's error message. On every path the stored resume is removed. |
| `Forms.FullWindowRefusesCareer` | server.js:168-183 | A career application against a full live window is answered 429 and removes its resume. No mail is sent and the ledger is unchanged. The reply names a wait in hours exactly when fewer than 24h have passed. |
| `Forms.HandleSubmission` | server.js:338-398 | The blog (and career) handler: the new ledger is `CheckAndRecord`'s, and the outcome is `Respond` applied to that decision. |
| `Forms.HandleCareerForm` | server.js:159-184 | A refused upload fails the request with the invalid-type message and leaves the ledger untouched. Otherwise the stored resume path goes to `HandleSubmission`'s behaviour. |

## Left out

- backend/server.js is not part of this model. It only builds mail options from configuration and calls the mail library.
- Mail delivery (nodemailer transporters, `sendMail`, `verify`) is an outside service. Its result is the `Delivery` input. The "from" address comes from configuration fallbacks and is not modelled. The HTML body interpolation of name, email, phone and message is not modelled either.
- Multer's disk storage and its generated file names are not modelled, nor is its 5 MB size limit. `path.extname` is not modelled either: `FileFilter` takes the extension it would return. The status code of the reply to a refused upload is decided by Express's error handling, which is not modelled.
- Removing a resume is modelled as the path the handler asks to remove. The asynchronous `fs.unlink` callback, and its logged failures, are left out.
- Express routing, CORS, body parsing, the health endpoint, directory creation, static serving of `/uploads`, configuration loading and `app.listen` are plumbing over libraries.
- Console logging, including `showAllEmailCounts`, only prints.
- Handlers suspend only while the mail is delivered, after the ledger step. The interleaving of concurrent requests is not modelled. Each check-and-record is one atomic step, and a run of requests (submissions, status queries and resets) is a sequence of such steps (`Replay`).
- Ledger keys are strings. A request body whose `email` is missing or not a string is not modelled; JavaScript would key the map by `undefined` or by that value.
- `AllEmailCounts` returns a map. The insertion order of the JSON object's keys is not modelled. Neither is JavaScript's special treatment of a key named `__proto__` when it is assigned into a plain object.
- `ToLower` lower-cases ASCII letters only. JavaScript's full Unicode lower-casing can also change non-ASCII characters. No such character becomes one of the letters of `.pdf`, `.doc` or `.docx`, so the accept/refuse decision is the same.
- Timestamps are whole milliseconds, as `Date` differences are. Floating-point effects are not modelled.
