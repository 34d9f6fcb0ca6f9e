/**
 * The form-intake side of server.js: the upload allow-list that runs before a
 * career handler, and what the career and blog handlers answer once the
 * ledger has decided. Mail delivery is an outside service; its result is an
 * input here.
 */
module Forms {
  import opened Wrappers
  import opened LedgerSpec
  import opened Ledger
  import Decimal

  // ---------------------------------------------------------------------------
  // Upload allow-list

  /** The extensions a resume may have, in lower case. */
  const AllowedTypes: seq<string> := [".pdf", ".doc", ".docx"]
  const InvalidTypeMessage: string := "Invalid file type. Only PDF, DOC, and DOCX files are allowed."

  function LowerChar(c: char): char {
    if 'A' <= c <= 'Z' then (c as int - 'A' as int + 'a' as int) as char else c
  }

  function ToLower(s: string): (t: string)
    ensures IsLower(t) && SameIgnoringCase(s, t)
  {
    seq(|s|, i requires 0 <= i < |s| => LowerChar(s[i]))
  }

  /** `a` and `b` spell the same word up to the case of their letters. */
  predicate SameIgnoringCase(a: string, b: string) {
    |a| == |b| && forall i :: 0 <= i < |a| ==> LowerChar(a[i]) == LowerChar(b[i])
  }

  predicate IsLower(s: string) {
    forall i :: 0 <= i < |s| ==> LowerChar(s[i]) == s[i]
  }

  lemma LowerEqualsIgnoringCase(s: string, word: string)
    requires IsLower(word)
    ensures ToLower(s) == word <==> SameIgnoringCase(s, word)
  {
  }

  /** What the upload filter tells multer about a file. */
  datatype FilterResult = Accept | Reject(message: string)

  /** fileFilter: a file passes iff its extension, lower-cased, is one of
      .pdf, .doc and .docx; otherwise multer fails the request with a fixed message. */
  function FileFilter(extension: string): (r: FilterResult)
    ensures r.Accept? <==>
      SameIgnoringCase(extension, ".pdf") || SameIgnoringCase(extension, ".doc") ||
      SameIgnoringCase(extension, ".docx")
    ensures r.Reject? ==> r.message == InvalidTypeMessage
  {
    LowerEqualsIgnoringCase(extension, ".pdf");
    LowerEqualsIgnoringCase(extension, ".doc");
    LowerEqualsIgnoringCase(extension, ".docx");
    if ToLower(extension) in AllowedTypes then Accept else Reject(InvalidTypeMessage)
  }

  /** The filter's decision does not depend on the case of the extension. */
  lemma FileFilterIgnoresCase(extension: string)
    ensures FileFilter(ToLower(extension)) == FileFilter(extension)
  {
  }

  /** Some extensions and the filter's decision on them. */
  lemma FileFilterExamples()
    ensures FileFilter(".PDF").Accept? && FileFilter(".Docx").Accept? && FileFilter(".doc").Accept?
    ensures FileFilter(".txt").Reject? && FileFilter("").Reject? && FileFilter(".pdfx").Reject?
  {
    assert LowerChar(".txt"[1]) != LowerChar(".pdf"[1]);
    assert LowerChar(".txt"[1]) != LowerChar(".doc"[1]);
    assert LowerChar(".pdfx"[1]) != LowerChar(".docx"[1]);
  }

  // ---------------------------------------------------------------------------
  // The career and blog handlers

  /** A form submission as a handler sees it: the address the ledger is keyed
      by and, for a career application, the path of the stored resume if one
      was uploaded. Name, phone and message only fill the mail body. */
  datatype Submission =
    | CareerApplication(email: string, resume: Option<string>)
    | BlogMessage(email: string)

  function ResumeOf(sub: Submission): Option<string> {
    match sub
    case CareerApplication(_, resume) => resume
    case BlogMessage(_) => None
  }

  /** The JSON reply: status code, message, `error` and `hoursUntilReset` when present. */
  datatype Reply = Reply(status: int, message: string, error: Option<string>, hoursUntilReset: Option<int>)

  /** The two configured mail transporters. */
  datatype Sender = HrTransporter | AdminTransporter

  /** The mail a handler hands to its transporter (the HTML body is left out). */
  datatype Mail = Mail(sender: Sender, to: string, subject: string, attachment: Option<string>)

  /** What the mail service reports back. */
  datatype Delivery = Delivered | DeliveryFailed(errorMessage: string)

  /** Everything a handler does: its reply, the mail it sends if any, and the
      temporary file it removes if any. */
  datatype Outcome = Outcome(reply: Reply, sent: Option<Mail>, removed: Option<string>)

  const LimitError: string := "EMAIL_LIMIT_EXCEEDED"

  /** JavaScript truthiness of `hoursUntilReset`: absent and zero are false. */
  predicate Truthy(h: Option<int>) {
    h.Some? && h.value != 0
  }

  const WaitPrefix: string := " You can submit again in "
  const WaitSuffix: string := " hours."
  const FallbackWait: string := " You can submit again after 24 hours."

  /** The sentence that ends a rate-limit reply: it names the wait in hours
      unless the wait is absent or zero. */
  function ResetMessage(h: Option<int>): (r: string)
    ensures r == FallbackWait <==> !Truthy(h)
  {
    if Truthy(h) then
      var r := WaitPrefix + Decimal.IntToDecimal(h.value) + WaitSuffix;
      assert r[22] == 'i' != FallbackWait[22];
      r
    else FallbackWait
  }

  /** A reply that names a wait names it exactly: two truthy waits give the
      same sentence only if they are the same number of hours. */
  lemma ResetMessageNamesWait(h1: Option<int>, h2: Option<int>)
    requires Truthy(h1)
    ensures Truthy(h2) && ResetMessage(h1) == ResetMessage(h2) ==> h1 == h2
  {
    var s1 := ResetMessage(h1);
    var n := |WaitPrefix|;
    if Truthy(h2) && s1 == ResetMessage(h2) {
      var d1 := Decimal.IntToDecimal(h1.value);
      var d2 := Decimal.IntToDecimal(h2.value);
      assert |d1| == |d2|;
      assert d1 == s1[n..n + |d1|];
      assert d2 == ResetMessage(h2)[n..n + |d2|];
      Decimal.IntToDecimalInjective(h1.value, h2.value);
    }
  }

  /** The sentence names the wait itself: between its fixed opening and its
      fixed closing stand the decimal digits of a truthy, non-negative wait,
      and they parse back to that wait. */
  lemma ResetMessageSpellsWait(h: Option<int>)
    requires Truthy(h) && h.value >= 0
    ensures var r := ResetMessage(h);
      var digits := r[|WaitPrefix|..|r| - |WaitSuffix|];
      && |r| > |WaitPrefix| + |WaitSuffix|
      && r[..|WaitPrefix|] == WaitPrefix
      && r[|r| - |WaitSuffix|..] == WaitSuffix
      && Decimal.AllDigits(digits)
      && Decimal.DecimalValue(digits) == h.value
  {
    var r := ResetMessage(h);
    var digits := Decimal.NatToDecimal(h.value);
    assert r == WaitPrefix + digits + WaitSuffix;
    assert r[|WaitPrefix|..|r| - |WaitSuffix|] == digits;
    Decimal.DecimalRoundTrip(h.value);
  }

  function LimitText(sub: Submission): string {
    match sub
    case CareerApplication(_, _) =>
      "You have reached the maximum limit of 3 applications per email address."
    case BlogMessage(_) =>
      "You have reached the maximum limit of 3 messages per email address."
  }

  /** The mail an accepted submission hands to its transporter. */
  function MailFor(sub: Submission): (mail: Mail)
    ensures mail.attachment == ResumeOf(sub)
    ensures mail.sender == HrTransporter <==> sub.CareerApplication?
  {
    match sub
    case CareerApplication(_, resume) =>
      Mail(HrTransporter, "hr@areta360.com", "New Career Application", resume)
    case BlogMessage(_) =>
      Mail(AdminTransporter, "admin@areta360.com", "New Business Connect: Join the Conversation", None)
  }

  /**
   * A handler after its ledger check: a refusal answers 429 with
   * EMAIL_LIMIT_EXCEEDED and the wait, and sends nothing; an acceptance sends
   * the mail and answers 200 or 500 by how delivery went. The stored resume is
   * removed on every one of these paths.
   */
  function Respond(sub: Submission, d: Decision, delivery: Delivery): (o: Outcome)
    ensures o.removed == ResumeOf(sub)
    ensures o.sent.Some? <==> d.allowed
    ensures !d.allowed ==>
      && o.reply.status == 429
      && o.reply.error == Some(LimitError)
      && o.reply.hoursUntilReset == d.hoursUntilReset
      && o.reply.message == LimitText(sub) + ResetMessage(d.hoursUntilReset)
    ensures d.allowed ==>
      && o.sent == Some(MailFor(sub))
      && o.reply.hoursUntilReset == None
      && (o.reply.status == 200 <==> delivery.Delivered?)
      && (delivery.Delivered? ==> o.reply.error == None)
      && (delivery.DeliveryFailed? ==> o.reply.status == 500 && o.reply.error == Some(delivery.errorMessage))
  {
    if !d.allowed then
      Outcome(Reply(429, LimitText(sub) + ResetMessage(d.hoursUntilReset), Some(LimitError), d.hoursUntilReset),
              None, ResumeOf(sub))
    else
      var reply :=
        match (sub, delivery)
        case (CareerApplication(_, _), Delivered) =>
          Reply(200, "Application submitted successfully", None, None)
        case (CareerApplication(_, _), DeliveryFailed(err)) =>
          Reply(500, "Error submitting application", Some(err), None)
        case (BlogMessage(_), Delivered) =>
          Reply(200, "Message sent successfully", None, None)
        case (BlogMessage(_), DeliveryFailed(err)) =>
          Reply(500, "Error sending message", Some(err), None);
      Outcome(reply, Some(MailFor(sub)), ResumeOf(sub))
  }

  /** A full window answers a career application with 429, removes its resume,
      sends nothing and leaves the ledger as it was; the 429 message falls back
      to "after 24 hours" only at the exact end of the window. */
  lemma FullWindowRefusesCareer(m: map<string, Record>, email: string, now: int, resume: Option<string>, delivery: Delivery)
    requires LedgerOk(m) && Live(m, email, now) && m[email].count == Limit
    ensures
      var c := CheckAndRecord(m, email, now);
      var o := Respond(CareerApplication(email, resume), c.decision, delivery);
      && c.ledger == m
      && o.reply.status == 429 && o.reply.error == Some(LimitError)
      && o.sent == None && o.removed == resume
      && (Truthy(o.reply.hoursUntilReset) <==> Elapsed(m[email], now) < WindowMs)
  {
  }

  /** The career and blog handlers: the ledger is consulted first, in one
      step, then the reply is chosen. */
  method HandleSubmission(ledger: SubmissionLedger, sub: Submission, now: int, delivery: Delivery)
    returns (o: Outcome)
    requires ledger.Valid()
    modifies ledger
    ensures ledger.Valid()
    ensures
      var c := CheckAndRecord(old(ledger.submissions), sub.email, now);
      ledger.submissions == c.ledger && o == Respond(sub, c.decision, delivery)
  {
    var d := ledger.CheckEmailLimit(sub.email, now);
    o := Respond(sub, d, delivery);
  }

  /** A resume as multer stores it: the original name's extension and the
      temporary path it was written to. */
  datatype Upload = Upload(extension: string, path: string)

  datatype CareerResult = UploadRejected(message: string) | Handled(outcome: Outcome)

  /** The career route: the upload filter runs first, and a rejected file
      fails the request before the ledger is consulted. */
  method HandleCareerForm(ledger: SubmissionLedger, email: string, upload: Option<Upload>, now: int, delivery: Delivery)
    returns (r: CareerResult)
    requires ledger.Valid()
    modifies ledger
    ensures ledger.Valid()
    ensures upload.Some? && FileFilter(upload.value.extension).Reject? ==>
      r == UploadRejected(InvalidTypeMessage) && ledger.submissions == old(ledger.submissions)
    ensures upload.None? || FileFilter(upload.value.extension).Accept? ==>
      var resume := if upload.Some? then Some(upload.value.path) else None;
      var c := CheckAndRecord(old(ledger.submissions), email, now);
      ledger.submissions == c.ledger && r == Handled(Respond(CareerApplication(email, resume), c.decision, delivery))
  {
    var resume: Option<string> := None;
    if upload.Some? {
      var verdict := FileFilter(upload.value.extension);
      if verdict.Reject? {
        return UploadRejected(verdict.message);
      }
      resume := Some(upload.value.path);
    }
    var o := HandleSubmission(ledger, CareerApplication(email, resume), now, delivery);
    r := Handled(o);
  }
}
