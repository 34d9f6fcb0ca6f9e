/**
 * The process-wide submission ledger of server.js as an object whose map
 * field its methods update in place, one method per operation on it.
 */
module Ledger {
  import opened Wrappers
  import opened LedgerSpec

  class SubmissionLedger {
    /** Email address to the record of its current window. */
    var submissions: map<string, Record>

    ghost predicate Valid()
      reads this
    {
      LedgerOk(submissions)
    }

    /** The ledger starts empty when the process starts. */
    constructor ()
      ensures Valid() && submissions == map[]
    {
      submissions := map[];
    }

    /** checkEmailLimit: decides on one submission and records it, in one
        step with no suspension between the read and the write. */
    method CheckEmailLimit(email: string, now: int) returns (d: Decision)
      requires Valid()
      modifies this
      ensures Valid()
      ensures Checked(d, submissions) == CheckAndRecord(old(submissions), email, now)
    {
      if email !in submissions || now - submissions[email].firstSubmission > WindowMs {
        submissions := submissions[email := Record(1, now)];
        return Decision(true, 2, None);
      }
      var submission := submissions[email];
      var currentCount := submission.count;
      if currentCount >= Limit {
        var timeLeft := WindowMs - (now - submission.firstSubmission);
        var hoursLeft := CeilDiv(timeLeft, HourMs);
        return Decision(false, 0, Some(hoursLeft));
      }
      submission := submission.(count := currentCount + 1);
      submissions := submissions[email := submission];
      d := Decision(true, Limit - submission.count, None);
    }

    /** The status endpoint: reports the quota of `email` and evicts its entry
        once the whole-hour countdown has reached zero. */
    method EmailLimitStatus(email: string, now: int) returns (s: Status)
      requires Valid()
      modifies this
      ensures Valid()
      ensures Queried(s, submissions) == QueryStatus(old(submissions), email, now)
    {
      if email !in submissions {
        return Status(email, 0, Limit, Limit, true, None);
      }
      var submission := submissions[email];
      var timeElapsed := now - submission.firstSubmission;
      var hoursElapsed := timeElapsed / HourMs;
      var hoursLeft := Max(0, 24 - hoursElapsed);
      if hoursLeft == 0 {
        submissions := submissions - {email};
        return Status(email, 0, Limit, Limit, true, None);
      }
      var remaining := Max(0, Limit - submission.count);
      s := Status(email, submission.count, remaining, Limit, remaining > 0, Some(hoursLeft));
    }

    /** The reset endpoint: forgets every address. */
    method ResetEmailLimits()
      modifies this
      ensures Valid() && submissions == map[]
    {
      submissions := map[];
    }

    /** The all-counts endpoint: every stored address with its count, expired
        windows included. */
    method AllEmailCounts() returns (counts: map<string, int>)
      ensures counts.Keys == submissions.Keys
      ensures forall e :: e in counts ==> counts[e] == submissions[e].count
    {
      counts := map[];
      var pending := submissions.Keys;
      while pending != {}
        invariant pending <= submissions.Keys
        invariant counts.Keys == submissions.Keys - pending
        invariant forall e :: e in counts ==> counts[e] == submissions[e].count
        decreases pending
      {
        var email :| email in pending;
        counts := counts[email := submissions[email].count];
        pending := pending - {email};
      }
    }
  }

  /** A client's view: a fresh ledger accepts three submissions from one
      address within a day, refuses the fourth, and forgets all on reset. */
  method LedgerClient(email: string, other: string, t: int)
    requires email != other
  {
    var ledger := new SubmissionLedger();
    var d1 := ledger.CheckEmailLimit(email, t);
    var d2 := ledger.CheckEmailLimit(email, t + 1000);
    var d3 := ledger.CheckEmailLimit(email, t + 2000);
    var d4 := ledger.CheckEmailLimit(email, t + WindowMs);
    assert d1.remaining == 2 && d2.remaining == 1 && d3.remaining == 0;
    assert !d4.allowed;
    var s := ledger.EmailLimitStatus(other, t);
    assert s.canSubmit && s.remaining == Limit;
    var counts := ledger.AllEmailCounts();
    assert counts == map[email := Limit];
    ledger.ResetEmailLimits();
    counts := ledger.AllEmailCounts();
    assert counts == map[];
  }
}
