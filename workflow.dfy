/** The document workflow system (`SystemWorkflow`): a repository of admitted documents and the
    limit configuration that gates admission and signing.

    The four checks answer "the limit applies": a `true` from any of them refuses. The clock is a
    parameter (`now`) and each document carries its own creation time. */
module Workflow {
  import opened Lists
  import opened Clock
  import opened Limits
  import opened Parties

  // ---------------------------------------------------------------------------------------------
  // Counting over the repository and the custody lists (the stream filter-and-count expressions)

  /** Entries of `repo` that are not fully signed and involve `c` (`validateCompanyWorkflowLimit`). */
  function CompanyOpenCount(repo: seq<Document>, c: Company?): (n: nat)
    reads repo
    ensures n <= |repo|
    ensures n > 0 ==> exists i :: 0 <= i < |repo| && !repo[i].IsSigned() && repo[i].ContainsCompany(c)
  {
    if repo == [] then 0
    else
      (if !repo[0].IsSigned() && repo[0].ContainsCompany(c) then 1 else 0)
      + CompanyOpenCount(repo[1..], c)
  }

  /** Entries of `repo` that are not fully signed and involve both `a` and `b` (`validateWorkflowLimit`). */
  function PairOpenCount(repo: seq<Document>, a: Company?, b: Company?): (n: nat)
    reads repo
    ensures n <= |repo|
    ensures n > 0 ==> exists i :: 0 <= i < |repo| && !repo[i].IsSigned()
                                  && repo[i].ContainsCompany(a) && repo[i].ContainsCompany(b)
  {
    if repo == [] then 0
    else
      (if !repo[0].IsSigned() && repo[0].ContainsCompany(a) && repo[0].ContainsCompany(b) then 1 else 0)
      + PairOpenCount(repo[1..], a, b)
  }

  /** Documents of a custody list whose creation lies at most `minutesLimit` minutes after `now`
      (`validateCompanyCreateDocumentLimit` filters on `MINUTES.between(now, date) <= minutesLimit`). */
  function RecentCount(docs: seq<Document>, now: int, minutesLimit: int): (n: nat)
    ensures n <= |docs|
  {
    if docs == [] then 0
    else
      (if MinutesBetween(now, docs[0].date) <= minutesLimit then 1 else 0)
      + RecentCount(docs[1..], now, minutesLimit)
  }

  /** Every open document shared by a pair is an open document of each of the two:
      the pair count never exceeds either company's count. */
  lemma {:induction false} PairAtMostCompany(repo: seq<Document>, a: Company?, b: Company?)
    ensures PairOpenCount(repo, a, b) <= CompanyOpenCount(repo, a)
    ensures PairOpenCount(repo, a, b) <= CompanyOpenCount(repo, b)
  {
    if repo != [] {
      PairAtMostCompany(repo[1..], a, b);
    }
  }

  /** Appending an entry adds one to a count exactly when that entry is open and involves the companies. */
  lemma {:induction false} CountsAppend(repo: seq<Document>, d: Document, a: Company?, b: Company?)
    ensures CompanyOpenCount(repo + [d], a)
         == CompanyOpenCount(repo, a) + (if !d.IsSigned() && d.ContainsCompany(a) then 1 else 0)
    ensures PairOpenCount(repo + [d], a, b)
         == PairOpenCount(repo, a, b) + (if !d.IsSigned() && d.ContainsCompany(a) && d.ContainsCompany(b) then 1 else 0)
  {
    if repo != [] {
      assert (repo + [d])[1..] == repo[1..] + [d];
      CountsAppend(repo[1..], d, a, b);
    }
  }

  /** A repository whose every entry is an open document between `a` and `b` counts in full for both checks. */
  lemma {:induction false} AllOpenCounted(repo: seq<Document>, a: Company, b: Company)
    requires forall i :: 0 <= i < |repo| ==>
      !repo[i].IsSigned() && repo[i].ContainsCompany(a) && repo[i].ContainsCompany(b)
    ensures CompanyOpenCount(repo, a) == |repo| && PairOpenCount(repo, a, b) == |repo|
  {
    if repo != [] {
      AllOpenCounted(repo[1..], a, b);
    }
  }

  /** Conversely to the witness clauses: a single open entry involving the company (or the pair)
      makes the count positive. */
  lemma {:induction false} OpenEntryCounted(repo: seq<Document>, i: nat, a: Company?, b: Company?)
    requires i < |repo| && !repo[i].IsSigned() && repo[i].ContainsCompany(a)
    ensures CompanyOpenCount(repo, a) > 0
    ensures repo[i].ContainsCompany(b) ==> PairOpenCount(repo, a, b) > 0
  {
    if i > 0 {
      OpenEntryCounted(repo[1..], i - 1, a, b);
    }
  }

  /** For a non-negative window, a document counts exactly when it is dated less than
      `minutesLimit + 1` whole minutes after `now`: every document from the past counts. */
  lemma CountedForCreation(date: int, now: int, minutesLimit: int)
    requires minutesLimit >= 0
    ensures MinutesBetween(now, date) <= minutesLimit <==> date < now + 60 * (minutesLimit + 1)
  {
  }

  /** The creation-rate filter measures from `now` forward to the creation time, so documents created
      before `now` all pass it: with a non-negative window the count is the whole custody list. */
  lemma {:induction false} PastDocumentsAllCounted(docs: seq<Document>, now: int, minutesLimit: int)
    requires minutesLimit >= 0
    requires forall i :: 0 <= i < |docs| ==> docs[i].date <= now
    ensures RecentCount(docs, now, minutesLimit) == |docs|
  {
    if docs != [] {
      CountedForCreation(docs[0].date, now, minutesLimit);
      PastDocumentsAllCounted(docs[1..], now, minutesLimit);
    }
  }

  // ---------------------------------------------------------------------------------------------
  // The automatic signing round of `addDocument1`, on values

  /** Signatures after the round and whether custody moved from side 1 to side 2. */
  datatype Round = Round(sigs: Signatures, transferred: bool)

  /** The sign–transfer–sign round run on a document just appended to the repository, given its flags
      before, the kinds of its two sides, whether side 1 holds it, whether both sides are one company,
      and whether the time check applies. Side 1's signing succeeds when its kind's flag is set
      afterwards; only then is custody moved and side 2 asked to sign. */
  function AutoSign(before: Signatures, r1: Role, r2: Role, held1: bool, sameCompany: bool, blocked: bool): (r: Round)
    ensures r.sigs.Has(r1) && r.sigs.Has(r2) <==>
      (before.Has(r1) && before.Has(r2))
      || (!blocked && (held1 || before.Has(r1)) && (held1 || before.Has(r2) || !sameCompany))
    ensures r.transferred <==> !blocked && !(before.Has(r1) && before.Has(r2)) && (held1 || before.Has(r1))
  {
    if blocked || (before.Has(r1) && before.Has(r2)) then Round(before, false)
    else
      var mid := if held1 then before.With(r1) else before;
      if !mid.Has(r1) then Round(mid, false)
      else
        // after the transfer side 2 holds the document, unless the two sides are one company that
        // held no earlier copy: then the copy just added is the one removed
        var held2 := !sameCompany || held1;
        if mid.Has(r2) || !held2 then Round(mid, true) else Round(mid.With(r2), true)
  }

  /** `AutoSign` read as the three steps `addDocument1` takes: side 1's signing request, the transfer,
      side 2's signing request, each refusing as `signingDocument` does. */
  lemma AutoSignBySteps(before: Signatures, r1: Role, r2: Role, held1: bool, same: bool, blocked: bool,
                        mid: Signatures, first: bool, held2: bool, fin: Signatures)
    requires mid == if blocked || (before.Has(r1) && before.Has(r2)) then before
                    else if held1 then before.With(r1) else before
    requires first == (!(blocked || (before.Has(r1) && before.Has(r2))) && mid.Has(r1))
    requires first ==> held2 == (!same || held1)
    requires first ==> fin == if mid.Has(r1) && mid.Has(r2) then mid else if held2 then mid.With(r2) else mid
    requires !first ==> fin == mid
    ensures AutoSign(before, r1, r2, held1, same, blocked) == Round(fin, first)
  {
  }

  /** A fresh unsigned document drafted and held by a company of one kind for a company of the other
      kind, outside the time window, ends fully signed and in the counterparty's custody. */
  lemma AutoSignCompletes(r1: Role, r2: Role)
    requires r1 != r2
    ensures AutoSign(Signatures(false, false), r1, r2, true, false, false) == Round(Signatures(true, true), true)
  {
  }

  /** Inside the time window nothing is signed and custody does not move. */
  lemma AutoSignBlocked(before: Signatures, r1: Role, r2: Role, held1: bool, same: bool)
    ensures AutoSign(before, r1, r2, held1, same, true) == Round(before, false)
  {
  }

  /** The round never clears a flag, and custody moves only after side 1's kind has signed. */
  lemma AutoSignMonotone(before: Signatures, r1: Role, r2: Role, held1: bool, same: bool, blocked: bool, q: Role)
    ensures before.Has(q) ==> AutoSign(before, r1, r2, held1, same, blocked).sigs.Has(q)
    ensures AutoSign(before, r1, r2, held1, same, blocked).transferred ==>
      !blocked && AutoSign(before, r1, r2, held1, same, blocked).sigs.Has(r1)
  {
  }

  /** A document side 1 does not hold and has not signed is left as it was. */
  lemma AutoSignNotHeld(before: Signatures, r1: Role, r2: Role, same: bool, blocked: bool)
    requires !before.Has(r1)
    ensures AutoSign(before, r1, r2, false, same, blocked) == Round(before, false)
  {
  }

  /** With two companies of the same kind, side 1's signature alone completes the document:
      custody still moves, and side 2 is refused because the document is already fully signed. */
  lemma AutoSignSameKind(before: Signatures, r: Role, same: bool)
    requires !before.Has(r)
    ensures AutoSign(before, r, r, true, same, false) == Round(before.With(r), true)
  {
  }

  // ---------------------------------------------------------------------------------------------

  class SystemWorkflow {
    var documentRepository: seq<Document>
    var settings: Settings

    /** A new system: empty repository, default settings. */
    constructor ()
      ensures documentRepository == [] && settings == CreateDefaultSettings()
    {
      documentRepository := [];
      settings := CreateDefaultSettings();
    }

    /** `setSettings`: replaces the configuration; the repository stays. */
    method SetSettings(s: Settings)
      modifies this
      ensures settings == s && documentRepository == old(documentRepository)
    {
      settings := s;
    }

    /** `removeDocument`: a partially signed document stays; otherwise its first occurrence goes. */
    method RemoveDocument(d: Document)
      modifies this
      ensures settings == old(settings)
      ensures d.IsPartiallySigned() ==> documentRepository == old(documentRepository)
      ensures !d.IsPartiallySigned() ==> documentRepository == RemoveFirst(old(documentRepository), d)
    {
      if !d.IsPartiallySigned() {
        documentRepository := RemoveFirst(documentRepository, d);
      }
    }

    /** `validateLimitedTime`: the document's time of day lies in the configured window.
        A `true` here makes signing refuse, so the window is a blackout period. */
    predicate ValidateLimitedTime(d: Document?)
      reads this
      ensures d == null || !settings.isLimitedTime ==> !ValidateLimitedTime(d)
      ensures d != null && settings.isLimitedTime ==>
        (ValidateLimitedTime(d) <==>
          InsideLimitedTime(settings.startLimitedTimeValue, settings.endLimitedTimeValue, TimeOfDayOf(d.date)))
    {
      if d == null || !settings.isLimitedTime then false
      else InsideLimitedTime(settings.startLimitedTimeValue, settings.endLimitedTimeValue, TimeOfDayOf(d.date))
    }

    /** `validateCompanyWorkflowLimit`: when active, the company's open documents in the repository
        have reached the ceiling; a ceiling of zero or less always applies. */
    predicate ValidateCompanyWorkflowLimit(c: Company?)
      reads this, documentRepository
      ensures !settings.isCompanyWorkflowLimit ==> !ValidateCompanyWorkflowLimit(c)
      ensures settings.isCompanyWorkflowLimit && settings.companyWorkflowLimitValue <= 0 ==> ValidateCompanyWorkflowLimit(c)
      ensures settings.isCompanyWorkflowLimit ==>
        (ValidateCompanyWorkflowLimit(c) <==> CompanyOpenCount(documentRepository, c) >= settings.companyWorkflowLimitValue)
    {
      settings.isCompanyWorkflowLimit && CompanyOpenCount(documentRepository, c) >= settings.companyWorkflowLimitValue
    }

    /** `validateCompanyCreateDocumentLimit`: when active and for a real company, the documents in the
        company's custody dated at most the configured hours after `now` have reached the ceiling. */
    predicate ValidateCompanyCreateDocumentLimit(c: Company?, now: int)
      reads this, c
      ensures c == null || !settings.isCompanyCreateDocumentLimit ==> !ValidateCompanyCreateDocumentLimit(c, now)
      ensures c != null && settings.isCompanyCreateDocumentLimit ==>
        (ValidateCompanyCreateDocumentLimit(c, now) <==>
          RecentCount(c.documents, now, settings.companyCreateDocumentLimitedTimeValue * 60) >= settings.companyCreateDocumentLimitValue)
    {
      if c == null || !settings.isCompanyCreateDocumentLimit then false
      else
        var minutesLimit := settings.companyCreateDocumentLimitedTimeValue * 60;
        RecentCount(c.documents, now, minutesLimit) >= settings.companyCreateDocumentLimitValue
    }

    /** `validateWorkflowLimit`: when active, the open documents shared by the two companies have reached the ceiling. */
    predicate ValidateWorkflowLimit(a: Company?, b: Company?)
      reads this, documentRepository
      ensures !settings.isWorkflowLimit ==> !ValidateWorkflowLimit(a, b)
      ensures settings.isWorkflowLimit && settings.workflowLimitValue <= 0 ==> ValidateWorkflowLimit(a, b)
      ensures settings.isWorkflowLimit ==>
        (ValidateWorkflowLimit(a, b) <==> PairOpenCount(documentRepository, a, b) >= settings.workflowLimitValue)
    {
      settings.isWorkflowLimit && PairOpenCount(documentRepository, a, b) >= settings.workflowLimitValue
    }

    /** The three count checks `addDocument1` runs before inserting: either side's open documents,
        side 1's creation rate, the pair's open documents. */
    predicate AdmissionRefused(d: Document, now: int)
      reads this, documentRepository, d, d.company1
      ensures AdmissionRefused(d, now) ==>
        settings.isCompanyWorkflowLimit || settings.isCompanyCreateDocumentLimit || settings.isWorkflowLimit
      ensures settings.isCompanyWorkflowLimit && settings.companyWorkflowLimitValue <= 0 ==> AdmissionRefused(d, now)
      ensures settings.isWorkflowLimit && settings.workflowLimitValue <= 0 ==> AdmissionRefused(d, now)
      ensures |documentRepository| < settings.companyWorkflowLimitValue && |documentRepository| < settings.workflowLimitValue
              && (d.company1 == null || |d.company1.documents| < settings.companyCreateDocumentLimitValue)
              ==> !AdmissionRefused(d, now)
    {
      ValidateCompanyWorkflowLimit(d.company1) || ValidateCompanyWorkflowLimit(d.company2)
      || ValidateCompanyCreateDocumentLimit(d.company1, now)
      || ValidateWorkflowLimit(d.company1, d.company2)
    }

    /** The three reasons `signingDocument` refuses before signing. */
    predicate SigningRefused(d: Document)
      reads this, d
      ensures d !in documentRepository || d.IsSigned() ==> SigningRefused(d)
      ensures !settings.isLimitedTime ==> (SigningRefused(d) <==> d !in documentRepository || d.IsSigned())
      ensures settings.isLimitedTime && d in documentRepository && !d.IsSigned() ==>
        (SigningRefused(d) <==>
          InsideLimitedTime(settings.startLimitedTimeValue, settings.endLimitedTimeValue, TimeOfDayOf(d.date)))
    {
      ValidateLimitedTime(d) || d !in documentRepository || d.IsSigned()
    }

    /** `signingDocument`: refuses, changing nothing, inside the time window, for a document outside the
        repository and for a fully signed one; otherwise the company signs (which needs custody) and
        the answer is whether the flag of the company's kind is now set. */
    method SigningDocument(d: Document?, c: Company?) returns (ok: bool)
      requires c == null && d != null ==> SigningRefused(d)
      modifies d
      ensures d == null || c == null ==> !ok
      ensures d != null ==> d.company1 == old(d.company1) && d.company2 == old(d.company2)
      ensures d != null ==> d.Sigs() == if old(SigningRefused(d)) || c == null || !c.ContainsDocument(d) then old(d.Sigs())
                                        else old(d.Sigs()).With(c.role)
      ensures d != null && c != null ==> ok == (!old(SigningRefused(d)) && d.Sigs().Has(c.role))
    {
      if ValidateLimitedTime(d) {
        return false;
      }
      if d !in documentRepository {
        return false;
      }
      if d.IsSigned() {
        return false;
      }
      d.Sign(c);
      ok := d.IsSignedBy(c);
    }

    /** The signing round of `addDocument1` on an admitted document: side 1 asks to sign; only when that
        succeeds does side 1 hand custody to side 2 and side 2 ask to sign. The outcome is `AutoSign`. */
    method SignRound(d: Document, c1: Company, c2: Company)
      requires d in documentRepository && d.company1 == c1 && d.company2 == c2
      modifies d, c1, c2
      ensures d.company1 == c1 && d.company2 == c2
      ensures var round := AutoSign(old(d.Sigs()), c1.role, c2.role, old(c1.ContainsDocument(d)), c1 == c2,
                                    ValidateLimitedTime(d));
        && d.Sigs() == round.sigs
        && (!round.transferred ==> c1.documents == old(c1.documents) && c2.documents == old(c2.documents))
        && (round.transferred && c1 != c2 ==>
              c1.documents == RemoveFirst(old(c1.documents), d) && c2.documents == old(c2.documents) + [d])
        && (round.transferred && c1 == c2 ==> c1.documents == RemoveFirst(old(c1.documents) + [d], d))
    {
      ghost var before, held1, blocked := d.Sigs(), c1.ContainsDocument(d), ValidateLimitedTime(d);
      var first := SigningDocument(d, c1);
      ghost var mid := d.Sigs();
      if first {
        HandOver(d, c1, c2);
      }
      AutoSignBySteps(before, c1.role, c2.role, held1, c1 == c2, blocked, mid, first,
                      c1 != c2 || held1, d.Sigs());
    }

    /** The second half of the round, after side 1's signing succeeded: side 1 transfers the document
        to side 2, which then asks to sign. Side 2 holds the document afterwards unless the two sides
        are one company that held no earlier copy. */
    method HandOver(d: Document, c1: Company, c2: Company)
      requires d in documentRepository && d.company1 == c1 && d.company2 == c2
      requires !ValidateLimitedTime(d) && d.Sigs().Has(c1.role)
      modifies d, c1, c2
      ensures d.company1 == c1 && d.company2 == c2
      ensures d.Sigs() == if old(d.Sigs()).Has(c2.role) || (c1 == c2 && !old(c1.ContainsDocument(d)))
                          then old(d.Sigs()) else old(d.Sigs()).With(c2.role)
      ensures c1 != c2 ==> c1.documents == RemoveFirst(old(c1.documents), d) && c2.documents == old(c2.documents) + [d]
      ensures c1 == c2 ==> c1.documents == RemoveFirst(old(c1.documents) + [d], d)
    {
      ghost var docs1, docs2 := c1.documents, c2.documents;
      c1.TransferDocument(d, c2);
      if c1 == c2 {
        AppendThenRemoveKeeps(docs1, d);
      } else {
        assert c2.documents[|docs2|] == d;
      }
      var second := SigningDocument(d, c2);
    }

    /** `addDocument1`: `null` and a document that any count check refuses (counted on the repository
        before insertion) give `false` and change nothing. Otherwise the document is appended once and
        the signing round runs; the time check only makes the signings refuse, the document stays
        admitted. The answer is whether the document is now fully signed. */
    method AddDocument1(d: Document?, now: int) returns (ok: bool)
      requires d != null ==> d.company1 != null && d.company2 != null
      modifies this, d, if d != null then {d.company1, d.company2} else {}
      ensures settings == old(settings)
      ensures d == null ==> !ok && documentRepository == old(documentRepository)
      ensures d != null ==> d.company1 == old(d.company1) && d.company2 == old(d.company2)
      ensures d != null && old(AdmissionRefused(d, now)) ==>
        && !ok && documentRepository == old(documentRepository)
        && unchanged(d) && unchanged(d.company1, d.company2)
      ensures d != null && !old(AdmissionRefused(d, now)) ==>
        var c1, c2 := d.company1, d.company2;
        var round := AutoSign(old(d.Sigs()), c1.role, c2.role, old(c1.ContainsDocument(d)), c1 == c2,
                              ValidateLimitedTime(d));
        && documentRepository == old(documentRepository) + [d]
        && d.Sigs() == round.sigs
        && ok == (round.sigs.Has(c1.role) && round.sigs.Has(c2.role))
        && (!round.transferred ==> c1.documents == old(c1.documents) && c2.documents == old(c2.documents))
        && (round.transferred && c1 != c2 ==>
              c1.documents == RemoveFirst<Document>(old(c1.documents), d) && c2.documents == old(c2.documents) + [d])
        && (round.transferred && c1 == c2 ==> c1.documents == RemoveFirst<Document>(old(c1.documents) + [d], d))
    {
      if d == null {
        return false;
      }
      var company1, company2 := d.company1, d.company2;
      if ValidateCompanyWorkflowLimit(company1) || ValidateCompanyWorkflowLimit(company2) {
        return false;
      }
      if ValidateCompanyCreateDocumentLimit(company1, now) {
        return false;
      }
      if ValidateWorkflowLimit(company1, company2) {
        return false;
      }
      documentRepository := documentRepository + [d];
      SignRound(d, company1, company2);
      ok := d.IsSigned();
    }
  }
}
