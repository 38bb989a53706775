/** Whole runs of the system as its own tests drive it: a fresh system, one company of each kind,
    documents drafted by the first for the second and offered for admission at time `now`. */
module Scenarios {
  import opened Lists
  import opened Clock
  import opened Limits
  import opened Parties
  import opened Workflow

  /** Settings with every check on, the given window and all ceilings 10 within one hour. */
  function AllChecksOn(start: TimeOfDay, end: TimeOfDay): (s: Settings)
    ensures s.isLimitedTime && s.isCompanyWorkflowLimit && s.isCompanyCreateDocumentLimit && s.isWorkflowLimit
    ensures s.startLimitedTimeValue == start && s.endLimitedTimeValue == end
    ensures s.companyWorkflowLimitValue == 10 && s.companyCreateDocumentLimitValue == 10
    ensures s.companyCreateDocumentLimitedTimeValue == 1 && s.workflowLimitValue == 10
  {
    CreateCustomSettings(true, start, end, true, 10, true, 10, 1, true, 10)
  }

  /** The window "00:00" to "23:59": a document drafted at `now` is admitted either way, but it is
      left unsigned exactly when its time of day lies from 00:01:00 to 23:58:00; before 00:01:00 and
      after 23:58:00 the window does not catch it and both sides sign. */
  method WholeDayWindow(now: int) returns (ok: bool, admitted: bool)
    ensures admitted
    ensures !ok <==> SecondsPerMinute <= TimeOfDayOf(now) <= 23 * SecondsPerHour + 58 * SecondsPerMinute
  {
    var system := new SystemWorkflow();
    system.SetSettings(AllChecksOn(0, 23 * SecondsPerHour + 59 * SecondsPerMinute));
    var company1 := new Company(First);
    var company2 := new Company(Second);
    var d := company1.CreateDocument(company2, now);
    assert RecentCount([d], now, 60) == 1;
    ok := system.AddDocument1(d, now);
    admitted := d in system.documentRepository;
  }

  /** Settings with every check off. */
  function AllChecksOff(): (s: Settings)
    ensures !s.isLimitedTime && !s.isCompanyWorkflowLimit && !s.isCompanyCreateDocumentLimit && !s.isWorkflowLimit
  {
    CreateCustomSettings(false, 0, 23 * SecondsPerHour + 59 * SecondsPerMinute, false, 10, false, 10, 1, false, 10)
  }

  /** Every check off: a fresh document is admitted, signed by both sides and handed to side 2; later
      signing requests by either side are refused because the document is already fully signed. */
  method ChecksOff(now: int) returns (ok: bool, again1: bool, again2: bool)
    ensures ok && !again1 && !again2
  {
    var system := new SystemWorkflow();
    system.SetSettings(AllChecksOff());
    var company1 := new Company(First);
    var company2 := new Company(Second);
    var d := company1.CreateDocument(company2, now);
    AutoSignCompletes(First, Second);
    ok := system.AddDocument1(d, now);
    again1 := system.SigningDocument(d, company1);
    again2 := system.SigningDocument(d, company2);
  }

  /** With every check off, any number of documents drafted one after another by the same company
      for the same counterparty are all admitted and fully signed. */
  method ChecksOffMany(now: int, n: nat) returns (accepted: nat)
    ensures accepted == n
  {
    var system := new SystemWorkflow();
    system.SetSettings(AllChecksOff());
    var company1 := new Company(First);
    var company2 := new Company(Second);
    AutoSignCompletes(First, Second);
    accepted := 0;
    while accepted < n
      invariant accepted <= n
      invariant system.settings == AllChecksOff()
    {
      var d := company1.CreateDocument(company2, now);
      var ok := system.AddDocument1(d, now);
      if !ok {
        break;
      }
      accepted := accepted + 1;
    }
  }

  /** The window "00:00" to "00:01" catches no time of day. */
  lemma OneMinuteWindowCatchesNothing(t: TimeOfDay)
    ensures !InsideLimitedTime(0, SecondsPerMinute, t)
  {
  }

  /** Every entry of the repository is an unsigned document drafted by `c1` for `c2`. */
  predicate AllOpenBetween(repo: seq<Document>, c1: Company, c2: Company)
    reads repo
  {
    forall k :: 0 <= k < |repo| ==>
      repo[k].company1 == c1 && repo[k].company2 == c2 && !repo[k].signing1 && !repo[k].signing2
  }

  /** Appending an unsigned document drafted by `c1` for `c2` keeps the repository of that shape. */
  lemma AllOpenBetweenAppend(repo: seq<Document>, d: Document, c1: Company, c2: Company)
    requires AllOpenBetween(repo, c1, c2)
    requires d.company1 == c1 && d.company2 == c2 && !d.signing1 && !d.signing2
    ensures AllOpenBetween(repo + [d], c1, c2)
  {
    assert forall k :: 0 <= k < |repo| ==> (repo + [d])[k] == repo[k];
  }

  /** One pass of the loop in `WorkflowLimitReached`: side 1 drafts a document, the system admits it
      (fewer than ten entries, so below every ceiling, and outside the window), the round signs it and
      hands it over, and then the signatures are cleared again. */
  method AdmitAndReset(system: SystemWorkflow, company1: Company, company2: Company, now: int)
    returns (d: Document)
    requires company1 != company2 && company1.role == First && company2.role == Second
    requires system.settings == AllChecksOn(0, SecondsPerMinute)
    requires company1.documents == [] && |system.documentRepository| < 10
    modifies system, company1, company2
    ensures fresh(d)
    ensures system.settings == old(system.settings) && company1.documents == []
    ensures system.documentRepository == old(system.documentRepository) + [d]
    ensures d.company1 == company1 && d.company2 == company2 && !d.signing1 && !d.signing2
    ensures company2.documents == old(company2.documents) + [d]
  {
    d := company1.CreateDocument(company2, now);
    OneMinuteWindowCatchesNothing(TimeOfDayOf(now));
    AutoSignCompletes(First, Second);
    assert RecentCount([d], now, 60) == 1;
    var ok := system.AddDocument1(d, now);
    assert company1.documents == RemoveFirst([d], d);
    d.ResetSigning();
  }

  /** The pass after the loop: with ten open documents between the pair the next one is refused
      and the repository stays as it was. */
  method OfferAtCeiling(system: SystemWorkflow, company1: Company, company2: Company, now: int)
    returns (ok: bool)
    requires company1.role == First && company2.role == Second
    requires system.settings == AllChecksOn(0, SecondsPerMinute)
    requires |system.documentRepository| == 10
    requires AllOpenBetween(system.documentRepository, company1, company2)
    modifies system, company1, company2
    ensures !ok && system.documentRepository == old(system.documentRepository)
  {
    AllOpenCounted(system.documentRepository, company1, company2);
    var d := company1.CreateDocument(company2, now);
    ok := system.AddDocument1(d, now);
  }

  /** Ten documents admitted and then reset to unsigned fill the pair's ceiling of ten open documents:
      the eleventh is refused and the repository keeps the ten. Each admitted document is signed by
      both sides and handed to side 2, so side 1 never holds more than the one it just drafted. */
  method WorkflowLimitReached(now: int) returns (ok: bool, size: nat)
    ensures !ok && size == 10
  {
    var system := new SystemWorkflow();
    system.SetSettings(AllChecksOn(0, SecondsPerMinute));
    var company1 := new Company(First);
    var company2 := new Company(Second);
    var i := 0;
    while i < 10
      invariant 0 <= i <= 10 && |system.documentRepository| == i
      invariant system.settings == AllChecksOn(0, SecondsPerMinute)
      invariant company1.documents == []
      invariant AllOpenBetween(system.documentRepository, company1, company2)
    {
      ghost var repo := system.documentRepository;
      var d := AdmitAndReset(system, company1, company2, now);
      AllOpenBetweenAppend(repo, d, company1, company2);
      i := i + 1;
    }
    ok := OfferAtCeiling(system, company1, company2, now);
    size := |system.documentRepository|;
  }
}
