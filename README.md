# genDoc document workflow, modelled in Dafny

The model covers the `ru.f13.ikt.logic` package of genDoc, a two-party document workflow:

- A company of one of two kinds drafts a document for a counterparty.
- The companies pass custody of the document between them.
- Each company signs while it holds the document.
- A `SystemWorkflow` admits documents into its repository under four configurable limits:
  - a time-of-day window;
  - a ceiling on each company's open documents;
  - a ceiling on the documents a company created recently;
  - a ceiling on the open documents shared by a pair of companies.
- The system runs the automatic sign–transfer–sign round on every admitted document.

Modules, one concept each:

| module | file | models |
|---|---|---|
| `Lists` | `lists.dfy` | `ArrayList.remove(Object)`: only the first occurrence goes |
| `Clock` | `clock.dfy` | `ChronoUnit.MINUTES.between` (truncated whole minutes) and the window test of `validateLimitedTime` |
| `Limits` | `settings.dfy` | `Settings`: ten fields, ten setters, the custom and default factories |
| `Parties` | `parties.dfy` | `Company` and `Document` as classes whose fields the methods update |
| `Workflow` | `workflow.dfy` | `SystemWorkflow` as a class, with the three counting filters as recursive functions over the repository |
| `Scenarios` | `scenarios.dfy` | whole runs as the repository's own tests drive them |

## Model conventions

- Time:
  - A `LocalDateTime` is an integer number of seconds counted from a midnight.
  - A time of day is `stamp % 86400`.
  - `MINUTES.between(a, b)` is `b - a` divided by 60, truncated toward zero as Java's `long` division truncates. Dafny's own `/` is Euclidean, so `MinutesBetween` writes the truncation out.
- The kind of a company (`Company1` or `Company2`, whose classes are not part of this model) is the `Role` tag `First` or `Second`.
  - `sign` and `isSigning(company)` choose the flag by that tag.
  - They do not choose it by the side the company occupies.
- Lists:
  - Custody lists and the repository are `seq<Document>` fields that the methods reassign.
  - Duplicates are allowed.
  - Removal drops the first occurrence only (`RemoveFirst`).
- `Settings` is a value type: each setter gives a new value with one field changed.
- Equality:
  - `equals` is object identity: `Document` and `Company` do not override it, and `Company1`/`Company2` are assumed not to.
  - `contains` and `anyMatch(equals)` are sequence membership.
- The clock is a parameter. `addDocument1` and `validateCompanyCreateDocumentLimit` receive the current time as `now`. A document carries its creation time as the `date` constant.

## Model

| member | source | states |
|---|---|---|
| `Lists.RemoveFirst` | src/main/java/ru/f13/ikt/logic/Company.java:66-70 | removing an absent element changes nothing; removing a present one shortens the list by exactly one |
| `Lists.RemoveFirstMultiset` | src/main/java/ru/f13/ikt/logic/Company.java:66-70 | removal takes exactly one copy of the element out of the list's contents, none when it is absent |
| `Lists.RemoveFirstAt` | src/main/java/ru/f13/ikt/logic/SystemWorkflow.java:36 | removal happens at the first index holding the element; the elements before and after it keep their order |
| `Lists.AppendThenRemove` | src/main/java/ru/f13/ikt/logic/Company.java:91-94 | add-then-remove, which is how a transfer to oneself acts: it restores the list when the element was absent; otherwise it drops the earlier copy and keeps the appended one last |
| `Lists.AppendThenRemoveKeeps` | src/main/java/ru/f13/ikt/logic/Company.java:91-94 | after add-then-remove the element is held exactly when it was held before |
| `Clock.MinutesBetween` | src/main/java/ru/f13/ikt/logic/SystemWorkflow.java:121-123 | the whole minutes between two instants, rounded toward zero: `60*m <= diff < 60*m + 60` for a forward difference, and the mirror image for a backward one |
| `Clock.MinutesBetweenSign` | src/main/java/ru/f13/ikt/logic/SystemWorkflow.java:126-132 | the minute count is positive, negative or zero exactly when the instants are at least a minute apart forward, at least a minute apart backward, or less than a minute apart |
| `Clock.MinutesBetweenSwapped` | src/main/java/ru/f13/ikt/logic/SystemWorkflow.java:121-123 | swapping the two instants negates the count |
| `Clock.TimeOfDayOfDays` | src/main/java/ru/f13/ikt/logic/SystemWorkflow.java:115 | `toLocalTime` as `TimeOfDayOf`: the time of day repeats every whole day; within the first day it is the timestamp itself, and the day before the origin counts back from midnight |
| `Clock.InsideLimitedTime` | src/main/java/ru/f13/ikt/logic/SystemWorkflow.java:121-134 | the window test in truncated minutes, characterised in seconds, one clause per case. Plain window: the time lies a full minute inside both ends. Wrapping window: exactly one of "a minute or more before start" and "a minute or more after end" holds. Window under a minute: the time lies within a minute of both ends |
| `Clock.WrappingWindowExamples` | src/main/java/ru/f13/ikt/logic/SystemWorkflow.java:117-119 | for the window 21:00–00:00: 23:30 and 00:00:30 are inside, 10:00 is outside |
| `Clock.PlainWindowExamples` | src/main/java/ru/f13/ikt/logic/SystemWorkflow.java:126-127 | for the window 07:00–21:00: noon is inside; 22:00 and both ends are outside |
| `Clock.NearlyWholeDayWindow` | src/test/java/ru/f13/ikt/AppTest.java:30-35 | the window 00:00–23:59 covers every time from 00:01 to 23:58 |
| `Limits.Settings.WithLimitedTime` | src/main/java/ru/f13/ikt/logic/Settings.java:91-93 | `setLimitedTime` sets its field and leaves the other nine as they were |
| `Limits.Settings.WithStartLimitedTimeValue` | src/main/java/ru/f13/ikt/logic/Settings.java:107-109 | `setStartLimitedTimeValue` sets its field and leaves the others as they were |
| `Limits.Settings.WithEndLimitedTimeValue` | src/main/java/ru/f13/ikt/logic/Settings.java:123-125 | `setEndLimitedTimeValue` sets its field and leaves the others as they were |
| `Limits.Settings.WithCompanyWorkflowLimit` | src/main/java/ru/f13/ikt/logic/Settings.java:139-141 | `setCompanyWorkflowLimit` sets its field and leaves the others as they were |
| `Limits.Settings.WithCompanyWorkflowLimitValue` | src/main/java/ru/f13/ikt/logic/Settings.java:155-157 | `setCompanyWorkflowLimitValue` sets its field and leaves the others as they were |
| `Limits.Settings.WithCompanyCreateDocumentLimit` | src/main/java/ru/f13/ikt/logic/Settings.java:171-173 | `setCompanyCreateDocumentLimit` sets its field and leaves the others as they were |
| `Limits.Settings.WithCompanyCreateDocumentLimitValue` | src/main/java/ru/f13/ikt/logic/Settings.java:187-189 | `setCompanyCreateDocumentLimitValue` sets its field and leaves the others as they were |
| `Limits.Settings.WithCompanyCreateDocumentLimitedTimeValue` | src/main/java/ru/f13/ikt/logic/Settings.java:203-205 | `setCompanyCreateDocumentLimitedTimeValue` sets its field and leaves the others as they were |
| `Limits.Settings.WithWorkflowLimit` | src/main/java/ru/f13/ikt/logic/Settings.java:219-221 | `setWorkflowLimit` sets its field and leaves the others as they were |
| `Limits.Settings.WithWorkflowLimitValue` | src/main/java/ru/f13/ikt/logic/Settings.java:235-237 | `setWorkflowLimitValue` sets its field and leaves the others as they were |
| `Limits.Blank` | src/main/java/ru/f13/ikt/logic/Settings.java:22-23 | the private constructor leaves every check off and every number zero |
| `Limits.CreateCustomSettings` | src/main/java/ru/f13/ikt/logic/Settings.java:47-77 | each of the ten arguments ends up in its own field |
| `Limits.CreateDefaultSettings` | src/main/java/ru/f13/ikt/logic/Settings.java:29-31 | every check is on, the window is 07:00–21:00, the three ceilings are 10, and the creation window is one hour |
| `Parties.Signatures.With` | src/main/java/ru/f13/ikt/logic/Document.java:107-111 | a signature sets the flag of the signer's kind and leaves the other flag alone |
| `Parties.WithIdempotentAndMonotone` | src/main/java/ru/f13/ikt/logic/Document.java:101-113 | signing twice with one kind is signing once, and signing never clears a flag |
| `Parties.BothKindsSignFully` | src/main/java/ru/f13/ikt/logic/Document.java:143-145 | signatures of both kinds, in either order, set both flags |
| `Parties.Company.constructor` | src/main/java/ru/f13/ikt/logic/Company.java:13-15 | a new company holds nothing |
| `Parties.Company.AddDocument` | src/main/java/ru/f13/ikt/logic/Company.java:56-60 | one more occurrence at the end, even for a document already held |
| `Parties.Company.RemoveDocument` | src/main/java/ru/f13/ikt/logic/Company.java:66-70 | the first occurrence goes, and the contents lose one copy; `null` changes nothing |
| `Parties.Company.CreateDocument` | src/main/java/ru/f13/ikt/logic/Company.java:22-28 | a fresh unsigned document with this company on side 1 and the other company on side 2, appended to this company's custody |
| `Parties.Company.ChangeDocument` | src/main/java/ru/f13/ikt/logic/Company.java:34-50 | a company that already is side 1 changes nothing. Otherwise it takes side 1, the old side 1 moves to side 2, both flags are cleared and the document is appended to this company's custody. `null` gives `null` |
| `Parties.Company.TransferDocument` | src/main/java/ru/f13/ikt/logic/Company.java:91-94 | the receiver appends the document and the sender loses its first occurrence; a transfer to oneself is add-then-remove |
| `Parties.TransferKeepsCustody` | src/main/java/ru/f13/ikt/logic/Company.java:91-94 | a transfer from a holder keeps the document's total occurrences across the pair, and the receiver holds it afterwards |
| `Parties.Document.constructor` | src/main/java/ru/f13/ikt/logic/Document.java:20-25 | the two sides as given, the given creation time, no signatures |
| `Parties.Document.SetCompany1` | src/main/java/ru/f13/ikt/logic/Document.java:62-64 | side 1 is replaced; side 2 and the flags stay |
| `Parties.Document.SetCompany2` | src/main/java/ru/f13/ikt/logic/Document.java:78-80 | side 2 is replaced; side 1 and the flags stay |
| `Parties.Company.ContainsDocument` | src/main/java/ru/f13/ikt/logic/Company.java:77-84 | `isContainsDocument`: some index of the custody list holds the document; never for `null` |
| `Parties.Document.ContainsCompany` | src/main/java/ru/f13/ikt/logic/Document.java:87-95 | a company is contained only when it is non-null and occupies a side. When side 1 is unset nothing is contained, not even side 2, because the source tests side 1 for `null` twice |
| `Parties.Document.Sign` | src/main/java/ru/f13/ikt/logic/Document.java:101-113 | when the signer holds the document, the flag of its kind is set; otherwise nothing changes; the sides never change |
| `Parties.Document.IsSignedBy` | src/main/java/ru/f13/ikt/logic/Document.java:120-129 | the flag of the company's kind; false for `null` |
| `Parties.Document.IsSigned` | src/main/java/ru/f13/ikt/logic/Document.java:135-137 | both sides' kinds have signed; this implies both sides are set |
| `Parties.Document.IsPartiallySigned` | src/main/java/ru/f13/ikt/logic/Document.java:143-145 | exactly one of the two flags is set; the same test as `Signatures.Partial` on the flags as a value |
| `Parties.Document.ResetSigning` | src/main/java/ru/f13/ikt/logic/Document.java:150-153 | both flags are cleared and the sides stay |
| `Parties.SignedWithBothKinds` | src/main/java/ru/f13/ikt/logic/Document.java:135-137 | with one company of each kind, fully signed means both flags are set |
| `Parties.SignedWithOneKind` | src/main/java/ru/f13/ikt/logic/Document.java:135-137 | with two companies of the same kind, one flag makes the document fully signed |
| `Workflow.CompanyOpenCount` | src/main/java/ru/f13/ikt/logic/SystemWorkflow.java:149-154 | counts the open documents involving the company; the count is at most the repository's length, and a positive count has a witness entry |
| `Workflow.PairOpenCount` | src/main/java/ru/f13/ikt/logic/SystemWorkflow.java:204-208 | counts the open documents involving both companies; the count is at most the repository's length, and a positive count has a witness entry |
| `Workflow.RecentCount` | src/main/java/ru/f13/ikt/logic/SystemWorkflow.java:177-181 | counts the custody entries passing the creation filter; the count is at most the list's length |
| `Workflow.OpenEntryCounted` | src/main/java/ru/f13/ikt/logic/SystemWorkflow.java:149-154 | one open entry involving the company, or both companies, makes the company count, or the pair count, positive |
| `Workflow.PairAtMostCompany` | src/main/java/ru/f13/ikt/logic/SystemWorkflow.java:196-212 | the pair count never exceeds either company's own count |
| `Workflow.CountsAppend` | src/main/java/ru/f13/ikt/logic/SystemWorkflow.java:92 | appending a document adds one to a count exactly when that document is open and involves the companies |
| `Workflow.AllOpenCounted` | src/main/java/ru/f13/ikt/logic/SystemWorkflow.java:143-157 | a repository of open documents between the pair counts in full for both checks |
| `Workflow.CountedForCreation` | src/main/java/ru/f13/ikt/logic/SystemWorkflow.java:179 | with a non-negative window, a document passes the creation filter exactly when it is dated less than `minutesLimit + 1` minutes after `now` |
| `Workflow.PastDocumentsAllCounted` | src/main/java/ru/f13/ikt/logic/SystemWorkflow.java:170-186 | every document created before `now` passes the creation filter |
| `Workflow.AutoSign` | src/main/java/ru/f13/ikt/logic/SystemWorkflow.java:94-97 | the round on values. It ends fully signed exactly when the document already was, or when, outside the window, side 1 holds it or has signed, and side 2 can sign after the transfer or has signed: side 1 holds it, side 2's kind has signed, or the sides are different companies. Custody moves exactly when, outside the window, a not fully signed document carries side 1's signature after side 1's request |
| `Workflow.AutoSignCompletes` | src/main/java/ru/f13/ikt/logic/SystemWorkflow.java:94-99 | a held, unsigned document between companies of the two kinds, outside the window, ends fully signed and transferred |
| `Workflow.AutoSignBlocked` | src/main/java/ru/f13/ikt/logic/SystemWorkflow.java:49-51 | inside the time window nothing is signed and custody does not move |
| `Workflow.AutoSignMonotone` | src/main/java/ru/f13/ikt/logic/SystemWorkflow.java:94-97 | the round never clears a flag; custody moves only outside the window and after side 1's kind has signed |
| `Workflow.AutoSignNotHeld` | src/main/java/ru/f13/ikt/logic/Document.java:103-105 | a document that side 1 neither holds nor has signed is left as it was |
| `Workflow.AutoSignSameKind` | src/main/java/ru/f13/ikt/logic/SystemWorkflow.java:57-59 | with two companies of the same kind, side 1's signature completes the document and side 2's request is refused |
| `Workflow.SystemWorkflow.constructor` | src/main/java/ru/f13/ikt/logic/SystemWorkflow.java:22-27 | a new system has an empty repository and the default settings |
| `Workflow.SystemWorkflow.SetSettings` | src/main/java/ru/f13/ikt/logic/SystemWorkflow.java:226-228 | replaces the configuration; the repository stays |
| `Workflow.SystemWorkflow.RemoveDocument` | src/main/java/ru/f13/ikt/logic/SystemWorkflow.java:33-39 | a partially signed document stays; otherwise its first occurrence is removed |
| `Workflow.SystemWorkflow.ValidateLimitedTime` | src/main/java/ru/f13/ikt/logic/SystemWorkflow.java:107-136 | false for `null` and when the check is off; otherwise true exactly when the document's time of day lies inside the window |
| `Workflow.SystemWorkflow.ValidateCompanyWorkflowLimit` | src/main/java/ru/f13/ikt/logic/SystemWorkflow.java:143-157 | false when the check is off; otherwise true exactly when the company's open count reaches the ceiling, so a ceiling of zero or less always applies |
| `Workflow.SystemWorkflow.ValidateCompanyCreateDocumentLimit` | src/main/java/ru/f13/ikt/logic/SystemWorkflow.java:164-188 | false for `null` and when the check is off; otherwise true exactly when the custody entries within `hours * 60` minutes of `now` reach the ceiling |
| `Workflow.SystemWorkflow.ValidateWorkflowLimit` | src/main/java/ru/f13/ikt/logic/SystemWorkflow.java:196-212 | false when the check is off; otherwise true exactly when the pair's open count reaches the ceiling |
| `Workflow.SystemWorkflow.AdmissionRefused` | src/main/java/ru/f13/ikt/logic/SystemWorkflow.java:80-90 | the count checks of `addDocument1`: they never refuse when all three are off, always refuse when an active repository ceiling is zero or less, and never refuse when the repository and side 1's custody list are shorter than their ceilings |
| `Workflow.SystemWorkflow.SigningRefused` | src/main/java/ru/f13/ikt/logic/SystemWorkflow.java:49-59 | `signingDocument` refuses a document outside the repository or fully signed. Otherwise it refuses exactly when the window check is on and the document's time of day lies inside the window |
| `Workflow.SystemWorkflow.SigningDocument` | src/main/java/ru/f13/ikt/logic/SystemWorkflow.java:47-64 | refuses, changing nothing, inside the window, outside the repository and when fully signed, and then also for a `null` company. Otherwise the company signs if it holds the document, and the answer is whether its kind's flag is set. A `null` company that reaches `sign` throws and is excluded |
| `Workflow.SystemWorkflow.SignRound` | src/main/java/ru/f13/ikt/logic/SystemWorkflow.java:94-97 | the flags and both custody lists after the round are those of `AutoSign` on the state before it |
| `Workflow.SystemWorkflow.HandOver` | src/main/java/ru/f13/ikt/logic/SystemWorkflow.java:95-96 | after side 1's signature: the transfer, then side 2's request, which signs unless its kind has signed already or it does not hold the document |
| `Workflow.SystemWorkflow.AddDocument1` | src/main/java/ru/f13/ikt/logic/SystemWorkflow.java:71-100 | `null`, or a document refused by any count check on the repository before insertion: false, and nothing changes. Otherwise the document is appended once, the round runs as `AutoSign` says, and the answer is whether it is fully signed |
| `Scenarios.WholeDayWindow` | src/test/java/ru/f13/ikt/AppTest.java:26-43 | under the window 00:00–23:59 the document is admitted. It stays unsigned exactly when drafted from 00:01:00 to 23:58:00; before 00:01:00 and after 23:58:00 both sides sign |
| `Scenarios.ChecksOff` | src/test/java/ru/f13/ikt/AppTest.java:139-156 | with every check off, a fresh document is admitted fully signed, and later signing requests by either side are refused |
| `Scenarios.ChecksOffMany` | src/test/java/ru/f13/ikt/AppTest.java:158-167 | with every check off, any number of documents in a row are all admitted and signed |
| `Scenarios.OneMinuteWindowCatchesNothing` | src/test/java/ru/f13/ikt/AppTest.java:112-117 | the window 00:00–00:01 contains no time of day |
| `Scenarios.AdmitAndReset` | src/test/java/ru/f13/ikt/AppTest.java:124-127 | below ten entries a fresh document is admitted and handed to side 2, and side 1 ends up holding nothing |
| `Scenarios.OfferAtCeiling` | src/test/java/ru/f13/ikt/AppTest.java:131-133 | with ten open documents between the pair, the next one is refused and the repository stays |
| `Scenarios.WorkflowLimitReached` | src/test/java/ru/f13/ikt/AppTest.java:106-134 | ten admitted-then-reset documents fill the ceiling: the eleventh is refused and ten entries remain |

Behaviour of the code that its names and comments do not suggest; the model follows the code in each case:

- Time window:
  - A `true` from `validateLimitedTime` refuses signing (`SystemWorkflow.java:49-51`), so the configured "limited time" is a blackout period, not the hours in which signing is open.
  - `addDocument1` never checks the time itself (`SystemWorkflow.java:71-100`). Inside the window a document is still admitted and only stays unsigned.
  - The window compares truncated minutes. A window whose two ends lie within a minute of each other takes every time within a minute of both ends, not only the exact start.
- The creation-rate filter keeps documents with `MINUTES.between(now, date) <= hours*60` (`SystemWorkflow.java:179`). That is "at most that many minutes after now", so every document created in the past counts, not only those created in the last hours (`PastDocumentsAllCounted`).
- Custody is not exclusive, although `transferDocument` reads as a hand-over:
  - `changeDocument` appends the document to the new side 1's list without removing it anywhere (`Company.java:34-50`).
  - A transfer to oneself keeps the document.
- Absent documents and parties:
  - Passing a `null` company to `sign` or `transferDocument`, or a document with an unset side 1 to `changeDocument`, throws in the source. The model's `requires` exclude these cases.
  - `isContainsCompany` tests side 1 for `null` twice and side 2 never, and the model keeps that.
- The source's own test `getToLimitedTime` (`AppTest.java:26-43`) expects `false`. By `WholeDayWindow`, it gets `true` for a document drafted before 00:01:00 or after 23:58:00.

## Left out

- The wall clock is out of the model: `LocalDateTime.now()` in `Document`'s constructor and in `validateCompanyCreateDocumentLimit` is replaced by the `date` and `now` parameters. Instants are whole seconds; sub-second precision is not modelled.
- Time strings are out of the model:
  - `LocalTime.parse` of the two time strings is not modelled; `Settings` holds the window's ends already parsed, as seconds since midnight.
  - A malformed or `null` time string, which throws in the source, cannot be represented.
  - `Limits.Blank` puts midnight where the private constructor leaves `null`.
- Document names are out of the model: `Document.generateName`, `getName` and the `hashCode` they use are not modelled; nothing in the workflow reads a name.
- Getters are the fields themselves and have no members of their own: `getCompany1`, `getCompany2`, `getDate`, `getDocuments`, `getSettings` and the `Settings` getters.
- `Settings` is a value. Two systems sharing one `Settings` object, or a caller changing it after `setSettings`, is aliasing that the model does not capture. `setSettings(null)` is not modelled.
- `Company.addDocument(null)` and `transferDocument(null, …)` are not modelled: custody lists hold non-null documents, because the source's `isContainsDocument` would throw on a `null` element.
- The `documents != null` and `documentRepository != null` guards are always true in the source and are not modelled.
- `Workflow.SystemWorkflow.AddDocument1`: requires both sides of a non-null document to be set.
  - With side 1 unset, the source throws once side 1's signing request reaches `sign`.
  - With side 2 unset, it throws once side 1 has signed and the transfer runs.
  - The paths on which such a document is refused without a throw are not modelled: a count check, the time window, or an unheld document.
- `Parties.Company.ChangeDocument`: requires side 1 to be set, since `getCompany1().equals` throws otherwise.
- `Parties.Document.Sign`: takes a non-null company, since `company.isContainsDocument` throws for `null`.
- The subclasses `Company1` and `Company2` are not part of this model; the `Role` tag stands for them. A company of a third class, which `sign` would ignore, does not exist in the source.
- `Workflow.SystemWorkflow.SignRound` and `HandOver` do not stand for methods of their own. They are lines 94-97 of `addDocument1`, factored out.
- The `int` ceilings are `Int32` values. `hours * 60` is computed as a Java `long` and cannot overflow, so no wrap-around is modelled.
- The test `testScenario2WithoutSystemAndLimits` (`AppTest.java:195-232`) is not modelled; it runs ten thousand transfers without the system.
- `AppTest.doNotExceedCompanyWorkflowLimit` and `exceedCompanyCreateDocumentLimit` are not modelled as scenarios. The checks they drive are covered by the `Validate…` members and `AddDocument1`.
