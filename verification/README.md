# KYC verification engine — a Dafny model

This project models the decision engine of a KYC ("know your customer") back end:

- a submission is checked for a duplicate document number;
- it is run through an external identity-matching check (a mock that can be unavailable);
- the match results are turned into a weighted risk score and a risk level;
- the submission is stored as a PENDING verification;
- reviewers later decide verifications, and each decision cascades to the verification's documents;
- a periodic sweep expires approved verifications whose document has expired;
- risk assessments are validated and stored;
- the error middleware turns thrown errors into HTTP responses.

The tables (users, verifications, documents, risk assessments) are fields of the class `Database.Tables`. The service operations are methods that change them. Each method is proved against specification functions, and lemmas prove properties about those functions.

Files and modules:

| file | module | models |
|---|---|---|
| `wrappers.dfy` | `Wrappers` | `Option` and `Result` |
| `error_handler.dfy` | `ErrorHandling` | `src/utils/errorHandler.ts`: `AppError`, status classification, `errorHandler` |
| `risk_scoring_config.dfy` | `RiskScoringConfig` | `src/config/riskScoring.ts`: the rule and threshold records, and the shipped constant |
| `risk_scorer.dfy` | `RiskScorer` | `calculateRiskScore` and the recorded risk factors |
| `name_similarity.dfy` | `NameSimilarity` | `calculateNameSimilarity` and `levenshteinDistance` (the table is a 2-D array filled by nested loops) |
| `kyc_verification.dfy` | `KycVerificationModel` | `src/models/KYCVerification.ts` |
| `document.dfy` | `DocumentModel` | `src/models/Document.ts` |
| `risk_assessment.dfy` | `RiskAssessmentModel` | `src/models/RiskAssessment.ts`, including `isValidRiskFactors` over JSON values |
| `database.dfy` | `Database` | the four tables: primary keys, the unique document number, foreign keys and column validators |
| `pagination.dfy` | `Pagination` | offset and page-count arithmetic, and the two ways of defaulting page and limit |
| `kyc_service.dfy` | `KycService` | the remaining operations of `src/services/kycService.ts` |
| `risk_assessment_controller.dfy` | `RiskAssessmentController` | `src/controllers/riskAssessmentController.ts` |

Conventions:

- Identifiers are natural numbers handed out by a counter (`Tables.nextId`). In the source they are random UUIDs.
- Instants are integers.
- The clock and the mock's random outage are parameters (`now`, `apiFails`).
- Errors are values of `ErrorHandling.ErrorObject`. An `AppError` carries a code, a status and `isOperational`. Any other error (a Sequelize constraint error, a TypeError) carries none of them.

Behaviour the model keeps because the code does it this way (the design of the system says otherwise in each case):

- **Empty names.** Two names that are empty after normalisation give `0/0 = NaN`, so they are not similar (`NameSimilarity.EmptyNamesNotSimilar`). The design wants ratio 1.
- **Level from the raw total.** The level is read off the raw weighted total, not the normalised score. Name, date of birth and NIN matching gives total 35, score 58 and level HIGH, where the design says MEDIUM (`RiskScorer.ShippedExample`). With the shipped configuration LOW is unreachable (`RiskScorer.ShippedLowUnreachable`).
- **No transition guard.** Any status may be written over any status, including re-approving an expired verification (`KycService.NoTransitionGuard`). The design wants an invalid-transition error.
- **The sweep touches documents.** It goes through the ordinary status update, so the documents of each expired verification become REJECTED with reviewer "system" (`KycService.SweepRejectsDocuments`). The design says the sweep leaves documents alone.
- **Unique index error.** A document number caught only by the unique index surfaces as Sequelize's "Validation error" (not an `AppError`), not as the pre-check's 400.
- **Listing totals count joined rows.** `findAndCountAll` with the `documents` and `riskAssessments` includes and no `distinct` counts one row per document and assessment pair. A fresh request with its three documents counts 3 (`KycService.NewRequestJoinsThreeRows`), and the totals equal the verification counts only when no verification has two documents or two assessments (`KycService.JoinedCountExact`).
- **Negative pages.** A page below 1 (or a negative limit) gives a negative offset, which MySQL refuses, so the listing fails (`KycService.PageBelowOneRefused`).
- **The sweep and the reviewer key.** The sweep writes "system" as the reviewer, and the reviewer column is a foreign key to users, so unless a user has that id the sweep fails and expires nothing (see Findings).
- **Assessment dates.** The expiry date of an assessment is not required to follow its assessment date.

## Model

| member | source | states |
|---|---|---|
| ErrorHandling.AppError | src/utils/errorHandler.ts:10-15 | keeps message and code; operational; status is 'fail' exactly when the code is non-negative with leading decimal digit 4, else 'error' |
| ErrorHandling.StatusClassByLeadingDigit | src/utils/errorHandler.ts:13 | the decimal text starts with '4' iff the code is non-negative with leading digit 4; the class is always 'fail' or 'error' |
| ErrorHandling.ClientErrorCodesFail | src/utils/errorHandler.ts:13 | every code 400..499 (and 4, 40..49, 4000..4999) is classified 'fail' |
| ErrorHandling.ServerErrorCodesError | src/utils/errorHandler.ts:13 | every code 500..599, the verifier's 503 among them, is classified 'error' |
| ErrorHandling.PlainError | src/utils/errorHandler.ts:21-26 | an error that is not an AppError has no code, no status and is not operational |
| ErrorHandling.WithDefaults | src/utils/errorHandler.ts:27-28 | a missing or zero code becomes 500 and a missing or empty status becomes 'error'; present values are kept; the result always has both |
| ErrorHandling.HandleError | src/utils/errorHandler.ts:21-53 | the response always has a code and a status; in development, or for an operational error, it carries the defaulted code and status and the error's message; the body is the development form iff in development, and keeps the error there; a non-operational error in production gets 500, 'error', "Something went wrong" |
| ErrorHandling.ProductionResponses | src/utils/errorHandler.ts:37-51 | in production an operational error is answered with its own code and message; any other error with 500, 'error', "Something went wrong" |
| ErrorHandling.AppErrorResponse | src/utils/errorHandler.ts:39-43 | an AppError with a non-zero code reaches the client in production with that code, its classified status and its message |
| ErrorHandling.DevelopmentKeepsCode | src/utils/errorHandler.ts:30-36 | in development the response code is the error's own (or 500), whether or not the error is operational |
| RiskScoringConfig.MaxPossibleScore | src/services/kycService.ts:79-82 | the sum of the weights is at least every single weight |
| RiskScoringConfig.ShippedWeights | src/config/riskScoring.ts:22-43 | the shipped weights are all positive and sum to 60 |
| RiskScoringConfig.ShippedThresholds | src/config/riskScoring.ts:44-48 | the shipped thresholds are 70, 40 and 0; LOW > MEDIUM >= HIGH; LOW exceeds the maximum total |
| RiskScorer.RoundHalfUp | src/services/kycService.ts:94 | `Math.round(num/den)` for positive den: the integer r with den(2r-1) <= 2num < den(2r+1) |
| RiskScorer.CalculateRiskScore | src/services/kycService.ts:69-98 | per-rule details from the rules' weights; the score lies in 0..100; the raw total never exceeds the maximum |
| RiskScorer.RoundedScoreBounds | src/services/kycService.ts:94 | the rounded percentage of a total between 0 and the maximum is in 0..100 and is the nearest integer to 100·total/max |
| RiskScorer.RoundHalfUpMonotone | src/services/kycService.ts:94 | a larger numerator never rounds lower |
| RiskScorer.ContributionIsWeightOrZero | src/services/kycService.ts:70-76 | each rule contributes exactly its weight when matched and 0 otherwise |
| RiskScorer.ScoreMonotone | src/services/kycService.ts:69-98 | one more match never lowers the score and never raises the level's risk (when LOW's threshold is at least MEDIUM's) |
| RiskScorer.ScoreExtremes | src/services/kycService.ts:78-94 | all rules matched scores 100; none matched scores 0 |
| RiskScorer.RoundWhole | src/services/kycService.ts:94 | the whole maximum rounds to 100 and nothing rounds to 0 |
| RiskScorer.ShippedExample | src/services/kycService.ts:84-94 | name, date of birth and NIN matched: total 35, score 58, level HIGH |
| RiskScorer.ShippedLowUnreachable | src/config/riskScoring.ts:44-46 | with the shipped configuration no result is LOW, and all matched is MEDIUM |
| RiskScorer.RuleThresholdsUnused | src/services/kycService.ts:71-75 | the per-rule `threshold` fields do not affect the result; only weights and level thresholds do |
| RiskScorer.RiskFactorsAreUnscoredRules | src/services/kycService.ts:134-136 | for any weights the recorded factors are exactly the rules that failed or weigh 0, in declaration order |
| RiskScorer.RiskFactorsAreFailedRules | src/services/kycService.ts:134-136 | with positive weights the recorded factors are exactly the failed rules, in declaration order |
| RiskScorer.ShippedRiskFactorsIffUnmatched | src/services/kycService.ts:134-136 | with the shipped weights a rule is a risk factor iff it did not match |
| RiskScorer.ZeroWeightRuleAlwaysListed | src/services/kycService.ts:134-136 | each of the five rules whose weight is 0 is listed as a risk factor, whether or not it matched |
| NameSimilarity.ToLower | src/services/kycService.ts:36 | a lower-cased character is not upper case and is whitespace iff the original was |
| NameSimilarity.RemoveWhitespace | src/services/kycService.ts:36 | the result holds no whitespace and is no longer than the input |
| NameSimilarity.RemoveWhitespaceConcat | src/services/kycService.ts:36 | removing whitespace distributes over concatenation |
| NameSimilarity.NormalizeShape | src/services/kycService.ts:36 | a normalised name holds neither whitespace nor upper-case letters |
| NameSimilarity.NormalizeIgnoresWhitespace | src/services/kycService.ts:36 | inserting a whitespace character anywhere leaves the normal form unchanged |
| NameSimilarity.NormalizeIgnoresCase | src/services/kycService.ts:36 | names differing only in letter case have the same normal form |
| NameSimilarity.DistanceStep | src/services/kycService.ts:51-63 | cell (i, j) follows the table recurrence: copy on equal characters, else 1 + the minimum of substitution, deletion and insertion |
| NameSimilarity.DistanceSelf | src/services/kycService.ts:41-67 | a string is at distance 0 from itself |
| NameSimilarity.DistanceSymmetric | src/services/kycService.ts:41-67 | the distance is symmetric |
| NameSimilarity.DistanceBounds | src/services/kycService.ts:41-67 | the length difference <= distance <= the larger length |
| NameSimilarity.SimilarityRatio | src/services/kycService.ts:65-66 | NaN exactly when both lengths are 0, else the fraction (max - d)/max |
| NameSimilarity.FillRow | src/services/kycService.ts:52-62 | the inner loop fills row i with the distances between prefixes, keeping the rows above and column 0 |
| NameSimilarity.LevenshteinDistance | src/services/kycService.ts:41-67 | the table, initialised with dp[i][0] = i and dp[0][j] = j, yields the ratio 1 - Distance/max |
| NameSimilarity.CalculateNameSimilarity | src/services/kycService.ts:34-39 | the method's answer is the similarity predicate on the normalised names |
| NameSimilarity.RatioInUnitInterval | src/services/kycService.ts:65-66 | when some normalised name is non-empty, the ratio lies in [0, 1] |
| NameSimilarity.SimilarIffFifth | src/services/kycService.ts:34-39 | for names not both empty, similar iff 5·distance <= the larger length |
| NameSimilarity.EmptyNamesNotSimilar | src/services/kycService.ts:65-66 | two names empty after normalisation give NaN and are not similar |
| NameSimilarity.EqualNormalFormsSimilar | src/services/kycService.ts:34-39 | names with the same non-empty normal form have ratio 1 and are similar |
| NameSimilarity.SimilarSymmetric | src/services/kycService.ts:34-39 | similarity is symmetric |
| NameSimilarity.EmptyAgainstNonEmpty | src/services/kycService.ts:34-39 | an empty normal form is never similar to a non-empty one |
| KycVerificationModel.ParseStatus | src/models/KYCVerification.ts:6-12 | only the five status strings are accepted, each as its own status |
| KycVerificationModel.StatusTextRoundTrip | src/models/KYCVerification.ts:113-117 | every status is stored as a string that parses back to it |
| KycVerificationModel.DefaultsValid | src/models/KYCVerification.ts:147-160 | the defaults (pending, score 0, no factors) satisfy the score validator |
| KycVerificationModel.FindById | src/services/kycService.ts:292-295 | found rows carry the id and are in the table; nothing is found only when no row carries it |
| KycVerificationModel.FindByIdUnique | src/models/KYCVerification.ts:96-100 | under the primary key, the row found is the only one with the id |
| KycVerificationModel.AppendKeepsDocumentNumbersUnique | src/models/KYCVerification.ts:122-126 | appending keeps document numbers unique iff the new number is not yet taken |
| DocumentModel.ParseDocumentType | src/models/Document.ts:7-15 | only the seven type strings are accepted |
| DocumentModel.ParseDocumentStatus | src/models/Document.ts:18-23 | only the four status strings are accepted |
| DocumentModel.EnumTextRoundTrip | src/models/Document.ts:102-110 | every type and status is stored as a string that parses back to it |
| RiskAssessmentModel.ParseRiskLevel | src/models/RiskAssessment.ts:7-12 | only the four level strings are accepted |
| RiskAssessmentModel.ParseRiskFactorType | src/models/RiskAssessment.ts:15-23 | only the seven factor-type strings are accepted |
| RiskAssessmentModel.EnumsAccepted | src/models/RiskAssessment.ts:107-110 | every level and factor type is accepted as its own string |
| RiskAssessmentModel.ValidateRiskFactors | src/models/RiskAssessment.ts:111-125 | passes iff the value is an array whose every factor is non-null with truthy type, description, score and details |
| RiskAssessmentModel.FirstStructureError | src/models/RiskAssessment.ts:117-123 | no error iff every factor is non-null with the four truthy fields |
| RiskAssessmentModel.ZeroScoreFactorRejected | src/models/RiskAssessment.ts:118-121 | a factor with score 0 anywhere in the list is rejected |
| RiskAssessmentModel.EmptyFactorListPassesModel | src/models/RiskAssessment.ts:111-125 | the validator accepts an empty list |
| Database.AssessmentRow | src/models/RiskAssessment.ts:82-135 | a stored row built from valid attributes satisfies the table's validators and keeps the request's verification, level and factors |
| Database.Tables.InsertVerification | src/models/KYCVerification.ts:101-172 | score validator, then the unique document number, then the user and reviewer foreign keys; appends the row exactly when all pass; keeps the table invariants |
| Database.Tables.InsertDocuments | src/models/Document.ts:94-125 | appends the rows with consecutive ids and keeps the table invariants |
| Database.Tables.InsertAssessment | src/models/RiskAssessment.ts:82-135 | not-null and validator failures, then foreign keys; appends the row exactly when all pass |
| Database.Tables.UpdateVerifications | src/models/KYCVerification.ts:165-172 | an update that keeps key columns succeeds iff every reviewer is a user (the `verifiedBy` foreign key); it then writes the rows, and otherwise fails with a foreign-key error and changes nothing; the table invariants hold |
| Database.Tables.UpdateDocuments | src/models/Document.ts:138-145 | the same for document rows: written iff every reviewer is a user, else a foreign-key error and no change |
| Pagination.QueryParamOr | src/controllers/riskAssessmentController.ts:64-65 | `parseInt(x) \|\| d`: an absent, unparsable or zero value takes the fallback |
| Pagination.ArgumentOr | src/services/kycService.ts:322-323 | a default parameter replaces only an omitted argument |
| Pagination.PageCount | src/services/kycService.ts:353 | `ceil(count/limit)`: undefined for limit 0; for a positive limit the smallest p with count <= p·limit |
| Pagination.ListingOf | src/services/kycService.ts:329-354 | the query fails iff the offset or the limit is negative; otherwise the listing carries the count, the non-negative offset and `ceil(count/limit)`, undefined exactly for limit 0 |
| Pagination.RunnablePages | src/controllers/riskAssessmentController.ts:64-66 | page 1 and up with a non-negative limit always runs; a page below 1 with a positive limit never does |
| Pagination.PagesCoverRows | src/controllers/riskAssessmentController.ts:65-73 | with a positive limit row k lies on page k/limit + 1, a page between 1 and the page count whose offset window holds it |
| KycService.VerifyWithExternalApi | src/services/kycService.ts:10-32 | the method's answer is the mock verifier's; the name match comes from the table-based comparator |
| KycService.MockNinBvnAgree | src/services/kycService.ts:21-27 | the mock's NIN and BVN answers always agree; failing only that comparison scores 50 with both listed as factors |
| KycService.SubmitKyc | src/services/kycService.ts:100-145 | duplicate number: 400 before the verifier, nothing stored; outage: 503, nothing stored; unknown user: foreign-key error; otherwise exactly one PENDING row with the computed score in 0..100 and the failed rules as factors; keeps documents mirroring decisions |
| KycService.SubmissionKeepsCoherent | src/services/kycService.ts:113-138 | a stored submission, undecided and without documents, keeps documents mirroring decisions |
| KycService.FindOr404 | src/services/kycService.ts:147-153 | a lookup succeeds iff the id is stored, returning a row with that id; otherwise a 404 with the given message |
| KycService.GetKycStatus | src/services/kycService.ts:147-153 | found iff the id exists; else 404 "KYC verification not found" |
| KycService.GetVerificationById | src/services/kycService.ts:269-283 | found iff the id exists; else 404 "Verification not found" |
| KycService.LookupReturnsTheRow | src/services/kycService.ts:147-153 | under the primary key, the lookups return exactly the row with the id |
| KycService.RequestDocumentsShape | src/services/kycService.ts:218-263 | a new request's documents: ID-card front and back and a selfie at the request URLs, pending, unreviewed, attached to the new verification |
| KycService.CreateVerification | src/services/kycService.ts:156-266 | unknown user 404; pending verification 400; taken number fails at the unique index; otherwise one PENDING row plus three documents; keeps documents mirroring decisions |
| KycService.DocumentStatusFor | src/services/kycService.ts:307 | documents become VERIFIED iff the status is APPROVED, else REJECTED; never pending or expired |
| KycService.DecideAll | src/services/kycService.ts:297-302 | a decision leaves ids, owners, document numbers and scores alone |
| KycService.CascadeAll | src/services/kycService.ts:305-314 | the cascade leaves ids, owners, parents and sizes alone |
| KycService.CoherentDocumentsReviewed | src/models/Document.ts:138-149 | when documents mirror decisions, each document is pending iff unreviewed, with reviewer and time set together |
| KycService.NewRequestKeepsCoherent | src/services/kycService.ts:187-263 | a new undecided verification with pending documents keeps documents mirroring decisions |
| KycService.DecisionKeepsCoherent | src/services/kycService.ts:297-314 | a decision and its cascade keep documents mirroring decisions |
| KycService.NoTransitionGuard | src/services/kycService.ts:286-302 | any status may be written over any status; an absent note keeps the old note |
| KycService.DecisionScope | src/services/kycService.ts:297-314 | only verifications with the id and only their documents change; those documents are VERIFIED iff APPROVED and never pending |
| KycService.UpdateVerificationStatus | src/services/kycService.ts:286-317 | unknown id: 404; a reviewer who is not a user: foreign-key error; in both cases nothing changes; succeeds iff neither, and then the decision is written and cascaded to exactly that verification's documents |
| KycService.ExpiredIdsMembers | src/services/kycService.ts:408-415 | the query returns exactly the ids of APPROVED rows whose document expired before now |
| KycService.ExpiryStep | src/services/kycService.ts:417-424 | one more loop iteration extends the set of expired ids by one |
| KycService.CheckVerificationExpiry | src/services/kycService.ts:407-425 | fails with a foreign-key error, changing nothing, iff some row is due and no user has the id "system"; otherwise the loop of updates yields the sweep's tables; documents keep mirroring decisions |
| KycService.RefusedSweepExpiresNothing | src/services/kycService.ts:407-425 | when the sweep is refused, an approved verification with an expired document remains |
| KycService.SweepExact | src/services/kycService.ts:407-425 | under the primary key, exactly the APPROVED rows with an expired document become EXPIRED by "system"; the others are unchanged |
| KycService.SweepRejectsDocuments | src/services/kycService.ts:417-424 | documents of an expired verification become REJECTED by "system"; others stay as they were |
| KycService.SweepLeavesNoneExpiring | src/services/kycService.ts:407-425 | after a sweep no row matches the sweep's query |
| KycService.SweepIdempotent | src/services/kycService.ts:407-425 | a second sweep at the same time changes neither table |
| KycService.JoinedRows | src/models/index.ts:13-14 | a verification contributes at least one joined row, and exactly one iff it has at most one document and at most one assessment |
| KycService.CountOwnedBy | src/services/kycService.ts:331-347 | the count over joined rows is at least the number of verifications the user owns |
| KycService.CountMatching | src/services/kycService.ts:375-397 | the count over joined rows is at least the number of verifications the filters select |
| KycService.JoinedCountExact | src/services/kycService.ts:331-397 | the totals equal the verification counts when no verification has two documents or two assessments |
| KycService.NewRequestJoinsThreeRows | src/services/kycService.ts:218-263 | a verification opened with its three documents and no assessment is counted three times |
| KycService.GetUserVerifications | src/services/kycService.ts:320-355 | fails iff the defaulted page and limit give a negative offset or limit; otherwise the total is at least the user's verification count; with defaults, offset 0 and pages of 10 |
| KycService.GetAllVerifications | src/services/kycService.ts:358-404 | the same refusal; otherwise the total is at least the number of verifications matching the filters; with defaults, offset 0 and pages of 10 |
| KycService.CountOwnedByAppend | src/services/kycService.ts:331-347 | a new row adds its joined rows to its owner's total and nothing to anybody else's |
| KycService.UnfilteredCountsAll | src/services/kycService.ts:368-373 | without filters every verification is selected, the total is at least the table size, and the defaults give page 1 of 10 |
| KycService.StatusFilterNarrows | src/services/kycService.ts:370 | adding a status filter never raises the total |
| KycService.PageBelowOneRefused | src/services/kycService.ts:322-329 | an explicit page below 1 makes the service's query fail; after the controllers' `\|\| 1` only page 0 is rescued |
| RiskAssessmentController.FactorError | src/controllers/riskAssessmentController.ts:30-37 | no error iff the factor is non-null with truthy fields and a known type |
| RiskAssessmentController.FirstFactorError | src/controllers/riskAssessmentController.ts:30-37 | no error iff every factor is accepted |
| RiskAssessmentController.FirstFailingFactorReported | src/controllers/riskAssessmentController.ts:30-37 | the error reported is that of the first factor not accepted |
| RiskAssessmentController.ValidateRequest | src/controllers/riskAssessmentController.ts:20-37 | an invalid level fails with 400 before anything else; then a non-array or empty factor list fails with 400; success iff all checks pass, returning the named level |
| RiskAssessmentController.AcceptedFactorsPassModel | src/controllers/riskAssessmentController.ts:30-37 | factors the controller accepts also pass the model's validator |
| RiskAssessmentController.ZeroScoreRefused | src/controllers/riskAssessmentController.ts:31-33 | a factor with score 0 after accepted factors gets 400 "Invalid risk factor structure" |
| RiskAssessmentController.AttrsOf | src/controllers/riskAssessmentController.ts:39-48 | an absent assessment date becomes now |
| RiskAssessmentController.CreateAssessment | src/controllers/riskAssessmentController.ts:7-51 | validation errors store nothing; a row is stored iff the controller's and the table's checks pass, with the named level, the request's factors and the date defaulted to now |
| RiskAssessmentController.FindAssessment | src/controllers/riskAssessmentController.ts:56 | found rows carry the id; nothing found only when no row carries it |
| RiskAssessmentController.GetAssessment | src/controllers/riskAssessmentController.ts:54-59 | found iff the id exists; else 404 "Risk assessment not found" |
| RiskAssessmentController.ListUserAssessments | src/controllers/riskAssessmentController.ts:62-74 | fails iff the defaulted page or limit gives a negative offset or limit, so non-negative query values always succeed; then the total is at most the table size, the page count is defined and is the ceiling of total/limit |
| RiskAssessmentController.ListAllAssessments | src/controllers/riskAssessmentController.ts:77-96 | the same refusal and success condition; the total is at most the table size and the page count is always defined |
| RiskAssessmentController.UnfilteredAssessmentsCountAll | src/controllers/riskAssessmentController.ts:80-86 | without filters every assessment is counted |

## Left out

- Randomness and delay of the external verifier: the 10% outage is the parameter `apiFails`, and the delay is not modelled.
- Logging (`logger.error`) is not modelled.
- The stack trace in development responses is not modelled.
- The joined users, documents and assessments of the list and lookup queries are modelled only by how many rows they add to the listings' counts.
- The page's rows and their order (`createdAt`/`assessmentDate` descending) are not modelled. The listings return the total, the page count and the offset.
- Floating point is not modelled. Scores are computed exactly with integers (round half up), and an assessment's score is a real.
- A rule set whose weights sum to 0 would give a NaN score in the source. It is excluded by `RiskScorer.CalculateRiskScore`'s precondition.
- Dates are integer instants. Parsing the submitted date of birth is not modelled: it is kept as text.
- The two `new Date()` calls of a status update are one instant `now`.
- Transactions, concurrency and the check-then-insert race on document numbers are not modelled. Each operation is one atomic step over the tables.
- Identifiers are counter values, not random UUIDs.
- The reviewer columns are checked against the users table but not against the UUID column type.
- The MySQL refusal of a negative `LIMIT` or `OFFSET` is reduced to one error, "Database error".
- ErrorHandling.WithDefaults: the middleware's defaulting mutates the error object in place; it is modelled as a function returning the defaulted copy, since nothing else reads the object afterwards.
- NameSimilarity.ToLower: lower-casing covers only ASCII letters; Unicode case mapping is not modelled. Lengths are counted in code points, not UTF-16 units.
- RiskAssessmentController.FactorError: in the "Invalid risk factor type" message, a number is rendered by its floor. JavaScript's decimal and exponent forms are not modelled.
- Database.Tables.InsertDocuments: the rows must have non-negative sizes and existing owners and parents, because bulk inserts skip validators and the model does not reach their database failures. Its only caller satisfies this.
- Database.Tables.InsertVerification: the order of the unique-index check and the foreign-key check is one fixed order. In the source it is up to the database.
- Sequelize error messages are reduced to "Validation error" and "Foreign key constraint error".
- Updating with an absent note is modelled as leaving the stored note unchanged.
- Rule weights are natural numbers. The configuration's `number` type also admits negative and fractional weights, which are not represented.
- How the error middleware is registered (`src/app.ts:62`) is not part of this model; `ErrorHandling.HandleError` is the handler's own logic.
- The user record holds only the name and email fields the engine reads. User CRUD, authentication and the HTTP routes are not part of this model.

## Findings

| source | as written | input that shows it | evidently intended | confidence | as-written member | corrected member |
|---|---|---|---|---|---|---|
| src/services/kycService.ts:418-423 | the sweep writes the literal "system" into `verifiedBy`, a foreign key to `users.id` (src/models/KYCVerification.ts:165-172), so the first update is refused and the error leaves the loop | one APPROVED verification whose document expired before now, and no user with id "system" | every APPROVED verification with an expired document becomes EXPIRED and its documents REJECTED | medium; not executed | KycService.RefusedSweepExpiresNothing | KycService.SweepExact |
