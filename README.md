# ComplianceAI core in Dafny

ComplianceAI is a client-side web form for Indian small businesses. The user
enters an annual turnover and an employee count. A fixed table of ten
regulatory rules is filtered against them: GST, PF, ESI, professional tax,
shops and establishment, TDS, labour welfare fund, tax audit, gratuity and
MSME Udyam registration. The matching rules are shown as cards sorted by
risk. A mock OTP sign-in screen comes before the dashboard.

This project models three parts of that program and proves properties of them.

- `compliances.dfy` (module `Compliances`) models the rule matcher of
  `src/data/mockCompliances.ts`:
  - the `ComplianceRule` record, with its four optional inclusive thresholds;
  - the ten-rule table, with every text field and threshold copied;
  - `getApplicableCompliances`, which filters the table and projects each
    kept rule to its display fields.

  It proves these properties:
  - The result is the ordered projection of exactly the matching rules.
  - A rule is in the result iff each of its present bounds holds.
  - Matching is monotone for rules with lower bounds only.
  - Three concrete profiles produce their exact results.
- `results.dfy` (module `ComplianceResults`) models the results view of
  `src/components/ComplianceResults.tsx`:
  - the choice between "no check yet", "all clear" and the list;
  - the risk sort (critical, high, medium, low);
  - the summary line: the count, "compliance"/"compliances", and the
    critical and high counts.

  The sort is proved to be a permutation, ordered by rank and stable. It
  equals a four-bucket reference order. The counts do not depend on order
  and add up to the total.
- `otp_login.dfy` (module `OtpLogin`) models `src/components/auth/OTPLogin.tsx`.

  Its pure validators:
  - JavaScript `trim`;
  - the phone sanitiser (`replace(/\D/g, "").slice(0, 10)`);
  - the Indian mobile pattern `^[6-9]\d{9}$`;
  - `split("@")[1]` with `toLowerCase`, and the sixteen-domain blocklist;
  - the order in which the e-mail schema reports its issues.

  The screen's state is the class `LoginForm`. Its fields are the method,
  e-mail, phone, code, step and error. Its methods are the handlers:
  - switching tab and editing each field;
  - `validateInput` and `handleSendOTP`;
  - `handleVerifyOTP` and `handleResendOTP`;
  - "Change e-mail/phone".

  Each handler is one atomic transition of the model, and every handler
  preserves `Valid()`, which says four things of the model's states:
  - Past the input step, the entered address or number passes validation.
  - The success step has a six-character code.
  - The phone field only holds sanitised digits.
  - The error is blank or one of the five fixed messages.

  The first two hold only because the handlers are atomic here (see
  "Left out"); the program itself can leave them behind while it waits.
- `wrappers.dfy` holds the `Option` type used for absent thresholds and a
  missing domain.

Numbers are `real`. The turnover comes from `parseFloat` and may be
fractional; the employee count comes from `parseInt(...) || 0` and is always
a whole number, which `real` also covers. The matcher takes already-parsed
numbers. The e-mail format check of the zod library is not in the source, so
it is the parameter `isEmail` (a `const` field of `LoginForm`).

## Model

| member | source | states |
|---|---|---|
| Compliances.Applies | src/data/mockCompliances.ts:139-146 | definition of the filter: each present bound holds inclusively (`>=` for a minimum, `<=` for a maximum) and an absent bound constrains nothing; its consequences are `SelectMembership` and `GetApplicableCompliances` |
| Compliances.Keep | src/data/mockCompliances.ts:139-156 | definition of what one rule contributes: its projection when it applies, nothing otherwise |
| Compliances.Select | src/data/mockCompliances.ts:138-156 | definition of filter-then-project over any rule table; its meaning is stated by `SelectIsOrderedProjection` and `SelectMembership` |
| Compliances.GetApplicableCompliances | src/data/mockCompliances.ts:134-157 | a table rule is returned iff each of its present bounds holds inclusively, and the result is, position by position, the projection of the matching rules in table order |
| Compliances.ToData | src/data/mockCompliances.ts:147-156 | the projection copies the eight display fields unchanged: putting the rule's own thresholds back gives the rule again |
| Compliances.MatchingIndices | src/data/mockCompliances.ts:138-146 | reference for the filter: strictly increasing table positions, each an applicable rule, and every applicable rule's position is listed |
| Compliances.SelectIsOrderedProjection | src/data/mockCompliances.ts:138-156 | the matcher's result is, position by position, the projection of the matching rules in table order, with the same length |
| Compliances.SelectMembership | src/data/mockCompliances.ts:139-146 | in any table with unique ids, a rule's projection is in the result iff all its present bounds hold |
| Compliances.LowerBoundsOnlyMonotone | src/data/mockCompliances.ts:140-143 | a rule without upper bounds keeps applying when turnover and employee count grow |
| Compliances.TableIdsUnique | src/data/mockCompliances.ts:19-132 | no two rules of the table share an id |
| Compliances.TableBoundsOrdered | src/data/mockCompliances.ts:128-130 | wherever a rule has both bounds on one quantity, the lower one does not exceed the upper one |
| Compliances.OnlyMsmeHasUpperBound | src/data/mockCompliances.ts:19-132 | MSME Udyam Registration is the only rule with an upper bound |
| Compliances.MatchMonotone | src/data/mockCompliances.ts:140-143 | raising turnover or employees never drops a rule other than MSME from the result |
| Compliances.GstTurnoverBoundary | src/data/mockCompliances.ts:20-30 | GST Registration is returned exactly when turnover is at least 4000000, whatever the employee count |
| Compliances.EsiOnlyByEmployees | src/data/mockCompliances.ts:42-52 | ESI Registration is returned exactly when employees are at least 10; turnover and salary play no part |
| Compliances.MsmeTurnoverCap | src/data/mockCompliances.ts:119-131 | a turnover above 2500000000 excludes MSME Udyam Registration |
| Compliances.NothingButMsmeAtZero | src/data/mockCompliances.ts:134-157 | for turnover 0 and no employees the result is MSME Udyam Registration alone |
| Compliances.SmallEmployerScenario | src/data/mockCompliances.ts:134-157 | for turnover 5000000 and 25 employees the result is GST, PF, ESI, professional tax, shops, labour welfare fund, gratuity and MSME, in table order |
| Compliances.LargeTurnoverScenario | src/data/mockCompliances.ts:134-157 | for turnover 100000000 and 25 employees all ten rules are returned, in table order |
| ComplianceResults.Rank | src/components/ComplianceResults.tsx:43 | definition of `sortOrder`: critical 0, high 1, medium 2, low 3 |
| ComplianceResults.RankOrder | src/components/ComplianceResults.tsx:43 | the ranks are strictly ordered critical < high < medium < low, and no two levels share a rank |
| ComplianceResults.CountLevel | src/components/ComplianceResults.tsx:48-49 | definition of `filter(r => r.riskLevel === level).length`; its properties are `CountsPartitionResults` and `CountsIgnoreOrder` |
| ComplianceResults.InsertByRank | src/components/ComplianceResults.tsx:44-46 | inserting a card adds exactly that card to the multiset of cards |
| ComplianceResults.SortByRisk | src/components/ComplianceResults.tsx:43-46 | the sorted cards are a permutation of the results, non-decreasing in rank, and each risk level keeps its input order (stability) |
| ComplianceResults.InsertKeepsSorted | src/components/ComplianceResults.tsx:44-46 | insertion keeps a rank-sorted list rank-sorted |
| ComplianceResults.InsertOfLevel | src/components/ComplianceResults.tsx:44-46 | insertion puts the new card first among the cards of its level and leaves other levels alone |
| ComplianceResults.SortedIsBuckets | src/components/ComplianceResults.tsx:43-46 | a rank-sorted list is its critical cards, then high, then medium, then low |
| ComplianceResults.SortByRiskIsBuckets | src/components/ComplianceResults.tsx:43-46 | the sort equals the four-bucket reference order |
| ComplianceResults.CountsPartitionResults | src/components/ComplianceResults.tsx:48-49 | the four level counts add up to the number of results |
| ComplianceResults.CountsIgnoreOrder | src/components/ComplianceResults.tsx:48-49 | level counts are the same for any permutation, so counting the unsorted results equals counting the cards shown |
| ComplianceResults.ComplianceNoun | src/components/ComplianceResults.tsx:58 | the noun is plural exactly when the count is not 1 |
| ComplianceResults.Render | src/components/ComplianceResults.tsx:14-49 | "no check yet" iff nothing was searched; "all clear" iff searched with no results; otherwise the cards are the sorted, stable permutation of the results, the total is the number of results, the noun is `ComplianceNoun` of that total, and the critical and high counts agree with the cards |
| ComplianceResults.EightCardView | src/components/ComplianceResults.tsx:42-58 | eight results of levels critical, critical, high, medium, medium, low, medium, low render as "8 compliances, 2 critical, 1 high risk" over the cards in bucket order |
| ComplianceResults.SmallEmployerView | src/components/ComplianceResults.tsx:42-58 | the dashboard for turnover 5000000 and 25 employees shows 8 compliances, 2 critical and 1 high, with gratuity moved ahead of the labour welfare fund |
| OtpLogin.TrimStart | src/components/auth/OTPLogin.tsx:14 | the leading whitespace run is dropped: the result is a suffix, everything dropped is whitespace, and the result does not start with whitespace |
| OtpLogin.TrimEnd | src/components/auth/OTPLogin.tsx:14 | the trailing whitespace run is dropped: the result is a prefix, everything dropped is whitespace, and the result does not end with whitespace |
| OtpLogin.Trim | src/components/auth/OTPLogin.tsx:14 | definition of `trim` as leading then trailing whitespace removal; its properties are `TrimIsCleanSlice`, `TrimKeepsClean` and `TrimIdempotent` |
| OtpLogin.TrimIsCleanSlice | src/components/auth/OTPLogin.tsx:13-14 | the trimmed value is a slice of the input with only whitespace cut on either side and no whitespace at its ends |
| OtpLogin.TrimKeepsClean | src/components/auth/OTPLogin.tsx:14 | a value without whitespace at its ends is left as it is |
| OtpLogin.TrimIdempotent | src/components/auth/OTPLogin.tsx:14 | trimming twice is trimming once |
| OtpLogin.Digits | src/components/auth/OTPLogin.tsx:193 | the kept characters are all digits and no more than the input |
| OtpLogin.DigitsAppend | src/components/auth/OTPLogin.tsx:193 | removing non-digits works piece by piece, so digits keep their original order |
| OtpLogin.DigitsOfDigits | src/components/auth/OTPLogin.tsx:193 | a string of digits only is kept whole |
| OtpLogin.DigitsOfNonDigits | src/components/auth/OTPLogin.tsx:193 | a string without digits is removed entirely |
| OtpLogin.SanitisePhone | src/components/auth/OTPLogin.tsx:193 | the stored phone holds at most ten characters, all digits, as a prefix of the input's digits, and all of them when there are fewer than ten |
| OtpLogin.SanitiseIdempotent | src/components/auth/OTPLogin.tsx:193 | sanitising a sanitised value changes nothing |
| OtpLogin.SeparatorIgnored | src/components/auth/OTPLogin.tsx:193 | a non-digit typed anywhere makes no difference to the stored phone |
| OtpLogin.PhoneValid | src/components/auth/OTPLogin.tsx:29-31 | definition of the phone schema: the trimmed value is ten characters, the first 6 to 9 and the other nine ASCII digits; its properties are `SanitisedPhoneValid` and `ValidPhoneSurvivesSanitiser` |
| OtpLogin.SanitisedPhoneValid | src/components/auth/OTPLogin.tsx:29-31 | what the user types is accepted by the phone schema iff it holds at least ten digits and the first is 6 to 9 |
| OtpLogin.ValidPhoneSurvivesSanitiser | src/components/auth/OTPLogin.tsx:29-31 | an accepted number, trimmed, is all digits and passes through the sanitiser unchanged |
| OtpLogin.SplitAt | src/components/auth/OTPLogin.tsx:25 | `split("@")` always yields at least one piece; what the pieces are is stated by `SplitAtPieces`, `JoinSplit` and `SplitJoin` |
| OtpLogin.SplitAtPieces | src/components/auth/OTPLogin.tsx:25 | no piece of `split("@")` holds an `@`; there is more than one piece iff the string holds an `@`; the first piece is the prefix before the first `@` |
| OtpLogin.JoinSplit | src/components/auth/OTPLogin.tsx:25 | joining the pieces with `@` gives back the string |
| OtpLogin.SplitJoin | src/components/auth/OTPLogin.tsx:25 | splitting `@`-free pieces joined with `@` gives back the pieces |
| OtpLogin.DomainOf | src/components/auth/OTPLogin.tsx:25 | the domain is absent iff there is no `@`, and never holds an `@` |
| OtpLogin.DomainAfterFirstAt | src/components/auth/OTPLogin.tsx:25 | the domain is the text after the first `@` up to the next `@` |
| OtpLogin.Lower | src/components/auth/OTPLogin.tsx:25 | lowercasing keeps the length; see "Left out" for the characters it covers |
| OtpLogin.LowerIdempotent | src/components/auth/OTPLogin.tsx:25 | lowering twice is lowering once |
| OtpLogin.IsBlockedEmail | src/components/auth/OTPLogin.tsx:17-27 | definition of the refine failing: there is a domain and its lowercase is listed; its properties are `NoAtNotBlocked`, `BlockedIgnoresCase` and `MiddlePieceChecked` |
| OtpLogin.NoAtNotBlocked | src/components/auth/OTPLogin.tsx:25-26 | an address without `@` passes the blocklist |
| OtpLogin.BlockedIgnoresCase | src/components/auth/OTPLogin.tsx:19-26 | `local@domain` is refused by the blocklist iff the lowercased domain is one of the sixteen listed |
| OtpLogin.MiddlePieceChecked | src/components/auth/OTPLogin.tsx:25-26 | with a second `@`, only the piece between the first two decides, whatever follows |
| OtpLogin.EmailIssues | src/components/auth/OTPLogin.tsx:13-27 | definition of the e-mail schema's issues on the trimmed value, in check order: format, length over 255, blocklist |
| OtpLogin.PhoneIssues | src/components/auth/OTPLogin.tsx:29-31 | definition of the phone schema's single issue when the pattern fails |
| OtpLogin.FirstIssue | src/components/auth/OTPLogin.tsx:13-31 | the schema of the selected method passes iff there is no message; otherwise the message is the first failing check: format, then length, then blocklist for e-mail, the pattern for phone |
| OtpLogin.LoginForm.constructor | src/components/auth/OTPLogin.tsx:39-45 | starts on the input step with the e-mail method and every field blank |
| OtpLogin.LoginForm.SelectMethod | src/components/auth/OTPLogin.tsx:154 | switching tab sets the method and clears the error, nothing else |
| OtpLogin.LoginForm.EditEmail | src/components/auth/OTPLogin.tsx:174 | typing stores the raw e-mail and clears the error, nothing else |
| OtpLogin.LoginForm.EditPhone | src/components/auth/OTPLogin.tsx:192-196 | typing stores the sanitised phone and clears the error, nothing else |
| OtpLogin.LoginForm.EditOtp | src/components/auth/OTPLogin.tsx:252 | typing stores the code and clears the error, nothing else |
| OtpLogin.LoginForm.ValidateInput | src/components/auth/OTPLogin.tsx:48-63 | returns true iff the selected schema passes; the error is blank on success and the first message otherwise |
| OtpLogin.LoginForm.SendOtp | src/components/auth/OTPLogin.tsx:65-80 | invalid input stays on the input step with the first message; valid input moves to the code step with no error; an empty phone is refused |
| OtpLogin.LoginForm.VerifyOtp | src/components/auth/OTPLogin.tsx:82-102 | a code whose length is not 6 sets "Please enter the complete 6-digit OTP" and keeps the step; any six-character code succeeds; the Verify button is disabled exactly when the step stays |
| OtpLogin.LoginForm.ResendOtp | src/components/auth/OTPLogin.tsx:104-113 | clears the code and leaves step and error unchanged |
| OtpLogin.LoginForm.ChangeMethod | src/components/auth/OTPLogin.tsx:295 | returns to the input step with code and error cleared, keeping what was entered |
| OtpLogin.LoginForm.ContinueDisabled | src/components/auth/OTPLogin.tsx:213 | definition: disabled while loading or while the selected field is empty; `SendOtp` states that an empty phone would be refused anyway |
| OtpLogin.LoginForm.VerifyDisabled | src/components/auth/OTPLogin.tsx:279 | definition: disabled while loading or unless the code has length 6; `VerifyOtp` states it is disabled exactly when verifying would keep the step |
| OtpLogin.PhoneSignIn | src/components/auth/OTPLogin.tsx:65-102 | any typed number with ten digits starting 6 to 9, and any six-character code, reach the success step with no error |
| OtpLogin.DisposableEmailRefused | src/components/auth/OTPLogin.tsx:48-80 | a well-formed address on a listed domain stays on the input step with "Temporary email addresses are not allowed" |
| OtpLogin.ShortCodeThenChange | src/components/auth/OTPLogin.tsx:82-86 | a short code is refused on the code step, and "Change" then returns to the input step with no error |

## Left out

- The JSX markup, styling, icons and the card and detail-modal components are display only.
- The awaited delays, the `isLoading` toggling, toasts and the `onLoginSuccess`/`onSkip` callbacks are left out. Each handler is one atomic transition. The button predicates take "loading" as a parameter.
- The disabled state of the Continue button (`LoginForm.ContinueDisabled`) is defined. Its only consequence proved is that an empty phone is refused; an empty e-mail depends on the format check, which is a parameter.
- The zod e-mail format check is the parameter `isEmail`.
- OtpLogin.Lower: only the lowercasing that can yield a listed domain is modelled (ASCII capitals and KELVIN SIGN to `k`). Other characters are kept. This does not change whether a domain is on the list, because no other character lowers to ASCII only.
- OtpLogin.FirstIssue: `max(255)` compares Unicode scalar values, where JavaScript counts UTF-16 code units. The two differ only for characters outside the Basic Multilingual Plane.
- OtpLogin.LoginForm.VerifyOtp and OtpLogin.LoginForm.VerifyDisabled: `otp.length !== 6` is likewise a count of Unicode scalar values here, not UTF-16 code units, and `EditOtp` accepts any string; the two counts differ only for characters outside the Basic Multilingual Plane.
- OtpLogin.LoginForm.Valid, OtpLogin.LoginForm.SendOtp and OtpLogin.LoginForm.VerifyOtp: the model runs each handler as one atomic step, so it does not capture edits made while `handleSendOTP` or `handleVerifyOTP` waits. In the program the tabs, the e-mail and phone fields and the code boxes stay enabled during those waits, and `setStep` runs afterwards without checking again. So the program can reach the code step with the method switched or the field emptied (for example, an empty phone shown as "Sent to: +91 "), or reach success after the code was edited to another length. These are states that `Valid()` excludes.
- The input masks (`maxLength` on the phone field, the six boxes of the code input) are enforced by the browser and the component library, so `EditOtp` accepts any string.
- `BusinessInputPanel.tsx` (`parseFloat`/`parseInt`, NaN, the `|| 0` fallback) and the `Index.tsx` wiring are not part of this model.
- Floating-point rounding and NaN in the threshold comparisons are left out: numbers are exact reals.
- ESI Registration: its reason text mentions a salary ceiling, but the source checks only `minEmployees: 10`. The model follows the code (`EsiOnlyByEmployees`).
- The results view never reorders its input: it sorts a copy. Sequences are values in this model, so this holds without proof.
