# futurevelli-portal: the intake chatbot and the portal page, in Dafny

This project models the logic of the futurevelli city-services portal. It has two parts.

**The chat assistant (`js/chat.js`).**
- `complaintStore` holds the filed complaints and permit requests, with one storage slot behind it.
- The dialogue walks a resident through a report: inquiry, address, anonymity, details.
- The reference number is generated as `CC-HWG-250114-001` and read back out of a status question.
- `determinePermitType` is a classifier the dialogue never calls.

**The portal page (`script.js`).**
- the signup form's checks;
- the status badge of the "My Complaints" list;
- the two slideshows;
- the sign-in variables, with their display-name fallback and the token restore at start-up.

The modules:

| file | module | what it holds |
|---|---|---|
| `wrappers.dfy` | `Wrappers` | `Option`: `null`/`undefined` and "no match" |
| `text.dfy` | `Text` | the JavaScript string operations the code relies on: `toLowerCase`, `includes`, `split`, `trim`, `replace` with a one-character pattern, `String(n)`, `padStart`, `slice(-2)` |
| `complaints.dfy` | `Complaints` | complaint records, status updates, the filter, and the `StorageSlot` and `ComplaintStore` classes |
| `reference.dfy` | `Reference` | `getCurrentDate`, `generateReferenceNumber`, a matcher for `/(CC|PMT)-[A-Z]+-\d{6}-\d{3}/` (leftmost, greedy, as `String.prototype.match` finds it), `handleStatusCheck`, and the round trip between them |
| `dialogue.dfy` | `Dialogue` | the complaint and permit codes, the ordered classifier, and the dialogue as a pure turn function `Respond`. The `ChatSession` class holds the `chatState` fields and `dailyCounter`, and its methods are proved against `Respond` |
| `portal.dfy` | `Portal` | the signup validation, the email and mobile checks, the badge class, the `Slideshow`, `HeroSlideshow` and `SignInState` classes, and the login storage |

How the model is organised:
- The state-changing code is written as classes whose methods have `modifies` clauses: the store, the chat session, the slideshows and the sign-in state.
- Each method's `ensures` ties its new state to a function of the old state, and the properties are proved about those functions.
- The chat's messages go into a transcript of `User` and `Bot` entries. The bot entries name the reply (for example `Confirmation(ref)`), not its text.
- The clock is a method parameter: `today` is a `Date` and `now` is an opaque ISO string.
- `localStorage` becomes the `StorageSlot` object, with a `failing` flag that stands for any exception from `setItem`, `getItem` or `JSON.parse`.

Where the code and the comments or prose around it disagree, the model follows the code:
- **`permitType` is never cleared.** `resetChat` does not clear it. A complaint filed after a permit request therefore still has `permitType` set, and `finalizeReport` prefers `complaintType` (`Dialogue.PermitTypeSurvives`).
- **`contactInfo` is never cleared.** It survives `resetChat`, so an anonymous complaint filed after a housing report carries the earlier contact details (`Dialogue.ContactInfoOutlivesReport`).
- **A failed save still hides the error banner.** `addComplaint` calls `hideError` right after `saveComplaints`, so a banner shown by a failed save is hidden again (`Complaints.ComplaintStore.AddComplaint`).
- **Sign-out keeps the token.** It leaves `jwtToken` in storage, so the next page load signs the demo user in again (`Portal.ReloadAfterLogin`).
- **The start-up check ignores the stored user.** It sets the fixed demo user, not the user name and id saved at login.
- **Large counters truncate the reference.** Past a counter of 999 the sequence field has four or more digits. The status check then extracts a strict prefix of the reference (`Reference.StatusCheckFindsReference`).

## Model

| member | source | states |
|---|---|---|
| Text.ToLower | futurevelli-portal/js/chat.js:522 | same length; every character is lowered (ASCII letters), nothing else changes |
| Text.ToLowerConcat | futurevelli-portal/js/chat.js:522 | lower-casing distributes over concatenation |
| Text.ContainsAt | futurevelli-portal/js/chat.js:611 | an occurrence at any position makes `includes` (`Contains`) true |
| Text.ContainsWitness | futurevelli-portal/js/chat.js:611 | `includes` (`Contains`) true yields a position where the word occurs |
| Text.IndexOf | futurevelli-portal/js/chat.js:154 | the first position of the character, or the length when it is absent; no earlier position holds it |
| Text.Split | futurevelli-portal/js/chat.js:807 | `split` always yields at least one part, so `split('-')[0]` exists |
| Text.SplitJoin | futurevelli-portal/js/chat.js:807 | joining the parts of `split` with the separator gives back the text, and no part contains the separator |
| Text.SplitFour | futurevelli-portal/js/chat.js:807 | four separator-free fields joined by the separator split into exactly those four |
| Text.SplitHead | futurevelli-portal/script.js:173 | `split(sep)[0]` is the text before the first separator |
| Text.TrimStart | futurevelli-portal/js/chat.js:497 | removes only leading white space and stops at the first other character |
| Text.TrimEnd | futurevelli-portal/js/chat.js:497 | removes only trailing white space and stops at the last other character |
| Text.TrimStartIsSuffix | futurevelli-portal/js/chat.js:497 | what remains after leading trimming is a suffix of the text |
| Text.TrimEndIsPrefix | futurevelli-portal/js/chat.js:497 | what remains after trailing trimming is a prefix of the text |
| Text.TrimEmptyIffBlank | futurevelli-portal/js/chat.js:497-499 | `trim()` (`Trim`) is empty exactly when the text is all white space |
| Text.TrimShape | futurevelli-portal/script.js:216-219 | a trimmed text neither starts nor ends with white space and is a contiguous slice of the original |
| Text.ReplaceFirst | futurevelli-portal/js/chat.js:154 | same length; only the first occurrence of the target is replaced |
| Text.ReplaceFirstAbsent | futurevelli-portal/js/chat.js:154 | without the target, `replace` changes nothing |
| Text.ReplaceFirstAt | futurevelli-portal/js/chat.js:154 | the occurrence after a target-free stretch is the one replaced |
| Text.Decimal | futurevelli-portal/js/chat.js:468 | `String(n)` is a non-empty digit string with a leading zero only for 0 |
| Text.DecimalRoundTrip | futurevelli-portal/js/chat.js:468 | reading `String(n)` back as a number gives `n` |
| Text.DecimalLength | futurevelli-portal/js/chat.js:468 | `String(n)` fits in `k` characters exactly when `n < 10^k` |
| Text.LeadingZeros | futurevelli-portal/js/chat.js:468 | zero padding keeps a numeral a digit string with the same value |
| Text.DigitsValueBound | futurevelli-portal/script.js:235 | a `k`-digit numeral is below `10^k` |
| Text.LeadingDigit | futurevelli-portal/script.js:235 | a numeral's value is its first digit times `10^(k-1)` plus the value of the rest |
| Text.ScaleIsProduct | futurevelli-portal/script.js:235 | `k` tenfold steps multiply by `10^k` |
| Text.LastN | futurevelli-portal/js/chat.js:459 | `slice(-n)` has `n` characters, or all of them when the text is shorter |
| Text.LastNIsSuffix | futurevelli-portal/js/chat.js:459 | `slice(-n)` is the end of the text |
| Text.Repeat | futurevelli-portal/js/chat.js:468 | `k` copies of the fill character |
| Text.PadStartShape | futurevelli-portal/js/chat.js:460-468 | `padStart(width, fill)` has the width when the text is shorter and the text's length otherwise; it ends with the text and has only fill characters before it |
| Complaints.OrNull | futurevelli-portal/js/chat.js:43 | the contact info, or null: present exactly when given and non-empty, and then unchanged |
| Complaints.NewComplaint | futurevelli-portal/js/chat.js:34-49 | the record is well-formed; its id is the reference; `isPermit` holds iff the reference starts with `PMT`; its status is `Submitted` with a single `Submitted` update; contact info is null iff none or empty was given, and otherwise the given text; the address, description and anonymity flag are the report's and the submission date is the clock reading |
| Complaints.WithStatus | futurevelli-portal/js/chat.js:67-72 | the status becomes the new one; the updates grow by exactly one entry with that status, and earlier entries and other fields are kept |
| Complaints.WithStatusWellFormed | futurevelli-portal/js/chat.js:67-72 | a status update keeps a record well-formed |
| Complaints.FindIndex | futurevelli-portal/js/chat.js:65 | `find`: the first record with the id, or none |
| Complaints.StatusUpdated | futurevelli-portal/js/chat.js:64-72 | same length; an unknown id leaves the list unchanged; otherwise only the first record with the id changes, by `WithStatus` |
| Complaints.StatusUpdatedWellFormed | futurevelli-portal/js/chat.js:64-72 | updating a status keeps every record well-formed |
| Complaints.StatusKey | futurevelli-portal/js/chat.js:154 | same length; every character lowered, except that the first space becomes `-` |
| Complaints.InReviewKey | futurevelli-portal/js/chat.js:154 | the status "In Review" gives the key `in-review` |
| Complaints.Filtered | futurevelli-portal/js/chat.js:144-157 | a record is kept exactly when it is in the list and passes both the type and the status test |
| Complaints.FilteredAppend | futurevelli-portal/js/chat.js:148-157 | filtering distributes over concatenation, which is what makes it order-preserving |
| Complaints.FilteredKeepsAll | futurevelli-portal/js/chat.js:148-157 | when every record passes, the whole list is returned |
| Complaints.FilteredAllAll | futurevelli-portal/js/chat.js:149-154 | with `all`/`all` the whole list is returned |
| Complaints.FilteredPartition | futurevelli-portal/js/chat.js:149-151 | `permits` and `complaints` split the `all` selection between them |
| Complaints.UnknownTypeFilter | futurevelli-portal/js/chat.js:149-151 | any other type value selects nothing |
| Complaints.Render | futurevelli-portal/js/chat.js:161-172 | an empty filtered list shows the placeholder, otherwise exactly the filtered records are shown |
| Complaints.StorageSlot.constructor | futurevelli-portal/js/chat.js:81-93 | the slot starts with the given saved list and failure flag |
| Complaints.ComplaintStore.constructor | futurevelli-portal/js/chat.js:12-14 | an empty, uninitialised store with no banner and nothing rendered |
| Complaints.ComplaintStore.Refresh | futurevelli-portal/js/chat.js:161-172 | the listing becomes the render of the filtered records, and nothing else changes |
| Complaints.ComplaintStore.Save | futurevelli-portal/js/chat.js:79-88 | the slot receives the list unless it fails; the banner is shown exactly when it fails |
| Complaints.ComplaintStore.Load | futurevelli-portal/js/chat.js:91-108 | on failure the list is kept and the banner shown; saved data replaces the list and hides the banner; no data gives an empty list |
| Complaints.ComplaintStore.Init | futurevelli-portal/js/chat.js:17-29 | a second call changes nothing; a first call loads: on a failure the list is kept and the banner shown, saved data replaces the list and hides the banner, no saved data empties the list and leaves the banner as it was; the store is always marked initialised and the slot is not written |
| Complaints.ComplaintStore.AddComplaint | futurevelli-portal/js/chat.js:32-61 | exactly one new record appended at the end; the slot saved unless failing; the banner hidden; the listing re-rendered |
| Complaints.ComplaintStore.UpdateStatus | futurevelli-portal/js/chat.js:64-76 | the list becomes `StatusUpdated`; an unknown id changes nothing else; a known one saves and re-renders |
| Complaints.ComplaintStore.SelectFilters | futurevelli-portal/js/chat.js:110-121 | the filter values change, and the listing is re-rendered once listeners are installed |
| Reference.DateStamp | futurevelli-portal/js/chat.js:457-463 | a digit string that has six characters exactly when the year has at least two digits; then it is the two-digit year mod 100, the month and the day, each zero-padded |
| Reference.PadTwoIsTwoDigits | futurevelli-portal/js/chat.js:460-461 | `padStart(2, '0')` of a number below 100 is its two-digit form |
| Reference.LastTwoOfYear | futurevelli-portal/js/chat.js:459 | the last two characters of the year are the year mod 100, for a year of at least two digits |
| Reference.SequenceField | futurevelli-portal/js/chat.js:468 | a digit string of at least three characters, exactly three iff the counter is at most 999, whose value is the counter; above 999 it is the counter's plain decimal form, with no leading zero |
| Reference.PaddedValue | futurevelli-portal/js/chat.js:468 | zero padding does not change a numeral's value |
| Reference.ReferenceNumber | futurevelli-portal/js/chat.js:466-469 | the reference starts with `PMT` iff it is a permit |
| Reference.ReferenceFields | futurevelli-portal/js/chat.js:465-470 | splitting the reference at `-` gives the prefix, the type, the date and the sequence field |
| Reference.ReferenceIsHeadPlusTail | futurevelli-portal/js/chat.js:468-469 | the reference is its first three sequence digits plus whatever digits follow |
| Reference.HeadFields | futurevelli-portal/js/chat.js:807 | a reference of three-digit sequence splits into its four fields |
| Reference.UpperRun | futurevelli-portal/js/chat.js:803 | `[A-Z]+` is greedy: the run covers only capitals and stops before a non-capital |
| Reference.MatchLength | futurevelli-portal/js/chat.js:803 | a match starting at a position is at least 15 characters long, ends inside the text, and begins with `CC` or `PMT` followed by `-` |
| Reference.FirstMatch | futurevelli-portal/js/chat.js:803 | the leftmost position where the pattern matches, and no match anywhere before it |
| Reference.MatchedText | futurevelli-portal/js/chat.js:803-807 | a match's text splits into `CC` or `PMT`, a capital run, six digits and three digits |
| Reference.MatchAtReference | futurevelli-portal/js/chat.js:803 | at a generated reference, the pattern matches exactly its length |
| Reference.NoMatchBefore | futurevelli-portal/js/chat.js:803 | text with no reference of its own followed by a reference has no earlier match |
| Reference.FirstMatchAt | futurevelli-portal/js/chat.js:803 | a match with none before it is the leftmost match |
| Reference.StatusCheck | futurevelli-portal/js/chat.js:801-811 | a reference is found exactly when the pattern matches somewhere, and then the date it reports is six digits |
| Reference.ReplyAt | futurevelli-portal/js/chat.js:804-807 | the reply built at a match reports a six-digit date |
| Reference.StatusCheckOfHead | futurevelli-portal/js/chat.js:801-807 | a reference in any text with no earlier reference is reported, with its date field |
| Reference.StatusCheckFindsReference | futurevelli-portal/js/chat.js:801-807 | round trip with `generateReferenceNumber`: the reference is found whenever the text before it holds no earlier reference, and reports its date; it is exact for a counter up to 999 and a strict prefix beyond |
| Dialogue.ComplaintCode | futurevelli-portal/js/chat.js:201-209 | every complaint code is three capitals |
| Dialogue.PermitCode | futurevelli-portal/js/chat.js:211-217 | every permit code is three capitals |
| Dialogue.ComplaintTypeOf | futurevelli-portal/js/chat.js:182 | a code found in `complaintTypes` is the code of what it finds |
| Dialogue.PermitTypeOf | futurevelli-portal/js/chat.js:182 | a code found in `permitTypes` is the code of what it finds |
| Dialogue.ComplaintCodeRoundTrip | futurevelli-portal/js/chat.js:201-209 | looking a complaint code up gives that complaint type back, and the permit table does not have it |
| Dialogue.PermitCodeRoundTrip | futurevelli-portal/js/chat.js:211-217 | looking a permit code up gives that permit type back, and the complaint table does not have it |
| Dialogue.CodesDistinct | futurevelli-portal/js/chat.js:201-217 | the codes are injective within each table, and no code is in both |
| Dialogue.Classify | futurevelli-portal/js/chat.js:606-671 | a complaint outcome's rule holds on the lower-cased message; a permit outcome mentions "permit" and has the keyword subtype; a general inquiry does not mention "permit" |
| Dialogue.FirstRule | futurevelli-portal/js/chat.js:610-645 | the index of the first complaint rule that holds; no earlier rule holds |
| Dialogue.RuleOrderUnfolded | futurevelli-portal/js/chat.js:610-645 | the rules are tried in the order HWG, JNK, CON, NSE, SUB, DMP, SGN |
| Dialogue.PermitSubtype | futurevelli-portal/js/chat.js:647-664 | FNC iff "fence"; GAR iff not that and "garage sale"; SPE iff neither and "event" or "party"; TRE iff none of those and "tree"; HOM otherwise |
| Dialogue.ClassifyIsFirstMatch | futurevelli-portal/js/chat.js:606-671 | the first matching complaint rule wins; with none, "permit" selects the permit subtype and anything else is a general inquiry |
| Dialogue.DeterminePermitType | futurevelli-portal/js/chat.js:791-799 | FNC iff "fence"; GAR iff not that and "garage sale"; SPE iff neither and "event"; TRE iff none of those nor "home" or "remodel" and "tree"; HOM otherwise |
| Dialogue.PermitClassifiersDiffer | futurevelli-portal/js/chat.js:791-799 | the two permit classifiers disagree exactly when neither "fence", "garage sale" nor "event" occurs and either "party" occurs or "tree" occurs together with "home" or "remodel" |
| Dialogue.PassportTopicOf | futurevelli-portal/js/chat.js:264-361 | the application steps are chosen iff "apply" or "how to get" occurs; the overview only when no topic keyword occurs |
| Dialogue.Reset | futurevelli-portal/js/chat.js:813-818 | step, complaint type, address and details are cleared; the permit type, anonymity and contact info are kept |
| Dialogue.TypeCode | futurevelli-portal/js/chat.js:678-684 | the complaint type's code when one is set, otherwise the permit type's code; a three-capital code exactly when one of them is set |
| Dialogue.ClassifyTurn | futurevelli-portal/js/chat.js:606-675 | no filing and no counter use; step 1 unless the message is a general inquiry; a complaint sets its type and keeps the permit type; a permit clears the complaint type and sets its permit type; a general inquiry changes no type; the reply asks for the address, or gives general help; address, details, anonymity and contact info are kept |
| Dialogue.FinalizeTurn | futurevelli-portal/js/chat.js:677-789 | one filing, one counter step, the reset state, and a confirmation carrying the filed reference |
| Dialogue.Respond | futurevelli-portal/js/chat.js:521-604 | the shared counter advances by one exactly when a record is filed, complaint or permit; a filing is confirmed with its reference and returns to step 0 |
| Dialogue.InterceptorsKeepState | futurevelli-portal/js/chat.js:524-540 | a greeting, a passport question or a status question leaves the state and the counter unchanged and files nothing, at every step |
| Dialogue.FilingOnlyAtDetails | futurevelli-portal/js/chat.js:599-603 | a record is filed exactly when the step is the details step and no interceptor applies |
| Dialogue.AddressTurn | futurevelli-portal/js/chat.js:549-581 | at step 1 the message becomes the address; a complaint goes to step 1.5 with the anonymity question (the contact question for housing), a permit to step 2 with its details question; nothing is filed |
| Dialogue.AnonymityTurn | futurevelli-portal/js/chat.js:584-595 | at step 1.5 outside housing, the report is anonymous exactly when the answer contains "yes" or "anonymous"; the step becomes 2 and nothing else changes |
| Dialogue.RespondConsistent | futurevelli-portal/js/chat.js:521-604 | every turn keeps the state consistent: no complaint type and no address at step 0; a type and no address at step 1; a complaint type and an address at step 1.5; a type and an address at step 2; no description left between turns |
| Dialogue.FilingContents | futurevelli-portal/js/chat.js:677-692 | the filing's type is the complaint type, otherwise the permit type; its reference is generated with the permit flag, today's stamp and the counter; its details are the address, the message, the anonymity flag and the contact info |
| Dialogue.FiledRecordKind | futurevelli-portal/js/chat.js:678-684 | the stored record is a permit exactly when no complaint type was set |
| Dialogue.PermitTypeSurvives | futurevelli-portal/js/chat.js:813-818 | after a permit request, a later complaint has both a complaint type and the old permit type |
| Dialogue.ContactInfoOutlivesReport | futurevelli-portal/js/chat.js:586-594 | answering "yes" marks the report anonymous but keeps earlier contact info |
| Dialogue.HousingNeedsContact | futurevelli-portal/js/chat.js:587-590 | for a housing complaint the answer becomes the contact info and the report is not anonymous |
| Dialogue.ComplaintFlow | futurevelli-portal/js/chat.js:543-603 | four turns (inquiry, address, anonymity, details) file exactly one complaint with the first counter value and return to step 0 |
| Dialogue.AnonymousComplaintRecord | futurevelli-portal/js/chat.js:543-603 | a non-housing complaint conversation answered "yes" stores one record: of the classified type, not a permit, with the given address and description, anonymous, with exactly one history entry |
| Dialogue.PermitFlow | futurevelli-portal/js/chat.js:565-581 | three turns (inquiry, address, details) file exactly one permit request, skip the anonymity step and keep the permit type |
| Dialogue.ChatSession.constructor | futurevelli-portal/js/chat.js:2-9 | the initial chat state, counter 1 and an empty transcript |
| Dialogue.ChatSession.GenerateReferenceNumber | futurevelli-portal/js/chat.js:465-470 | returns the reference for the current counter and increments the counter by one |
| Dialogue.ChatSession.ResetChat | futurevelli-portal/js/chat.js:813-818 | the state becomes `Reset` of the old one |
| Dialogue.ChatSession.ClassifyInitialInquiry | futurevelli-portal/js/chat.js:606-675 | the state and the reply are those of `ClassifyTurn` |
| Dialogue.ChatSession.FinalizeReport | futurevelli-portal/js/chat.js:677-789 | the state, counter and reply are those of `FinalizeTurn`; the store gains exactly the filed record, saved and rendered |
| Dialogue.ChatSession.ProcessUserInput | futurevelli-portal/js/chat.js:521-604 | the state, counter and reply are those of `Respond`; the store changes only when a record is filed; the state stays consistent |
| Dialogue.ChatSession.HandleUserInput | futurevelli-portal/js/chat.js:495-519 | blank input changes nothing in the session, the store or its slot; otherwise the trimmed message is logged and processed as by `Respond`, and the store changes only when a record is filed; the state stays consistent |
| Dialogue.ChatSession.OpenChat | futurevelli-portal/js/chat.js:401-407 | the state is reset and the greeting is logged |
| Dialogue.ChatSession.SetAnonymous | futurevelli-portal/js/chat.js:451-454 | only the anonymity flag changes |
| Portal.EmailCheckIsPattern | futurevelli-portal/script.js:229-232 | the direct check (`IsEmail`) accepts exactly the addresses the regular expression matches |
| Portal.EmailCheckSound | futurevelli-portal/script.js:229 | an address passing the direct check matches the regular expression |
| Portal.EmailCheckComplete | futurevelli-portal/script.js:229 | an address matching the regular expression passes the direct check |
| Portal.MobileNumberRange | futurevelli-portal/script.js:235-238 | a mobile number is accepted (`IsMobileNumber`) exactly when it is ten digits with a value of at least 6000000000 |
| Portal.ValidateSignup | futurevelli-portal/script.js:216-238 | the checks run in the order required fields, email, mobile; each alert fires exactly when the earlier checks pass and its own fails; the body is sent only when all pass, and it holds the trimmed fields |
| Portal.MissingFieldsIffBlank | futurevelli-portal/script.js:216-226 | the first alert fires exactly when a field other than the password is blank, or the password is empty |
| Portal.SentFieldsAreTrimmed | futurevelli-portal/script.js:216-252 | a sent name, address or email neither starts nor ends with white space |
| Portal.StatusClass | futurevelli-portal/script.js:484-489 | one of the three badge classes; "in review" and "resolved" (lower-cased) get their own class, and every other status gets `status-pending` |
| Portal.StatusClassFollowsKey | futurevelli-portal/script.js:484-489 | for the three known statuses the badge is `status-` followed by the chat list's status key |
| Portal.SlideAfter | futurevelli-portal/script.js:11-14 | the slide index stays below the slide count |
| Portal.SlideAfterFirstRound | futurevelli-portal/script.js:11-14 | the first round visits the slides in order |
| Portal.SlideAfterPeriodic | futurevelli-portal/script.js:11-14 | the slides cycle with period equal to their count |
| Portal.StepIsMod | futurevelli-portal/script.js:12 | `(i + 1) % n` moves to the next slide and wraps after the last |
| Portal.Slideshow.constructor | futurevelli-portal/script.js:4-17 | starts at slide 0 |
| Portal.Slideshow.NextSlide | futurevelli-portal/script.js:11-14 | advances by one modulo the count, keeping the index on the cycle |
| Portal.HeroSlideshow.constructor | futurevelli-portal/script.js:386-392 | starts at image 0 |
| Portal.HeroSlideshow.UpdateBackground | futurevelli-portal/script.js:394-397 | shows the image at the current index, then advances by one modulo the count |
| Portal.DisplayName | futurevelli-portal/script.js:173 | a non-empty user name is used as is; otherwise the email's text before the first `@`, which holds no `@` |
| Portal.StoredText | futurevelli-portal/script.js:174-176 | a present value is stored as its text, a missing one as "undefined" |
| Portal.LoginAuth | futurevelli-portal/script.js:170-173 | signed in after the reply exactly when the reply is ok or the user already was; an ok reply sets the user id and the display name; any other reply changes nothing |
| Portal.LoginStorage | futurevelli-portal/script.js:174-176 | a successful login writes the token, the display name and the user id, and keeps every other key; a failed one writes nothing |
| Portal.Restore | futurevelli-portal/script.js:521-532 | signed in after start-up exactly when already signed in or a non-empty token is stored; any change signs in the demo citizen; without a token nothing changes |
| Portal.ReloadAfterLogin | futurevelli-portal/script.js:521-532 | after a successful login the next load is signed in as the demo user, unless the token was empty |
| Portal.SignInState.constructor | futurevelli-portal/script.js:521-532 | the guest defaults, then the stored-token check |
| Portal.SignInState.Login | futurevelli-portal/script.js:155-208 | the state and storage become `LoginAuth` and `LoginStorage` of the old ones |
| Portal.SignInState.SignOut | futurevelli-portal/script.js:122-130 | back to the guest; storage is left as it is |

## Left out

- DOM rendering: `addMessage`, `showTypingIndicator`, `showError`/`hideError` as style changes, and the HTML of `updateComplaintsList`. The listing is modelled as placeholder or cards, and the banner by `errorShown`.
- The canned reply text of `handlePassportQuery` and `finalizeReport`. Replies are named by their kind and the reference they carry.
- The `setTimeout` delay in `handleUserInput`. The turn is processed at once, and overlapping turns are not modelled.
- The wall clock. `today` and `now` are parameters, so the two `new Date()` reads in `addComplaint` are one timestamp.
- `JSON.stringify`/`JSON.parse`, storage quotas and parse errors. The single `failing` flag of the storage slot stands for all of them.
- The send-button path (`js/chat.js:414-441`). It calls `window.apiUtils.chat.sendMessage`, which `js/apiUtils.js` does not define.
- `js/apiUtils.js` in full (fetch with retries and back-off).
- The network and browser calls of `script.js`: the login, signup, chat and complaints `fetch` calls, geolocation, `setInterval` timing, modal and dropdown toggles, and the FAQ animation. The login is modelled from its reply (`LoginReply`). A thrown `fetch` is a reply that is not `ok`.
- `updateProfileDropdownUI` and the complaint rendering of `fetchUserComplaints`. Only its badge class is modelled.
- Text.ToLower: lowers ASCII letters only; the Unicode case mapping of `toLowerCase` is not modelled.
- Dialogue.PassportTopicOf: only the first topic is stated as an if-and-only-if. The later topics follow the same first-match order in the body, and their contract says only when the overview is given.
- Portal.StoredText: `setItem` of `null` stores "null", but the model stores "undefined" for any missing value.
- Portal.Slideshow.constructor: requires at least one slide; the page with no `.slide` element (where `showSlide(0)` throws) is not modelled.
- Reference.DateStamp: a year below 10 is allowed, and gives a shorter stamp, as in the code. Years are natural numbers.
