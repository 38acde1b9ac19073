# AfriBiobank site behaviour, modelled in Dafny

AfriBiobank's website is mostly layout and copy. This project models the five
pieces of it that have behaviour, and proves what each one promises.

- **Contact page inquiry form** (`contact.dfy`, module `Contact`):
  - the per-field validator, with its fixed messages, the ten-character minimum for the message and the email regular expression;
  - the optimistic clearing of a field's error on input;
  - the submission. It validates, goes busy and races one record-store write against a 15-second timer. Success resets the form; either failure keeps it, and the failure text depends on the cause. The `finally` step always clears the busy state and cancels the timer;
  - the notification with its single, replaceable 5-second dismissal timer.

  The controller is a class, `InquiryController`. The store and the browser timers are abstract: the controller logs each write it issues and each callback it schedules, and the environment delivers their completions as the events `StoreSettles` and `TimerFires`. Whichever event comes first settles the submission; the late one changes nothing.
- **Zuri, the chat assistant** (`zuri.dfy`, module `Zuri`; `zurichat.dfy`, module `ZuriChat`):
  - `matchKnowledge` and `findResponse`, a case-insensitive, first-match-wins responder over the fixed knowledge base and the fixed keyword rules, with a fallback reply. The opener chosen by `Math.random` becomes an index parameter `intro < 4`;
  - `sendMessage` and its 700 ms reply timer, in the class `ChatSession`. It logs the user message, clears the input, turns on the typing indicator and queues the reply. The reply is logged when its timer fires.
- **FAQ accordion and search** (`faq.dfy`, module `Faq`):
  - the single-open toggle on the key `"<category>-<question>"`, in the class `FaqPage`;
  - the open key is built from positions in the filtered list, as the page builds it. So after the query changes, the question now shown at the open key's position shows as open, which may be a different question.
  - the two-level search filter: questions are kept by case-insensitive substring match, then categories left empty are dropped;
  - the "No questions found" condition.
- **Success-stories carousel** (`carousel.dfy`, module `SuccessStories`): the index that wraps at both ends, moved by the arrows, the seven-second interval and the dots, in the class `StoryCarousel`.
- **AI tools catalogue** (`aitools.dfy`, module `AiTools`):
  - the sixteen tools with their categories, features, statuses and endpoints;
  - the category filter;
  - the "first three features, +N more" preview;
  - the status badge and the buttons a status gives.

There are two shared modules:
- `Seqs`: an order-preserving filter with its uniqueness theorem;
- `Text`: JavaScript's `trim` and its `\s` class, ASCII `toLowerCase`, `includes`, UTF-16 `length`, newline joining and splitting, whole-word search, and decimal numerals.

`Wrappers` holds `Option`.

### The assistant's two matching modes
The page looks up knowledge-base keywords by plain substring search. Some keywords are short (`ai`, `ml`, `rdf`), so they match inside longer words. `Zuri.Mode` has two values:
- `Substring`, which is what the page does;
- `WholeWord`, which is what it evidently intends (see Findings).

Every responder member takes the mode, and a `ChatSession` fixes it at construction. The mode only affects the knowledge-base lookup. The keyword rules of `findResponse` match their words by substring in both modes, as the page does; this includes short words such as `ct` and `fl`.

There is a second consequence of the page's own mode. The keywords "privacy" and "security" belong to knowledge-base entries: the copywriting guide lists "privacy" and part 3 of the implementation guide lists "security". So the privacy rule of `findResponse` is never reached, and `Zuri.PrivacyRuleUnreachable` proves that. Its canned privacy answer is never given to typed text. This includes the quick-reply label "How do you protect privacy?" when it is typed: it contains the keyword "privacy" and no other keyword, so it gets the copywriting guide's summary instead. Only the quick-reply button itself, which passes its key, gets the privacy answer.

## Model

| member | source | states |
|---|---|---|
| Contact.EmailShapeSound | app/app/contact/page.tsx:151-156 | a string with no white space, one '@' that is not first, and a '.' in the domain that is neither its first nor its last character matches `^[^\s@]+@[^\s@]+\.[^\s@]+$` |
| Contact.EmailShapeComplete | app/app/contact/page.tsx:151-156 | every string the email pattern matches has no white space, exactly one '@' that is not first, and an inner '.' after it |
| Contact.EmailShapeIffPattern | app/app/contact/page.tsx:151-156 | the direct test and the regular expression accept the same strings |
| Contact.FieldError | app/app/contact/page.tsx:140-173 | each field's rule as an if-and-only-if, with its messages: names and email required unless blank after trimming; email invalid iff it fails the pattern untrimmed; inquiry type required iff empty or the placeholder; message required iff blank, too short iff under 10 trimmed UTF-16 units; consent required iff unchecked; institution never |
| Contact.ValidateRules | app/app/contact/page.tsx:137-176 | the error map holds a field exactly when that field's rule fails, under that rule's message; every rule runs independently, and the institution is never a key |
| Contact.ValidIff | app/app/contact/page.tsx:175-176 | the form passes (empty error map) exactly when every required field passes its rule |
| Contact.MessageBoundary | app/app/contact/page.tsx:164-168 | exactly ten trimmed code units pass; nine give "Message must be at least 10 characters" |
| Contact.EmailWithSpaceIsInvalid | app/app/contact/page.tsx:151-156 | a non-blank email containing any white space, surrounding spaces included, gets "Please enter a valid email address" |
| Contact.FormExtensionality | app/app/contact/page.tsx:82-90 | two forms that agree on all seven fields are equal |
| Contact.ApplyEdit | app/app/contact/page.tsx:185-188 | the named field (or consent, for the checkbox) takes the new value and every other field keeps its value |
| Contact.ApplyEditIdempotent | app/app/contact/page.tsx:185-188 | applying a change twice equals applying it once |
| Contact.ClearError | app/app/contact/page.tsx:190-196 | the edited field has no error afterwards; every other field's error is unchanged; a map without that field's error is returned as it was |
| Contact.FailureText | app/app/contact/page.tsx:239-245 | the timeout text is chosen exactly for an `Error` whose message is "Request timed out"; anything else gets the generic text |
| Contact.RecordOf | app/app/contact/page.tsx:219-223 | the stored document carries the form's fields and status "new" |
| Contact.RescheduleReset | app/app/contact/page.tsx:129-134 | the new dismissal is pending under its handle, the previous one is cancelled, and every other timer is kept |
| Contact.AtMostOneReset | app/app/contact/page.tsx:126-135 | when every pending dismissal is the one held in the ref, at most one dismissal is pending |
| Contact.InquiryController.constructor | app/app/contact/page.tsx:102-116 | the page starts with the empty form, no errors, idle, not submitting, and no timers or writes |
| Contact.InquiryController.OneResetPending | app/app/contact/page.tsx:126-135 | in every reachable state at most one dismissal timer is pending |
| Contact.InquiryController.ValidateForm | app/app/contact/page.tsx:137-176 | the error map is replaced by the validator's map, and the result is true iff that map is empty |
| Contact.InquiryController.HandleInputChange | app/app/contact/page.tsx:179-197 | the form becomes the edited form and the error map loses the edited field's entry; nothing else changes |
| Contact.InquiryController.ShowNotification | app/app/contact/page.tsx:126-135 | the status and message are set, the old dismissal is cancelled and a new one is scheduled under a fresh handle held in the ref |
| Contact.InquiryController.Submit | app/app/contact/page.tsx:199-225 | an invalid form causes no write and no timer; a valid one writes exactly one record of the form, goes busy, clears the status and arms one timeout for that attempt |
| Contact.InquiryController.Launch | app/app/contact/page.tsx:206-225 | the busy state, the cleared status, the armed timeout and the one record appended to the store |
| Contact.InquiryController.Settle | app/app/contact/page.tsx:226-251 | afterwards not busy and the attempt's timer is cancelled; success shows the thank-you text and empties the form; failure shows the cause's text and keeps the form |
| Contact.InquiryController.EndFlight | app/app/contact/page.tsx:246-251 | the `finally` step: the attempt's timer is cancelled and the busy state is left |
| Contact.InquiryController.StoreSettles | app/app/contact/page.tsx:218-225 | the write decides the outcome only if its race is still open; a late write changes nothing |
| Contact.InquiryController.TimerFires | app/app/contact/page.tsx:212-214 | a dismissal returns the status to idle and changes nothing else; a submission timeout settles the race as a failure with the timeout text and keeps the form |
| Contact.InquiryController.Teardown | app/app/contact/page.tsx:118-124 | unmounting cancels the pending dismissal and no other timer |
| Zuri.MatchesExactly | app/components/landing/ZuriAssistant.tsx:139-143 | the matches are a subsequence of the knowledge base, each relevant to the lower-cased text, and every relevant entry is among them |
| Zuri.Bullets | app/components/landing/ZuriAssistant.tsx:147-149 | one summary line per match, in order |
| Zuri.ComposeWithNote | app/components/landing/ZuriAssistant.tsx:152-163 | with the note, the reply is the opener, the bullets and the note, joined by newlines |
| Zuri.ComposeWithoutNote | app/components/landing/ZuriAssistant.tsx:152-163 | without the note, the reply is the opener and the bullets, joined by newlines |
| Zuri.ComposeJoinsLines | app/components/landing/ZuriAssistant.tsx:147-163 | the reply is its lines joined by newlines and starts with the opener's first character |
| Zuri.AnyPendingIff | app/components/landing/ZuriAssistant.tsx:151-154 | the note is due exactly when some match is pending |
| Zuri.NoKnowledgeIff | app/components/landing/ZuriAssistant.tsx:139-145 | there is no knowledge reply exactly when no entry's keyword occurs in the lower-cased text |
| Zuri.IntroStarts | app/components/landing/ZuriAssistant.tsx:156-162 | every opener is non-empty and begins with 'H' or 'F' |
| Zuri.KnowledgeReplyLines | app/components/landing/ZuriAssistant.tsx:147-163 | a knowledge reply is the chosen opener, every match's bullet in knowledge-base order, and the note exactly when a match is pending |
| Zuri.FirstFiring | app/components/landing/ZuriAssistant.tsx:170-199 | the index found is of a firing rule, no earlier rule fires, and it is past the end when none fires |
| Zuri.FirstFiringIs | app/components/landing/ZuriAssistant.tsx:170-199 | any index whose rule fires and whose earlier rules do not is the one found |
| Zuri.FindResponse | app/components/landing/ZuriAssistant.tsx:166-199 | whenever there is a knowledge reply, it is the answer; otherwise the answer is the keyword rules' answer on the lower-cased text |
| Zuri.KnowledgeFirst | app/components/landing/ZuriAssistant.tsx:166-168 | one relevant entry is enough for the knowledge reply to win over every keyword rule |
| Zuri.FirstRuleWins | app/components/landing/ZuriAssistant.tsx:170-199 | with no knowledge reply, the first rule that fires gives the answer, and the fallback is used when none fires |
| Zuri.PediatricBeforeBrain | app/components/landing/ZuriAssistant.tsx:172-177 | 'brain' with 'child' or 'pediatric' answers with the pediatric rule, not the plain brain rule |
| Zuri.CaseInsensitive | app/components/landing/ZuriAssistant.tsx:140-170 | texts that lower-case alike get the same answer |
| Zuri.SilentRuleNeverAnswers | app/components/landing/ZuriAssistant.tsx:170-199 | a rule whose words do not occur never gives the answer |
| Zuri.BrainMatchesKnowledge | app/components/landing/ZuriAssistant.tsx:141-143 | as written, any text containing "brain" matches the knowledge base, because the keyword "ai" occurs inside it |
| Zuri.PediatricRuleUnreachable | app/components/landing/ZuriAssistant.tsx:172-174 | as written, the pediatric brain rule never answers |
| Zuri.PrivacyRuleUnreachable | app/components/landing/ZuriAssistant.tsx:187-189 | as written, the privacy rule never answers, because "privacy" and "security" are knowledge-base keywords |
| Zuri.WholeWordPairAnswer | app/components/landing/ZuriAssistant.tsx:141-143 | with whole-word matching, a two-word text in which neither word nor the pair is a keyword gets its keyword-rule answer |
| Zuri.PediatricNotKeyword | app/components/landing/ZuriAssistant.tsx:31-89 | "pediatric" is no entry's keyword |
| Zuri.BrainNotKeyword | app/components/landing/ZuriAssistant.tsx:31-89 | "brain" is no entry's keyword |
| Zuri.PediatricBrainNotKeyword | app/components/landing/ZuriAssistant.tsx:31-89 | "pediatric brain" is no entry's keyword |
| Zuri.PediatricBrainNoKnowledge | app/components/landing/ZuriAssistant.tsx:139-168 | with whole-word matching, "pediatric brain" finds no knowledge and falls through to the keyword rules |
| Zuri.PediatricReachableWholeWord | app/components/landing/ZuriAssistant.tsx:172-174 | with whole-word matching, "pediatric brain" gets the pediatric rule's answer |
| ZuriChat.ResponseText | app/components/landing/ZuriAssistant.tsx:215 | with a quick-reply key the reply is that key's canned text whatever the message; without one it is the responder's answer |
| ZuriChat.AnsweringGrows | app/components/landing/ZuriAssistant.tsx:205-227 | logging a message keeps every pending reply answering a logged question |
| ZuriChat.AnsweringBounded | app/components/landing/ZuriAssistant.tsx:205-227 | a reply's number never exceeds the log's length |
| ZuriChat.IncreasingSnoc | app/components/landing/ZuriAssistant.tsx:217-227 | a reply numbered above every queued one keeps the queue increasing |
| ZuriChat.NumberedSend | app/components/landing/ZuriAssistant.tsx:205-211 | a user message numbered by its position keeps the log numbered |
| ZuriChat.BeforeSend | app/components/landing/ZuriAssistant.tsx:205-227 | a send keeps every logged reply's number below every queued one |
| ZuriChat.SendKeepsLog | app/components/landing/ZuriAssistant.tsx:202-227 | a send keeps the log well formed |
| ZuriChat.BeforeFire | app/components/landing/ZuriAssistant.tsx:217-227 | logging the oldest queued reply keeps logged replies below queued ones |
| ZuriChat.FireKeepsLog | app/components/landing/ZuriAssistant.tsx:217-227 | a firing reply timer keeps the log well formed |
| ZuriChat.IdsDistinct | app/components/landing/ZuriAssistant.tsx:205-227 | no two messages of a well-formed log share an id |
| ZuriChat.ChatSession.constructor | app/components/landing/ZuriAssistant.tsx:119-135 | the chat starts with the welcome message only, an empty input and no typing indicator |
| ZuriChat.ChatSession.SetInput | app/components/landing/ZuriAssistant.tsx:465 | the input box holds the typed value |
| ZuriChat.ChatSession.SendMessage | app/components/landing/ZuriAssistant.tsx:202-227 | white-space-only text changes nothing; otherwise exactly one user message is logged under the next number, the input is cleared, typing comes on and exactly one reply is queued under the same number |
| ZuriChat.ChatSession.Post | app/components/landing/ZuriAssistant.tsx:205-227 | the state change of a send, keeping the log well formed |
| ZuriChat.ChatSession.ReplyTimerFires | app/components/landing/ZuriAssistant.tsx:217-227 | the oldest queued reply is logged, exactly once, and typing goes off |
| Faq.KeyInjective | app/faq/page.tsx:138-141 | distinct question positions have distinct keys |
| Faq.Toggled | app/faq/page.tsx:140 | the clicked key is opened unless it was the open one, in which case nothing is open |
| Faq.ToggleTwice | app/faq/page.tsx:140 | toggling a key twice restores the state iff nothing was open or that key was |
| Faq.FaqPage.constructor | app/faq/page.tsx:135-136 | nothing is open and the search box is empty |
| Faq.FaqPage.AtMostOneOpen | app/faq/page.tsx:207 | at most one question is expanded |
| Faq.FaqPage.ToggleQuestion | app/faq/page.tsx:138-141 | the clicked question's open state flips |
| Faq.FaqPage.SetSearchQuery | app/faq/page.tsx:179 | the search box holds the typed query |
| Faq.Narrowed | app/faq/page.tsx:143-149 | narrowing keeps the category's name |
| Faq.FilteredExactly | app/faq/page.tsx:143-150 | the shown categories are, in order, the narrowed ones; each has questions; every shown question is hit by the query; every category with a hit is shown |
| Faq.NoResultsIff | app/faq/page.tsx:241-245 | "No questions found" shows exactly when no question of any category is hit |
| Faq.EmptyQueryShowsAll | app/faq/page.tsx:143-150 | an empty query shows every category with every question |
| Faq.QueryCaseInsensitive | app/faq/page.tsx:147-148 | queries that lower-case alike show the same list |
| SuccessStories.StoryCountIsLength | app/components/landing/SuccessStories.tsx:8-57 | there are three stories |
| SuccessStories.Paginated | app/components/landing/SuccessStories.tsx:79-84 | the index stays in range; a step inside the range moves by exactly that step; below zero wraps to the last story, past the end to the first |
| SuccessStories.ArrowIsModular | app/components/landing/SuccessStories.tsx:79-84 | one arrow step is the step modulo the number of stories |
| SuccessStories.BackUndoesForward | app/components/landing/SuccessStories.tsx:170-176 | back undoes forward and forward undoes back |
| SuccessStories.TickIsForward | app/components/landing/SuccessStories.tsx:63-67 | the interval's update lands where the forward arrow does |
| SuccessStories.Forward | app/components/landing/SuccessStories.tsx:79-84 | repeated forward steps stay in range |
| SuccessStories.ForwardIsModular | app/components/landing/SuccessStories.tsx:79-84 | k forward steps land on (i + k) modulo the number of stories |
| SuccessStories.ForwardFullCycle | app/components/landing/SuccessStories.tsx:79-84 | after three forward steps the same story is shown again |
| SuccessStories.DotDirection | app/components/landing/SuccessStories.tsx:187 | the direction is 1 iff the dot lies after the current story, and -1 otherwise, also for the current story's own dot |
| SuccessStories.SlidesOpposite | app/components/landing/SuccessStories.tsx:71-75 | after a move the old slide leaves on the side opposite to where the new one enters |
| SuccessStories.StoryCarousel.constructor | app/components/landing/SuccessStories.tsx:60-61 | the first story is shown with no direction |
| SuccessStories.StoryCarousel.Paginate | app/components/landing/SuccessStories.tsx:77-85 | the direction becomes the argument and the index moves by the wrapping step, staying in range |
| SuccessStories.StoryCarousel.Tick | app/components/landing/SuccessStories.tsx:63-69 | the direction becomes 1 and the index (prev + 1) modulo the number of stories |
| SuccessStories.StoryCarousel.DotClick | app/components/landing/SuccessStories.tsx:184-190 | the clicked story is shown, in the dot's direction |
| AiTools.SelectExactly | app/app/ai-tools/page.tsx:326-328 | 'All Tools' shows the whole list in order; any other choice shows a subsequence of exactly the tools of that category |
| AiTools.ShownIff | app/app/ai-tools/page.tsx:326-328 | a listed tool is shown iff 'All Tools' or its own category is selected |
| AiTools.SelectUnique | app/app/ai-tools/page.tsx:328 | the filter is the only order-preserving selection of all the tools of the category |
| AiTools.CatalogueHasAll | app/app/ai-tools/page.tsx:40-310 | every tool is in the catalogue |
| AiTools.UnlistedTools | app/app/ai-tools/page.tsx:312-321 | exactly eight tools, Brain Tumor Detection and Skin Lesion Classifier among them, have a category with no filter button |
| AiTools.UnlistedOnlyUnderAll | app/app/ai-tools/page.tsx:312-328 | a tool whose category has no button appears only under 'All Tools' |
| AiTools.Preview | app/app/ai-tools/page.tsx:450 | the card shows the first min(3, n) features |
| AiTools.MoreCount | app/app/ai-tools/page.tsx:456-460 | "+N more features" appears iff there are more than three, with N = n - 3 |
| AiTools.PreviewSplit | app/app/ai-tools/page.tsx:450-460 | the shown features and the hidden count together cover the whole list |
| AiTools.FiveFeaturesShowTwoMore | app/app/ai-tools/page.tsx:450-460 | a five-feature card shows three features and "+2 more features" |
| AiTools.EveryToolHasFive | app/app/ai-tools/page.tsx:40-310 | every tool of the catalogue lists five features |
| AiTools.CatalogueCardsShowTwoMore | app/app/ai-tools/page.tsx:450-460 | every card of the catalogue lists its first three features and shows "+2 more features" |
| AiTools.ActionsFor | app/app/ai-tools/page.tsx:474-489 | 'available' and 'beta' get Try API and Docs; 'coming-soon' gets the disabled Coming Soon button |
| AiTools.EndpointLine | app/app/ai-tools/page.tsx:464-471 | the endpoint line appears iff the tool has an endpoint, and shows it |
| AiTools.EndpointIffTryApi | app/app/ai-tools/page.tsx:464-489 | in the catalogue a tool shows an endpoint exactly when it gets the Try API buttons |
| Seqs.Filter | app/faq/page.tsx:145-149 | `filter` keeps, in order, exactly the elements that satisfy the predicate |
| Seqs.FilterUnique | app/app/ai-tools/page.tsx:328 | any order-preserving selection of all the satisfying elements is the filter |
| Seqs.FilterEmptyIff | app/faq/page.tsx:150 | the filter is empty iff no element satisfies the predicate |
| Text.TrimIsCore | app/app/contact/page.tsx:141 | `trim` removes the leading and trailing white space and nothing else |
| Text.TrimEmptyIff | app/app/contact/page.tsx:141 | a trimmed string is empty iff the string is all white space |
| Text.Utf16Length | app/app/contact/page.tsx:166 | `length` counts UTF-16 code units: one per character in the basic plane, two above it |
| Text.ToLower | app/faq/page.tsx:147-148 | `toLowerCase` maps each character and keeps the length |
| Text.ToLowerIdempotent | app/components/landing/ZuriAssistant.tsx:140 | lower-casing twice is lower-casing once |
| Text.ContainsIffOccurs | app/components/landing/ZuriAssistant.tsx:142 | `includes` holds iff the substring occurs at some index |
| Text.SplitJoin | app/components/landing/ZuriAssistant.tsx:149 | lines without newlines, joined and split again, are recovered |
| Text.DecimalInjective | app/faq/page.tsx:139 | different numbers have different decimal numerals |

## Left out

- The Firestore store (`addDoc`, `collection`, `serverTimestamp`) is a call into code outside the model. A write is an entry in the controller's store log, and its completion is the `StoreSettles` event. The timestamp is a marker.
- `setTimeout`, `clearTimeout`, `setInterval` and `Promise.race` are not modelled as real time. Each timer becomes a pending callback under a handle, and its firing is an event the environment chooses. Real times and the interval's cleanup on unmount are not modelled.
- Contact.InquiryController.Submit: requires that no submission is in flight. The page has no guard of its own and relies on the submit button being disabled while submitting (app/app/contact/page.tsx:501).
- Contact.InquiryController.Settle: leaves the busy state before showing the notification, while the page does it in the reverse order within one synchronous continuation. No state in between is observable.
- Contact.ClearError: `[name]: undefined` is modelled as removing the key. An undefined entry shows no error and is truthy-tested like an absent one.
- `console.error` in the failure path is output only and is not modelled.
- Text.ToLower: lower-cases ASCII letters only. Unicode case mapping is not modelled, and the keywords and queries used in the model are ASCII.
- Text.Utf16Length: counts each character above U+FFFF as two code units and does not model lone surrogates.
- The mis-decoded bullet, apostrophe and emoji characters of ZuriAssistant.tsx are kept as the code points the file spells.
- Speech synthesis, speech recognition and voice selection (app/components/landing/ZuriAssistant.tsx:234-309) are browser APIs. The voice path differs from typed text:
  - the recognizer's result handler (app/components/landing/ZuriAssistant.tsx:279-297) is installed once, the first time the microphone is pressed;
  - it keeps calling the `sendMessage` of that render, with that render's `initials`;
  - so a second voice message reuses the first one's `user-K` and `assistant-K` ids.

  The model does not capture this. `ZuriChat.IdsDistinct` holds for typed sends and quick replies only.
- ZuriChat.ChatSession.ReplyTimerFires: reply timers fire in the order they were scheduled, as equal 700 ms delays do. React's batching and the stale `initials` closure of a render are not modelled; a user message is numbered by its position in the log.
- Zuri.IntroStarts: states only the openers' first character; their full text is in `Zuri.Intros`.
- The FAQ texts (app/faq/page.tsx:9-134) are not reproduced. The FAQ lemmas hold for any list of categories, except that `Faq.EmptyQueryShowsAll` requires every category to have at least one question. The page's data meets that: six categories with 23 questions.
- AiTools: descriptions, icons and gradients are presentation only.
- The status badge (app/app/ai-tools/page.tsx:407-421) is modelled as the function `AiTools.Badge` with nothing proved about it, since it only maps each status to its label.
- The selected AI-tools category is React state set by a click. The model takes it as a parameter of `FilteredTools`.
- Animations and styling are left out, except the carousel's slide offsets.
- app/contact/page.tsx is a stale duplicate of the contact form with no handlers, and is not part of this model.

## Findings

| source | as written | input that shows it | evidently intended | confidence | as-written member | corrected member |
|---|---|---|---|---|---|---|
| app/components/landing/ZuriAssistant.tsx:141-143 | knowledge-base keywords are matched by `normalized.includes(keyword)`, so the keyword "ai" matches inside "brain" and every text mentioning "brain" gets a knowledge reply; the pediatric brain rule at lines 172-174 can never answer | "pediatric brain" | keywords match whole words, so "pediatric brain" reaches the pediatric brain rule | not executed | Zuri.PediatricRuleUnreachable | Zuri.PediatricReachableWholeWord |
