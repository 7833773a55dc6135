# code-review-hub back-end, modelled in Dafny

This project models the parts of the code-review-hub Spring back-end that carry real decisions. The back-end receives Bitbucket pull-request webhooks. It has the changed files reviewed by an AI provider (ChatGPT, Grok, Copilot or Gemini), reads a 0..100 quality rating out of the review, and manages users, webhook tokens, teams and OAuth sign-up. The model covers:

- **Rating extraction** (`Webhook`, `WebhookTests`). This is `extractRate` / `clampRate`.
  - `ExtractRate` is a method with the source's indexed line loop and its `while (m.find())` loop. It is proved equal to the specification function `Rate`.
  - The behaviour of `Rate` is stated by lemmas.
  - The repository's three test vectors, and two further inputs, are proved as lemmas. The test file's copy of `extractRate` is the same algorithm, so the same members stand for it.
- **The webhook gate** (`WebhookIntake`). This covers the active/expiry check on the token, the author lookup, and the AI/model defaults handed to the review.
- **The review service** (`ReviewWire`, `ReviewPrompt`, `ReviewReply`, `CodeReview`).
  - Provider selection.
  - The numbered-heading system prompt, built by a loop and described by a function and lemmas.
  - The request bodies in the Gemini and the default dialects, built by loops.
  - Reply interpretation: envelope, "### Inline Comments" split, fence detection, per-item comment reading.
  - `extractContent`, and the `reviewFiles` and `chat` entry points.
- **Users** (`Entities`, `Repositories`, `UserApi`, `Logout`).
  - The comma-separated review-aspect codec and its round trip.
  - The profile endpoint and the AI-preference update.
  - The webhook-token life cycle (enable, disable, get, deactivation on logout), with the invariant that each user has at most one active token.
- **Teams** (`Teams`). Create, join, leave and delete, with ownership transfer, deletion of an emptied team, and conditional removal of `ROLE_TEAM_ADMIN`.
- **Sign-up and log-in** (`EmailFetcher`, `OAuthUsers`, `LegacyOAuthUsers`).
  - Primary-email selection by the e-mail fetcher and by the OAuth user service. The two differ, and a lemma states exactly how.
  - The sign-up / log-in decision of the current service.
  - The create-or-update of the older service.

The database is a class `Repositories.Db`. Its fields are users keyed by username, teams keyed by id, the token table, the AI-model catalogue and the role names. The service methods reassign those fields. `Db.Valid()` is the invariant they all keep:
- users are stored under their own name;
- a team's creator is a member;
- members are known users;
- team names are unique;
- token values are unique;
- each user has at most one active token.

A Java `null` is an `Option`. An exception that reaches the caller is the `Failure` of a `Result` (or an HTTP status in a `Reply`). JSON decoding by Jackson is a function-typed parameter `decode` over an abstract JSON tree. The provider's HTTP reply, the fetched e-mail document, the random token value and the current time are parameters.

A malformed inline-comment block does not degrade gracefully: the parse error replaces the general feedback and leaves the comment list unset (`ReviewReply.MalformedBlockLosesNarrative`).

## Model

| member | source | states |
|---|---|---|
| Webhook.ClampRate | back-end/src/main/java/com/review/reviewservice/controller/WebhookController.java:149-152 | the result lies in 0..100: every value up to 0 gives 0, every value from 100 on gives 100, values in between are unchanged |
| Webhook.ExtractRate | back-end/src/main/java/com/review/reviewservice/controller/WebhookController.java:120-147 | the line loop with its early returns, then the matcher loop over the whole text, returns exactly `Rate(feedback)`, and the result is in 0..100 |
| Webhook.Rate | back-end/src/test/java/com/review/reviewservice/ReviewServiceApplicationTests.java:31-63 | the rating of a text, the same for the test-local copy of the algorithm, is always within 0..100 |
| Webhook.LastBoundedNumber | back-end/src/main/java/com/review/reviewservice/controller/WebhookController.java:141-146 | the `while (m.find())` loop ends holding the value of the last match of the pattern, 0 when there is none |
| Webhook.ParseDigitsOfPrinted | back-end/src/main/java/com/review/reviewservice/controller/WebhookController.java:130 | `parseInt` reads the printed decimal of any number up to `Integer.MAX_VALUE` back as that number |
| Webhook.TriggerRate | back-end/src/main/java/com/review/reviewservice/controller/WebhookController.java:127-137 | whatever a trigger line yields, from the next line or from its own first number, is a rating in 0..100 |
| Webhook.ScanLines | back-end/src/main/java/com/review/reviewservice/controller/WebhookController.java:124-139 | a rating found by the line scan is in 0..100 |
| Webhook.MatchLengthUnique | back-end/src/main/java/com/review/reviewservice/controller/WebhookController.java:122 | at a given position `\b(\d{1,3})\b` can match only one length |
| Webhook.MatchesDisjoint | back-end/src/main/java/com/review/reviewservice/controller/WebhookController.java:122 | two matches never overlap: a later match starts after the end of an earlier one |
| Webhook.MatchValueIsParsed | back-end/src/main/java/com/review/reviewservice/controller/WebhookController.java:134-136 | a match consists of digits, its value is their decimal value, and it is at most 999 |
| Webhook.NoMatchTouchesLongRun | back-end/src/main/java/com/review/reviewservice/controller/WebhookController.java:122 | a run of four or more digits is never matched, not even in part |
| Webhook.LastFromIsLast | back-end/src/main/java/com/review/reviewservice/controller/WebhookController.java:143-145 | when a match has no match after it, the matcher loop ends on that match's value, from any starting point before it |
| Webhook.LastNumberSpec | back-end/src/main/java/com/review/reviewservice/controller/WebhookController.java:141-146 | without any match the fallback number is 0; otherwise it is the decimal value of the last match in the text |
| Webhook.ScanSkipsBarrenLines | back-end/src/main/java/com/review/reviewservice/controller/WebhookController.java:124-139 | lines that yield nothing, trigger lines included, are passed over and the scan goes on to later lines |
| Webhook.FirstYieldingLineDecides | back-end/src/main/java/com/review/reviewservice/controller/WebhookController.java:124-139 | the first line that yields decides the rating, whatever precedes and follows it |
| Webhook.NoYieldingLineFallsBack | back-end/src/main/java/com/review/reviewservice/controller/WebhookController.java:141-146 | when no line yields, the rating is the clamped last bounded number of the whole text |
| WebhookTests.RateOnNextLine | back-end/src/test/java/com/review/reviewservice/ReviewServiceApplicationTests.java:13-17 | "...### Rate\n75\n" rates 75 |
| WebhookTests.RateClampedAbove | back-end/src/test/java/com/review/reviewservice/ReviewServiceApplicationTests.java:19-23 | "...### Rate\n105\n" rates 100 because of the clamp |
| WebhookTests.RateFallsBackToLastNumber | back-end/src/test/java/com/review/reviewservice/ReviewServiceApplicationTests.java:25-29 | "...### Rate\nabc\n100\n" rates 100: no line yields, and 100 is the text's last bounded number |
| WebhookTests.NextLineDecides | back-end/src/main/java/com/review/reviewservice/controller/WebhookController.java:127-131 | a next line made of one to three digits under a trigger line gives the clamped value of those digits |
| WebhookTests.NextLineDigitsRunTogether | back-end/src/main/java/com/review/reviewservice/controller/WebhookController.java:127-132 | all non-digits of the next line are deleted and the remaining digits are read as one number |
| WebhookTests.FractionScoreClamped | back-end/src/main/java/com/review/reviewservice/controller/WebhookController.java:127-132 | "Score: 7/10" under the heading reads as 710 and rates 100 |
| WebhookTests.NoNumberNoYield | back-end/src/main/java/com/review/reviewservice/controller/WebhookController.java:127-138 | a trigger line whose next line has no digit and which has no bounded number itself yields nothing |
| WebhookTests.AccurateIsTrigger | back-end/src/main/java/com/review/reviewservice/controller/WebhookController.java:124-126 | "rate" is looked for anywhere in the lower-cased line, so "This is accurate" is a trigger line |
| WebhookTests.RateOnSameLine | back-end/src/main/java/com/review/reviewservice/controller/WebhookController.java:133-137 | without a next line, the first bounded number on the trigger line is the rating: "Rate: 85" rates 85 |
| WebhookIntake.TokenGate | back-end/src/main/java/com/review/reviewservice/controller/WebhookController.java:52-57 | NOT_FOUND exactly when no active token has that value; GONE only for an active token that has expired; success hands back the active token with that value |
| WebhookIntake.GateDecidedByExpiry | back-end/src/main/java/com/review/reviewservice/controller/WebhookController.java:52-57 | for an active token with that value, the gate passes exactly when it has no expiry or has not yet expired, and otherwise answers GONE |
| WebhookIntake.ReceiveWebhook | back-end/src/main/java/com/review/reviewservice/controller/WebhookController.java:52-94 | gate failures come first; then an author uuid no user has gives NOT_FOUND; an author some user has gives success or INTERNAL_SERVER_ERROR, the latter only for a user without stored aspects, and success whenever every such user has aspects; success carries the user's name, the lower-cased AI or "ChatGPT", the model or "gpt-4o", and the stored aspect list |
| Entities.ReviewAspectsList | back-end/src/main/java/com/review/reviewservice/model/entity/User.java:52-57 | every aspect handed out is non-empty, trimmed and free of commas |
| Entities.SplitJoin | back-end/src/main/java/com/review/reviewservice/model/entity/User.java:53-61 | splitting the comma-join of comma-free pieces gives the pieces back |
| Entities.AspectsRoundTrip | back-end/src/main/java/com/review/reviewservice/model/entity/User.java:52-62 | storing a list of non-empty, trimmed, comma-free aspects and reading it back gives the same list; the empty list reads back empty |
| Entities.AspectsNormalisationIdempotent | back-end/src/main/java/com/review/reviewservice/model/entity/User.java:52-62 | reading, storing and reading again gives what the first read gave |
| Entities.BlankPiecesVanish | back-end/src/main/java/com/review/reviewservice/model/entity/User.java:52-62 | a stored blank entry reads back as no aspect at all |
| Repositories.ActiveTokenOf | back-end/src/main/java/com/review/reviewservice/model/repository/WebhookTokenRepository.java:9 | the query finds an active token of the user, or there is none |
| Repositories.ActiveTokenNamed | back-end/src/main/java/com/review/reviewservice/model/repository/WebhookTokenRepository.java:10 | the query finds an active token with that value, or there is none |
| Repositories.ActiveTokenIsOnly | back-end/src/main/java/com/review/reviewservice/model/repository/WebhookTokenRepository.java:9 | with at most one active token per user, the query finds that one token |
| Repositories.DeactivateActiveSpec | back-end/src/main/java/com/review/reviewservice/controller/UserController.java:137-142 | deactivation leaves the user with no active token, changes only the active flag of the user's one active token, and keeps the table well formed |
| Repositories.IssueAfterDeactivate | back-end/src/main/java/com/review/reviewservice/controller/UserController.java:137-150 | a fresh active token appended after deactivation keeps the table well formed and is the user's only active token |
| UserApi.Authenticate | back-end/src/main/java/com/review/reviewservice/controller/UserController.java:123-134 | the checks come in order: no principal is UNAUTHORIZED, then a missing username is BAD_REQUEST, then an unknown user is NOT_FOUND; success names a stored user |
| UserApi.GetUserInfo | back-end/src/main/java/com/review/reviewservice/controller/UserController.java:50-87 | no principal gives UNAUTHORIZED, no username BAD_REQUEST, an unknown username NOT_FOUND; on success the display name falls back to the username, the avatar is `links.avatar.href` when that is text, and the e-mail, AI model and roles are the stored user's; the team names are those of the teams the user belongs to |
| UserApi.FindAiModel | back-end/src/main/java/com/review/reviewservice/model/repository/AiModelRepository.java:11 | a catalogue row matching both names ignoring case, or none matches |
| UserApi.SetAiPreference | back-end/src/main/java/com/review/reviewservice/controller/UserController.java:96-116 | a missing username is BAD_REQUEST and an unknown user NOT_FOUND; without a case-insensitive catalogue match the answer is BAD_REQUEST and nothing changes; otherwise only that user's model changes |
| UserApi.EnableWebhookToken | back-end/src/main/java/com/review/reviewservice/controller/UserController.java:119-160 | after the checks, the user's active token is deactivated and then a new active token expiring one day later is appended; Valid, and so at most one active token per user, is kept |
| UserApi.DisableWebhookToken | back-end/src/main/java/com/review/reviewservice/controller/UserController.java:163-194 | after the checks, the user's active token, if any, is deactivated, nothing is created, and the answer is NO_CONTENT |
| UserApi.GetWebhookToken | back-end/src/main/java/com/review/reviewservice/controller/UserController.java:197-223 | after the checks, OK with an active token of the user exactly when one exists, otherwise NOT_FOUND |
| UserApi.EnableThenGet | back-end/src/main/java/com/review/reviewservice/controller/UserController.java:137-216 | getting the token after enabling returns the token just issued |
| UserApi.DisableThenGet | back-end/src/main/java/com/review/reviewservice/controller/UserController.java:180-216 | getting the token after disabling answers NOT_FOUND |
| UserApi.GetReviewAspects | back-end/src/main/java/com/review/reviewservice/controller/UserController.java:225-245 | an unknown user is NOT_FOUND; a stored list that reads empty gives the ten default aspects in order; the answer is never an empty list |
| UserApi.DefaultAspectsWellFormed | back-end/src/main/java/com/review/reviewservice/controller/UserController.java:229-243 | the ten defaults are non-empty, trimmed and comma-free |
| UserApi.UpdateReviewAspects | back-end/src/main/java/com/review/reviewservice/controller/UserController.java:251-266 | an unknown user is NOT_FOUND; a null or empty list leaves the stored aspects unchanged; any other list replaces them; the answer is NO_CONTENT |
| UserApi.UpdateThenGet | back-end/src/main/java/com/review/reviewservice/controller/UserController.java:225-266 | after an update with well-formed aspects, reading returns exactly those aspects |
| UserApi.BlankUpdateReadsDefaults | back-end/src/main/java/com/review/reviewservice/controller/UserController.java:225-266 | a list of blank entries is stored, and the next read returns the defaults |
| Logout.LogoutUser | back-end/src/main/java/com/review/reviewservice/config/TokenLogoutHandler.java:29-38 | a user is named exactly when the authentication is an OAuth2 principal with a username attribute |
| Logout.Logout | back-end/src/main/java/com/review/reviewservice/config/TokenLogoutHandler.java:28-54 | without an OAuth2 principal or username nothing changes; otherwise the named user's active token, if any, is deactivated and nothing else changes; it never fails |
| Logout.LogoutLeavesNoActiveToken | back-end/src/main/java/com/review/reviewservice/config/TokenLogoutHandler.java:43-48 | after logout the user has no active token, and other users' tokens are untouched |
| Teams.FindById | back-end/src/main/java/com/review/reviewservice/service/TeamService.java:179-183 | the stored team, or "Team not found: <id>" exactly when there is none |
| Teams.IsTeamAdmin | back-end/src/main/java/com/review/reviewservice/service/TeamService.java:158-162 | for a known team, true exactly when the user created it |
| Teams.IsTeamMember | back-end/src/main/java/com/review/reviewservice/service/TeamService.java:164-169 | for a known team, true exactly when the user is a member |
| Teams.AdminIsMember | back-end/src/main/java/com/review/reviewservice/service/TeamService.java:158-169 | in a well-formed store the team admin is always a member |
| Teams.RemoveTeamAdminRole | back-end/src/main/java/com/review/reviewservice/service/TeamService.java:204-206 | ROLE_TEAM_ADMIN is gone, every other role and every other field is unchanged |
| Teams.RevokeAdminUnlessOwner | back-end/src/main/java/com/review/reviewservice/service/TeamService.java:216-220 | only that user changes, only in roles; ROLE_TEAM_ADMIN stays exactly when the user had it and created a team other than the excluded one |
| Teams.RevokeKeepsUsersKeyed | back-end/src/main/java/com/review/reviewservice/service/TeamService.java:204-206 | revoking keeps every user stored under its own name |
| Teams.CreateTeam | back-end/src/main/java/com/review/reviewservice/service/TeamService.java:32-57 | a taken name fails without change (the password is not compared); then an unknown creator fails; otherwise the new team has the creator as owner and only member and the given password, and the creator gains ROLE_TEAM_ADMIN |
| Teams.JoinTeam | back-end/src/main/java/com/review/reviewservice/service/TeamService.java:59-75 | the user is checked, then the team, then the password, then membership; each failure changes nothing; success adds exactly that user |
| Teams.LeaveTeam | back-end/src/main/java/com/review/reviewservice/service/TeamService.java:77-115 | a non-member fails; a non-creator is removed; a creator leaving an emptied team deletes it; otherwise ownership passes to some remaining member; the creator loses ROLE_TEAM_ADMIN unless they created another team |
| Teams.DeleteTeam | back-end/src/main/java/com/review/reviewservice/service/TeamService.java:118-141 | an unknown team, unknown user or non-creator fails without change; otherwise the team is deleted and the creator loses ROLE_TEAM_ADMIN unless they created another team |
| ReviewWire.SelectProvider | back-end/src/main/java/com/review/reviewservice/service/CodeReviewService.java:353-368 | null fails with "AI name must not be null"; success exactly for chatgpt, grok, copilot or gemini ignoring case; otherwise "Unknown AI: <name>"; Gemini exactly when the name equals "gemini" ignoring case |
| ReviewWire.DialectsAgree | back-end/src/main/java/com/review/reviewservice/service/CodeReviewService.java:95-127 | both body shapes carry the system text first and then the same turns in the same order; only the first entry's role differs |
| ReviewWire.ReviewTurnsAppend | back-end/src/main/java/com/review/reviewservice/service/CodeReviewService.java:212-222 | the file entries of two lists are those of the first followed by those of the second |
| ReviewWire.ReviewTurnsEmpty | back-end/src/main/java/com/review/reviewservice/service/CodeReviewService.java:212-216 | there is no file entry exactly when every file lacks a path or a content |
| ReviewWire.ReviewTurnsOfCompleteFiles | back-end/src/main/java/com/review/reviewservice/service/CodeReviewService.java:212-222 | complete files give one "File: <path>\n```java\n<content>\n```" user entry each, in input order |
| ReviewWire.ChatTurnsAppend | back-end/src/main/java/com/review/reviewservice/service/CodeReviewService.java:146-158 | the history entries of two lists are those of the first followed by those of the second |
| ReviewWire.ChatTurnsKeepWellFormed | back-end/src/main/java/com/review/reviewservice/service/CodeReviewService.java:146-158 | a history whose messages all have a role and a content is carried over entry by entry |
| ReviewWire.AppendFileContents | back-end/src/main/java/com/review/reviewservice/service/CodeReviewService.java:336-349 | the loop appends one user entry "File: <path>" with the fenced content per file that has both a path and a content, in input order, and skips the others |
| ReviewWire.AppendFileMessages | back-end/src/main/java/com/review/reviewservice/service/CodeReviewService.java:212-222 | the default-dialect loop appends one user message per file that has both a path and a content, in input order, and skips the others |
| ReviewWire.BuildGeminiContents | back-end/src/main/java/com/review/reviewservice/service/CodeReviewService.java:326-351 | the loop builds the prompt entry followed by one entry per complete file |
| ReviewWire.BuildReviewRequest | back-end/src/main/java/com/review/reviewservice/service/CodeReviewService.java:187-225 | the review request in the provider's dialect: Gemini with the key in the URL and 4096 output tokens, the others with a bearer key, the model and max_tokens 4096 |
| ReviewWire.AddHistoryForGemini | back-end/src/main/java/com/review/reviewservice/service/CodeReviewService.java:129-144 | appends one contents entry per history message with a role and a content, skipping the others |
| ReviewWire.AddHistory | back-end/src/main/java/com/review/reviewservice/service/CodeReviewService.java:146-158 | appends one message per history message with a role and a content, skipping the others |
| ReviewWire.BuildChatRequest | back-end/src/main/java/com/review/reviewservice/service/CodeReviewService.java:73-116 | the chat request in the provider's dialect, with 2048 tokens |
| ReviewPrompt.AppendHeadings | back-end/src/main/java/com/review/reviewservice/service/CodeReviewService.java:253-259 | the loop appends to what the builder holds exactly the headings "#### i. <aspect i>\n", numbered from 1 in list order |
| ReviewPrompt.BuildSystemPrompt | back-end/src/main/java/com/review/reviewservice/service/CodeReviewService.java:241-285 | the StringBuilder loop builds exactly `SystemPrompt(aspects)` |
| ReviewPrompt.HeadingsAppend | back-end/src/main/java/com/review/reviewservice/service/CodeReviewService.java:253-259 | the headings of two lists are those of the first followed by those of the second, numbered on |
| ReviewPrompt.PromptFrame | back-end/src/main/java/com/review/reviewservice/service/CodeReviewService.java:241-285 | a prompt starts with its preamble, has "#### n+1. Rate" with the integer directive right after the aspect headings, and ends with its closing instructions; `SystemPrompt` is this prompt with the fixed preamble and the inline-comment instructions |
| ReviewPrompt.HeadingPlaced | back-end/src/main/java/com/review/reviewservice/service/CodeReviewService.java:253-259 | "#### i. <aspect i>" stands at its offset (preamble length plus the earlier headings) in the prompt, directly followed by heading i+1 |
| ReviewPrompt.HeadingsInOrder | back-end/src/main/java/com/review/reviewservice/service/CodeReviewService.java:253-259 | the aspect headings appear in the given order, without overlap |
| ReviewReply.ReplyText | back-end/src/main/java/com/review/reviewservice/service/CodeReviewService.java:293-295 | the text is read exactly when `choices` is a non-empty array (Gemini: `candidates` is, and so is its first element's `content.parts`), and is then `asText` of `choices[0].message.content` (Gemini: `candidates[0].content.parts[0].text`); the only failure is a null dereference |
| ReviewReply.ReadComment | back-end/src/main/java/com/review/reviewservice/service/CodeReviewService.java:307-311 | an item is read exactly when it is an object with path, lineNumber and comment, taking path and comment as `asText` and lineNumber as `asInt` |
| ReviewReply.ReadComments | back-end/src/main/java/com/review/reviewservice/service/CodeReviewService.java:306-312 | success exactly when every item is a comment object, giving one comment per item in order; otherwise the first bad item's error |
| ReviewReply.CollectComments | back-end/src/main/java/com/review/reviewservice/service/CodeReviewService.java:306-312 | the loop gives exactly `ReadComments(items)` |
| ReviewReply.InlineComments | back-end/src/main/java/com/review/reviewservice/service/CodeReviewService.java:303-312 | the block is read exactly when it decodes to an array whose every element is a comment object, giving `ReadComments` of the elements; a decoding error gives its message, a JSON null a null dereference, any other document the wrong-shape error |
| ReviewReply.Interpret | back-end/src/main/java/com/review/reviewservice/service/CodeReviewService.java:297-315 | it fails on a missing first section exactly when the split gives no section; otherwise the feedback is the trimmed first section and the outcome is that of the inline part; without a second section or a fence there are no comments |
| ReviewReply.InlinePart | back-end/src/main/java/com/review/reviewservice/service/CodeReviewService.java:301-314 | without a second section, or when it is not fenced, there are no comments; a fenced second section gives the comments of its unfenced, trimmed block |
| ReviewReply.ParsedResponse | back-end/src/main/java/com/review/reviewservice/service/CodeReviewService.java:287-321 | an envelope failure becomes "Error parsing AI response: " and its message with comments unset; after the envelope the comments are unset exactly when the review text fails to parse, and otherwise are its feedback and comments |
| ReviewReply.ParseResponse | back-end/src/main/java/com/review/reviewservice/service/CodeReviewService.java:287-321 | the method gives exactly `ParsedResponse` |
| ReviewReply.ReadInlinePart | back-end/src/main/java/com/review/reviewservice/service/CodeReviewService.java:301-314 | the method gives exactly `InlinePart(sections)` |
| ReviewReply.ReadCommentsAllGood | back-end/src/main/java/com/review/reviewservice/service/CodeReviewService.java:306-312 | when every item is a comment object, the result is the items read one by one |
| ReviewReply.ReadCommentsFirstBad | back-end/src/main/java/com/review/reviewservice/service/CodeReviewService.java:306-312 | the first bad item's error is the result |
| ReviewReply.ExtractContent | back-end/src/main/java/com/review/reviewservice/service/CodeReviewService.java:373-397 | "Empty response from <ai>" exactly for a null reply; an undecodable reply, a `choices`/`candidates` that is not a non-empty array, or Gemini `parts` that are not, give "Failed to parse response from <ai>"; otherwise a missing text node gives "No content returned" and a present one its `asText` |
| ReviewReply.NarrativeEnd | back-end/src/main/java/com/review/reviewservice/service/CodeReviewService.java:297-298 | the narrative ends within the content |
| ReviewReply.FeedbackPrecedesMarker | back-end/src/main/java/com/review/reviewservice/service/CodeReviewService.java:297-299 | the general feedback is the trimmed text before the first "### Inline Comments" |
| ReviewReply.NoMarkerNoComments | back-end/src/main/java/com/review/reviewservice/service/CodeReviewService.java:297-315 | a reply without the marker gives the whole trimmed text as feedback and no comments |
| ReviewReply.MarkerAloneFails | back-end/src/main/java/com/review/reviewservice/service/CodeReviewService.java:297-320 | a reply that is only the marker splits into no section, and the result is the parse error with comments unset |
| ReviewReply.MalformedBlockLosesNarrative | back-end/src/main/java/com/review/reviewservice/service/CodeReviewService.java:303-320 | a fenced block that fails to decode replaces the narrative with the parse error and leaves comments unset |
| ReviewReply.FencedBlockGivesComments | back-end/src/main/java/com/review/reviewservice/service/CodeReviewService.java:297-314 | a fenced block that decodes to an array gives comments exactly when every element is a comment object, and then one comment per element in order, with the text before the marker as feedback |
| ReviewReply.EnvelopeReadersAgree | back-end/src/main/java/com/review/reviewservice/service/CodeReviewService.java:373-397 | where both readers find a text node, `extractContent` returns the text `parseResponse` splits |
| JsonTree.ParseAsIntOfPrinted | back-end/src/main/java/com/review/reviewservice/service/CodeReviewService.java:309 | `asInt()` of a text node holding a printed `int` gives that `int` back |
| JsonTree.PlusSignIgnored | back-end/src/main/java/com/review/reviewservice/service/CodeReviewService.java:309 | a leading '+' does not change the number `asInt()` reads |
| JsonTree.FractionDropped | back-end/src/main/java/com/review/reviewservice/service/CodeReviewService.java:309 | a text "w.f" reads as the whole part `w` |
| JsonTree.NegativeFractionDropped | back-end/src/main/java/com/review/reviewservice/service/CodeReviewService.java:309 | a text "-w.f" reads as minus the whole part: the fraction is cut toward zero |
| JsonTree.TooLargeDigits | back-end/src/main/java/com/review/reviewservice/service/CodeReviewService.java:309 | digits beyond `int` read as 0, while the same digits with a fraction saturate at `Integer.MAX_VALUE` |
| JsonTree.MinusDigit | back-end/src/main/java/com/review/reviewservice/service/CodeReviewService.java:309 | a digit after a minus sign reads negated, so "-3" is -3 |
| JsonTree.PlusDigit | back-end/src/main/java/com/review/reviewservice/service/CodeReviewService.java:309 | a digit after a plus sign reads as itself, so "+7" is 7 |
| CodeReview.ReviewFiles | back-end/src/main/java/com/review/reviewservice/service/CodeReviewService.java:170-235 | missing files, then missing aspects, give their error with empty comments and no call; a bad provider gives "Error during <ai> review: <message>"; otherwise the review request is sent, and the reply is parsed or the transport error reported |
| CodeReview.Chat | back-end/src/main/java/com/review/reviewservice/service/CodeReviewService.java:57-93 | empty history gives "Error: No chat history provided"; a bad provider or an unreadable reply gives "Error during <ai> chat: <message>"; a transport error is passed on as a failure; otherwise the extracted text |
| CodeReview.SendChat | back-end/src/main/java/com/review/reviewservice/service/CodeReviewService.java:66-84 | the chat request carries the prompt naming the assistant and the user, followed by the well-formed history entries |
| CodeReview.ReadChatReply | back-end/src/main/java/com/review/reviewservice/service/CodeReviewService.java:87-92 | a transport exception escapes, a readable reply gives its text, an unreadable one gives "Error during <ai> chat: <message>" |
| EmailFetcher.FirstPrimaryConfirmed | back-end/src/main/java/com/review/reviewservice/service/EmailFetcherService.java:45-51 | the index of the first entry that is primary and confirmed (missing flags are false), or no entry is |
| EmailFetcher.PrimaryEmail | back-end/src/main/java/com/review/reviewservice/service/EmailFetcherService.java:45-50 | the e-mail of the first primary and confirmed entry, possibly null, or none when there is no such entry |
| EmailFetcher.EmailList | back-end/src/main/java/com/review/reviewservice/service/EmailFetcherService.java:42-43 | a list exactly when the body has a "values" array |
| EmailFetcher.FetchPrimaryEmail | back-end/src/main/java/com/review/reviewservice/service/EmailFetcherService.java:29-61 | null without values or with an empty list; the first primary and confirmed entry's e-mail, even when null; otherwise the first entry's e-mail |
| OAuthUsers.BuildOAuth2User | back-end/src/main/java/com/review/reviewservice/service/CustomOAuth2UserService.java:75-80 | the authorities are exactly the user's role names, the attributes pass through, and the name key is "username" |
| OAuthUsers.SelectSignupEmail | back-end/src/main/java/com/review/reviewservice/service/CustomOAuth2UserService.java:101-114 | the loop with its break gives `SignupEmail(body)`: the first primary and confirmed entry's e-mail, falling back to the first entry's when none exists or it is null |
| OAuthUsers.SignupAndFetcherDiffer | back-end/src/main/java/com/review/reviewservice/service/CustomOAuth2UserService.java:104-114 | sign-up and the fetcher choose differently exactly when the first primary and confirmed entry has no e-mail and the first entry has one; then the fetcher gives null |
| OAuthUsers.CreateNewUser | back-end/src/main/java/com/review/reviewservice/service/CustomOAuth2UserService.java:83-139 | a missing ROLE_USER fails before any save; otherwise a new enabled user with only ROLE_USER and the selected e-mail is stored, and the principal carries its roles |
| OAuthUsers.LoadUser | back-end/src/main/java/com/review/reviewservice/service/CustomOAuth2UserService.java:46-73 | a missing username fails; sign-up fails for an existing user and otherwise creates it; log-in fails for an unknown user and otherwise builds the principal from the stored user; failures change nothing |
| LegacyOAuthUsers.LoadUser | src/main/java/com/review/reviewservice/service/CustomOAuth2UserService.java:44-119 | a missing username fails; a missing ROLE_USER fails even for existing users; an existing user's e-mail is overwritten by the selected one (possibly null) with roles untouched; an unknown user is created enabled with only ROLE_USER; the authorities are the stored user's roles |

## Left out

- HTTP transport to the AI providers and to Bitbucket is not modelled. The reply body, or the transport's exception message, is an input to `CodeReview.ReviewFiles` and `CodeReview.Chat`, and the request they would send is returned.
- `CodeReview.Chat` lets a transport exception escape as a `Failure`, because the source catches only `CodeReviewServiceException`.
- Jackson is not modelled. Decoding is the parameter `decode`, and serialisation is the `ReviewWire.Body` datatype. Key order inside JSON objects is not modelled.
- The texts of JVM and Jackson exceptions (`e.getMessage()`) are fixed placeholder strings in `ReviewReply.FaultMessage`. The two exceptions are a null argument to `readValue`, and an empty split, which gives "Index 0 out of bounds for length 0".
- The generation temperatures 0.7 and 0.9 are the opaque constants `ReviewTemperature` and `ChatTemperature`, because they are floating point.
- WebSocket progress messages, diff fetching and comment posting in `receiveWebhook` are not modelled.
- `WebhookIntake.ReceiveWebhook` stops at the review plan (user, AI, model, aspects). The source passes `reviewFiles`' `ReviewResult` into a `String` variable (WebhookController.java:94), which does not type-check as written. The rating is therefore modelled over the plain review text (`Webhook.Rate`).
- The security context is not modelled: `reAuthenticate` in TeamService, `SecurityUtil`, and the security configuration. The username in the chat prompt is a parameter of `CodeReview.Chat`.
- `UUID.randomUUID()` and `LocalDateTime.now()` are parameters. Timestamps are seconds, and `plusDays(1)` is 86400.
- `Teams.LeaveTeam`: the new owner is "some remaining member" (chosen with `:|`), because the source takes the first element of a `HashSet`, whose order is unspecified. The new owner does not gain ROLE_TEAM_ADMIN, and neither does the source.
- `Teams.DeleteTeam`: members' `teams` collections are not a separate field. A user's teams are derived from team membership, so deleting the team removes it from every member.
- The TeamService read-only queries `getTeamMembers`, `isTeamAdminForUser`, `getTeamsForUser`, `getAllTeams` and `getTeamsCreatedBy` are not modelled. They are repository pass-through outside the membership state machine.
- Database column constraints (`nullable = false` on `bitbucketUuid` and `reviewAspects`, `unique` on e-mail) are not enforced. Users created by OAuth sign-up store no uuid and no aspects, as the code does. A save that such constraints would reject is not modelled as a failure.
- JsonTree.ParseAsInt: of the texts `Double.parseDouble` accepts, only plain decimals are modelled; an exponent ("1e2"), a type suffix ("12d"), `Infinity`, a hexadecimal float, or white space after a leading '+' reads as 0, where Jackson reads a number. A fraction with more digits than a double holds is cut exactly, where the double may round up to the next integer. The `lineNumber` of `ReviewReply.ReadComment` inherits this.
- Java's locale-dependent `toLowerCase`, `trim` and regex classes are modelled over ASCII. Word characters are `[A-Za-z0-9_]`, and `trim` strips characters up to U+0020.
- Users are identified by username, not by whole-entity `equals`. Roles are identified by name.
- `WebhookIntake.ReceiveWebhook`: when several users share an author uuid, which the unique column rules out, the model picks any of them.
- Attributes that are present but not strings, and a `links.avatar.href` that is not a string, are treated as absent, where the source's cast to `String` would throw.
- A JSON `null` reply document or comment block is taken to come back from `readValue` as a Java null, so it reads as a null dereference.
- ChatGPTService, GrokService, the controllers and services that only delegate to repositories, the statistics service (floating point), and the front-end are not part of this model.
