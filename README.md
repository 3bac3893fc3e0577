# AI code review platform — a verified model

The platform lets developers edit code together and ask an AI reviewer about it. It has four
parts, each modelled here by the modules that follow its source files:

- **Collaboration service.** The live session registry behind the socket events is
  `SocketHandler.Server`, a class. Its maps are connection → user, session → live state, and
  connection → current session. Each event handler is one method that returns the messages it
  emits, and each message carries its scope: the sender, the room without the sender, or the
  whole room. The REST session routes are `SessionRoutes`, and the stored `Session` documents
  are `SessionModel`.
- **AI service.** `StaticAnalysis` covers the line and token heuristics: line count,
  complexity, duplicate lines, long lines, TODO markers, console calls and security patterns.
  `AiService` parses the model's reply into a review, with a manual parser and a fallback.
  `AnalysisRoutes` and `ReviewRoutes` hold the route decisions: risk level, severity,
  validation, cache keys built from a Base64 prefix, and the capped batch. `AiErrors` is the
  error classifier.
- **API gateway.** `ProjectModel` is the project and file schema, including the pre-save
  timestamp. `ProjectRoutes` holds the owner gates and collaborator de-duplication.
  `UserRoutes` holds the admin gates, the profile update and preference merge, and the avatar
  file name. `GatewayErrors` is the error classifier.
- **Web front end.** The comment panel, collaborator list, review panel, sessions page, code
  editor, socket context, registration form and profile page are each one module. Pure
  derivations are functions. Components whose handlers update state are classes whose methods
  are specified against those functions.

Shared modules:

- `Wrappers`: Option.
- `Text`: JavaScript string operations.
- `Json`: JavaScript values, truthiness and object spread.
- `OrderedMap`: a JavaScript `Map` with insertion order.
- `Pagination`: paging arithmetic.
- `Ranking`: the order and the skip/limit window of a sorted, paged query.
- `Http`: replies.
- `Cache`: the Redis cache as a map from key to a value stamped with its store time and time to
  live; a read at a later time misses once the time to live has passed.
- `Avatar`: the colour hash and initial.
- `Roster`: the online-user list.

The durable stores (MongoDB collections) are classes holding a map from id to document. Token
verification, the Redis session lookup, uuid generation, the clock, `JSON.parse`, the Gemini
reply and the ESLint run are not computed. They enter as parameters: values, or functions
where the code calls them on data.

## Model

| member | source | states |
|---|---|---|
| SessionModel.MissingPaths | collaboration-service/src/models/Session.js:4-15 | the validation failure lists exactly the required paths that are missing or empty: `name` iff the name is, `owner` iff the owner is; none iff both are present |
| SessionModel.Build | collaboration-service/src/models/Session.js:3-60 | a draft fails iff name or owner is missing, with those paths; otherwise every given field is kept and description/code default to '', language to 'javascript', isPublic to false, createdAt and updatedAt to the clock |
| SessionModel.Defaults | collaboration-service/src/models/Session.js:8-59 | a draft with only name and owner gets every documented default |
| SessionModel.SessionStore.constructor | collaboration-service/src/models/Session.js:68 | the collection starts empty |
| SessionModel.SessionStore.FindById | collaboration-service/src/routes/sessions.js:89 | finds a document iff its id is stored, and returns that document |
| SessionModel.SessionStore.Save | collaboration-service/src/routes/sessions.js:76 | the document is stored under its id and nothing else changes |
| SessionModel.SessionStore.Delete | collaboration-service/src/routes/sessions.js:164 | exactly that id is removed |
| OrderedMap.Keys | collaboration-service/src/socket/socketHandler.js:70 | the keys of an insertion-ordered map, position by position |
| OrderedMap.Values | collaboration-service/src/socket/socketHandler.js:86 | `Array.from(map.values())`: the values in insertion order |
| OrderedMap.Put | collaboration-service/src/socket/socketHandler.js:79 | `Map.set`: an existing key keeps its place, a new key goes last, other entries are untouched, the pair is present |
| OrderedMap.PutFacts | collaboration-service/src/socket/socketHandler.js:79 | after `set` the key is present, the size grows by one iff the key was new, and keys stay distinct |
| OrderedMap.PutTwice | collaboration-service/src/socket/socketHandler.js:79 | setting the same pair twice equals setting it once |
| OrderedMap.Remove | collaboration-service/src/socket/socketHandler.js:234 | `Map.delete`: an entry survives iff it was present under another key; the map never grows |
| OrderedMap.RemoveKeys | collaboration-service/src/socket/socketHandler.js:234 | a key is present after `delete` iff it was present and is not the deleted one |
| OrderedMap.RemoveSize | collaboration-service/src/socket/socketHandler.js:234-244 | the size drops by one iff the key was present |
| OrderedMap.RemoveDistinct | collaboration-service/src/socket/socketHandler.js:234 | keys distinct before `delete` stay distinct after it |
| OrderedMap.RemoveCons | collaboration-service/src/socket/socketHandler.js:234 | `delete` on a map that starts with an entry keeps that entry in front unless it has the key |
| OrderedMap.RemoveAppend | collaboration-service/src/socket/socketHandler.js:234 | `delete` on a concatenation deletes from each part and keeps the parts in order |
| OrderedMap.RemoveAbsent | collaboration-service/src/socket/socketHandler.js:234 | deleting an absent key changes nothing |
| OrderedMap.RemoveKeepsOrder | collaboration-service/src/socket/socketHandler.js:234-244 | deleting a key that appears once leaves the entries before it followed by those after it, in insertion order, so the `participants` list keeps its order |
| SocketHandler.Authenticate | collaboration-service/src/socket/socketHandler.js:12-37 | 'No token provided' iff the token is missing or empty; 'Authentication failed' iff a token is present and verification throws; 'Invalid session' iff the cache has nothing truthy under `user:<id>`; 'Invalid session data' iff the cached text does not parse; admitted iff the token verifies and the cache holds a user object or text that parses, and the admitted user is that object or the parse |
| SocketHandler.Seed | collaboration-service/src/socket/socketHandler.js:68-76 | a new live session has no participants or cursors, the stored code, and the stored language or 'javascript' |
| SocketHandler.JoinRefusals | collaboration-service/src/socket/socketHandler.js:52-62 | an unknown session gives 'Session not found' and an outsider 'Access denied', both to the sender only and with the live table unchanged; the table changes only for an admitted user |
| SocketHandler.JoinAdmits | collaboration-service/src/socket/socketHandler.js:64-93 | an admitted user is registered in the live session, the sender receives `sessionJoined` listing every participant including itself, then the others receive `userJoined` with the new count |
| SocketHandler.JoinKeepsLiveCode | collaboration-service/src/socket/socketHandler.js:68-79 | joining a session already live keeps its code, language, cursors and activity time; joining a new one seeds it from the store with the joiner alone |
| SocketHandler.RejoinKeepsSize | collaboration-service/src/socket/socketHandler.js:79 | a connection that joins again does not add a second participant |
| SocketHandler.JoinTouchesOnlyItsSession | collaboration-service/src/socket/socketHandler.js:68-79 | a join adds at most its own session to the live table and leaves every other live session as it was |
| SocketHandler.JoinIgnoresVisibility | collaboration-service/src/socket/socketHandler.js:59 | the socket join's outcome does not depend on the session being public |
| SocketHandler.CodeChangeLastWriteWins | collaboration-service/src/socket/socketHandler.js:106-115 | a change to a session not live changes nothing; two changes in a row leave the second code and time and nothing else changed |
| SocketHandler.CursorOnePerConnection | collaboration-service/src/socket/socketHandler.js:135-152 | no live session: no effect and no message; otherwise exactly this connection's cursor is set to (user, position, now) and everything else is kept |
| SocketHandler.BuildComment | collaboration-service/src/socket/socketHandler.js:158-165 | the broadcast comment carries the server's author and time, the payload's line and text, and the payload's id when it sends one, else the fresh id |
| SocketHandler.LeaveRemoves | collaboration-service/src/socket/socketHandler.js:231-247 | leaving notifies the others with the remaining count, removes the connection and its cursor, drops the session iff nobody remains, and touches no other session |
| SocketHandler.SecondJoinLeavesStaleEntry | collaboration-service/src/socket/socketHandler.js:231-235 | a connection that joins a second session and disconnects is still listed in the first session |
| SocketHandler.EnterKeepsSessionsWellFormed | collaboration-service/src/socket/socketHandler.js:68-79 | after a join every live session still has at least one participant and distinct connection ids |
| SocketHandler.EnterKeepsCurrent | collaboration-service/src/socket/socketHandler.js:65-79 | every connection's current session stays live and lists that connection |
| SocketHandler.JoinKeepsRegistry | collaboration-service/src/socket/socketHandler.js:50-100 | a join keeps the registry invariant (current sessions are live and list their connection; live sessions are non-empty with distinct ids) |
| SocketHandler.LeaveKeepsRegistry | collaboration-service/src/socket/socketHandler.js:224-249 | a disconnect keeps the registry invariant |
| SocketHandler.AnnouncedKept | collaboration-service/src/socket/socketHandler.js:188-204 | reviews announced before stay announced as the log grows |
| SocketHandler.Server.constructor | collaboration-service/src/socket/socketHandler.js:7-8 | both tables and the pending reviews start empty |
| SocketHandler.Server.Handshake | collaboration-service/src/socket/socketHandler.js:12-47 | the result is `Authenticate`'s and only an admitted connection is registered, with its socket id and time |
| SocketHandler.Server.JoinSession | collaboration-service/src/socket/socketHandler.js:50-100 | the live table and the messages are the join step's for the looked-up session; 'Failed to join session' when the read fails; the current session is set only on admission; the registry invariant holds |
| SocketHandler.Server.CodeChange | collaboration-service/src/socket/socketHandler.js:103-132 | the live table and messages follow the code-change step: 'Session not found' when not live, else the code is set and the others receive it with the author |
| SocketHandler.Server.CursorPosition | collaboration-service/src/socket/socketHandler.js:135-152 | the live table and messages follow the cursor step |
| SocketHandler.Server.AddComment | collaboration-service/src/socket/socketHandler.js:155-180 | on a failed write only the sender gets 'Failed to add comment'; otherwise the whole room receives the comment and a stored session gets it appended (an unknown id stores nothing) |
| SocketHandler.Server.RequestAIReview | collaboration-service/src/socket/socketHandler.js:183-191 | the room is told `reviewStarted` by the requester and a review is queued for later completion |
| SocketHandler.Server.CompleteReview | collaboration-service/src/socket/socketHandler.js:194-204 | the oldest queued review completes with a fresh id and the fixed result to its room, and it was announced before |
| SocketHandler.Server.Typing | collaboration-service/src/socket/socketHandler.js:214-221 | the others in the room receive the typist's id, user and flag |
| SocketHandler.Server.Disconnect | collaboration-service/src/socket/socketHandler.js:224-249 | the connection leaves the user table, its current session follows the leave step, and the registry invariant holds |
| Pagination.OrDefault | collaboration-service/src/routes/sessions.js:14-15 | `parseInt(x) || d`: a parsed non-zero number is kept, a missing or zero one becomes the default |
| Pagination.CeilDiv | collaboration-service/src/routes/sessions.js:39 | `Math.ceil(n / d)` characterised by its bounds for either sign of `d` |
| Pagination.Request | collaboration-service/src/routes/sessions.js:14-16 | page defaults to 1, limit to 10, neither is zero, and skip is `(page - 1) * limit` |
| Pagination.TotalPages | collaboration-service/src/routes/sessions.js:39 | for a positive limit, the least page count that holds every result |
| Pagination.LastPageNonEmpty | collaboration-service/src/routes/sessions.js:39 | the last page holds between one and `limit` results |
| Pagination.DefaultWindow | collaboration-service/src/routes/sessions.js:14-16 | no parameters give page 1, limit 10, skip 0 |
| Pagination.BeforeLastIffMore | api-gateway/src/routes/users.js:147-149 | with positive page and limit, `page < Math.ceil(total / limit)` iff results lie past the page |
| Pagination.PositiveRequest | collaboration-service/src/routes/sessions.js:13-15 | positive page and limit are taken as sent, and their skip is not negative |
| Ranking.HasTop | collaboration-service/src/routes/sessions.js:25 | a non-empty set has an element with the largest key |
| Ranking.Rank | collaboration-service/src/routes/sessions.js:25 | `sort({ field: -1 })` has an order: every id once, keys never increasing |
| Ranking.Window | collaboration-service/src/routes/sessions.js:23-24 | `skip(n).limit(m)` takes the entries from position n on, at most m of them |
| Ranking.PageHolds | collaboration-service/src/routes/sessions.js:15-24 | with a positive limit, each entry of the order lies on exactly the page its position gives |
| Ranking.WindowRanked | collaboration-service/src/routes/sessions.js:23-25 | a window of an order has at most `limit` entries, all matching, no repeats, keys never increasing |
| Ranking.Page | collaboration-service/src/routes/sessions.js:17-25 | some order of the matching documents gives this page |
| Ranking.PageFacts | collaboration-service/src/routes/sessions.js:17-25 | the documents of a page are stored under distinct matching ids, at most `limit` of them, keys never increasing |
| SessionRoutes.JoinList | collaboration-service/src/routes/sessions.js:188-189 | the user is listed after a join iff already listed or not the owner; the old list is kept as a prefix and at most one entry, the user, is appended at the end |
| SessionRoutes.JoinListFacts | collaboration-service/src/routes/sessions.js:188-189 | the owner is never added, duplicates are never created, and joining twice equals joining once |
| SessionRoutes.LeaveList | collaboration-service/src/routes/sessions.js:210-212 | the user is gone and exactly the other ids remain |
| SessionRoutes.LeaveListOrder | collaboration-service/src/routes/sessions.js:210-212 | the filter works piecewise, keeps a list without the user as it is, and keeps every other id's count |
| SessionRoutes.List | collaboration-service/src/routes/sessions.js:12-45 | 500 iff the skip `(page - 1) * limit` is negative; otherwise 200 with a page that is the skip/limit window of some order of the user's sessions by descending updatedAt, the count of all of them, the requested page and `Math.ceil(total / limit)` |
| SessionRoutes.ListedSessionsFacts | collaboration-service/src/routes/sessions.js:17-25 | a listed page has at most `limit` sessions (the absolute value of a negative limit), each owned or joined by the user, most recently updated first |
| SessionRoutes.Get | collaboration-service/src/routes/sessions.js:87-109 | 404 iff unknown, 403 iff known but neither owned, joined nor public, else 200 with the session |
| SessionRoutes.NewSession | collaboration-service/src/routes/sessions.js:62-74 | the trimmed name, the requester as owner, '' / 'javascript' / false / the starter code for falsy fields, empty lists, and the clock for both times |
| SessionRoutes.CreateDefaults | collaboration-service/src/routes/sessions.js:66-70 | a body with only a name gets every route fallback |
| SessionRoutes.Create | collaboration-service/src/routes/sessions.js:50-84 | 400 iff the trimmed name is empty; else 500 iff the requester id is empty (the required owner); nothing stored on either; otherwise 201 with the new session, stored under a fresh id |
| SessionRoutes.Apply | collaboration-service/src/routes/sessions.js:134-141 | every sent field replaces the stored one, including comments, reviews, participants and createdAt (a name trimmed); unsent fields are kept; updatedAt is the clock whatever was sent |
| SessionRoutes.Update | collaboration-service/src/routes/sessions.js:112-149 | 400 iff a sent name trims to empty, then 404 iff unknown, then 403 iff not the owner, then 500 iff the patch empties the required owner; 200 stores the applied patch; nothing else changes the store |
| SessionRoutes.Delete | collaboration-service/src/routes/sessions.js:152-171 | 404 iff unknown, 403 iff not the owner, 200 iff the owner, and only then is the session removed |
| SessionRoutes.Invite | collaboration-service/src/routes/sessions.js:224-259 | 400 iff the address is invalid, then 404, then 403 for a non-owner; 200 names the address and the session and changes nothing |
| SessionRoutes.Join | collaboration-service/src/routes/sessions.js:174-199 | 404 iff unknown, 403 iff private and neither owned nor joined; 200 stores the join list and returns the session with it |
| SessionRoutes.Leave | collaboration-service/src/routes/sessions.js:202-221 | 404 iff unknown, otherwise 200 with the user filtered out of the stored participants |
| StaticAnalysis.SkipSpace | ai-service/src/services/staticAnalysis.js:130-132 | the `\s*` in the security patterns: the first non-space position at or after `k`, with only spaces skipped |
| StaticAnalysis.Report | ai-service/src/services/staticAnalysis.js:88-147 | a line check's issue names the 1-based line and has no column |
| StaticAnalysis.Pass | ai-service/src/services/staticAnalysis.js:88-146 | one `lines.forEach` pass: every issue names a line (1..n) on which the check hits, in increasing line order |
| StaticAnalysis.PassReports | ai-service/src/services/staticAnalysis.js:88-147 | every issue of a pass is the check's own report for the line it names |
| StaticAnalysis.PassComplete | ai-service/src/services/staticAnalysis.js:88-147 | every line on which the check hits is reported |
| StaticAnalysis.AllPassesKinds | ai-service/src/services/staticAnalysis.js:114-126 | without the console.log check no issue has the kind `best_practice` |
| StaticAnalysis.AllPassesInRange | ai-service/src/services/staticAnalysis.js:83-150 | every issue names a line of the code |
| StaticAnalysis.GeneralIssueFacts | ai-service/src/services/staticAnalysis.js:83-150 | general issues name lines of the code, and only JavaScript and TypeScript get `best_practice` issues |
| StaticAnalysis.RunCheck | ai-service/src/services/staticAnalysis.js:88-98 | the loop over the lines yields exactly the check's pass over all of them |
| StaticAnalysis.AnalyzeGeneral | ai-service/src/services/staticAnalysis.js:83-150 | long lines, markers, console.log (scripts only), then the three security patterns one by one, each pass in line order |
| StaticAnalysis.Words | ai-service/src/services/staticAnalysis.js:159 | the pieces between single whitespace characters: one more piece than there are whitespace characters, none holding white space. `split(/\s+/)` merges whitespace runs, so this list has extra empty pieces where the code has consecutive whitespace; no keyword is empty, so `CalculateComplexity` counts the same keywords |
| StaticAnalysis.KeywordCount | ai-service/src/services/staticAnalysis.js:161-165 | never more keywords than words |
| StaticAnalysis.KeywordCountByKeyword | ai-service/src/services/staticAnalysis.js:154-165 | the count is the sum of the nine keywords' occurrences among the words |
| StaticAnalysis.CalculateComplexity | ai-service/src/services/staticAnalysis.js:152-168 | 1 plus the number of keyword words, hence between 1 and 1 + the word count |
| StaticAnalysis.Trims | ai-service/src/services/staticAnalysis.js:176 | each line trimmed, position by position |
| StaticAnalysis.DuplicateSetStep | ai-service/src/services/staticAnalysis.js:177-181 | a line longer than ten characters becomes a duplicate exactly at its second occurrence |
| StaticAnalysis.TallyStep | ai-service/src/services/staticAnalysis.js:177-178 | the table keeps counting the occurrences of every long trimmed line |
| StaticAnalysis.CountRepeated | ai-service/src/services/staticAnalysis.js:175-185 | the counting loop returns the number of distinct trimmed lines longer than ten characters that occur at least twice |
| StaticAnalysis.FindDuplicateLines | ai-service/src/services/staticAnalysis.js:170-186 | the number of distinct trimmed lines longer than ten characters that occur at least twice |
| StaticAnalysis.DuplicatesAsWritten | ai-service/src/services/staticAnalysis.js:170-186 | the plain-object table as written, whose inherited property names never reach the count 2; never more duplicates than lines |
| StaticAnalysis.InheritedNameUndercounted | ai-service/src/services/staticAnalysis.js:172-180 | two lines `constructor` are one duplicate but the plain-object table counts none |
| StaticAnalysis.Suggestion | ai-service/src/services/staticAnalysis.js:188-199 | each of the six known rules gets its own advice text; the default advice iff the rule is missing or not one of them |
| StaticAnalysis.FromLint | ai-service/src/services/staticAnalysis.js:65-72 | severity 2 is 'error' and anything else 'warning'; the kind is the rule or 'eslint'; line, column and suggestion carried over |
| StaticAnalysis.Analyze | ai-service/src/services/staticAnalysis.js:23-56 | linesOfCode is the number of newline-separated lines; a failure gives no issues and zero complexity and duplicates; otherwise lint issues (scripts only) then the general issues, with the complexity and duplicate counts; the duplicate count is the corrected one of the finding below |
| AiService.Normalize | ai-service/src/services/aiService.js:74-80 | a numeric `overall_score` is kept, anything else becomes 7; a string summary is kept, else ''; each of `issues`, `recommendations` and `compliments` is kept when it is an array and becomes [] otherwise |
| AiService.NormalizeRoundTrip | ai-service/src/services/aiService.js:74-80 | a normalised review read back is unchanged, and normalising twice equals normalising once |
| AiService.BraceSpan | ai-service/src/services/aiService.js:70-71 | `/\{[\s\S]*\}/`: a match exists iff some '{' comes before some '}'; the match starts with '{', ends with '}', and sits in the reply with no '{' before it and no '}' after it (from the first '{' to the last '}') |
| AiService.NoPairOutsideSpan | ai-service/src/services/aiService.js:70-71 | when the first '{' is not before the last '}', no '{' is before any '}' |
| AiService.Fallback | ai-service/src/services/aiService.js:126-140 | score 7, one issue whose suggestion is the first 200 characters plus '...' for a string and 'No details available' otherwise, the single recommendation 'Manual review recommended', no compliments |
| AiService.Classify | ai-service/src/services/aiService.js:96-100 | a line is an issues header, else a recommendations header, else a bullet, in that order of precedence |
| AiService.ReadLines | ai-service/src/services/aiService.js:95-114 | the reader gathers at most one text per line read |
| AiService.Kinds | ai-service/src/services/aiService.js:90-100 | one classification per newline-separated line, in order |
| AiService.BulletsBeforeHeaderDropped | ai-service/src/services/aiService.js:93-113 | bullets before any header are dropped: the reader stays in no section with nothing gathered |
| AiService.IssueSectionCollects | ai-service/src/services/aiService.js:100-109 | inside the issues section every bullet's text is appended to the issues, in order, until the next header |
| AiService.HeaderBeforeBullet | ai-service/src/services/aiService.js:96-97 | a line naming the issues header switches the section even when it is also a bullet |
| AiService.AsStrings | ai-service/src/services/aiService.js:111 | recommendation texts become JSON strings, position by position |
| AiService.ManualReview | ai-service/src/services/aiService.js:103-123 | score 7, summary 'AI review completed', no compliments; per gathered issue text, in order, a general warning with a null line, that text as message and 'Please review this issue' as suggestion; per gathered recommendation text, that text |
| AiService.ReadKinds | ai-service/src/services/aiService.js:93-114 | the loop with a mutable current section ends in the reader's state after every classified line |
| AiService.ParseManualResponse | ai-service/src/services/aiService.js:89-124 | the reply's lines, classified and read in order, yield the manual review of the reader's final state |
| AiService.ParseReviewResponse | ai-service/src/services/aiService.js:68-87 | no brace span: the manual reading; a span that does not parse: the fallback for the reply; otherwise the normalised parse |
| AiService.PromptCarriesCode | ai-service/src/services/aiService.js:25-31 | the review prompt holds the code in a fence tagged with the language |
| AiService.PromptNamesFile | ai-service/src/services/aiService.js:27 | the review prompt names the file in double quotes |
| AiService.ReviewCode | ai-service/src/services/aiService.js:11-23 | a reply is parsed; a failed call gives the fallback carrying 'Error: ' and the message, or 'Unknown error' |
| AiService.ReviewPrompt | ai-service/src/services/aiService.js:11-13 | the review prompt contains the fenced code and the quoted file name, which is 'untitled' when none is given |
| AiService.ExplainCode | ai-service/src/services/aiService.js:142-152 | success iff the model replied, with its text; a failure is 'Failed to explain code' |
| AiService.ExplainPromptCarriesCode | ai-service/src/services/aiService.js:144 | the explanation prompt holds the fenced code |
| Base64.Block | ai-service/src/routes/review.js:25 | three bytes encode to four characters |
| Base64.Final | ai-service/src/routes/review.js:25 | a padded tail of one or two bytes encodes to four characters, none to nothing |
| Base64.EncodeLength | ai-service/src/routes/review.js:25 | the encoding of `n` bytes has `4 * ceil(n / 3)` characters |
| Base64.EncodeAppend | ai-service/src/routes/review.js:25 | encoding a whole number of 3-byte groups followed by more bytes concatenates the encodings |
| Base64.Prefix32 | ai-service/src/routes/review.js:25 | the first 32 characters of the encoding are the encoding of the first 24 bytes |
| Base64.EncodeChars | ai-service/src/routes/review.js:25 | an encoding holds only alphabet digits and '=' |
| Base64.Utf8Char | ai-service/src/routes/review.js:25 | `Buffer.from(string)`: one to four UTF-8 bytes per character |
| Base64.Utf8 | ai-service/src/routes/review.js:25 | at least one byte per character |
| Base64.Utf8Append | ai-service/src/routes/review.js:25 | the UTF-8 encoding of a concatenation is the concatenation of the encodings |
| Cache.Hit | ai-service/src/routes/review.js:28-29 | a lookup at a given time hits iff the key is stored, has not outlived its time to live, and holds a truthy value; a hit returns that value |
| Cache.Key | ai-service/src/routes/review.js:25 | the key is the prefix followed by the first `min(32, 4 * ceil(n / 3))` characters of the Base64 encoding of the code's `n` UTF-8 bytes, all of them Base64 digits or '=' |
| Cache.KeySeesOnly24Bytes | ai-service/src/routes/review.js:25 | two codes whose UTF-8 encodings agree on the first 24 bytes get the same key |
| Cache.KeySharedPrefix | ai-service/src/routes/analysis.js:23 | two codes sharing their first 24 characters get the same key |
| Cache.Put | ai-service/src/services/cacheService.js:33-35 | `setEx(key, ttl, …)` at time `now`: the key hits with the value (when truthy) before `now + ttl` seconds and misses from then on; every other key reads as before at every time |
| AnalysisRoutes.RiskOf | ai-service/src/routes/analysis.js:158-161 | critical above 3 high findings, high for 2 or 3, medium for 1, low for none |
| AnalysisRoutes.RiskMonotone | ai-service/src/routes/analysis.js:158-161 | more high findings never lower the risk |
| AnalysisRoutes.CountHigh | ai-service/src/routes/analysis.js:153-154 | never more high findings than items |
| AnalysisRoutes.CountHighAppend | ai-service/src/routes/analysis.js:153-154 | appending an item adds one iff its field is 'high' |
| AnalysisRoutes.HighIn | ai-service/src/routes/analysis.js:153-154 | a missing list counts 0 (`?.length \|\| 0`) |
| AnalysisRoutes.CalculateRiskLevel | ai-service/src/routes/analysis.js:152-162 | the risk of the high vulnerabilities plus the high risks; nothing reported is low |
| AnalysisRoutes.AddedVulnerabilityNeverLowers | ai-service/src/routes/analysis.js:152-162 | reporting one more vulnerability never lowers the level |
| AnalysisRoutes.Validate | ai-service/src/routes/analysis.js:11-19 | no error iff code and language are non-empty; a missing code is reported first as 'Code is required' |
| AnalysisRoutes.Complexity | ai-service/src/routes/analysis.js:11-39 | 400 with the validation errors; a live truthy cached value under `complexity:` + key is returned; otherwise 500 'Failed to analyze complexity' |
| AnalysisRoutes.ComplexityKeyedByPrefix | ai-service/src/routes/analysis.js:23-28 | codes sharing 24 leading characters get the same answer |
| AnalysisRoutes.Unavailable | ai-service/src/routes/analysis.js:42-150 | 400 iff validation fails, else 500 with the route's message |
| AnalysisRoutes.Explain | ai-service/src/routes/analysis.js:100-123 | 400 on validation; the explanation with the time on success; 500 'Failed to explain code' on failure |
| ReviewRoutes.OverallSeverity | ai-service/src/routes/review.js:107-112 | 'error' iff any issue is an error, else 'warning' iff any is a warning, else 'info' |
| ReviewRoutes.ErrorDominates | ai-service/src/routes/review.js:107-112 | once 'error', more issues keep it 'error' |
| ReviewRoutes.Validate | ai-service/src/routes/review.js:11-20 | no error iff code and language are non-empty |
| ReviewRoutes.Unwrap | ai-service/src/routes/review.js:31-36 | a truthy `aiReview` field is returned, else the cached value itself |
| ReviewRoutes.UnwrapWrapper | ai-service/src/routes/review.js:31-34 | a wrapper around a review unwraps to that review |
| ReviewRoutes.ReviewOne | ai-service/src/routes/review.js:11-56 | 400 with the errors and the cache untouched; a live hit returns the unwrapped cached value; a miss returns the review and stores it under `review:` + key, stamped with the request time, for 3600 seconds |
| ReviewRoutes.StoredReviewUnwraps | ai-service/src/routes/review.js:28-37 | a cached review is truthy and has no `aiReview` member, so a hit answers with the review itself |
| ReviewRoutes.SecondRequestServedFromCache | ai-service/src/routes/review.js:28-50 | a second identical request within the hour returns the first answer whatever the model says |
| ReviewRoutes.ExpiredReviewAsksAgain | ai-service/src/routes/review.js:28-50 | once the hour has passed the cached review has expired, and the same request answers what the model says then |
| ReviewRoutes.ProcessFile | ai-service/src/routes/review.js:75-95 | 'Failed to process file' with the file name iff reviewing crashed or ranking the issues throws on a null AI issue reached before any error issue; otherwise processed with the name, language, both analyses, the total of both issue counts and the overall severity of both |
| ReviewRoutes.LeadingNullIssueFailsFile | ai-service/src/routes/review.js:107-111 | a null first AI issue with no static error fails the file |
| ReviewRoutes.ErrorBeforeNullIssue | ai-service/src/routes/review.js:107-111 | an AI error issue first ends the scan before any null issue: the file is processed with severity 'error' |
| ReviewRoutes.ValidateBatch | ai-service/src/routes/review.js:59-68 | a missing array gives 'Files must be an array'; otherwise no error iff every file has code and language |
| ReviewRoutes.MissingCode | ai-service/src/routes/review.js:61 | no error iff every file has non-empty code |
| ReviewRoutes.MissingLanguage | ai-service/src/routes/review.js:62 | no error iff every file has a non-empty language |
| ReviewRoutes.ProcessAll | ai-service/src/routes/review.js:73-97 | one result per file of the first ten, in order |
| ReviewRoutes.Batch | ai-service/src/routes/review.js:59-105 | 400 with the errors, else 200 with the results |
| ReviewRoutes.BatchIgnoresTail | ai-service/src/routes/review.js:74 | files after the tenth do not change the results |
| GatewayErrors.Classified | api-gateway/src/middleware/errorHandler.js:28-56 | a truthy status overrides with the error's own message; else token expired / invalid token 401, cast error 400, anything else 500 'Internal Server Error' |
| GatewayErrors.Handle | api-gateway/src/middleware/errorHandler.js:3-67 | validation errors give 400 with the field messages; duplicate keys 400 with '<first key> already exists'; otherwise the classified status and message, 'Something went wrong' for a 500 in production, the stack only in development |
| AiErrors.StatusOf | ai-service/src/middleware/errorHandler.js:13-38 | timeout 408 wins, then validation 400, then rate limit 429, then the upstream status, else 500 |
| AiErrors.MessageOf | ai-service/src/middleware/errorHandler.js:13-38 | the message of the check that wins, with the upstream `data.error.message` or 'AI service error' |
| AiErrors.Handle | ai-service/src/middleware/errorHandler.js:3-53 | the chain's status and message, 'AI processing failed' for a 500 in production, the time always, stack and upstream data only in development |
| ProjectModel.ParseTheme | api-gateway/src/models/Project.js:72-76 | the theme enumeration accepts exactly 'light' and 'dark' |
| ProjectModel.Invalid | api-gateway/src/models/Project.js:26-77 | a draft is valid iff its trimmed name is non-empty, its owner is set and any theme is in the enumeration; 'name' is listed iff the trimmed name is empty |
| ProjectModel.Build | api-gateway/src/models/Project.js:26-86 | a draft fails iff invalid, with the failing paths; otherwise the name is stored trimmed and description '', language 'javascript', isPublic false, autoReview false, theme 'dark' and both times default as declared |
| ProjectModel.ProjectDefaults | api-gateway/src/models/Project.js:32-85 | a draft with only name and owner gets every declared default |
| ProjectModel.BuildFile | api-gateway/src/models/Project.js:3-24 | a file entry fails iff it has no name; content defaults to '', language to 'javascript', lastModified to the clock |
| ProjectModel.ProjectStore.constructor | api-gateway/src/models/Project.js:98 | the collection starts empty |
| ProjectModel.ProjectStore.Save | api-gateway/src/models/Project.js:88-91 | the pre-save hook: the stored project's updatedAt is the clock, and only that id changes |
| ProjectModel.ProjectStore.Replace | api-gateway/src/routes/projects.js:137-141 | `findByIdAndUpdate` stores the given document without the save hook |
| ProjectModel.ProjectStore.Delete | api-gateway/src/routes/projects.js:164 | exactly that id is removed |
| ProjectRoutes.List | api-gateway/src/routes/projects.js:9-46 | 500 iff the skip is negative; otherwise 200 with a page that is the skip/limit window of some order of the projects the user owns or collaborates on by descending updatedAt, their count, the requested page and the page count for that total |
| ProjectRoutes.ListedProjectsFacts | api-gateway/src/routes/projects.js:15-25 | a listed page has at most `limit` projects, each owned by or shared with the user, most recently updated first |
| ProjectRoutes.Get | api-gateway/src/routes/projects.js:85-109 | 404 iff unknown, 403 iff neither owned, shared nor public, else 200 with the project |
| ProjectRoutes.CreateDraft | api-gateway/src/routes/projects.js:61-71 | the requester is owner, no files or collaborators, language falls back to 'javascript' and isPublic to false |
| ProjectRoutes.Create | api-gateway/src/routes/projects.js:49-82 | 400 iff the trimmed name is empty; else 500 iff the requester id is empty (the required owner); nothing stored on either; otherwise 201 with the built project (owner, no collaborators or files, autoReview off, description trimmed or '') stored under a fresh id |
| ProjectRoutes.Apply | api-gateway/src/routes/projects.js:134-141 | every sent field replaces the stored one, including collaborators, files, settings and createdAt (name and description trimmed); unsent fields are kept; updatedAt is the clock; a non-empty owner stays non-empty |
| ProjectRoutes.Update | api-gateway/src/routes/projects.js:112-149 | 400 iff a sent name trims to empty, then 404, then 403 for a non-owner, then 500 iff the validators refuse the patch (empty owner, a file without a name, a theme outside light/dark); 200 stores the applied patch; nothing else changes the store |
| ProjectRoutes.Delete | api-gateway/src/routes/projects.js:152-171 | 404 iff unknown, 403 iff not the owner, 200 iff the owner, and only then is the project removed |
| ProjectRoutes.AddCollaborator | api-gateway/src/routes/projects.js:199-204 | refused iff already a collaborator; otherwise appended, listed exactly once |
| ProjectRoutes.AddCollaboratorFacts | api-gateway/src/routes/projects.js:199-204 | adding keeps the list free of duplicates and a second add is refused |
| ProjectRoutes.AddCollaboratorRoute | api-gateway/src/routes/projects.js:174-214 | an invalid address gives exactly the 400 validation reply; then 404 unknown project, 403 non-owner, 404 'User not found', 400 'User is already a collaborator'; 200 iff all pass, appending the user and stamping updatedAt; nothing stored otherwise |
| UserRoutes.UserStore.constructor | api-gateway/src/routes/users.js:3 | the collection starts empty |
| UserRoutes.UserStore.Replace | api-gateway/src/routes/users.js:57-61 | the user is stored under its id and nothing else changes |
| UserRoutes.UserStore.Delete | api-gateway/src/routes/users.js:166 | exactly that id is removed |
| UserRoutes.Extname | api-gateway/src/routes/users.js:17 | `path.extname`: a suffix of the name that is empty or one '.' followed by no other '.'; empty iff the name is '..' or has no '.' after its first character |
| UserRoutes.AvatarFileName | api-gateway/src/routes/users.js:16-19 | the stored file name is the user id, '-', the upload time in decimal and the original extension |
| UserRoutes.AvatarNamesDistinctInTime | api-gateway/src/routes/users.js:16-19 | one user's uploads at different times get different file names, whatever the original names |
| UserRoutes.GetProfile | api-gateway/src/routes/users.js:24-35 | 404 iff the user is unknown, else 200 with the user |
| UserRoutes.ApplyUpdate | api-gateway/src/routes/users.js:57-61 | each field present in the update replaces the stored one; the role is kept |
| UserRoutes.FormPreferences | api-gateway/src/routes/users.js:45-49 | a string is parsed when it parses and kept as it is otherwise; any other value is kept |
| UserRoutes.FormUpdate | api-gateway/src/routes/users.js:40-55 | only truthy name and email are sent; preferences iff truthy, and then exactly the sent (parsed) preferences, since the cached requester carries none; the avatar path iff a file was uploaded; the clock |
| UserRoutes.FormUpdateDropsStoredPreference | api-gateway/src/routes/users.js:50 | a form that sends only a theme loses the stored `notifications` preference |
| UserRoutes.MergedFormPreferences | api-gateway/src/routes/users.js:50 | the form's preferences spread over the stored ones: both key sets, sent values win, every other stored value is kept |
| UserRoutes.MergedFormKeepsStoredPreference | api-gateway/src/routes/users.js:50 | with the merge, a form that sends only a theme keeps the stored `notifications` preference and sets the theme |
| UserRoutes.UpdateProfileForm | api-gateway/src/routes/users.js:38-73 | 404 iff the user is unknown, with nothing stored; else the update is applied and returned with the avatar URL |
| UserRoutes.PreferenceErrors | api-gateway/src/routes/users.js:79-80 | no error iff a sent theme is 'light' or 'dark' and sent notifications are boolean-like |
| UserRoutes.UpdateProfile | api-gateway/src/routes/users.js:76-120 | 400 iff the preferences are invalid, then 404 iff unknown; 200 merges truthy preferences over the stored ones and stamps updatedAt; nothing stored otherwise |
| UserRoutes.PreferenceMergeKeeps | api-gateway/src/routes/users.js:102-104 | a stored preference the request does not mention survives the merge |
| UserRoutes.ListUsers | api-gateway/src/routes/users.js:125-157 | 403 iff not an admin; else 500 iff the skip is negative; otherwise 200 with a page that is the skip/limit window of some order of all users by descending createdAt, the size of the collection, the page count, hasNext iff the page is before the last and hasPrev iff past the first |
| UserRoutes.ListedUsersFacts | api-gateway/src/routes/users.js:135-139 | a listed page has at most `limit` users, newest first |
| UserRoutes.HasNextIffMoreUsers | api-gateway/src/routes/users.js:149 | with positive page and limit the listing succeeds, and hasNext iff users remain after this page |
| UserRoutes.DeleteUser | api-gateway/src/routes/users.js:160-177 | 403 iff not an admin, 404 iff unknown, 200 iff removed |
| Avatar.CodeSumAppend | frontend/src/components/CommentPanel.js:252 | the character-code sum of a concatenation is the sum of the parts' sums |
| Avatar.UserColor | frontend/src/components/CommentPanel.js:247-254 | the colour is one of the eight palette entries, chosen by the id's code-unit sum modulo 8 |
| Avatar.UserColorOrderFree | frontend/src/components/CollaboratorsList.js:136-143 | the colour depends only on which characters the id holds, not on their order |
| Avatar.UserColorCollision | frontend/src/components/CollaboratorsList.js:141-142 | appending a character whose code is a multiple of 8 keeps the colour, so distinct ids can share one |
| Avatar.AddEights | frontend/src/components/CollaboratorsList.js:142 | adding a multiple of 8 keeps the palette index |
| Avatar.Initial | frontend/src/components/CommentPanel.js:280 | one character: 'U' for a missing or empty name, else the upper-cased first character |
| Roster.WithoutId | frontend/src/pages/CodeEditor.js:156-159 | `filter(c => c.id !== id)`: a member survives iff it was listed and has another id; never longer |
| Roster.WithoutIdAppend | frontend/src/contexts/SocketContext.js:62-64 | filtering distributes over concatenation |
| Roster.WithoutIdCounts | frontend/src/contexts/SocketContext.js:62-64 | every entry with the id disappears and every other entry keeps its multiplicity |
| Roster.JoinThenLeave | frontend/src/contexts/SocketContext.js:58-64 | a `userJoined` followed by that user's `userLeft` leaves the list as filtering alone would, with no entry of that id |
| CommentPanel.Insert | frontend/src/components/CommentPanel.js:256-258 | inserting a comment adds exactly that comment to the multiset |
| CommentPanel.InsertSorted | frontend/src/components/CommentPanel.js:256-258 | inserting into a newest-first list keeps it newest-first |
| CommentPanel.SortNewestFirst | frontend/src/components/CommentPanel.js:256-258 | the comments are ordered newest first and are a permutation of the input |
| CommentPanel.InsertAt | frontend/src/components/CommentPanel.js:256-258 | among comments with one timestamp, insertion puts the new one ahead of the earlier ones |
| CommentPanel.SortKeepsTies | frontend/src/components/CommentPanel.js:256-258 | the sort is stable: comments with equal timestamps keep their given order |
| CommentPanel.LineReference | frontend/src/components/CommentPanel.js:289-293 | nothing for a missing line, a bare '0' for line 0, otherwise 'Line n' with the first 50 characters of that code line and '...' iff it is longer; an out-of-range line shows no text |
| CommentPanel.RowOf | frontend/src/components/CommentPanel.js:276-303 | each comment shows its author's colour and initial, its line reference and text, and edit/delete actions iff the signed-in user wrote it |
| CommentPanel.Render | frontend/src/components/CommentPanel.js:256-303 | the count is the number of comments and the rows are the comments newest first, each drawn by RowOf |
| CommentPanel.LineOptions | frontend/src/components/CommentPanel.js:229 | the line selector offers 1 .. the number of '\n'-separated lines, in order |
| CommentPanel.CommentForm.constructor | frontend/src/components/CommentPanel.js:223-225 | empty text, line 1, not submitting |
| CommentPanel.CommentForm.Edit | frontend/src/components/CommentPanel.js:223 | only the text changes |
| CommentPanel.CommentForm.SelectLine | frontend/src/components/CommentPanel.js:224 | only the selected line changes |
| CommentPanel.CommentForm.Submit | frontend/src/components/CommentPanel.js:231-245 | blank text sends nothing; otherwise the line and the trimmed text are sent, success resets text and line, and the form is never left submitting |
| CommentPanel.CommentForm.Cancel | frontend/src/components/CommentPanel.js:348-351 | the text is cleared and the line reset to 1 |
| CollaboratorsList.ActivityStatus | frontend/src/components/CollaboratorsList.js:145-152 | typing iff typing, reviewing iff not typing but reviewing, active iff neither and the last activity is under 60 seconds old, idle otherwise |
| CollaboratorsList.RowOf | frontend/src/components/CollaboratorsList.js:178-226 | colour, initial, name or 'Unknown User', online unless explicitly false, crown and 'Session Owner' iff the role is owner, '(You)' iff it is the signed-in user, and the activity status |
| CollaboratorsList.Render | frontend/src/components/CollaboratorsList.js:154-226 | a missing list counts 0 with no rows; otherwise the count is the list's length and each row is that collaborator drawn by RowOf |
| ReviewPanel.Show | frontend/src/components/ReviewPanel.js:147-204 | the spinner iff loading, the empty state iff the review is falsy, a render failure iff the review lacks the fields the panel reads, otherwise the normalised review |
| ReviewPanel.ServiceReviewShown | frontend/src/components/ReviewPanel.js:200-204 | any review the AI service produces is shown exactly as produced |
| ReviewPanel.ScoreColor | frontend/src/components/ReviewPanel.js:53-57 | green iff the score is at least 8, amber iff between 6 and 8, red iff below 6 |
| ReviewPanel.ToneOf | frontend/src/components/ReviewPanel.js:70-76 | the error tone iff severity is 'error', the warning tone iff 'warning', the info tone otherwise |
| ReviewPanel.Label | frontend/src/components/ReviewPanel.js:239 | 'general' for a falsy type; a string type with its first '_' replaced by a space, same length; a render failure for any other truthy type |
| ReviewPanel.IssueRowOf | frontend/src/components/ReviewPanel.js:235-247 | tone and caption as above, a line badge iff the line is present and not null, the message or '', a suggestion iff truthy |
| SessionsPage.Keep | frontend/src/pages/Sessions.js:521-524 | a session is kept iff it is listed and its lower-cased name or description contains the lower-cased term |
| SessionsPage.Filtered | frontend/src/pages/Sessions.js:521-524 | no data gives the empty list, otherwise the kept sessions |
| SessionsPage.KeepIsSubsequence | frontend/src/pages/Sessions.js:521-524 | the kept sessions keep the listed order |
| SessionsPage.SkipHead | frontend/src/pages/Sessions.js:521-524 | a subsequence of the tail is a subsequence of the list |
| SessionsPage.SubsequenceTail | frontend/src/pages/Sessions.js:521-524 | dropping the first kept entry leaves a subsequence |
| SessionsPage.EmptyTermKeepsAll | frontend/src/pages/Sessions.js:521-524 | an empty search term keeps every session in order |
| SessionsPage.Page.constructor | frontend/src/pages/Sessions.js:435-444 | both dialogs closed, an empty id and the blank create form |
| SessionsPage.Page.JoinById | frontend/src/pages/Sessions.js:486-502 | a blank id sends nothing; otherwise the trimmed id is sent and a successful join closes the dialog, clears the id and opens the editor on it |
| SessionsPage.Page.JoinListed | frontend/src/pages/Sessions.js:475-484 | a successful join opens the editor on the listed id; nothing else changes |
| SessionsPage.Page.CreateSucceeded | frontend/src/pages/Sessions.js:457-463 | the dialog closes, the form is blank and the editor opens on the new session |
| CodeEditor.DownloadName | frontend/src/pages/CodeEditor.js:250-258 | the file is named 'code.' followed by 'js' for javascript and the language otherwise |
| CodeEditor.LineCount | frontend/src/pages/CodeEditor.js:352 | the status bar counts one more line than the code has '\n' characters |
| CodeEditor.LocalComment | frontend/src/pages/CodeEditor.js:267-273 | an offline comment carries the line, text, author and time, with the time's digits as its id |
| CodeEditor.Editor.constructor | frontend/src/pages/CodeEditor.js:106-113 | the welcome code, javascript, no collaborators or comments, no review, the review tab and no session |
| CodeEditor.Editor.OpenFromQuery | frontend/src/pages/CodeEditor.js:125-133 | a non-empty `session` parameter becomes the session id and is joined over the socket iff a connected socket exists |
| CodeEditor.Editor.OnSessionJoined | frontend/src/pages/CodeEditor.js:137-142 | code, language and collaborators are replaced by the server's; nothing else changes |
| CodeEditor.Editor.OnCodeChange | frontend/src/pages/CodeEditor.js:144-149 | only the code changes, to the broadcast code |
| CodeEditor.Editor.OnUserJoined | frontend/src/pages/CodeEditor.js:151-154 | the user is appended to the collaborators, with no duplicate check |
| CodeEditor.Editor.OnUserLeft | frontend/src/pages/CodeEditor.js:156-159 | every collaborator with that id is removed |
| CodeEditor.Editor.OnCommentAdded | frontend/src/pages/CodeEditor.js:161-164 | the comment is appended |
| CodeEditor.Editor.OnReviewStarted | frontend/src/pages/CodeEditor.js:166-169 | the reviewing flag is set |
| CodeEditor.Editor.OnReviewCompleted | frontend/src/pages/CodeEditor.js:171-176 | the flag is cleared, the result shown and the review tab selected |
| CodeEditor.Editor.ChangeLanguage | frontend/src/pages/CodeEditor.js:116-119 | the language changes and the code becomes the draft saved for it, if any |
| CodeEditor.Editor.RunReview | frontend/src/pages/CodeEditor.js:218-244 | blank code does nothing; in a live session the review request is emitted; otherwise a returned review is shown on the review tab; the flag ends cleared |
| CodeEditor.Editor.AddComment | frontend/src/pages/CodeEditor.js:260-276 | in a live session the comment is emitted and the list unchanged; otherwise the local comment is appended |
| SocketContext.Connection.constructor | frontend/src/contexts/SocketContext.js:17-19 | no socket, not connected, nobody online |
| SocketContext.Connection.Start | frontend/src/contexts/SocketContext.js:22-72 | a socket is open iff there is a non-empty token and a signed-in user; closing a connected socket fires `disconnect`, so the flag is down afterwards whenever it was consistent |
| SocketContext.Connection.OnConnect | frontend/src/contexts/SocketContext.js:31-35 | the connected flag is set, which keeps it consistent with the open socket |
| SocketContext.Connection.OnDisconnect | frontend/src/contexts/SocketContext.js:37-47 | `disconnect` and `connect_error` clear the connected flag |
| SocketContext.Connection.OnOnlineUsers | frontend/src/contexts/SocketContext.js:54-56 | the list is replaced by the server's |
| SocketContext.Connection.OnUserJoined | frontend/src/contexts/SocketContext.js:58-60 | the user is appended; its multiplicity grows by one |
| SocketContext.Connection.OnUserLeft | frontend/src/contexts/SocketContext.js:62-64 | no entry with that id remains, and the rest are kept |
| RegisterForm.SplitIsForced | frontend/src/pages/Register.js:218-224 | any split matching the e-mail pattern has its '@' first and its '.' last |
| RegisterForm.IsEmail | frontend/src/pages/Register.js:218-224 | the test accepts exactly the language of the e-mail pattern |
| RegisterForm.AcceptedExample | frontend/src/pages/Register.js:218-224 | an address with '+' and dots in its local part and a dotted domain is accepted |
| RegisterForm.UpperCaseAccepted | frontend/src/pages/Register.js:218-224 | the pattern's `i` flag: an all upper-case address is accepted |
| RegisterForm.ShortTldRejected | frontend/src/pages/Register.js:218-224 | a one-letter top-level domain is refused |
| RegisterForm.DoubleAtRejected | frontend/src/pages/Register.js:218-224 | a second '@' is refused |
| RegisterForm.NameError | frontend/src/pages/Register.js:200-206 | 'Name is required' for an empty name, the length message under 2 characters, none iff at least 2 |
| RegisterForm.EmailError | frontend/src/pages/Register.js:218-224 | 'Email is required' for an empty address, 'Invalid email address' iff it misses the pattern |
| RegisterForm.PasswordError | frontend/src/pages/Register.js:237-243 | 'Password is required' for an empty password, the length message under 6, none iff at least 6 |
| RegisterForm.ConfirmError | frontend/src/pages/Register.js:263-266 | 'Please confirm your password' when empty, 'Passwords do not match' iff it differs |
| RegisterForm.Submit | frontend/src/pages/Register.js:173-178 | blocked iff some field rule fails; the home page opens iff every rule passes and registration succeeds |
| ProfilePage.ProfileErrors | frontend/src/pages/Profile.js:403-426 | no message iff the name has at least 2 characters and the e-mail matches the pattern |
| ProfilePage.PreferenceDefaults | frontend/src/pages/Profile.js:262-267 | a truthy stored theme is kept, else 'light'; stored notifications are kept unless missing or null, then true |
| ProfilePage.MergedPreferences | frontend/src/pages/Profile.js:336-340 | the merge holds every stored key and every sent key, sent values win, and no stored preference is lost |
| ProfilePage.AvatarFace | frontend/src/pages/Profile.js:370-378 | the picture iff there is a preview, else the name's initial |
| ProfilePage.Profile.constructor | frontend/src/pages/Profile.js:240 | the preview starts at the stored avatar or empty |
| ProfilePage.Profile.ChooseAvatar | frontend/src/pages/Profile.js:270-276 | a chosen file's object URL becomes the preview |
| ProfilePage.Profile.SubmitProfile | frontend/src/pages/Profile.js:279-308 | sent iff the field rules pass; success stores the returned user, or the typed name and e-mail with the new avatar address; a failure keeps the user; never left loading |
| ProfilePage.Profile.SubmitPreferences | frontend/src/pages/Profile.js:311-348 | success stores the form's values merged over the stored preferences; failure keeps the user |
| ProfilePage.SavedPreferencesReload | frontend/src/pages/Profile.js:262-267 | saved preferences come back as the form's next starting values, except that an empty theme becomes 'light' |
| Text.Split | frontend/src/components/CommentPanel.js:229 | `split('\n')` always yields at least one piece |
| Text.SplitCount | frontend/src/components/CommentPanel.js:229 | there is one more piece than there are separators |
| Text.SplitPiecesFree | frontend/src/components/CommentPanel.js:229 | no piece contains the separator |
| Text.JoinSplit | frontend/src/components/CommentPanel.js:229 | joining the pieces with the separator gives back the text |
| Text.Lines | frontend/src/pages/CodeEditor.js:352 | the lines of a text are at least one |
| Text.TrimStart | frontend/src/pages/Sessions.js:488 | the result is a suffix, the dropped prefix is all white space, and it starts with non-space |
| Text.TrimEnd | frontend/src/pages/Sessions.js:488 | the result is a prefix, the dropped suffix is all white space, and it ends with non-space |
| Text.LeadingSpace | frontend/src/pages/Sessions.js:488 | the leading characters `trim` drops are white space |
| Text.Trim | frontend/src/pages/Sessions.js:488-498 | `trim()`: an infix with only white space cut from both ends and white space at neither end |
| Text.TrimEmptyIffAllSpace | frontend/src/pages/CodeEditor.js:219 | `!s.trim()` holds iff every character is white space |
| Text.TrimIdempotent | frontend/src/pages/Sessions.js:494-498 | trimming twice equals trimming once |
| Text.TrimmedNotBlank | frontend/src/components/CommentPanel.js:233-237 | text that is not all white space trims to a non-empty text that trimming leaves alone |
| Text.ContainsInfix | frontend/src/pages/Sessions.js:521-524 | any text is contained in any text that surrounds it |
| Text.Take | frontend/src/components/CommentPanel.js:291 | `substring(0, n)` is the prefix of length n, or the whole text when shorter |
| Text.Lower | frontend/src/pages/Sessions.js:522-523 | `toLowerCase()` keeps the length and lower-cases each character |
| Text.LowerAppend | frontend/src/pages/Sessions.js:522-523 | lower-casing distributes over concatenation |
| Text.ReplaceFirst | frontend/src/components/ReviewPanel.js:239 | `replace('_', ' ')` changes only the first occurrence, and nothing when there is none |
| Text.NatToString | frontend/src/pages/CodeEditor.js:268 | `Date.now().toString()` is a non-empty string of decimal digits whose value is the number |
| Text.NatToStringInjective | frontend/src/pages/CodeEditor.js:268 | distinct times render as distinct texts |
| Text.FirstIndex | frontend/src/pages/Register.js:221 | the first position of a character, none iff absent |
| Text.LastIndex | frontend/src/pages/Register.js:221 | the last position of a character, none iff absent |
| Json.Get | frontend/src/pages/Profile.js:262-267 | a property read is defined iff the value is an object with that key |
| Json.Merge | api-gateway/src/routes/users.js:102-104 | `{...base, ...over}` has both key sets, the over-values win and the other base values are kept |

## Left out

- Socket.IO delivery is not modelled: rooms, `socket.join` and the transport itself. Emitted
  messages are returned as lists tagged with their scope.
- The 3000 ms delay before `reviewCompleted` is not modelled as time.
  `SocketHandler.Server.CompleteReview` is a separate later step. It completes the pending
  requests in the order they were made.
- The Redis code mirror in the `codeChange` handler is not modelled. It is best-effort, and its
  wrapper swallows errors. Its `'EX'` argument is not a numeric TTL either.
- JWT signing and verification, bcrypt and uuid generation are not computed: they are oracle
  parameters. The auth routes and the auth middlewares built on them are not part of this model.
- The network calls behind the Redis wrappers, Mongoose and `mongoose.connect` are not
  modelled. The stores are in-memory maps.
- The HTTP forwarding services and routes, the canned AI stub route and the test script are not
  part of this model.
- The ESLint run and the Gemini call are not modelled. Their results enter as parameters.
- `Promise.all` in the batch review route is modelled as a sequential map in input order.
- The complexity, security, performance and suggestions handlers of the analysis routes call
  service functions that do not exist. A cache miss therefore always ends in their error path
  with 500. The model returns 500 there, so the complexity handler's 1800-second cache write is
  never reached.
- The `Project.reviews` array is not modelled. No modelled route reads it, and a `reviews`
  field sent to the project update is stored without a check the model could express.
- ProjectRoutes.SettingsPatch: a `settings` object is modelled as sent with both fields. One
  that leaves out a field, or carries a non-boolean `autoReview`, is not modelled.
- ProjectRoutes.List, ProjectRoutes.Get: `populate` of the owner and collaborators is not
  modelled. The page holds the stored ids. A project whose owner was deleted makes `Get` read
  `_id` of null and answer 500; that path is not modelled.
- Ranking.Count: `limit(n)` with a negative n is read as its absolute value. The driver's other
  reading of a negative limit, a single batch, is not modelled.
- StaticAnalysis.Analyze: the duplicate count is the corrected `FindDuplicateLines` of the
  finding below, not the as-written count that inherited object properties can break.
- Malformed socket payloads are not modelled: `null` data in `codeChange` or `requestAIReview`
  makes the handler's catch emit its error message, and `typing` has no catch at all.
- A `code` that is present but not a string (a number, an object) passes `notEmpty`, and
  `Buffer.from(code)` then throws, so the review and complexity routes answer 500
  (ai-service/src/routes/review.js:12 and 25, ai-service/src/routes/analysis.js:12 and 23).
  The model's `code` is always a string, so that path is not modelled.
- Malformed document ids are not modelled. Mongoose's cast error there answers 500.
- Wrong-typed optional fields are not modelled: a non-string `description`, `language` or
  `fileName` or a non-boolean `isPublic` fails `isString` or `isBoolean` with 400. This covers
  collaboration-service/src/routes/sessions.js:52-54 and 114-116,
  ai-service/src/routes/review.js:14 and ai-service/src/routes/analysis.js:129.
- The gateway's user listing sorts by `createdAt`. The `User` schema is not part of this model,
  so `UserRoutes.User` carries `createdAt` as the sort field the route names.
- The gateway's `User` schema is not part of this model. Users are records with the fields the
  routes read and write.
- JSX rendering, toasts, the clipboard, `console` output and styling are not modelled.
  Navigation is kept only as the page's `location` field.
- `localStorage` is modelled only as the saved draft that `CodeEditor.Editor.ChangeLanguage`
  takes as a parameter. The profile page's write of `result.user`, which may be undefined, is
  not modelled.
- Monaco's change and cursor listeners in the editor are not modelled, nor is
  `editorRef.setValue`. Both act on the editor widget, not on page state.
- After the socket context's cleanup closes a socket, the old socket object stays in state.
  `SocketContext.Connection.Start` models whether a socket is open and the `disconnect` that
  closing a connected socket fires; the socket object and the toast are not modelled.
- Strings are sequences of Unicode scalar values, so `length` and `substring` count characters
  rather than UTF-16 code units. `Avatar.UserColor` is the exception: it sums UTF-16 code units,
  as `charCodeAt` does.
- `toLowerCase` and `toUpperCase` are modelled on ASCII letters only. No other case mapping is
  modelled.
- Review scores and other JavaScript numbers are reals. NaN, infinities and rounding are not
  modelled.
- Timestamps are natural numbers of milliseconds, and `lastActivity` is an optional one. Invalid
  dates inside the comment sort comparator are not modelled.
- ReviewPanel.IssueRowOf: a `null` entry in an issue list makes the panel throw. The model reads
  fields through `Json.Get`, so such an entry is drawn as an issue with no fields.
- CollaboratorsList.RowOf: the model's collaborator always has an id. The source's
  `undefined === undefined` case, where an id-less collaborator with no signed-in user is marked
  as the current user, is not modelled.

## Findings

| source | as written | input that shows it | evidently intended | confidence | as-written member | corrected member |
|---|---|---|---|---|---|---|
| api-gateway/src/routes/users.js:50 | The form route spreads the sent preferences over `req.user.preferences`. `req.user` is the cached `{id, email, name, role}` record, so it has no preferences, and every stored key the form does not send is lost. | a user with `notifications: true` who sends the form with preferences `{"theme": "light"}`; afterwards `notifications` is gone | spread over the stored preferences, as `PUT /profile` does at line 103 | not executed | UserRoutes.FormUpdateDropsStoredPreference | UserRoutes.MergedFormPreferences |
| ai-service/src/services/staticAnalysis.js:170-186 | `lineCount` is a plain object, so a trimmed line that names an inherited property starts from that property's value instead of from 0. For `constructor`, `(lineCount[t] \|\| 0) + 1` concatenates a string and never equals 2. | code with two lines `constructor` (11 characters), which reports 0 duplicates | 1 duplicate: every distinct trimmed line longer than 10 characters seen at least twice counts once | not executed | StaticAnalysis.InheritedNameUndercounted | StaticAnalysis.FindDuplicateLines |
