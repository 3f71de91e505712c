# Wulkanowy SDK core, modelled in Dafny

This project models four pure pieces of the Wulkanowy SDK. The SDK is a Kotlin client for the
Vulcan "UONET+" school register. The pieces are:

- **The timetable cell decoder** (`TimetableParser`). It decides whether one scraped timetable
  slot holds a lesson. If it does, it builds the `Timetable` record for it:
  - current and old subject, group, teacher and room;
  - the info text;
  - the `changes` and `canceled` flags.

  A slot is a list of unclassed *layers*. Each layer is a list of *spans*, and each span has a
  text and a set of CSS classes (`x-treelabel-ppl`, `-rlz`, `-zas`, `-inv`). A layer also has
  its own text. The warning panel the slot may carry is an optional string.
- **Routing-token resolution** (`RoutingRules`). A mobile-API token's first three characters
  are its symbol. The token resolves to the URL of the one routing-rule line for that symbol.
- **Message post-processing** (`MessagesRepository`). This covers:
  - recipient-name normalisation;
  - the per-folder rewrites of received, sent and deleted messages, each sorted by date;
  - the folder-id checks of reading and deleting a message, and the checks of sending one.
- **Lucky-number selection** (`LuckyNumbers`). It chooses the lucky number of the pupil's unit
  among the numbers of all units.

Two shared modules support these. `Text` holds the Kotlin string functions the core calls
(`indexOf`, `substringBefore`, `split`, `replace`, `trim`, …) with their standard-library
semantics. `Seqs` holds `filter`, `singleOrNull` and `map`.

Web-service responses are arguments of the model. A folder's endpoint, for example, is a
function from the folder to its response.

Take a five-span layer whose first span is `zas` and which has two `rlz` spans. For it,
`getLessonInfo` passes `1` positionally to `getSimpleLesson`, which makes it the *info* offset,
not the span offset. Teacher and room therefore come from spans 1 and 2, and the info from
span 4. `TimetableParser.TemplateFor` gives `Simple(1)` here, where the argument is the info
offset.

## Model

| member | source | states |
|---|---|---|
| TimetableParser.TemplateFor | sdk-scrapper/src/main/kotlin/io/github/wulkanowy/sdk/scrapper/timetable/TimetableParser.kt:107-119 | the template chosen for a layer never needs more spans than the layer has, and only span counts 2, 3, 4, 5, 7 and 9 are recognised |
| TimetableParser.LessonInfo | sdk-scrapper/src/main/kotlin/io/github/wulkanowy/sdk/scrapper/timetable/TimetableParser.kt:107-174 | decoding a layer keeps the slot (number, start, end, date), and old fields are only changed when the record is marked changed |
| TimetableParser.ClassifyLayers | sdk-scrapper/src/main/kotlin/io/github/wulkanowy/sdk/scrapper/timetable/TimetableParser.kt:24-98 | a cell has no lesson exactly when it has no layer or four and more; every layer index named is in range; current and old layers differ; the two-layer shapes only arise for two layers |
| TimetableParser.GetTimetable | sdk-scrapper/src/main/kotlin/io/github/wulkanowy/sdk/scrapper/timetable/TimetableParser.kt:16-18 | the cell's fresh record run through `addLessonDetails`; stated by TimetableFacts.AbsentIffLayerCount (no lesson iff no layer or at least four) and TimetableFacts.SlotPassesThrough (number, start, end and date kept) |
| TimetableParser.LessonDetails | sdk-scrapper/src/main/kotlin/io/github/wulkanowy/sdk/scrapper/timetable/TimetableParser.kt:20-105 | the decoded lesson with the warning merged in; stated by TimetableFacts.WarningMerge and the layer-shape lemmas TimetableFacts.OneLayer to TimetableFacts.ThreeLayersFallback |
| TimetableParser.Decoded | sdk-scrapper/src/main/kotlin/io/github/wulkanowy/sdk/scrapper/timetable/TimetableParser.kt:24-98 | the first-match `when` over the layers; stated case by case by TimetableFacts.OneLayer, TwoLayersMovedPlanned, TwoLayersMovedOnly, TwoLayersChanged, TwoLayersPreviouslyPlanned, TwoLayersFallback, ThreeLayersChangedFirst, ThreeLayersChangedLast and ThreeLayersFallback, and by TimetableFacts.OldFieldsImplyChanges |
| TimetableParser.MergeWarning | sdk-scrapper/src/main/kotlin/io/github/wulkanowy/sdk/scrapper/timetable/TimetableParser.kt:99-104 | the warning's text set as, or appended to, the info; stated by TimetableFacts.WarningMerge |
| TimetableParser.ApplyTemplate | sdk-scrapper/src/main/kotlin/io/github/wulkanowy/sdk/scrapper/timetable/TimetableParser.kt:121-135 | the builder each template calls, with its offsets; stated by TimetableFacts.PlainTemplateFields, PlainTemplateFlags, PlainTemplateInfo, ReplacementTemplateFields and UnrecognizedLayerKeepsLesson |
| TimetableParser.LessonLight | sdk-scrapper/src/main/kotlin/io/github/wulkanowy/sdk/scrapper/timetable/TimetableParser.kt:137-148 | subject, group, room, info and the two flags from two spans; stated by TimetableFacts.PlainTemplateFields, PlainTemplateFlags and PlainTemplateInfo |
| TimetableParser.LessonPlain | sdk-scrapper/src/main/kotlin/io/github/wulkanowy/sdk/scrapper/timetable/TimetableParser.kt:150-162 | subject, group, teacher, room, info and the two flags, with the span and info offsets; stated by TimetableFacts.PlainTemplateFields, PlainTemplateFlags, PlainTemplateInfo and GroupChangesOnlyFromMarker |
| TimetableParser.LessonWithReplacement | sdk-scrapper/src/main/kotlin/io/github/wulkanowy/sdk/scrapper/timetable/TimetableParser.kt:164-174 | old fields from the first spans, new fields after them, always changed; stated by TimetableFacts.ReplacementTemplateFields |
| TimetableParser.SubjectOf | sdk-scrapper/src/main/kotlin/io/github/wulkanowy/sdk/scrapper/timetable/TimetableParser.kt:184-185 | the text before the first " ["; stated by TimetableFacts.SubjectGroupRoundTrip and TimetableFacts.NoBracketNoGroup |
| TimetableParser.GroupOf | sdk-scrapper/src/main/kotlin/io/github/wulkanowy/sdk/scrapper/timetable/TimetableParser.kt:184-187 | the last " [" piece without its "]", or "" without "["; stated by TimetableFacts.SubjectGroupRoundTrip and TimetableFacts.NoBracketNoGroup |
| TimetableParser.FormatInfo | sdk-scrapper/src/main/kotlin/io/github/wulkanowy/sdk/scrapper/timetable/TimetableParser.kt:176 | one surrounding pair of parentheses removed, null as ""; stated by TimetableFacts.FormatInfoStripsOnePair |
| TimetableParser.StripLessonInfo | sdk-scrapper/src/main/kotlin/io/github/wulkanowy/sdk/scrapper/timetable/TimetableParser.kt:178-182 | the two phrases, every " ," and a leading ", " deleted; stated by TimetableFacts.StripLessonInfoShortens and TimetableFacts.StripLessonInfoKeepsPlain |
| TimetableFacts.SubjectGroupRoundTrip | sdk-scrapper/src/main/kotlin/io/github/wulkanowy/sdk/scrapper/timetable/TimetableParser.kt:184-187 | splitting "subject [group]" gives back the subject and the group when neither contains " [" |
| TimetableFacts.NoBracketNoGroup | sdk-scrapper/src/main/kotlin/io/github/wulkanowy/sdk/scrapper/timetable/TimetableParser.kt:184-187 | a text without "[" is the whole subject and has an empty group |
| TimetableFacts.FormatInfoStripsOnePair | sdk-scrapper/src/main/kotlin/io/github/wulkanowy/sdk/scrapper/timetable/TimetableParser.kt:176 | one surrounding pair of parentheses is removed only when both are present; a missing info becomes "" |
| TimetableFacts.StripLessonInfoShortens | sdk-scrapper/src/main/kotlin/io/github/wulkanowy/sdk/scrapper/timetable/TimetableParser.kt:178-182 | stripping only deletes text: the result is never longer than the info |
| TimetableFacts.StripLessonInfoKeepsPlain | sdk-scrapper/src/main/kotlin/io/github/wulkanowy/sdk/scrapper/timetable/TimetableParser.kt:178-182 | info with neither phrase, no " ," and no leading ", " is returned unchanged |
| TimetableFacts.TemplateDispatch | sdk-scrapper/src/main/kotlin/io/github/wulkanowy/sdk/scrapper/timetable/TimetableParser.kt:107-119 | for each span count, the exact class pattern under which each template is chosen, with both directions of each condition |
| TimetableFacts.UnrecognizedLayerKeepsLesson | sdk-scrapper/src/main/kotlin/io/github/wulkanowy/sdk/scrapper/timetable/TimetableParser.kt:117 | a layer of any other span count leaves the lesson unchanged |
| TimetableFacts.PlainTemplateFlags | sdk-scrapper/src/main/kotlin/io/github/wulkanowy/sdk/scrapper/timetable/TimetableParser.kt:137-162 | `canceled` holds iff the first span is `inv`; `changes` holds iff the change text is not blank and the lesson is not canceled, or the first span is `zas`; old fields are untouched |
| TimetableFacts.GroupChangesOnlyFromMarker | sdk-scrapper/src/main/kotlin/io/github/wulkanowy/sdk/scrapper/timetable/TimetableParser.kt:129-131 | a group lesson is changed iff its first span is `zas` |
| TimetableFacts.PlainTemplateInfo | sdk-scrapper/src/main/kotlin/io/github/wulkanowy/sdk/scrapper/timetable/TimetableParser.kt:109-114 | which span, or the layer's own text, the info of each light, simple and group layer comes from |
| TimetableFacts.PlainTemplateFields | sdk-scrapper/src/main/kotlin/io/github/wulkanowy/sdk/scrapper/timetable/TimetableParser.kt:137-162 | subject and group come from span 0; teacher and room from spans 1 and 2 (simple), 2 and 3 (group); the light template has a room and keeps the teacher |
| TimetableFacts.ReplacementTemplateFields | sdk-scrapper/src/main/kotlin/io/github/wulkanowy/sdk/scrapper/timetable/TimetableParser.kt:164-174 | old subject, teacher and room from spans 0, 1+o and 2+o; new ones from 3+o, 4+2o and 5+2o; info ends with ", poprzednio: " and the old subject; always changed |
| TimetableFacts.AbsentIffLayerCount | sdk-scrapper/src/main/kotlin/io/github/wulkanowy/sdk/scrapper/timetable/TimetableParser.kt:16-98 | a cell decodes to no lesson iff it has no layer or at least four |
| TimetableFacts.SlotPassesThrough | sdk-scrapper/src/main/kotlin/io/github/wulkanowy/sdk/scrapper/timetable/TimetableParser.kt:16-17 | number, start, end and date of the cell are copied unchanged |
| TimetableFacts.OldFieldsImplyChanges | sdk-scrapper/src/main/kotlin/io/github/wulkanowy/sdk/scrapper/timetable/TimetableParser.kt:24-98 | a decoded lesson with an old subject, teacher or room is always marked changed |
| TimetableFacts.WarningMerge | sdk-scrapper/src/main/kotlin/io/github/wulkanowy/sdk/scrapper/timetable/TimetableParser.kt:99-104 | a warning only touches `info`: a blank info becomes the warning, other info gets ": " and the warning appended; presence of a lesson does not depend on it |
| TimetableFacts.OneLayer | sdk-scrapper/src/main/kotlin/io/github/wulkanowy/sdk/scrapper/timetable/TimetableParser.kt:25 | a one-layer cell is that layer decoded alone |
| TimetableFacts.TwoLayersMovedPlanned | sdk-scrapper/src/main/kotlin/io/github/wulkanowy/sdk/scrapper/timetable/TimetableParser.kt:26-37 | second layer `inv`+`ppl`: current fields from layer 0, old fields from layer 1, changed, and the merged, stripped, capitalised info |
| TimetableFacts.TwoLayersMovedOnly | sdk-scrapper/src/main/kotlin/io/github/wulkanowy/sdk/scrapper/timetable/TimetableParser.kt:38 | second layer `inv` without `ppl`: layer 1 alone, even when it is also `zas` |
| TimetableFacts.TwoLayersChanged | sdk-scrapper/src/main/kotlin/io/github/wulkanowy/sdk/scrapper/timetable/TimetableParser.kt:41-50 | second layer `zas`: layer 1 supersedes layer 0, changed and not canceled |
| TimetableFacts.TwoLayersPreviouslyPlanned | sdk-scrapper/src/main/kotlin/io/github/wulkanowy/sdk/scrapper/timetable/TimetableParser.kt:51-65 | first layer `inv`+`ppl`, second unclassed: layer 1 supersedes layer 0 and info is "Poprzednio: old subject (old info)" |
| TimetableFacts.TwoLayersFallback | sdk-scrapper/src/main/kotlin/io/github/wulkanowy/sdk/scrapper/timetable/TimetableParser.kt:66 | any other two-layer cell is layer 1 alone |
| TimetableFacts.ThreeLayersChangedFirst | sdk-scrapper/src/main/kotlin/io/github/wulkanowy/sdk/scrapper/timetable/TimetableParser.kt:68-81 | pattern `zas,inv,inv`: layer 0 supersedes layer 1 |
| TimetableFacts.ThreeLayersChangedLast | sdk-scrapper/src/main/kotlin/io/github/wulkanowy/sdk/scrapper/timetable/TimetableParser.kt:82-95 | pattern `inv,inv,zas` (when the first pattern does not also match): layer 2 supersedes layer 0 |
| TimetableFacts.ThreeLayersFallback | sdk-scrapper/src/main/kotlin/io/github/wulkanowy/sdk/scrapper/timetable/TimetableParser.kt:96 | any other three-layer cell is layer 1 alone |
| RoutingRules.Lines | sdk-hebe/src/main/kotlin/io/github/wulkanowy/sdk/hebe/repository/RoutingRulesRepository.kt:18 | splitting on an optional CR followed by LF gives at least one line, and no line holds a line feed |
| RoutingRules.LinesJoinBack | sdk-hebe/src/main/kotlin/io/github/wulkanowy/sdk/hebe/repository/RoutingRulesRepository.kt:18 | joining the lines with LF gives the text back, with CRLF breaks turned into LF |
| RoutingRules.NoCarriageReturnNormalized | sdk-hebe/src/main/kotlin/io/github/wulkanowy/sdk/hebe/repository/RoutingRulesRepository.kt:18 | text without CR is its own normal form, so it is exactly its lines joined with LF |
| RoutingRules.LineCount | sdk-hebe/src/main/kotlin/io/github/wulkanowy/sdk/hebe/repository/RoutingRulesRepository.kt:18 | there is one line more than there are line feeds |
| RoutingRules.RouteByToken | sdk-hebe/src/main/kotlin/io/github/wulkanowy/sdk/hebe/repository/RoutingRulesRepository.kt:10-23 | the token is rejected as invalid iff it is shorter than 4; symbol FK1 gives the fake-log URL |
| RoutingRules.RuleSymbol | sdk-hebe/src/main/kotlin/io/github/wulkanowy/sdk/hebe/repository/RoutingRulesRepository.kt:19 | the text of a rule line before its first comma; stated by RoutingRules.RuleLineRoundTrip |
| RoutingRules.RuleUrl | sdk-hebe/src/main/kotlin/io/github/wulkanowy/sdk/hebe/repository/RoutingRulesRepository.kt:20 | the text of a rule line after its first comma; stated by RoutingRules.RuleLineRoundTrip |
| RoutingRules.RuleLineRoundTrip | sdk-hebe/src/main/kotlin/io/github/wulkanowy/sdk/hebe/repository/RoutingRulesRepository.kt:19-20 | a line made of a comma-free symbol, a comma and a URL gives back that symbol and that URL, even when the URL holds commas |
| RoutingRules.RouteIsUniqueRule | sdk-hebe/src/main/kotlin/io/github/wulkanowy/sdk/hebe/repository/RoutingRulesRepository.kt:17-20 | for any other symbol the route is `url` iff the unique line for the symbol has `url` after its first comma |
| RoutingRules.UnknownIffNoUniqueRule | sdk-hebe/src/main/kotlin/io/github/wulkanowy/sdk/hebe/repository/RoutingRulesRepository.kt:19-21 | for any other symbol the token is unknown iff no line, or more than one, is for the symbol |
| RoutingRules.RouteDependsOnSymbolOnly | sdk-hebe/src/main/kotlin/io/github/wulkanowy/sdk/hebe/repository/RoutingRulesRepository.kt:13 | two valid-length tokens with the same first three characters resolve alike |
| RoutingRules.FakeLogIgnoresRules | sdk-hebe/src/main/kotlin/io/github/wulkanowy/sdk/hebe/repository/RoutingRulesRepository.kt:15 | the FK1 symbol resolves to the fake-log URL whatever the rules |
| Seqs.SingleOrNoneIsUniqueMatch | sdk-hebe/src/main/kotlin/io/github/wulkanowy/sdk/hebe/repository/RoutingRulesRepository.kt:19 | `singleOrNull` gives `x` iff `x` is at the only matching position |
| Seqs.SingleOrNoneIsNone | sdk-hebe/src/main/kotlin/io/github/wulkanowy/sdk/hebe/repository/RoutingRulesRepository.kt:19 | `singleOrNull` gives null iff there is no unique matching position |
| Text.Split | sdk-scrapper/src/main/kotlin/io/github/wulkanowy/sdk/scrapper/timetable/TimetableParser.kt:186 | the pieces joined with the delimiter give the text back, and no piece contains the delimiter |
| Text.ReplaceAllIsSplitJoin | sdk-scrapper/src/main/kotlin/io/github/wulkanowy/sdk/scrapper/timetable/TimetableParser.kt:178-181 | `replace` is a split at the pattern followed by a join with the replacement |
| Text.TrimIsInfix | sdk-scrapper/src/main/kotlin/io/github/wulkanowy/sdk/scrapper/repository/MessagesRepository.kt:133 | `trim` keeps an infix of the text and removes only whitespace around it |
| MessagesRepository.NormalizeRecipient | sdk-scrapper/src/main/kotlin/io/github/wulkanowy/sdk/scrapper/repository/MessagesRepository.kt:132-134 | the name cut before its last "-", its first " [" and its last " (", then trimmed; stated by MessagesRepository.NormalizeRecipientShape, NormalizeRecipientBound and NormalizePlainName |
| MessagesRepository.NormalizeRecipientShape | sdk-scrapper/src/main/kotlin/io/github/wulkanowy/sdk/scrapper/repository/MessagesRepository.kt:132-134 | a normalised name has no surrounding whitespace, contains no " [", and is an infix of the name before its last "-" |
| MessagesRepository.NormalizeRecipientBound | sdk-scrapper/src/main/kotlin/io/github/wulkanowy/sdk/scrapper/repository/MessagesRepository.kt:132-134 | a normalised name is no longer than the part of the name before its last "-" |
| MessagesRepository.NormalizePlainName | sdk-scrapper/src/main/kotlin/io/github/wulkanowy/sdk/scrapper/repository/MessagesRepository.kt:132-134 | a name with no "-", " [" or " (" is only trimmed |
| MessagesRepository.RecipientsWithShortNames | sdk-scrapper/src/main/kotlin/io/github/wulkanowy/sdk/scrapper/repository/MessagesRepository.kt:27-34 | every recipient is kept in order, with only its short name changed, to its normalised name; no data gives no recipients |
| MessagesRepository.MessageRecipients | sdk-scrapper/src/main/kotlin/io/github/wulkanowy/sdk/scrapper/repository/MessagesRepository.kt:71-76 | login id 0 gives the message's recipients, any other login id the sender, both with short names set |
| MessagesRepository.SortByDate | sdk-scrapper/src/main/kotlin/io/github/wulkanowy/sdk/scrapper/repository/MessagesRepository.kt:38 | the sorted list is in ascending date order and is a permutation of the input |
| MessagesRepository.SortByDateStable | sdk-scrapper/src/main/kotlin/io/github/wulkanowy/sdk/scrapper/repository/MessagesRepository.kt:38 | the sort is stable: the messages of each date keep their input order |
| MessagesRepository.MapSortCommute | sdk-scrapper/src/main/kotlin/io/github/wulkanowy/sdk/scrapper/repository/MessagesRepository.kt:36-69 | a rewrite that keeps dates commutes with the sort, so sorting before or after rewriting gives the same list |
| MessagesRepository.ReceivedMessagesSorted | sdk-scrapper/src/main/kotlin/io/github/wulkanowy/sdk/scrapper/repository/MessagesRepository.kt:36-45 | received messages are stably sorted by date and are exactly the input's messages with recipient names normalised |
| MessagesRepository.SentMessagesRewritten | sdk-scrapper/src/main/kotlin/io/github/wulkanowy/sdk/scrapper/repository/MessagesRepository.kt:47-58 | sent messages are stably sorted by date and are exactly the input's messages with message id set to id, folder 2 and names normalised |
| MessagesRepository.DeletedMessagesRemoved | sdk-scrapper/src/main/kotlin/io/github/wulkanowy/sdk/scrapper/repository/MessagesRepository.kt:60-69 | deleted messages are stably sorted by date and are exactly the input's messages marked removed with names normalised |
| MessagesRepository.ReceivedMessages | sdk-scrapper/src/main/kotlin/io/github/wulkanowy/sdk/scrapper/repository/MessagesRepository.kt:36-45 | `getReceivedMessages`: sort by date, then rewrite; stated by MessagesRepository.ReceivedMessagesSorted |
| MessagesRepository.SentMessages | sdk-scrapper/src/main/kotlin/io/github/wulkanowy/sdk/scrapper/repository/MessagesRepository.kt:47-58 | `getSentMessages`: rewrite, then sort by date; stated by MessagesRepository.SentMessagesRewritten |
| MessagesRepository.DeletedMessages | sdk-scrapper/src/main/kotlin/io/github/wulkanowy/sdk/scrapper/repository/MessagesRepository.kt:60-69 | `getDeletedMessages`: rewrite, then sort by date; stated by MessagesRepository.DeletedMessagesRemoved |
| MessagesRepository.AsReceived | sdk-scrapper/src/main/kotlin/io/github/wulkanowy/sdk/scrapper/repository/MessagesRepository.kt:39-43 | only the recipient names change; stated by MessagesRepository.NormalizeNames and MessagesRepository.ReceivedMessagesSorted |
| MessagesRepository.AsSent | sdk-scrapper/src/main/kotlin/io/github/wulkanowy/sdk/scrapper/repository/MessagesRepository.kt:50-54 | message id set to the id, folder 2, recipient names normalised; stated by MessagesRepository.SentMessagesRewritten |
| MessagesRepository.AsDeleted | sdk-scrapper/src/main/kotlin/io/github/wulkanowy/sdk/scrapper/repository/MessagesRepository.kt:63-65 | recipient names normalised and marked removed; stated by MessagesRepository.DeletedMessagesRemoved |
| MessagesRepository.NormalizeNames | sdk-scrapper/src/main/kotlin/io/github/wulkanowy/sdk/scrapper/repository/MessagesRepository.kt:41 | a missing recipient list stays missing; otherwise each recipient keeps its place and all its fields but its name, which is normalised |
| MessagesRepository.FolderOf | sdk-scrapper/src/main/kotlin/io/github/wulkanowy/sdk/scrapper/repository/MessagesRepository.kt:87-92 | ids 1, 2 and 3 name a folder whose id they are; any other id is an `IllegalArgumentException` "Unknown folder id: …" |
| MessagesRepository.FolderIdRoundTrip | sdk-scrapper/src/main/kotlin/io/github/wulkanowy/sdk/scrapper/repository/MessagesRepository.kt:87-92 | every folder's id resolves back to that folder |
| MessagesRepository.MessageDetails | sdk-scrapper/src/main/kotlin/io/github/wulkanowy/sdk/scrapper/repository/MessagesRepository.kt:86-93 | an unknown folder id is rejected; otherwise the folder's response data, and missing data is a null-data error |
| MessagesRepository.MessageContent | sdk-scrapper/src/main/kotlin/io/github/wulkanowy/sdk/scrapper/repository/MessagesRepository.kt:78-80 | fails exactly as the details do; otherwise the content, or "" without one |
| MessagesRepository.MessageAttachments | sdk-scrapper/src/main/kotlin/io/github/wulkanowy/sdk/scrapper/repository/MessagesRepository.kt:82-84 | fails exactly as the details do; otherwise the attachments, or none without any |
| MessagesRepository.DeleteMessages | sdk-scrapper/src/main/kotlin/io/github/wulkanowy/sdk/scrapper/repository/MessagesRepository.kt:111-130 | a failed start-page fetch fails first; then an unknown folder id is rejected; for a known one the folder's endpoint gets the ids, a blank response is a `VulcanException` and any other gives its success flag |
| MessagesRepository.SendMessage | sdk-scrapper/src/main/kotlin/io/github/wulkanowy/sdk/scrapper/repository/MessagesRepository.kt:95-109 | a failed start-page fetch fails first; a blank anti-forgery token is a `ScrapperException` "Can't find antiForgeryToken property!"; otherwise the given message is sent, and missing response data is a null-data error |
| LuckyNumbers.LuckyNumberFor | sdk/src/main/kotlin/io/github/wulkanowy/sdk/Sdk.kt:467-487 | there is no lucky number iff the list is empty; any number returned is the number of an entry in the list |
| LuckyNumbers.UniqueUnitWins | sdk/src/main/kotlin/io/github/wulkanowy/sdk/Sdk.kt:470-473 | when exactly one entry is for the unit, its number is returned |
| LuckyNumbers.NoUniqueUnitTakesFirst | sdk/src/main/kotlin/io/github/wulkanowy/sdk/Sdk.kt:475-483 | without a unique unit match, a non-empty list gives its first entry's number |
| LuckyNumbers.SingleNumberWins | sdk/src/main/kotlin/io/github/wulkanowy/sdk/Sdk.kt:475-478 | a single entry's number is returned whatever its unit |

## Left out

- jsoup querying (`select("div:not([class])")`, `selectFirst("span")`, `classNames()`, `ownText()`, `text()`) is abstracted. A cell is its list of unclassed layers, a layer is its list of spans and its own text, and a span is its text and its set of classes. CSS selector semantics and spans nested inside spans are not modelled.
- The "no class" test of `attr("class").isEmpty()` is modelled as an empty class set. A `class` attribute made only of whitespace is therefore treated as empty.
- `capitalise` is defined outside the modelled files. It is a parameter, `capitalise: string -> string`.
- The `Timetable` data class is not part of this model. Its fields other than number, start, end and date are assumed to default to "" and false. Dates and date-times are integers that are only copied and compared.
- The `Message`, `Recipient` and `Attachment` data classes are not part of this model. Only the fields the repository reads or writes are kept, and a message's date is treated as never null.
- All service calls of the messages repository and the routing-rules fetch are inputs. This covers `getReceived`, `getRecipients`, `getStart`, the folder endpoints for reading and deleting, the send endpoint and `getRoutingRules`. A failing `getStart` is an error result that `deleteMessages` and `sendMessage` return before anything else. `handleErrors`, RxJava and coroutines are not modelled.
- `getScriptParam` is a foreign call. In `sendMessage` its reading of the anti-forgery token is a parameter, `antiForgeryToken: string -> string`; the other page parameters reach the endpoints only through the start page the endpoint functions are given. `DateTimeFormatter` is a foreign call the modelled results do not depend on.
- Gson parsing is a parameter, `parseSuccess: string -> bool`. It stands for reading the `success` flag of the delete response, and malformed JSON is not modelled.
- `getReportingUnits` only returns the service data, or an empty list, and holds no logic of its own beyond transport.
- `MessagesRepository.SendMessage`: the `SentMessage` data class is not part of this model, so the response data is of any type `T`.
- The rest of `Sdk.kt` and the other SDK files are mode dispatch, transport or data copies with no logic of the core. This covers `Api.kt`, `Scrapper.kt`, the extensions services, `GovernmentMapper.kt`, the POJOs and `AttendanceTest.kt`.
- Strings are sequences of Dafny `char`, each a Unicode scalar value, while a Kotlin `String` is a sequence of UTF-16 code units. For text outside the Basic Multilingual Plane the two disagree: a supplementary character is one `char` here and two code units in Kotlin, so `length`, indices and `substring` differ. `RoutingRules.RouteByToken` therefore rejects a token of two such characters as too short, where Kotlin accepts it (its `length` is 4) and takes its symbol from the first three code units, which splits a surrogate pair. The text functions are otherwise modelled without Unicode normalisation.
- jsoup's `hasClass` and the `.x-treelabel-rlz` selector compare class names without regard to case, while the `CLASS_… in classNames()` tests of `getLessonLight` and `getLesson` are case-sensitive. The model compares class names case-sensitively everywhere, so it does not capture markup whose class names differ from the constants in case: a first span classed `X-TREELABEL-ZAS`, for example, makes a `zas` layer for the layer checks of `addLessonDetails` in the source, but not in the model.
