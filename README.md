# Escuta Segura: a verified model of the report pipeline

Escuta Segura accepts anonymous incident reports ("denúncias") through a web
form. The server validates a submitted report against a schema and sanitises
its free text and contact field. It stamps the report with an anonymous
identifier and a creation time and writes a narrow summary to a key-value
store. It alerts the operators through a Telegram bot when that write fails.
Finally it sends a formatted notification to the operators' chat. A second
endpoint receives the bot's webhook updates and answers a `/stats` command
from the operators' chat with statistics over the stored summaries.

This project models that core in Dafny:

- `types.dfy` (module `Types`): JavaScript values as a parsed body holds them, the report record, the form-error map, the bot configuration
- `text.dfy` (module `Text`): the JavaScript string built-ins the code relies on: `trim` and the `\s` class, ASCII `toUpperCase`, `substring`, `<` on strings, `Number.prototype.toString(radix)`
- `schema.dfy` (module `Schema`): the schema and `validateDenuncia`
- `sanitizer.dfy` (module `Sanitizer`): `sanitizeText` (four regular expressions as matchers plus a global-replace scan), `sanitizeContact`, `sanitizeDenuncia`
- `anonymous_id.dfy` (module `AnonymousId`): `generateAnonymousId`
- `store.dfy` (module `Store`): the store's pipeline object (a class whose methods queue commands) and the key layout
- `telegram.dfy` (module `Telegram`): `escapeMarkdown` and `buildTelegramText`
- `denuncia_handler.dfy` (module `DenunciaHandler`): the submission endpoint, including its error handling and labels
- `statistics.dfy` (module `Statistics`): `countBy` and `calculateStatistics`
- `webhook.dfy` (module `Webhook`): the webhook endpoint and its `/stats` branch

The store, the messaging service, the clock, the random-number source, the
date formatters and the statistics formatter are all outside the model.
- Each handler is a method taking an `Environment` value. That value holds every input from outside, plus the outcome of every external call.
- Each handler returns its reply together with an effect log: the external calls it made, in order.
- Each handler is proved equal to a pair of specification functions, and the lemmas state the ordering and failure policy in terms of those functions.

Where the written design and the code disagree, the model follows the code:
- Sanitising is not idempotent:
  - `Sanitizer.SanitizeTextNotIdempotent`: `"http:// "` followed by nine or more digits sanitises to `"http://[TELEFONE_REMOVIDO]"`, which sanitises again to `"[URL_REMOVIDA]"`.
  - `Sanitizer.SanitizeContactNotIdempotent`: masking an eight-digit phone twice cuts it to its ends.
- An e-mail contact keeps only the text between its first and its second `@`, not everything after the local part (`Sanitizer.ContactEmailKeepsDomain`).
- The description in the notification is escaped like every other field (`Telegram.DescriptionLine`).
- The storage-failure alert is not fire-and-forget. If the alert itself fails, the request fails with a 500 and no notification is sent (`DenunciaHandler.FailedAlertAborts`).

## Model

| member | source | states |
|---|---|---|
| Text.Trim | app/utils/validation.ts:72 | the trimmed text is the slice of the input that starts at its first non-whitespace character; it has no whitespace at either end, every character left out is whitespace, and it is empty exactly when the input is blank |
| Text.TrimUnchanged | app/utils/validation.ts:72 | text without whitespace at either end is its own trim |
| Text.ToUpper | app/utils/validation.ts:101 | upper-casing keeps the length and maps every character through the ASCII upper-case mapping |
| Text.ToUpperAppend | app/utils/validation.ts:101 | upper-casing a concatenation upper-cases each part |
| Text.ToRadix | app/utils/validation.ts:99 | `toString(radix)` gives at least one digit, all below the radix, in lower case, with no leading zero unless the number is zero |
| Text.FromToRadix | app/utils/validation.ts:99 | reading the digits back yields the number again |
| Text.LexLessAppend | app/utils/validation.ts:101 | when the prefixes have equal length, comparing `x + u` with `y + v` is decided by the prefixes unless they are equal |
| Schema.EnumIssues | app/utils/validation.ts:6-9 | an enumeration raises no issue exactly when the value is one of its options as a string; every issue names the field |
| Schema.DescricaoIssues | app/utils/validation.ts:10-13 | every issue the description rules raise names `descricao` |
| Schema.BoundedTextIssues | app/utils/validation.ts:14 | every issue of an optional bounded string names its field |
| Schema.OptionalIssues | app/utils/validation.ts:15-17 | every issue of an optional string or boolean names its field |
| Schema.FieldIssues | app/utils/validation.ts:5-25 | the issues of the rule for a key all name that key |
| Schema.FieldIssuesEmpty | app/utils/validation.ts:5-25 | a key's rule raises no issue exactly when the field conforms to that rule, stated positively |
| Schema.KeyIssuesEmpty | app/utils/validation.ts:5-25 | a sequence of keys raises no issue exactly when every one of them conforms |
| Schema.SchemaIssuesEmpty | app/utils/validation.ts:28-31 | parsing raises no issue exactly on a body that conforms to the whole schema |
| Schema.FieldErrorsAppend | app/utils/validation.ts:36-41 | writing two runs of issues in turn gives the first map overridden by the second |
| Schema.FieldErrorsOfOneField | app/utils/validation.ts:36-41 | issues that all name one field leave exactly that field, with the last message |
| Schema.KeyIssuesErrors | app/utils/validation.ts:36-41 | over several keys, a field is in the error map exactly when it raised an issue, and it holds its own last message |
| Schema.KeyIssuesConform | app/utils/validation.ts:28-44 | a field is in the error map exactly when it breaks its rule, and it holds the last message its own rule raised |
| Schema.ValidationErrorsByField | app/utils/validation.ts:28-44 | for an object body, all broken fields are reported in one pass and only those; a body that is not an object gives an empty map |
| Schema.BadTipoAndShortDescricaoBothReported | app/utils/validation.ts:5-13 | a bad `tipo` and a description shorter than 10 characters are reported together |
| Schema.ShortBlankDescricaoReportsBlank | app/utils/validation.ts:10-13 | a short blank description reports the "obrigatória" message, which is written after the too-short one |
| Schema.ValidateDenuncia | app/utils/validation.ts:28-44 | the body is valid exactly when it conforms to the schema; the errors are the issues written field by field |
| Schema.WriteErrors | app/utils/validation.ts:36-41 | the loop over the issues produces the error map of the whole issue list |
| Sanitizer.ReplaceSkip | app/utils/validation.ts:65-71 | the global replace copies every position where the pattern does not match unchanged |
| Sanitizer.WholeMatchReplaced | app/utils/validation.ts:65-71 | a text that the pattern matches as a whole is replaced by the placeholder alone |
| Sanitizer.ReplaceNothing | app/utils/validation.ts:65-71 | a text in which the pattern matches nowhere is left unchanged |
| Sanitizer.DomainSplit | app/utils/validation.ts:67 | the backtracking of the greedy domain part ends at the last dot that is followed by two letters |
| Sanitizer.SanitizeText | app/utils/validation.ts:62-73 | the sanitised text has no whitespace at either end |
| Sanitizer.SanitizedTextHasNoPhoneNumber | app/utils/validation.ts:62-73 | no run of ten or more phone-class characters survives sanitising |
| Sanitizer.PhoneScanClears | app/utils/validation.ts:69 | after the phone rule, no phone-like run remains, and the leading run is known |
| Sanitizer.ReplaceKeepsNoPhoneNumber | app/utils/validation.ts:71 | on text with no run of ten phone-class characters, replacing matches with a non-empty phone-free placeholder creates none, and the leading run does not grow |
| Sanitizer.TrimKeepsNoPhoneNumber | app/utils/validation.ts:72 | trimming creates no phone-like run |
| Sanitizer.SanitizePlainText | app/utils/validation.ts:62-73 | text with no digit, no '@', no "http" in any case and no run of ten phone-class characters comes back only trimmed |
| Sanitizer.LaterRulesSkip | app/utils/validation.ts:67-71 | the e-mail, phone and CPF rules leave such plain text unchanged |
| Sanitizer.UrlRuleSkips | app/utils/validation.ts:65 | text without "http" in any case is left alone by the URL rule |
| Sanitizer.EmailRuleSkips | app/utils/validation.ts:67 | text without '@' is left alone by the e-mail rule |
| Sanitizer.CpfRuleSkips | app/utils/validation.ts:71 | text without digits is left alone by the CPF rule |
| Sanitizer.PlaceholderIsFixed | app/utils/validation.ts:62-73 | sanitising any non-empty text of upper-case letters other than H, brackets and underscores returns it unchanged |
| Sanitizer.PlaceholdersAreFixed | app/utils/validation.ts:62-73 | each of the four placeholders is a fixed point of sanitising |
| Sanitizer.DigitStringIsPhone | app/utils/validation.ts:69-71 | ten or more bare digits become the phone placeholder, because the phone rule runs before the CPF rule |
| Sanitizer.WholePhoneRun | app/utils/validation.ts:69 | a text made entirely of ten or more phone-class characters is one phone match |
| Sanitizer.FormattedCpfIsRemoved | app/utils/validation.ts:71 | a CPF written `ddd.ddd.ddd-dd` becomes the CPF placeholder |
| Sanitizer.EarlierRulesSkipCpf | app/utils/validation.ts:65-69 | the URL, e-mail and phone rules leave a formatted CPF alone |
| Sanitizer.SanitizeTextNotIdempotent | app/utils/validation.ts:62-73 | sanitising twice differs from sanitising once for `"http:// "` followed by nine or more digits |
| Sanitizer.SpaceBreaksUrl | app/utils/validation.ts:65-69 | a space after the scheme stops the URL rule, and the digits after it are taken by the phone rule |
| Sanitizer.PhoneAfterBrokenUrl | app/utils/validation.ts:69 | the phone rule turns `"http:// "` plus digits into `"http://"` plus the phone placeholder |
| Sanitizer.PlaceholderCompletesUrl | app/utils/validation.ts:65 | `"http://"` followed by a placeholder is a URL, so it becomes the URL placeholder |
| Sanitizer.Digits | app/utils/validation.ts:85 | the digits of a contact are no longer than it and are all digits |
| Sanitizer.DigitRunDigits | app/utils/validation.ts:84-85 | a run of eight digits means at least eight digits overall |
| Sanitizer.SanitizeContact | app/utils/validation.ts:76-95 | every contact masks to at least three characters, three of them asterisks in a row |
| Sanitizer.ContactEmailKeepsDomain | app/utils/validation.ts:78-81 | `u@v` (with `v` followed by nothing or by a further '@') masks to `***@v` |
| Sanitizer.ContactPhoneKeepsLastFour | app/utils/validation.ts:84-87 | a contact without '@' that has eight digits in a row masks to four asterisks plus the last four of all its digits |
| Sanitizer.ContactOtherMasked | app/utils/validation.ts:90-94 | any other contact keeps its first and last two characters around `***` when longer than four, and becomes `***` otherwise |
| Sanitizer.SanitizeContactNotIdempotent | app/utils/validation.ts:76-95 | masking an eight-digit phone twice gives `*****` plus its last two digits, not the first mask |
| Sanitizer.EightDigitsMasked | app/utils/validation.ts:84-87 | eight bare digits mask to `****` plus their last four |
| Sanitizer.MaskRemasked | app/utils/validation.ts:90-91 | four asterisks followed by four digits are cut to their ends |
| Sanitizer.SanitizeDenuncia | app/utils/validation.ts:51-59 | every key other than `contato`, `descricao` and `local` is copied unchanged; those three are rewritten (an empty contact or location becomes `undefined`) |
| Sanitizer.SanitizedReportIsRedacted | app/utils/validation.ts:51-59 | a sanitised report's description and location hold no phone-like run, and its contact is masked or absent |
| AnonymousId.GenerateAnonymousId | app/utils/validation.ts:98-102 | the identifier is the upper-cased base-36 clock followed by at most six upper-cased random characters, all digits or upper-case letters |
| AnonymousId.TimestampReadBack | app/utils/validation.ts:98-102 | the clock can be read back from the identifier's prefix |
| AnonymousId.FromRadixToUpper | app/utils/validation.ts:101 | upper-casing does not change the number that base-36 digits denote |
| AnonymousId.FromRadixBound | app/utils/validation.ts:99 | a number written with n base-36 digits is below 36^n |
| AnonymousId.StringOrderIsNumericOrder | app/utils/validation.ts:99-101 | for upper-case digit strings of equal length, string order is numeric order |
| AnonymousId.TimestampOrder | app/utils/validation.ts:99 | clock parts of equal length compare as strings the way the clocks compare as numbers |
| AnonymousId.IdOrderFollowsClock | app/utils/validation.ts:98-102 | identifiers whose clock parts have equal length sort by their clocks |
| Store.ReportKey | server/api/denuncia.post.ts:55 | a report's key is the identifier behind the fixed prefix `denuncia:`, which is both the hash key and the date-index member |
| Store.ReportKeyInjective | server/api/denuncia.post.ts:55-59 | distinct identifiers get distinct keys |
| Store.Pipeline.constructor | server/api/denuncia.post.ts:53 | a new pipeline holds no commands |
| Store.Pipeline.QueueHSet | server/api/denuncia.post.ts:55 | queues the hash write after the commands already queued |
| Store.Pipeline.QueueZAdd | server/api/denuncia.post.ts:57-60 | queues the date-index insertion after the commands already queued |
| Store.Pipeline.QueueHGetAll | server/api/telegram/webhook.post.ts:49 | queues one hash read after the commands already queued |
| Telegram.EscapeMarkdown | server/utils/telegram.ts:61-63 | the escaped text is longer than the input by exactly its number of reserved characters |
| Telegram.UnescapeEscape | server/utils/telegram.ts:61-63 | removing each inserted backslash gives back the input |
| Telegram.EscapeIsEscaped | server/utils/telegram.ts:61-63 | escaping always yields well-formed escaped text |
| Telegram.EscapedIsEscapeOfUnescape | server/utils/telegram.ts:61-63 | every well-formed escaped text is the escape of its unescape, so escaping is a bijection onto escaped text |
| Telegram.EscapeAppend | server/utils/telegram.ts:61-63 | escaping a concatenation escapes each part |
| Telegram.EscapePlain | server/utils/telegram.ts:61-63 | text without reserved characters is left as it is |
| Telegram.ClipDescription | server/utils/telegram.ts:55 | a description longer than 3500 characters is cut to 3500 plus an ellipsis; a shorter one is kept |
| Telegram.BuildTelegramText | server/utils/telegram.ts:31-59 | the pushes build exactly the specified lines, joined with newlines, with the reception time formatted from `submittedAt` or the clock |
| Telegram.MessageShape | server/utils/telegram.ts:43-58 | the message has nine fixed lines plus one per non-empty optional field: title, reception time, separator, escaped identifier, type and upper-cased urgency, then the location and date lines when given, then a blank line, the description heading and the description |
| Telegram.OptionalLinesPresence | server/utils/telegram.ts:52-53 | some line starts with the location label exactly when a non-empty location was given; likewise for the incident date |
| Telegram.PrefixedLine | server/utils/telegram.ts:52-57 | a line that starts with the location label exists only when a non-empty location was given, and likewise for the date label |
| Telegram.EscapedLacksLabel | server/utils/telegram.ts:57 | an escaped description never starts with the location or date label |
| Telegram.EscapedNeverStartsBare | server/utils/telegram.ts:61-63 | escaped text never starts with an unreserved character followed by a space and a bare asterisk |
| Telegram.DescriptionLine | server/utils/telegram.ts:55-57 | the last line is the escaped clipped description, with the ellipsis outside the escaping |
| Telegram.MessageIgnoresPrivateFlags | server/utils/telegram.ts:31-58 | the witness, evidence and contact fields do not change the message |
| DenunciaHandler.LabelTablesMatchSchema | server/api/denuncia.post.ts:115-133 | the label tables cover exactly the types and urgency levels the schema accepts |
| DenunciaHandler.TipoLabelFacts | server/api/denuncia.post.ts:115-124 | accepted types get distinct labels that are not type names; any other input comes back unchanged; labelling is idempotent |
| DenunciaHandler.UrgencyLabelFacts | server/api/denuncia.post.ts:126-133 | the same for urgency levels |
| DenunciaHandler.CatchAll | server/api/denuncia.post.ts:104-111 | the outer catch always yields a non-zero status and a non-empty message; an HTTP error passes through; a plain failure becomes 500 "Erro interno do servidor" |
| DenunciaHandler.Stamped | server/api/denuncia.post.ts:38-42 | the server's identifier and creation time replace the client's; every other key is copied |
| DenunciaHandler.ConformingIsShaped | server/api/denuncia.post.ts:28-42 | a body that passes the schema has the field types the later steps read |
| DenunciaHandler.Sanitized | server/api/denuncia.post.ts:38-42 | sanitising keeps the client's type and urgency, and the description stays a string |
| DenunciaHandler.AlertText | server/api/denuncia.post.ts:66 | the alert starts with a fixed head followed by the identifier as it is, then a tail of fixed length |
| DenunciaHandler.StoreComesFirst | server/api/denuncia.post.ts:45-61 | once a body is admitted, the store batch is the first call and at most two follow it |
| DenunciaHandler.AlertBeforeNotification | server/api/denuncia.post.ts:63-68 | when the store batch fails, the alert is the next call, ahead of any notification |
| DenunciaHandler.FailedAlertAborts | server/api/denuncia.post.ts:63-68 | a failed alert ends the request with a 500 "Erro interno do servidor" and no notification |
| DenunciaHandler.MissingSettingRejects | server/api/denuncia.post.ts:71-102 | once the store or its alert went through, a missing bot setting gives 500 "Configuração ausente" and no call follows the store steps |
| DenunciaHandler.AcceptedOnlyAfterNotification | server/api/denuncia.post.ts:70-95 | success happens exactly when the store or its alert went through, both settings are present and the notification was delivered; it carries the generated identifier, the notification is the last call, and every other outcome is a 500 |
| DenunciaHandler.StoredSummaryIsProjection | server/api/denuncia.post.ts:46-60 | the store batch is the hash of identifier, type, urgency and ISO creation time under the report key, then that key in the date index scored by the creation time |
| DenunciaHandler.ServerStampsOverride | server/api/denuncia.post.ts:38-42 | the sanitised report carries the generated identifier and the server's creation time |
| DenunciaHandler.NotificationContent | server/api/denuncia.post.ts:72-83 | the notification carries the generated identifier, the labels of the type and urgency and a description without phone-like runs; the raw contact, witness and evidence fields do not change it |
| DenunciaHandler.HandleDenuncia | server/api/denuncia.post.ts:15-112 | a method other than POST gets 405 with no call; an unreadable body gets its error after the read; a body that fails the schema gets 400 with the field messages after the read; an admitted body goes on as the submission functions say |
| DenunciaHandler.Submit | server/api/denuncia.post.ts:38-102 | the steps after validation make exactly the specified calls and give the specified reply |
| DenunciaHandler.Deliver | server/api/denuncia.post.ts:53-68 | the store batch, the alert on failure and what follows make the specified calls and reply |
| DenunciaHandler.Notify | server/api/denuncia.post.ts:70-102 | the notification step, or the configuration error, makes the specified calls and reply |
| DenunciaHandler.SendNotification | server/api/denuncia.post.ts:72-94 | with both bot settings present, sending the notification makes the specified calls and gives the specified reply |
| DenunciaHandler.Prepare | server/api/denuncia.post.ts:38-42 | the identifier is the generated one and the report is the sanitised, stamped body |
| DenunciaHandler.QueueSummary | server/api/denuncia.post.ts:46-61 | the pipeline queues exactly the specified store batch |
| DenunciaHandler.ComposeNotification | server/api/denuncia.post.ts:72-83 | the text built is the notification of the sanitised report |
| Statistics.TallyCounts | server/api/telegram/webhook.post.ts:134-140 | a key is in the tally exactly when it occurs, and it is mapped to its number of occurrences |
| Statistics.KeysOf | server/api/telegram/webhook.post.ts:136 | the keys are taken item by item, in order |
| Statistics.CountBy | server/api/telegram/webhook.post.ts:134-140 | the loop's accumulator holds exactly the keys that occur, each with its number of occurrences |
| Statistics.FirstOccurrencesKeys | server/api/telegram/webhook.post.ts:134-140 | the keys in order of first insertion are distinct and are exactly the keys that occur |
| Statistics.TallySumsToLength | server/api/telegram/webhook.post.ts:134-140 | the counts of all keys add up to the number of items |
| Statistics.CountWithin | server/api/telegram/webhook.post.ts:75-77 | a window count is at most the number of entries |
| Statistics.CountWithinMonotone | server/api/telegram/webhook.post.ts:75-77 | a wider window counts at least as many entries |
| Statistics.UtcHour | server/api/telegram/webhook.post.ts:84 | the UTC hour lies in 0..23 |
| Statistics.UtcWeekday | server/api/telegram/webhook.post.ts:87 | the UTC weekday lies in 0..6 |
| Statistics.NextDay | server/api/telegram/webhook.post.ts:84-87 | a day later, the weekday advances by one modulo 7 and the hour is the same |
| Statistics.AscendingKeys | server/api/telegram/webhook.post.ts:85 | the key order of an integer-keyed tally is ascending and holds exactly the keys in range |
| Statistics.ReduceIsLastMaximum | server/api/telegram/webhook.post.ts:85 | the reduction yields a key of greatest count, and no later key has that count |
| Statistics.ReduceAscending | server/api/telegram/webhook.post.ts:85 | over ascending keys, the reduction yields a busiest key with no larger key as busy |
| Statistics.TieGoesToLargest | server/api/telegram/webhook.post.ts:85 | in a tie, the larger key wins |
| Statistics.PeakIsLargestBusiest | server/api/telegram/webhook.post.ts:84-88 | the peak is absent exactly when nothing is counted; otherwise it is the largest key of greatest count |
| Statistics.PeakLabelNa | server/api/telegram/webhook.post.ts:85-88 | the peak's text is 'N/A' exactly when there is no peak |
| Statistics.CalculateStatistics | server/api/telegram/webhook.post.ts:70-91 | the method computes exactly the figures of the entries at the given time |
| Statistics.StatisticsFacts | server/api/telegram/webhook.post.ts:70-91 | today ≤ week ≤ month ≤ total, and the total is the number of entries; every type and urgency counted occurs that often (never zero), and the counts add up to the total; the peaks are 'N/A' exactly when there are no entries |
| Statistics.PeakOfTimes | server/api/telegram/webhook.post.ts:84-88 | an hour or weekday peak is 'N/A' exactly when there are no entries |
| Webhook.Member | server/api/telegram/webhook.post.ts:20 | optional chaining yields `undefined` on anything but an object, and the property otherwise |
| Webhook.ChatIdText | server/api/telegram/webhook.post.ts:24 | a string chat id is kept, an integral number below 10^21 is written in decimal and a boolean as a word; any other id goes through `toText`, which gives nothing where `toString` throws |
| Webhook.Screen | server/api/telegram/webhook.post.ts:20-25 | an update goes on only with a string text, whose trim is the command; an update without a truthy text is ignored |
| Webhook.Fetches | server/api/telegram/webhook.post.ts:48-49 | one hash read per indexed key, in index order |
| Webhook.Present | server/api/telegram/webhook.post.ts:51 | the filter keeps exactly the reports that came back, and no more items than results |
| Webhook.StatsRequestRuns | server/api/telegram/webhook.post.ts:38 | a `/stats` command from the configured chat runs the statistics branch after the body read |
| Webhook.HandleWebhook | server/api/telegram/webhook.post.ts:13-67 | the handler's reply and calls are the specified ones |
| Webhook.RunStats | server/api/telegram/webhook.post.ts:38-64 | the branch, with its catch, makes the specified calls and reply |
| Webhook.TryStats | server/api/telegram/webhook.post.ts:40-59 | the try block makes the specified calls and ends as specified |
| Webhook.QueueFetches | server/api/telegram/webhook.post.ts:48-49 | the loop queues one hash read per key, in order, on a new pipeline |
| Webhook.UpdateWithoutTextIsIgnored | server/api/telegram/webhook.post.ts:20-22 | an update without a truthy text gets 200 "Requisição ignorada" after the body read alone |
| Webhook.UpdateWithoutChatIdIsIgnored | server/api/telegram/webhook.post.ts:20-22 | an update whose chat id is falsy is ignored in the same way |
| Webhook.OnlyStatsRequestsReachTheStore | server/api/telegram/webhook.post.ts:38-66 | any call after the body read happens exactly for a `/stats` command from the configured chat, and the first of them reads the date index; any other well-formed update gets 200 "OK" |
| Webhook.PaddedCommandRuns | server/api/telegram/webhook.post.ts:24-25 | an update whose text is `/stats` padded with a leading space and a trailing newline, from any non-empty string chat id, passes the screen as the `/stats` command |
| Webhook.TrimPadded | server/api/telegram/webhook.post.ts:25 | that padded text trims to `/stats` |
| Webhook.EmptyIndexSendsNotice | server/api/telegram/webhook.post.ts:43-46 | an empty index sends the "no reports" notice and returns a bare 200; if that send fails, the apology follows |
| Webhook.StatisticsOfFetchedReports | server/api/telegram/webhook.post.ts:48-58 | a non-empty index is fetched in one pipeline; the message is the formatted figures of exactly the reports that came back, and on delivery the reply is "OK" |
| Webhook.FailureSendsApology | server/api/telegram/webhook.post.ts:60-63 | a failure in the try block ends with the apology as the last call, and the reply is "OK" exactly when the apology is delivered |
| Webhook.AtMostTwoMessages | server/api/telegram/webhook.post.ts:38-66 | at most five calls and at most two messages, every message going to the configured chat after the index read |
| Webhook.UnconvertibleChatIdThrows | server/api/telegram/webhook.post.ts:20-24 | an update with a text and a truthy chat id whose `toString` throws gets the thrown response after the body read alone |
| Webhook.SendCountAppend | server/api/telegram/webhook.post.ts:38-66 | counting the messages of a concatenation adds the counts of its parts |
| Webhook.StatsSendCount | server/api/telegram/webhook.post.ts:40-63 | the `/stats` branch sends at most two messages |
| Webhook.TrySendCount | server/api/telegram/webhook.post.ts:40-59 | the try block sends at most one message |
| Webhook.StatsSends | server/api/telegram/webhook.post.ts:40-63 | the branch makes at most four calls, and sends only to the configured chat, never first |
| Webhook.TrySends | server/api/telegram/webhook.post.ts:40-59 | the try block makes at most two calls, and sends only to the configured chat |

## Left out

- Sending a message (server/utils/telegram.ts:10-29) is a network call. It appears as a `SendMessage` effect, and whether it succeeds is an `Environment` field. The request body, headers and the error text it builds are not modelled.
- `formatDateTime` (server/utils/telegram.ts:65-72) and `toLocaleDateString`: locale and time-zone formatting are passed in as function parameters.
- `formatStatsMessage` (server/api/telegram/webhook.post.ts:94-131) computes percentages in floating point. It is passed in as the `formatStats` parameter, and the model proves which figures it receives.
- `toISOString` is a parameter. Reading stored summaries back gives `Entry` values whose creation time is already an integer; parsing the ISO text back, and invalid dates (NaN), are not modelled.
- The stored-report type the webhook imports (`DenunciaKV`) is not defined in app/types/index.ts. The model reads stored summaries as `Statistics.Entry` (type, urgency, creation time).
- `Statistics.CalculateStatistics`: hours and weekdays are counted under integer keys rather than their decimal strings. The mapping is one-to-one, and the integer keys reproduce the ascending key order of the JavaScript object.
- Logging, the store client's construction and the runtime configuration loading are I/O; the configuration is a parameter.
- The clock (`Date.now`, `new Date()`) and `Math.random` are parameters. The random number's base-36 text is described by `AnonymousId.RandomText`. Identifier uniqueness cannot be proved, because the source accepts collisions; the ordering by clock is proved instead.
- `Text.ToUpper`: upper-casing follows the ASCII mapping only. The Unicode case mapping of `toUpperCase` is not modelled, so non-ASCII letters in the urgency line are kept as they are.
- A `char` is a Unicode scalar value, not a UTF-16 code unit, so lone surrogates cannot be represented. Every length and slice in the model counts a character outside the Basic Multilingual Plane (an emoji, say) once, where JavaScript counts two code units. For such text the model differs from the source in the description's `min(10)` and `max(2000)` and the location's `max(200)` (`Schema.DescricaoIssues`, `Schema.BoundedTextIssues`), in the 3500-character clip (`Telegram.ClipDescription`) and in the `slice(0, 2)` and `slice(-2)` of `sanitizeContact` (`Sanitizer.ContactOtherMasked`), which in JavaScript can split a surrogate pair.
- Label lookup (server/api/denuncia.post.ts:115-133) on inherited names such as `constructor` returns an object-prototype member in JavaScript; the model returns the input, as for any other unknown key.
- Schema messages follow zod version 3: its `required_error` and `invalid_type_error` options and its default "Required", "Expected string, received …" and "Invalid enum value. Expected …, received '…'" wording. The error maps stated by `Schema.ValidationErrorsByField` assume that version; zod 4 words these messages differently and does not honour those options.
- The non-schema error branch of `validateDenuncia` (app/utils/validation.ts:46) is not modelled: parsing a plain value raises only schema errors.
- Image attachments, photo and media-group sends are not in the source files of this model; attachment handling is not part of this model.
- `Webhook.ChatIdText`: a chat id that is a non-integral or very large number, an array or an object is turned into text by the `toText` parameter, which gives nothing where `toString` throws (the update then crashes); which objects and arrays do so is not modelled. An exception thrown by the webhook handler is the `Threw` response; the framework turns it into a 500.
- Concurrency: each request is one sequential run; the model has no shared state between requests.
- The statistics command's HTTP method, the webhook's missing authentication and the framework's routing are outside the model.
