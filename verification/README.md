# Verification model of the Telegram ⇄ Bale bridge

The repository mirrors Telegram channels and groups to Bale and back: it translates
formatted text, copies messages and albums, links each message to its copy for replies,
edits and deletions, and must never mirror its own copies. This project models that
core in Dafny and proves what it keeps.

| files | what they model |
|---|---|
| `Text`, `Utf16`, `Markdown`, `Entities`, `TgToBale`, `BaleToTg`, `RoundTrip` | UTF-16 offsets (section 2.1 of RFC 2781), the Markdown pattern, the printer, the parser, `build_entities`, and the two round trips |
| `Splitting`, `HeaderShift`, `TextSend` | cutting and truncating texts, the forward header, sending a long text in parts |
| `Messages`, `LoopCache`, `SecondLayer`, `Albums`, `MessageMap`, `Pairs` | the ledger and the fingerprints, what the two let through of a job, the album buffer, the message table, the pairs table |
| `PairSend`, `AlbumSend`, `AlbumToTelegram` | what `pair_send` looks up and writes, and what an album send returns and leaves recorded |
| `MirrorProtocol`, `MirrorSafety`, `MirrorLoops`, `MirrorOrder`, `MirrorTermination`, `QueueEngine` | mirroring as a state machine, its invariants, runs that do loop, the order of its queues, its measure, and the engine that takes its steps |
| `DeleteProtocol`, `DeleteSafety`, `DeleteSync` | two-way deletion, and the deletions of replaced copies, as a state machine, its invariants, and the code that takes its steps |
| `EditSync`, `EditSteps` | Telegram to Bale edits with their send-then-delete fallback, and that it takes steps of the deletion protocol |
| `Polling`, `ChatTypes`, `LoginLimiter` | long polling, the Bale chat-type cache, the login limiter |
| `Sequences`, `Sorting` | shared facts, and the stable sort the bridge relies on |

Objects whose methods update fields are classes (`LoopCache`, `AlbumCollector`,
`MapEngine`, `PairsEngine`, `PairSender`, `QueueEngine`, `LoopGuard`, `DeleteSyncEngine`,
`EditSyncEngine`, `ListenEngine`, `BaleSession`, `AuthEngine`), loops are loops, and each
method is proved against a function of the old state; the theorems are about those
functions, over every input, every run or every interleaving. Network answers, clocks and
the choices of users are parameters or steps of the environment. `dafny verify
dfyconfig.toml` checks everything.

What the model found in the code:

- An album with one message that cannot be grouped (a voice message or a sticker, say)
  ends in an exception after everything was sent: the ids of those messages enter the
  result without their source and sorting it fails, so nothing is recorded
  (`AlbumSend.MixedAlbumRaises`).
- A failed `get_chat` writes back the chat type it read before it waited. If a group-like
  update arrived meanwhile, a channel is cached as a group, or "channel" is forgotten
  (`ChatTypes.OverlappingGetChatPoisons`); `ChatTypes.ChannelNeverGroup` and
  `ChannelIsSticky` say exactly when.
- A Telegram id above 9999999999 also finds pairs of the chat whose id is its marked form
  (`Pairs.LongIdsCollide`); the code's comments promise both shapes without this limit.
- A pair matched by username alone gets rows naming a foreign Bale chat, and a later reply
  resolves to a message of that chat (`PairSend.UsernameMatchBreaksReplies`).
- Editing a message the bridge itself made redirects the wrong end of its row, which then
  joins two messages of one platform and answers no reply (`EditSync.ReplacementLinksSource`,
  `PairSend.EditedCopyLeavesPair`); `PairSend.RowsStayInPairs` says exactly when rows stay
  inside their pair.
- A bridge-made message is mirrored again when its echo is worked on before its record, when
  an edit takes its token while the first event is still queued, or when a group was sent
  half-way and only the fallback is recorded (`bridge/bale/sender.py:138-154` sends the items
  one by one and returns no id after a failure). `MirrorLoops` holds a run for each, up to the
  second message, and `MirrorSafety.NoLoops` is exact over all of them.
- A replaced copy that could not be deleted keeps its mark in the echo sets, and so does one a
  bot deleted, since no event reports it (`DeleteSafety.Leaks`); the next deletion of the
  former by a user is then taken for an echo. `DeleteSafety.EchoSetsAreExact` accounts for both.
- An event that shows a channel with the peer type of a user overwrites "channel"
  (`ChatTypes.ChannelIsSticky`), though it never makes it a group.
- An entry of Telegram's answer to an album that is not a message stays in the result, and
  recording stops there with an exception (`AlbumToTelegram.AnswerWithoutMessage`).
- The login limit counts requests one at a time; requests that overlap are all verified
  (`LoginLimiter.OverlappingRequestsAllPass`), and `FailuresAreBounded` accounts for them.

## Model

| member | source | states |
|---|---|---|
| Utf16.IndexMap | bridge/textfmt/types_map.py:35-42 | the map sends exactly the UTF-16 offsets of character boundaries to their indices, so positions inside a surrogate pair are absent |
| Utf16.IndexExact | bridge/textfmt/types_map.py:30-42 | a UTF-16 position has an index exactly when it is the offset of that index: no two boundaries share one |
| Utf16.LenIsEncodedLength | bridge/textfmt/types_map.py:30-32 | a text has as many units as its UTF-16 encoding, which decodes to the text |
| Utf16.OffsetIsUnitPosition | bridge/textfmt/types_map.py:35-42 | the offset of a character is where its one or two code units begin in the encoding |
| Markdown.AllowedInWords | bridge/textfmt/types_map.py:16-20 | the pattern said in words: non-empty bodies on one line without their closing character, targets "http://" or "https://" and more, without white space or a closing parenthesis |
| Markdown.MatchAtExact | bridge/textfmt/types_map.py:16-20 | at a position the pattern matches exactly one text, the one a reader would mark up: the three alternatives are deterministic |
| Markdown.FindAllExact | bridge/textfmt/bale2tg.py:22-22 | left-to-right search returns the one list of matches with nothing matching in any gap before them |
| TgToBale.Convert | bridge/textfmt/tg2bale.py:24-68 | the printing loop returns the text with the kept spans decorated, for any entities whatever |
| TgToBale.PrintedIsDecoratedText | bridge/textfmt/tg2bale.py:50-68 | the output is gaps and decorated chunks that, undecorated, spell the input: nothing lost, repeated or moved |
| TgToBale.TextIsPrinted | bridge/textfmt/tg2bale.py:50-68 | for every text and entity list all characters of the text are printed, in order: only marks are added |
| TgToBale.SpanOfExactly | bridge/textfmt/tg2bale.py:36-44 | an entity is considered exactly when its class is supported and its ends are the UTF-16 offsets of two characters in order |
| TgToBale.KeptIsMaximalChoice | bridge/textfmt/tg2bale.py:36-54 | kept spans are valid, ordered and disjoint, and each valid span left out starts inside a kept one |
| TgToBale.OutputIgnoresEntityOrder | bridge/textfmt/tg2bale.py:36-50 | when no two valid spans have the same ends any reordering of the entities gives the same output |
| TgToBale.TiesFollowEntityOrder | bridge/textfmt/tg2bale.py:50-54 | with a tie the first entity listed wins, so the condition is needed |
| BaleToTg.Convert | bridge/textfmt/bale2tg.py:15-40 | the parsing loop returns the text with the marks removed and the entities of its matches |
| BaleToTg.ParsedEntitiesAreWellPlaced | bridge/textfmt/bale2tg.py:22-40 | for every string: entities are non-empty, ordered, disjoint, cover exactly their bodies, none is dropped by `build_entities`, and their UTF-16 intervals are ordered, disjoint and in range |
| Entities.BuildEntities | bridge/transfer/types_map.py:108-130 | the loops return, in order, the UTF-16 form of each entity that lies in the text, is not empty and is no link without a target |
| Entities.BuiltKeepsAll | bridge/transfer/types_map.py:112-130 | well-placed entities all survive, one for one, and stay ordered, disjoint and within the UTF-16 length |
| RoundTrip.TelegramRoundTrip | bridge/textfmt/tg2bale.py:24-68 | printing, parsing and rebuilding returns the text and its entities exactly if and only if the entities are well placed, each chunk is one the pattern can read, and no gap opens a match |
| RoundTrip.CleanTextRoundTrip | bridge/textfmt/bale2tg.py:15-40 | a text without pattern openers and with well-placed readable entities survives the trip |
| RoundTrip.TextRoundTrip | bridge/textfmt/tg2bale.py:50-68 | for every text and entity list, well placed or not: Bale reads the same text, with exactly the marked spans as entities, if and only if every marked chunk is readable and no match opens outside them, plain URLs and bare links included |
| RoundTrip.CleanTextSurvives | bridge/textfmt/tg2bale.py:61-65 | without pattern openers the text survives any entities whose chunks are readable or printed bare |
| RoundTrip.BaleRoundTrip | bridge/textfmt/tg2bale.py:52-68 | Bale to Telegram to Bale returns the source of every string except exactly those with a link whose text starts with "http" |
| Splitting.TruncateFits | bridge/textfmt/splitting.py:11-15 | a truncated text fits its limit, and is the beginning of the text and an ellipsis |
| Text.StripExact | bridge/textfmt/tg2bale.py:62-62 | stripping removes white space at both ends, and all of it |
| Splitting.GoodCutInText | bridge/textfmt/splitting.py:32-41 | a cut stands after a line break of the text, never inside `\r\n`, or in a line over the limit a multiple of the limit after its start |
| HeaderShift.HeaderIsOwnLine | bridge/textfmt/splitting.py:18-23 | the header is a line of its own in front of a text that is not blank, and stands alone otherwise |
| Splitting.SplitText | bridge/textfmt/splitting.py:26-44 | parts concatenate to the text, fit the limit, are not empty, break only at line ends or hard cuts of long lines, and any three in a row exceed the limit |
| Splitting.PartCountBound | bridge/textfmt/splitting.py:30-44 | so the number of parts is at most linear in the length over the limit |
| HeaderShift.HeaderKeepsEntitiesAligned | bridge/transfer/mirror_b2t.py:90-95 | behind the header an entity survives exactly when the body is sent, and covers the same characters |
| HeaderShift.TruncationKeepsEntitiesAligned | bridge/transfer/mirror_b2t.py:137-142 | after truncation an entity survives exactly when it ends within the limit, and is aligned exactly when it ends before the ellipsis (or the ellipsis replaced one); under a lone header none survives |
| TextSend.SendParts | bridge/transfer/mirror_t2b.py:93-98 | the parts are sent in order, only the first replies, every id is returned, and a failure leaves those sent before |
| TextSend.SendText | bridge/transfer/mirror_t2b.py:93-98 | on success the messages spell header and text and their number is bounded; otherwise a beginning of it was sent and no id is returned |
| LoopCache.LoopCache.MarkSent | bridge/dbstore/loopcache.py:16-20 | appends one token |
| LoopCache.LoopCache.WasSent | bridge/dbstore/loopcache.py:22-31 | answers whether there is a token for the key and removes one |
| LoopCache.LoopCache.AddFp | bridge/dbstore/loopcache.py:34-38 | appends one fingerprint under a new id |
| LoopCache.LoopCache.CheckFp | bridge/dbstore/loopcache.py:40-49 | answers whether there is a fingerprint younger than the window and removes one |
| LoopCache.LoopCache.Prune | bridge/dbstore/loopcache.py:52-57 | removes exactly the rows older than the limit |
| LoopCache.LedgerConservation | bridge/dbstore/loopcache.py:16-57 | over every run and key, rows left are marks minus successful look-ups minus the rows a prune found older than its limit |
| LoopCache.HitsBoundedByMarks | bridge/dbstore/loopcache.py:22-31 | a key is never recognised more often than it was marked |
| LoopCache.FingerprintHitsAreCharged | bridge/dbstore/loopcache.py:34-49 | each fingerprint hit is charged to an earlier registration of the same fingerprint less than the window before, no two to the same one |
| LoopCache.FpConservation | bridge/dbstore/loopcache.py:34-57 | over every run and fingerprint, rows left are registrations minus hits minus the rows a prune found older than its limit, so the second layer drops no more messages than the bridge posted |
| SecondLayer.KeptExactly | bridge/transfer/mirror_b2t.py:29-39 | a message of a job gets through exactly when the ledger does not know it and the unmarked messages of its content before it have used up all young fingerprints; what gets through keeps its order |
| SecondLayer.OwnContentKept | bridge/transfer/mirror_b2t.py:36-39 | so the first message of a content is dropped exactly when the ledger knows it or a young fingerprint does |
| SecondLayer.RowsUsedUp | bridge/dbstore/loopcache.py:40-49 | a job uses up, of each content, as many young fingerprints as it has unmarked messages of it, or all of them, and no other row |
| Albums.AlbumCollector.Feed | bridge/transfer/albums.py:27-32 | buffers the item under its key and arms a timer exactly for the first |
| Albums.AlbumCollector.Flush | bridge/transfer/albums.py:34-40 | queues the sorted batch of the key and forgets key and timer |
| Albums.AlbumConservation | bridge/transfer/albums.py:27-40 | over any interleaving armed timers are the pending keys, none is empty, and what was fed under a key is pending or queued under it in sorted batches |
| MessageMap.MapEngine.Add | bridge/dbstore/map.py:15-23 | appends a row under a new id |
| MessageMap.MapEngine.Lookup | bridge/dbstore/map.py:25-55 | the loop with its `seen` set returns the hits of the simple recursive look-up |
| MessageMap.MapEngine.RemoveRow | bridge/dbstore/map.py:57-58 | removes the row with that id |
| MessageMap.MapEngine.ReplaceDst | bridge/dbstore/map.py:60-65 | overwrites the destination of the row with that id |
| MessageMap.LookupExact | bridge/dbstore/map.py:28-55 | finds exactly the messages some row of the pair joins to the key, from either end |
| MessageMap.LookupSound | bridge/dbstore/map.py:36-55 | reports no counterpart twice, each with a live row joining it |
| MessageMap.LookupInOrder | bridge/dbstore/map.py:35-55 | counterparts are reported in the order of their oldest rows |
| MessageMap.LookupSymmetric | bridge/dbstore/map.py:25-55 | b is a counterpart of a in a pair exactly when a is one of b |
| MessageMap.TableHoldsLiveRows | bridge/dbstore/map.py:15-65 | through any sequence of adds, removals, replacements and pair removals the table holds exactly the rows still alive, with their latest destination |
| MessageMap.LookupReportsLiveRows | bridge/dbstore/map.py:25-65 | so a look-up at any time, in one pair or in all, reports exactly the other ends of the rows alive then |
| Pairs.PairsEngine.Add | bridge/dbstore/pairs.py:26-36 | stores the pair under a new id with the bare Telegram id |
| Pairs.PairsEngine.Remove | bridge/dbstore/pairs.py:38-44 | removes the pair and all its message rows, and says whether it existed |
| Pairs.PairsEngine.SetMode | bridge/dbstore/pairs.py:52-54 | changes the mode of that pair only |
| Pairs.SetModeDirects | bridge/dbstore/pairs.py:52-54 | after a change of mode that pair is found in the new directions only, and who finds any other pair is as before |
| Pairs.WithoutIdExact | bridge/dbstore/pairs.py:38-44 | removing a pair removes it and no other, in order |
| Pairs.BareIdempotent | bridge/tguser/types_map.py:18-31 | normalising twice is normalising once |
| Pairs.AddedPairFound | bridge/dbstore/pairs.py:14-63 | a pair added under y is found for x exactly when the mode allows it and bare(x) = bare(y), or x is too long and y is its marked form |
| Pairs.LookupSeparatesChats | bridge/dbstore/pairs.py:14-63 | the look-up confuses no chats exactly for bare ids up to 9999999999 |
| Pairs.LongIdsCollide | bridge/dbstore/pairs.py:14-17 | a concrete collision above that |
| Pairs.BothShapesFound | bridge/dbstore/pairs.py:56-63 | rows stored in either shape are found exactly for their chat, unless the bare id is 0 or too long |
| Pairs.ForBaleExact | bridge/dbstore/pairs.py:65-73 | returns exactly the pairs matched by id or by username whose mode allows |
| Pairs.NamelessById | bridge/dbstore/pairs.py:67-73 | a pair found by its name has one, and the event names it; without a name on either side only the id counts |
| Pairs.LowerInWords | bridge/dbstore/pairs.py:70-71 | each capital letter becomes its small one and nothing else changes |
| Pairs.ModesDirect | bridge/dbstore/pairs.py:56-73 | by their names: "tg2bale" and "both" pairs of a chat are found for Telegram, "bale2tg" and "both" for Bale, and no others |
| Pairs.PairsInTableOrder | bridge/dbstore/pairs.py:56-73 | pairs are served in the order of the table |
| Pairs.UsernameLookupIgnoresCaseAndAt | bridge/dbstore/pairs.py:69-71 | letter case and leading at-signs of the username make no difference |
| Pairs.RemovalForgetsLinks | bridge/dbstore/pairs.py:38-44 | removing a pair forgets its links and no other pair's |
| PairSend.StrInjective | bridge/transfer/queueing.py:62-62 | different chat ids have different keys |
| PairSend.StrIsDecimal | bridge/transfer/queueing.py:62-62 | the key of a chat is its id in decimal |
| PairSend.PairSender.ResolveReply | bridge/transfer/mirror_t2b.py:50-57 | returns the first counterpart on the destination platform |
| PairSend.PairSender.Record | bridge/transfer/mirror_t2b.py:67-72 | writes exactly one row, one token and one fingerprint per copy, in order, and nothing else |
| PairSend.ToBaleRowsInPair | bridge/transfer/mirror_t2b.py:35-72 | rows written for a pair found by id join its two chats, for ids that fit |
| PairSend.ToTgRows | bridge/transfer/mirror_b2t.py:43-80 | rows written towards Telegram join the pair's chats exactly when the pair was matched by id |
| PairSend.ActKeepsConsistent | bridge/dbstore/map.py:57-65 | one job, replaced copy or removal keeps all rows of a pair inside it exactly when the job matches the pair by its ids and the edited message is the source of the replaced row |
| PairSend.RowsStayInPairs | bridge/transfer/mirror_b2t.py:55-80 | over any sequence of these, replacements using a hit looked up at any time before, rows join their pair's two chats at all times if and only if every act met that condition when it was done |
| PairSend.HitsStayNamed | bridge/transfer/sync_edit.py:34-63 | until then a hit looked up at any earlier time still tells the ends of its row apart when the replacement is done, whatever came between |
| PairSend.EditedCopyLeavesPair | bridge/transfer/sync_edit.py:56-65 | the condition is needed: editing the Telegram copy of a Bale message leaves a row of two Bale messages, and a reply that was resolved before finds nothing |
| PairSend.ReplyIsLinked | bridge/transfer/mirror_t2b.py:47-57 | a resolved reply is a message of the destination chat linked in the same pair to the one replied to, and one is resolved whenever there is such a message |
| PairSend.ReplyIsOldest | bridge/transfer/mirror_t2b.py:50-57 | of several linked messages a reply resolves to the one whose row is the oldest |
| PairSend.RepliesStayLinked | bridge/transfer/mirror_t2b.py:47-57 | so it is after any sequence of such acts |
| PairSend.UsernameMatchBreaksReplies | bridge/transfer/mirror_b2t.py:43-65 | a concrete reply into a foreign chat for a pair matched by username only |
| AlbumSend.SendAlbumToBale | bridge/transfer/mirror_t2b.py:212-282 | splitting, downloading, group call, fallback and sorting return the specified copies or raise |
| AlbumSend.TelegramAlbumAccounting | bridge/transfer/mirror_t2b.py:222-282 | returns exactly when every transfer works and nothing ungroupable was sent; the result is sorted and has one copy of every groupable message exactly when the group call answered for each |
| AlbumSend.TgKindsRouted | bridge/transfer/mirror_t2b.py:214-238 | photos, videos, documents and audio files join the group if they fit and are sent alone if not, all other kinds are sent as ordinary messages; the group keeps the album's order |
| AlbumSend.TgReturnsInWords | bridge/transfer/mirror_t2b.py:222-282 | said item by item: when the album returns and when it raises |
| AlbumSend.CopiesAreOwn | bridge/transfer/mirror_t2b.py:234-270 | the copies are exactly: the id of each lone send with its own message, and the group's answer at each message's own place, or the ids of the single sends |
| AlbumSend.MixedAlbumRaises | bridge/transfer/mirror_t2b.py:272-281 | one ungroupable message that was sent makes the whole album raise |
| AlbumSend.PairSendAlbum | bridge/transfer/mirror_t2b.py:64-72 | nothing is recorded when the album raises, else one row, token and fingerprint per copy |
| AlbumToTelegram.SendFiles | bridge/transfer/mirror_b2t.py:181-199 | the group's list is taken entry by entry, whatever its entries are; only an exception, or no group, sends the files one by one |
| AlbumToTelegram.SendAlbumToTg | bridge/transfer/mirror_b2t.py:160-207 | splitting, downloading, group call, fallback and sorting return the specified entries or raise |
| AlbumToTelegram.BaleAlbumAccounting | bridge/transfer/mirror_b2t.py:160-207 | returns exactly when no transfer raises; sorted, ordinary messages counted once per message sent, each file once exactly when Telegram's list is not too short |
| AlbumToTelegram.BaleKindsRouted | bridge/transfer/mirror_b2t.py:165-179 | photos, videos, documents and audio files that can be downloaded are the files, in order, and all others ordinary messages |
| AlbumToTelegram.BaleReturnsInWords | bridge/transfer/mirror_b2t.py:160-207 | said item by item: when the album returns and when it raises |
| AlbumToTelegram.SlotsAreOwn | bridge/transfer/mirror_b2t.py:176-199 | the entries are exactly: each id of an ordinary send with its own message, and for each file the list's entry at its place or the id of its own send |
| AlbumToTelegram.RecordsAllMessages | bridge/transfer/mirror_b2t.py:75-80 | everything is recorded exactly when every entry is a message |
| AlbumToTelegram.PairSendAlbum | bridge/transfer/mirror_b2t.py:72-80 | one row, token and fingerprint for each entry up to the first that is no message, which raises; nothing when the album raised |
| AlbumToTelegram.AnswerWithoutMessage | bridge/transfer/mirror_b2t.py:187-188 | a concrete answer whose second entry is no message: no fallback, the first photo is recorded and the second ends the recording |
| MirrorSafety.StepKeepsInv | bridge/transfer/queueing.py:39-106 | every step of every interleaving keeps, whatever part of the created messages is recorded: each message pending at most once, tokens single and only for recorded messages, a recorded pending echo has its token unless it was taken |
| MirrorSafety.EchoHoldsOneToken | bridge/transfer/mirror_t2b.py:67-72 | in every reachable state such an echo holds exactly one token |
| MirrorSafety.LedgerIsExact | bridge/transfer/mirror_b2t.py:29-39 | the check of a job drops a message exactly when the bridge made and recorded it and its token was not lost |
| MirrorSafety.DeliverTokens | bridge/transfer/queueing.py:61-68 | an event uses up one token of its message, which is dropped, or none, and the message becomes work |
| MirrorSafety.EditTokens | bridge/transfer/queueing.py:70-73 | an edit event uses up one token of its message and changes nothing else |
| MirrorProtocol.SiftKeepsOrder | bridge/transfer/mirror_t2b.py:31-32 | the messages a job keeps stay in order |
| MirrorSafety.NoLoops | bridge/transfer/queueing.py:61-106 | over every interleaving, with any of the created messages left unrecorded, no bridge-made message is ever handed to a pair's `pair_send` if and only if no worker that has a pair to serve takes an echo without its token that the second layer does not know |
| MirrorSafety.RecordedEchoesNeverLoop | bridge/transfer/mirror_t2b.py:30-72 | when echoes are worked on only after their message is recorded nothing is mirrored twice |
| MirrorLoops.EchoBeforeRecordLoops | bridge/transfer/mirror_t2b.py:60-72 | a run in which an echo is worked on before its record, and a second message is sent to the chat of the first |
| MirrorLoops.EditBeforeEchoLoops | bridge/transfer/queueing.py:70-73 | a run in which an edit takes the token of a queued echo, and a copy of that echo is sent |
| MirrorLoops.HalfSentGroupLoops | bridge/transfer/mirror_t2b.py:248-268 | a run in which an album of two is sent half-way, only the fallback is recorded, and a copy of the first message goes back |
| MirrorOrder.ArrivalIsLast | bridge/transfer/queueing.py:61-68 | the event of a single message puts it behind all jobs of its platform |
| MirrorOrder.AlbumIsLast | bridge/transfer/albums.py:34-40 | a fired timer puts the whole album, sorted by id, behind all jobs of its platform |
| MirrorOrder.TakesNext | bridge/transfer/queueing.py:39-42 | a worker takes the job that has waited longest |
| MirrorOrder.JobsOnlyGrow | bridge/transfer/queueing.py:39-106 | whatever the step, the jobs taken and waiting of a platform only grow at the end |
| MirrorOrder.TakenInOrder | bridge/transfer/queueing.py:39-106 | over every interleaving, of two single messages of one platform the one whose event came first is taken first |
| MirrorOrder.TakenIsHandedOn | bridge/transfer/mirror_b2t.py:29-53 | and what is taken is handed to the pairs unless one of the two checks drops it |
| MirrorTermination.InternalStepLowers | bridge/transfer/queueing.py:39-56 | every step of the system itself that bounces nothing lowers an explicit measure |
| MirrorTermination.RunsAreBounded | bridge/transfer/queueing.py:39-106 | in a loop-free run the system's own steps are bounded by a constant per user post and per replaced copy |
| MirrorTermination.NeverStuck | bridge/transfer/queueing.py:39-106 | the measure is zero exactly at rest, and otherwise the system can take a step |
| QueueEngine.LookupTakesToken | bridge/transfer/loopguard.py:24-26 | a ledger look-up answers for, and takes, one token |
| QueueEngine.QueueEngine.OnNew | bridge/transfer/queueing.py:61-68 | does the protocol's step: drop an own message, buffer an album item, queue any other |
| QueueEngine.QueueEngine.OnEdit | bridge/transfer/queueing.py:70-73 | an edit of an own message uses up its token, any other is queued |
| QueueEngine.QueueEngine.OnTimer | bridge/transfer/albums.py:34-40 | the fired album becomes one sorted job of its queue |
| QueueEngine.QueueEngine.SiftTg | bridge/transfer/mirror_t2b.py:31-32 | keeps the messages without a token and uses up the others' |
| QueueEngine.QueueEngine.SiftBale | bridge/transfer/mirror_b2t.py:29-39 | ledger first, then fingerprint: what is returned, and both tables afterwards, are those of SecondLayer; to the protocol what the second check dropped is recognised |
| QueueEngine.QueueEngine.Work | bridge/transfer/queueing.py:39-56 | a worker's turn leaves the bridge as the protocol's step does and returns exactly what that step hands to the pairs, if any, with the ledger and the fingerprints as SecondLayer says; a paused bridge throws the job away untouched |
| QueueEngine.RecordAddsTokens | bridge/transfer/mirror_t2b.py:67-72 | recording adds one token for each message created |
| DeleteSafety.StepKeepsInv | bridge/transfer/sync_delete.py:26-60 | every step of every interleaving of users, deliveries, both workers and the replacement of edited copies keeps the deletion invariant |
| DeleteSafety.EchoesNeverBounce | bridge/transfer/queueing.py:75-96 | no deletion the bridge made, of a linked message or of a replaced copy, is ever queued or looked up |
| DeleteSafety.EchoSetsAreExact | bridge/transfer/loopguard.py:45-60 | a message is in the echo sets while the bridge's deletion of it is on its way back, and otherwise only while that deletion is pending or when it failed or is never reported |
| DeleteSafety.EchoSetsEmptyAtRest | bridge/transfer/sync_edit.py:52-67 | at rest the echo sets hold only the marks of deletions that failed with an uncaught exception or in a replacement, or that a bot is not told of, and nothing without such a step |
| DeleteSafety.UserDeletionsQueued | bridge/transfer/queueing.py:75-83 | a user's deletion is dropped only if the bridge was about to delete that message or such a step left its mark |
| DeleteSafety.AskMarks | bridge/transfer/sync_delete.py:35-54 | before a deletion in Telegram its echo is always marked, before one in Bale only for a user account |
| DeleteSafety.DeletionIsLast | bridge/transfer/queueing.py:75-96 | an event puts those of its deletions that are not echoes, in order, behind all jobs of its platform |
| DeleteSafety.QueueIsFifo | bridge/transfer/queueing.py:39-42 | otherwise a worker takes the first job, or the queues stay as they are |
| DeleteSafety.WorkedOffInOrder | bridge/transfer/sync_delete.py:26-28 | and works it off from the front |
| DeleteSync.ModesServe | bridge/transfer/sync_delete.py:32-52 | by their names: "tg2bale" lets deletions in Telegram through, "bale2tg" those in Bale, "both" all |
| DeleteSync.MirroredIsReached | bridge/transfer/sync_delete.py:26-60 | when a pair the mirror finds for its chat has linked a message to a copy, deleting the message is to delete the copy |
| DeleteSync.TargetsReached | bridge/transfer/sync_delete.py:28-52 | a look-up leads to exactly the messages some row of a pair serving the direction joins to the deleted one |
| DeleteSync.LoopGuard.Suppress | bridge/transfer/loopguard.py:54-56 | adds exactly this message |
| DeleteSync.LoopGuard.Consume | bridge/transfer/loopguard.py:45-52 | answers whether the message is ignored and forgets exactly it |
| DeleteSync.LoopGuard.Release | bridge/transfer/loopguard.py:58-60 | forgets exactly this message |
| DeleteSync.DeleteSyncEngine.OnDelete | bridge/transfer/queueing.py:75-96 | the entry loop does the protocol's delivery step |
| DeleteSync.DeleteSyncEngine.DeleteCopies | bridge/transfer/sync_delete.py:46-60 | the inner loop takes protocol steps only, asks for exactly the counterparts this direction serves, and removes rows of those only |
| DeleteSync.DeleteSyncEngine.ProcessDelete | bridge/transfer/sync_delete.py:26-60 | a whole job takes protocol steps only and leaves the worker idle; it asks for nothing but what its messages reach, and unless an exception ends it for all of that |
| EditSync.EditSyncEngine.ProcessTgEdit | bridge/transfer/sync_edit.py:32-68 | the loop over counterparts, with every outcome of edit, resend and delete, does the specified turns |
| EditSync.EditKeepsCopies | bridge/transfer/sync_edit.py:48-68 | whatever fails, each row whose source was edited and whose copy existed still points to an existing copy |
| EditSync.EditsKeepCopies | bridge/transfer/sync_edit.py:32-68 | over any sequence of edits of any Telegram messages, with any failures, every row of a Telegram message whose copy existed still points to an existing copy in the same chat |
| EditSync.ReplacementIsAct | bridge/dbstore/map.py:60-65 | to the message table a replacement is the act the pairs' rows are proved under |
| EditSync.IgnoredExactly | bridge/transfer/sync_edit.py:52-67 | the old copy's deletion stays ignored exactly when its replacement was sent |
| EditSync.OthersNotIgnored | bridge/transfer/sync_edit.py:52-67 | no other message becomes ignored |
| EditSync.ReplacedAreMarked | bridge/transfer/sync_edit.py:57-65 | over any sequence of edits, with any failures, the ledger gets one mark for each copy put in place, each for a fresh Bale message and none twice, and every destination a row did not have before is among them |
| EditSync.ModesEdit | bridge/transfer/sync_edit.py:35-39 | by their names: edits reach the copies of "tg2bale" and "both" pairs, not of "bale2tg" ones |
| EditSync.MirroredIsServed | bridge/transfer/sync_edit.py:34-39 | the copy made by a pair the mirror finds for the message's chat is served by its edits |
| EditSync.ReplacementLinksSource | bridge/dbstore/map.py:60-65 | the new copy is linked to the edited message exactly when that is the row's source |
| EditSteps.ReplacementTakesSteps | bridge/transfer/sync_edit.py:52-67 | whatever fails in a replacement, it takes steps of the deletion protocol only and leaves rows, messages and echo sets as EditSync says |
| EditSteps.MarkIsRecorded | bridge/transfer/sync_edit.py:57-65 | the mirroring protocol can take up the replacement, send its messages and record the first, which is the one marked |
| Polling.ListenEngine.constructor | bridge/botapi/events.py:29-35 | listening begins at the saved offset, or past the newest pending update |
| Polling.BacklogIsSkipped | bridge/botapi/events.py:29-35 | a first start without a saved offset starts nothing that had arrived before |
| Polling.ListenEngine.Iterate | bridge/botapi/events.py:36-54 | one iteration handles the whole answer in order, advancing and saving the offset each time; a failed poll changes nothing |
| Polling.StepKeepsInv | bridge/botapi/events.py:36-54 | arrivals, polls, errors, handled updates and restarts keep: started is the history up to the saved offset, the batch comes next, the server still has the rest |
| Polling.StartedExactlyOnce | bridge/bale/routing.py:24-25 | after any run every update from the beginning up to the offset was started exactly once, in order, and every later one can still be polled |
| Polling.SavedOffsetFixesBase | bridge/runtime/lifecycle.py:19-24 | a run from a saved offset counts from there whatever restarts follow |
| Polling.IterationIsSteps | bridge/botapi/events.py:49-54 | the loop over an answer is one handling step per update |
| ChatTypes.BaleSession.Normalize | bridge/bale/normalize.py:25-38 | a group-like type never overwrites the cache, any other does |
| ChatTypes.BaleSession.OnDeleted | bridge/bale/events.py:43-52 | only an unknown chat gets a type, ambiguous for the peer type of groups |
| ChatTypes.BaleSession.EndProbe | bridge/bale/resolver.py:44-61 | a probe settles the type; a failed one only fills an empty entry |
| ChatTypes.BaleSession.EndGetChat | bridge/bale/profile.py:57-80 | writes what was looked up, or what was read before waiting |
| ChatTypes.BaleSession.NoteChat | bridge/bale/session.py:148-154 | metadata and cache get the given type, else the known one, else private |
| ChatTypes.ChannelNeverGroup | bridge/bale/resolver.py:41-61 | over every run of a true channel, whatever peer types its events show, it is never cached as a group if and only if no failing `get_chat` that read nothing finds "group" in the metadata |
| ChatTypes.ChannelIsSticky | bridge/bale/normalize.py:32-37 | once cached as a channel it stays so exactly until a failing `get_chat` writes something else or an update shows the peer type of a user |
| ChatTypes.StepGuesses | bridge/bale/events.py:45-52 | one step caches a channel as private exactly when a look-up fails with nothing known of the chat or an event shows the peer type of a user |
| ChatTypes.ChannelNeverPrivate | bridge/bale/events.py:45-52 | so over every run a channel looks private only after such a step |
| ChatTypes.SafeWithoutStaleWrites | bridge/bale/profile.py:57-80 | both hold in every run where no failing `get_chat` overlaps a change of the cache, the second as long as no event shows the peer type of a user |
| ChatTypes.OverlappingGetChatPoisons | bridge/bale/profile.py:57-80 | a concrete run in which a channel becomes a cached group |
| ChatTypes.GroupNeverChannel | bridge/bale/resolver.py:41-61 | over every run of a true group it is never cached as a channel, and each probe or look-up that succeeds settles it as a group |
| ChatTypes.ChannelIsSettled | bridge/bale/resolver.py:52-61 | and a true channel as a channel |
| ChatTypes.UserStaysPrivate | bridge/bale/normalize.py:25-38 | a true user is never cached as anything but private |
| LoginLimiter.AuthEngine.CheckLock | bridge/dashboard/auth.py:90-92 | locked after five failures until the time is over |
| LoginLimiter.AuthEngine.RegisterFail | bridge/dashboard/auth.py:94-99 | counts up to five, and renews the lock from then on, for this address only |
| LoginLimiter.AuthEngine.ResetFails | bridge/dashboard/auth.py:101-102 | forgets this address only |
| LoginLimiter.LockedExactly | bridge/dashboard/auth.py:90-99 | an address is locked exactly from its fifth failure on while the last one is less than 60 seconds ago |
| LoginLimiter.FailuresAreBounded | bridge/dashboard/api.py:76-85 | for every interleaving of an address's requests: at most five failures, one per lock period since the fifth, and those after it that overlapped another failure |
| LoginLimiter.AtomicFailuresAreBounded | bridge/dashboard/auth.py:90-99 | one request at a time: at most 5 + floor((T − t5)/60) failures up to T |
| LoginLimiter.OverlappingRequestsAllPass | bridge/dashboard/api.py:76-84 | the condition is needed: any number of overlapping requests are verified at one instant |

## Left out

- Telethon, aiobale, aiohttp and SQLite: platforms are stores of messages with fresh ids whose calls may fail, tables are lists, and a query takes the first row in list order.
- Media: downloads, temporary files, sizes, and the chain of fallbacks for one file; a send of one file is one id or an exception.
- The Bale to Telegram edit fallback, outside the mirroring protocol: it deletes before it sends again and never takes back its mark, so neither the copies nor the deletion invariant are kept by it.
- Venue messages, and the further messages of a replacement, are only modelled as sends of which a part is recorded.
- Deletions when several chats share one Bale chat: a deletion travels one hop, and the deletion invariant assumes a message is in at most one row.
- A delete call that reports failure although it took effect, or success although there was nothing to delete: the deletion protocol assumes neither.
- Duplicate delivery of an event, an edit event before the "new" event of the same message, and one worked on after its deletion.
- The mirroring protocol follows edits only as far as they use up ledger tokens or send a copy again; EditSync takes one edit as a whole, without other workers in between.
- Look-ups that succeed and take a channel for a group or a user: ChatTypes assumes they are truthful.
- The retries of a single bot API call, which are at most four and easily read off.
- `SHA-1` and the classification of messages: a fingerprint is any function of kind and text, and kinds are given.
- Lone surrogates in Python strings: a Dafny character is a Unicode scalar value.
- A database error while the polling offset is being saved.
- Wizard dialogue, admin commands, dashboard pages, configuration, logging, login flows and password hashing.
