# A verified model of the game server

The repository is the C++ back end of a game: login, gate, game and database servers that talk over framed
TCP sessions. This project models the parts of it that carry real algorithms or protocols and proves what
they promise. `dafny verify dfyconfig.toml` checks everything.

| files | what they model |
|---|---|
| `Words`, `Collections`, `Text` | bytes, words and their little-endian view; options, extensionality, subsets; `%d`, `atoi`, `SplitStringA` |
| `Md5Spec`, `Md5`, `Md5Sample` | RFC 1321 sections 3.1 to 3.5, the streaming class of `common/md5.cpp` that refines it, and the digest of "abc" |
| `Crc32`, `Cipher`, `CipherRows` | the table-driven CRC of RFC 1952 section 8, the substitution cipher of `common/crypt.cpp`, and its ten rows |
| `Framing`, `SendPipeline`, `EndToEnd` | message frames, the reassembly loop and the send path of `common/tcpsession.cpp`, and both together |
| `HandOff`, `HttpPipeline` | the double-buffered queues and the two-thread pipeline of HTTP tasks, as steps of all threads |
| `Packet`, `UpdateMask` | the packet serializer on its buffers, and the bit set |
| `Gate`, `GateServer` | the hand-off of players on the gate server: the protocol as steps, and the objects that take them |
| `Promotion`, `Orders`, `Rank` | shop promotions with their ledger, payment orders, the daily rank board |
| `HeroData`, `HeroTasks`, `ExitGame`, `Lottery`, `HeroRequests` | the player; tasks, what is taken home from a game, the daily draw and purchases; the requests as written |
| `HeroSave` | saving the player as text on the game server and reading it back on the database server |
| `HeroLife` | every run of all of these, with saving and loading at any time |

Each protocol comes twice: as functions on values, about which the theorems are proved, and as classes and
methods with the loops and branches of the source, each proved to do exactly what its function says. Where definition
and object share a formula, a property stated without it or a sample worked out in full says what the formula
computes. Threads appear as interleaved atomic steps; timers, random numbers, the clock and the answers of
other components are parameters of the steps that use them.

Four files of the repository are not UTF-8 text: `common/message_interface.cpp`, `common/utilities.cpp`,
`common/thread_buffer.h` and `gateserver/game_client.cpp`. The table below cites the code that calls them.

## What the proofs found

The model follows the code. Where the code falls short of its promise a lemma shows an input, and where
there is a condition that decides, it is proved in both directions.

* `md5::final` puts back the state and the counter but not the buffer: a digest taken with 56 or more bytes
  buffered disturbs later updates (`Md5.DigestHarmless`, `Md5.DigestDisturbs`). The flag `_finished` never
  survives `final`, so a digest is never reused but always taken anew (`Md5.Md5Digest.Digest`).
* A message of one byte is framed with a header of zeros, and one of more than 64990 bytes with a length the
  receiver would refuse (`Framing.DeliverableIff`). It never gets there: `send_message` admits up to 64999
  bytes, but the frame no longer fits the write buffer, and in every run neither it nor anything queued after
  it is ever sent (`SendPipeline.OversizedMessageBlocks`, `SendPipeline.OversizedRun`).
* `thread_recv_buffer::read` rewinds at the end of the data. A truncated packet is noticed unless it was cut
  between two reads; then reading goes on in the header (`Packet.CutMessage`, `Packet.CutAfterHeader`).
* A transaction id that is announced a second time can wait and reconnect at once
  (`Gate.ReissuedIdBreaksDisjointness`). A player whose session closes after a kick, or who is moved while the
  account is not found, may reconnect or play while no game server knows of it; nothing else leads there
  (`Gate.StepKnownIff`, `Gate.KickedPlayerReturnsUnknown`, `Gate.LostAccountLeavesUnknown`). A move asked for
  by a server that does not have the player leaves the player registered twice (`Gate.ChangeGsTraceableIff`,
  `Gate.MoveByOtherServer`). A session told to close that logs in again under another id leaves the old id
  online when it has closed (`Gate.StepLeadsIff`, `Gate.OldIdStaysOnline`).
* A weekly promotion whose window wraps around the week admits every day and never ends
  (`Promotion.WeeklyEndsIff`); a weekly promotion that has ended is destroyed and does not come back the
  next week (`Promotion.PhasesOnlyAdvance`).
* `SaveHero` means to erase completed orders, but its loop starts at the end (a comparison stands where an
  assignment was meant). That is what keeps orders from being credited twice (`Orders.ErasedOrderPaysTwice`).
  The amount credited is that of the product in the notification, which is not compared with the order: all
  credits are right exactly when the two always have the same price (`Orders.CreditsAreDueIff`,
  `Orders.OtherProductIsCredited`). A failure notified after the payment marks the order as failed and leaves
  the credit (`Orders.PaidEndsFailedIff`, `Orders.FailedOrderIsPaid`).
* The minimum of the rank board is the score of the last entry added, so a board may become unsorted by a
  newcomer or by a listed player whose score falls (`Rank.UpdateSortedIff`, `Rank.FallenPlayerStaysOnTop`), a
  full board grows (`Rank.BoardFitsIff`, `Rank.FullBoardGrows`), and a player on the board who does not beat
  the minimum is told to be off it (`Rank.ToldRankIsRightIff`, `Rank.FallenPlayerStaysOnTop`).
* A refresh of tasks without gold is charged, unless there is nothing to charge for
  (`HeroTasks.FreeRefreshIff`, `HeroTasks.FreeRefreshInDebt`); replacing a negative number of tasks runs
  through all of them (`HeroTasks.ReplaceFitsIff`, `HeroTasks.NegativeCountOverfills`); the task given up may
  be offered again if it was the only one (`HeroTasks.GivenUpIsOfferedIff`, `HeroTasks.GivenUpReturns`).
* A game left without a special kill puts its place into the map of kills, from which saving drops it
  (`HeroSave.NothingLostIff`, `HeroLife.EmptyPlaceIsForgotten`); no request ever notices
  (`HeroLife.ReloadingIsInvisible`).
* A bit mask assigned to itself is emptied (`UpdateMask.UpdateMask.Assign`).

## Model

| member | source | states |
|---|---|---|
| Md5.Unrolled | common/md5.cpp:215-297 | The 64 unrolled FF/GG/HH/II statements, with their rotating operands, compute the 64 operations of RFC 1321 section 3.4 on every block and state. |
| Md5.Decode | common/md5.cpp:315-321 | The shift loop gives the little-endian words of the bytes. |
| Md5.Encode | common/md5.cpp:302-312 | The shift loop gives the little-endian bytes of the words. |
| Words.LowByteFirst | common/md5.cpp:302-321 | Numbers and words are laid out with the low-order byte first. |
| Md5Spec.DecodeEncodeWords | common/md5.cpp:302-321 | Decoding what was encoded gives the words back. |
| Md5Spec.EncodeDecodeWords | common/md5.cpp:302-321 | Encoding what was decoded gives the bytes back, for whole words. |
| Md5.CountCarries | common/md5.cpp:155-158 | The two-word bit counter, with its carry test, holds 8 times the length modulo 2^64 after an update of at most 2^32 - 64 bytes. |
| Md5.Md5Digest.Transform | common/md5.cpp:215-297 | The state becomes the compression of the old state and the block. |
| Md5.Md5Digest.Absorb | common/md5.cpp:164-175 | Completing the buffered block and taking the whole blocks of the input advances the state by exactly those blocks. |
| Md5.Md5Digest.Update | common/md5.cpp:147-181 | After an update the object stands for the bytes fed before followed by the input, and the buffer holds the bytes that fill no block. |
| Md5.Md5Digest.Final | common/md5.cpp:184-212 | Whether the flag is set or not, the digest stored is the RFC 1321 digest of everything fed and the flag is clear; what the object stands for afterwards is given exactly, for the buffer is not put back. |
| Md5.Md5Digest.Digest | common/md5.cpp:96-102 | The flag is tested and set as in the source, and never set when a call ends: every call takes the digest anew, because final, through update, clears the flag. |
| Md5.DigestOfChunks | common/md5.cpp:96-212 | For every way of cutting a message into updates, the digest is the RFC 1321 digest of the whole message. |
| Md5Sample.DigestOfAbc | common/md5.cpp:96-297 | The definition that the class refines gives the digest of "abc" in section A.5 of RFC 1321, computed through all 64 operations, padding and output. |
| Md5Spec.FSelects | common/md5.cpp:30-30 | F takes the bits of y where x is set and those of z elsewhere. |
| Md5Spec.GSelects | common/md5.cpp:31-31 | G takes the bits of x where z is set and those of y elsewhere. |
| Md5Spec.HIsParity | common/md5.cpp:32-32 | H is the parity of the three bits: undone by itself, and the same in reverse order. |
| Md5Spec.IFlips | common/md5.cpp:33-33 | I flips the bits of y where x is set or z is clear, and no others. |
| Md5Spec.LengthIsBits | common/md5.cpp:194-205 | The two words appended are the number of bits modulo 2^64, low word first, for every length. |
| Md5.DigestHarmless | common/md5.cpp:184-212 | Asking for a digest leaves later updates alone if and only if fewer than 56 bytes are buffered or the buffered bytes happen to be the ones it leaves there. |
| Md5.DigestSettles | common/md5.cpp:184-212 | A second digest changes nothing that the first one did not. |
| Md5.DigestDisturbs | common/md5.cpp:184-212 | Sixty bytes, then a digest: the object no longer stands for what it was fed. |
| Md5.DigestTwice | common/md5.cpp:96-212 | What a second digest is taken of after further updates; the plain concatenation if fewer than 56 bytes were buffered. |
| Crc32.TableIsEightSteps | common/crypt.cpp:8-62 | Each of the 256 table entries is eight bit-at-a-time steps of the reflected polynomial 0xEDB88320. |
| Crc32.StepLinear | common/crypt.cpp:128-164 | A step is linear over exclusive or. |
| Crc32.DoOneIsEightSteps | common/crypt.cpp:128-160 | One table step on a sign-extended char equals eight bit steps on the byte: the sign extension does no harm. |
| Crc32.ComputeCrc | common/crypt.cpp:141-164 | The eightfold unrolled, table-driven loop computes the bit-at-a-time CRC of RFC 1952 section 8, for every seed and every data, and 0 for no buffer. |
| Crc32.CheckValue | common/crypt.cpp:128-164 | The digits 1 to 9 give 0xcbf43926, the check value of this CRC, complements included. |
| Crc32.CrcChains | common/crypt.cpp:141-164 | The CRC of one part as the seed of the next gives the CRC of the concatenation. |
| Crc32.FeedInjective | common/crypt.cpp:141-164 | Equal data never makes two different registers equal. |
| Crc32.BurstChangesCrc | common/crypt.cpp:137-164 | Two different stretches of at most four bytes between the same data never have the same CRC. |
| Cipher.SslInitDictionary | common/crypt.cpp:80-96 | The triple loop fills every entry with the first place of the byte in its row, and with 0 if it does not occur. |
| Cipher.ReverseIsLeftInverseIff | common/crypt.cpp:80-96 | The search inverts a row from the left if and only if no byte occurs twice in the row. |
| Cipher.ReverseIsRightInverseIff | common/crypt.cpp:80-96 | And from the right if and only if every byte occurs. |
| Cipher.ReverseIsInverse | common/crypt.cpp:80-96 | A row in which no byte occurs twice holds every byte, so the search inverts it from both sides. |
| Cipher.SslEncrypt | common/crypt.cpp:97-111 | Key 0 writes nothing; any other key writes the substituted, masked input and the random byte. |
| Cipher.SslDecrypt | common/crypt.cpp:112-125 | Key 0 writes nothing; any other key writes the message under the rows that the last byte selects. |
| Cipher.RoundTripsIff | common/crypt.cpp:97-125 | Decrypting restores every message and its length, for all keys and random bytes, if and only if no dictionary row holds a byte twice. |
| Cipher.DamagedMessage | common/crypt.cpp:97-125 | A row with a repeated byte is told by a message of one byte. |
| CipherRows.RowIsInjective | common/crypt.cpp:65-77 | None of the ten rows of the source holds a byte twice. |
| CipherRows.EveryMessageSurvives | common/crypt.cpp:65-125 | So with the source's own dictionary decrypting restores every message, for all keys and random bytes. |
| CipherRows.SampleMessage | common/crypt.cpp:65-111 | Two bytes under one key and one random byte, encrypted with the rows of the source, byte by byte. |
| Framing.OpenMadeFrame | common/tcpsession.cpp:258-293 | A framed body of two bytes or more (`makeMessage`, common/message_interface.cpp, lines 87 to 119) announces its length and opens (`uncompress`, lines 22 to 69) to what was framed. |
| Framing.DeliverableIff | common/tcpsession.cpp:142-168 | A message survives framing if and only if its body has 2 to MAX - 10 bytes; otherwise its length field is refused. |
| Framing.DamagedBodyRejected | common/tcpsession.cpp:258-274 | Damage to at most four consecutive bytes of a body is always noticed. |
| Framing.SampleFrame | common/tcpsession.cpp:258-274 | The frame of the digits 1 to 9, byte by byte: length, mask, checksum, body. |
| Framing.ParseMore | common/tcpsession.cpp:368-419 | What has been parsed stands whatever arrives later, and the remainder is parsed with it. |
| Framing.ParsePrefix | common/tcpsession.cpp:368-419 | Messages of a prefix of the stream are a prefix of the messages. |
| Framing.Receiver.DeliverFrames | common/tcpsession.cpp:377-406 | The loop over the buffer delivers exactly the greedy parse of the buffered bytes and ends at the first incomplete frame. |
| Framing.Receiver.HandleRead | common/tcpsession.cpp:368-419 | After every read the delivered messages are the greedy parse of all bytes read, the leftover is shorter than MAX, and the buffer of 2 * MAX never overflows. |
| Framing.Receive | common/tcpsession.cpp:368-419 | However the stream is cut into reads of at most MAX bytes, the delivered messages and the outcome are those of the greedy parse of the stream. |
| SendPipeline.BatchFits | common/tcpsession.cpp:340-356 | A write takes as many whole messages as fit into MAX bytes and no more. |
| SendPipeline.WriteKeepsInv | common/tcpsession.cpp:329-366 | A call of _write_message keeps the send invariant. |
| SendPipeline.StepKeepsInv | common/tcpsession.cpp:226-247 | Every atomic section of every thread keeps the send invariant. |
| SendPipeline.EveryRunKeepsInv | common/tcpsession.cpp:226-436 | Over every interleaving: one write outstanding at most, of at most MAX bytes; bytes in message order, none lost or repeated; the counter is what is queued, outstanding or not yet accounted for; a queue never waits without something pending, except after the limit was hit. |
| SendPipeline.AtRestEverythingIsSent | common/tcpsession.cpp:329-436 | When nothing is pending, everything queued has been handed to the socket and the counter is 0. |
| SendPipeline.WireIsPrefix | common/tcpsession.cpp:329-366 | The bytes handed to the socket are always a prefix of the bytes queued. |
| SendPipeline.UnlimitedNeverOverLimit | common/tcpsession.cpp:234-243 | With the limit off no sender ever closes the session. |
| SendPipeline.LimitIsHitIff | common/tcpsession.cpp:226-243 | A sender closes the session if and only if the limit is on and the bytes queued, outstanding and not yet accounted for, with the new message, are 1950000 or more. |
| SendPipeline.ClosedSendsNothing | common/tcpsession.cpp:329-436 | In every run, once a write or a read has failed or the session has been closed, nothing more is handed to the socket. |
| SendPipeline.NothingWrittenIff | common/tcpsession.cpp:340-356 | An idle session with a queue writes nothing if and only if the first message is longer than MAX. |
| SendPipeline.OversizedMessageBlocks | common/tcpsession.cpp:226-436 | In every run: once a message longer than MAX has been queued, neither it nor anything queued after it is ever handed to the socket. |
| SendPipeline.OversizedRun | common/tcpsession.cpp:226-436 | A message of 65001 bytes, then one of a single byte: however the run goes on, nothing is ever handed to the socket. |
| SendPipeline.EveryRunWritesFit | common/tcpsession.cpp:340-356 | In every run all messages handed to the socket are at most MAX bytes long. |
| SendPipeline.Session.QueueMessage | common/tcpsession.cpp:226-243 | The critical section of a sender: queues and counts the message; false if the limit is hit. |
| SendPipeline.Session.SendMessage | common/tcpsession.cpp:226-247 | Queues the message, counts it, and posts a write unless the limit is hit. |
| SendPipeline.Session.WriteMessage | common/tcpsession.cpp:329-366 | Takes the state through the write step, and the buffer holds the bytes of the write. |
| SendPipeline.Session.FillBuffer | common/tcpsession.cpp:340-356 | The loop moves exactly the batch into the buffer. |
| SendPipeline.Session.RunPosted | common/tcpsession.cpp:329-366 | A posted call of _write_message is the step of that name. |
| SendPipeline.Session.ClearSending | common/tcpsession.cpp:421-427 | The first critical section of a completion is the completion step. |
| SendPipeline.Session.AccountFor | common/tcpsession.cpp:329-366 | The second one, in which the size is accounted for and the next write begins, is the accounting step; any other step may come between. |
| SendPipeline.Session.HandleWrite | common/tcpsession.cpp:421-436 | Without interruption a completion is the two steps in a row. |
| EndToEnd.ParseFrames | common/tcpsession.cpp:368-419 | Parsing framed messages gives the messages and leaves nothing. |
| EndToEnd.Delivery | common/tcpsession.cpp:226-436 | Every interleaving of senders and every chunking of the stream: the peer delivers the queued messages in order, and all of them once the sender is at rest. |
| EndToEnd.UndeliverableEndsStream | common/tcpsession.cpp:377-406 | After any messages that survive framing, one that does not: those are delivered, and the session ends with an illegal length, whatever follows. |
| EndToEnd.DamageEndsStream | common/tcpsession.cpp:377-406 | After any undamaged messages one damaged in at most four consecutive bytes of its body: those are delivered, and the session ends, whatever follows. |
| HandOff.StepKeepsInv | common/call_back.cpp:7-25 | Every push, flip, run and pop keeps the queue invariant. |
| HandOff.EveryRunKeepsInv | common/call_back.cpp:7-25 | Over every interleaving items run once, in push order; the inactive queue is empty unless it is drained. |
| HandOff.DisjointQueues | common/call_back.h:45-50 | Producers never touch the queue being drained, nor the consumer the current one. |
| HandOff.DrainEnds | common/tcpserver.cpp:352-374 | Pushing does not lengthen a drain and each of its steps shortens it. |
| HandOff.DrainNeverStuck | common/task_thread_pool.cpp:22-53 | A drain that has not ended can go on. |
| HandOff.Queue.PushItem | common/tcpserver.cpp:196-200 | A push is the push step and keeps the invariant. |
| HandOff.Queue.Poll | common/call_back.cpp:7-25 | An uninterrupted poll runs everything in the current queue and leaves both empty. |
| HttpPipeline.StepKeepsInv | common/HttpManager.cpp:78-125 | Every step of adders, worker and game thread keeps the pipeline invariant. |
| HttpPipeline.EveryRunKeepsInv | common/HttpManager.cpp:78-125 | Over every interleaving each task is performed once and then applied once, both in the order of adding, none lost. |
| HttpPipeline.AtRestEverythingIsApplied | common/HttpManager.cpp:78-125 | With both threads at rest and the queues empty, everything added has been performed and applied. |
| HttpPipeline.NoDeadlock | common/HttpManager.cpp:84-116 | Whoever holds the locks, one of the two threads can move. |
| HttpPipeline.HttpManager.AddHttpTask | common/HttpManager.cpp:78-82 | Adding is the add step. |
| HttpPipeline.HttpManager.Update | common/HttpManager.cpp:84-104 | An uninterrupted update performs every added task in order and hands all on. |
| HttpPipeline.HttpManager.LogicUpdate | common/HttpManager.cpp:106-125 | An uninterrupted logicUpdate applies every completed task in order. |
| Text.AtoiOfPrinted | gameserver/DreamHero.cpp:1890-1901 | Reading a number printed with %d gives the number, negative or not. |
| Text.SamplePrinted | gameserver/DreamHero.cpp:1890-1901 | Four numbers as they are printed: decimal, the sign first. |
| Text.SampleRead | databaseserver/db_quest.cpp:258-281 | Three texts as they are read: blanks skipped, stopping at the first character that is no digit. |
| Text.SplitJoined | databaseserver/db_quest.cpp:258-281 | Splitting joined non-empty pieces without the separator gives the pieces. |
| Text.SplitKeepsText | databaseserver/db_quest.cpp:258-281 | For every text the pieces are non-empty, free of the separator, and lose nothing but separators. |
| Text.SplitStringA | databaseserver/db_quest.cpp:263-270 | The two loops of `SplitStringA` (common/utilities.cpp, lines 757 to 818), over positions and pieces, compute that split. |
| HeroSave.TaskIsFaithful | databaseserver/db_quest.cpp:299-316 | A task is read back as it was printed. |
| HeroSave.PairIsFaithful | databaseserver/db_quest.cpp:261-281 | A pair of numbers is read back as it was printed, by the exact and by the lenient reader. |
| HeroSave.KillsAreFaithful | databaseserver/db_quest.cpp:318-353 | A place with at least one special kill is read back with all of them. |
| HeroSave.ColumnRoundTrip | databaseserver/db_quest.cpp:258-408 | A column of items that are read back one by one is read back as a whole. |
| HeroSave.QueriedSaved | databaseserver/db_quest.cpp:219-408 | The numbers and lists the database server reads are those the game server printed, for all integers. |
| HeroSave.KillsRestored | gameserver/DreamHero.cpp:70-84 | Pushing back the saved entries rebuilds the map of special kills, whatever the order of its keys. |
| HeroSave.CreaturesRestored | gameserver/DreamHero.cpp:120-126 | Assigning the saved entries rebuilds the map of creatures. |
| HeroSave.LoadedIsSaved | gameserver/DreamHero.cpp:1879-2007 | A player saved and loaded is the same player, the one whom the requests change, except that places without special kills are forgotten; every place has the kills it had. |
| HeroSave.NothingLostIff | gameserver/DreamHero.cpp:1879-2007 | Nothing at all is lost if and only if every place in the map holds a kill. |
| HeroSave.SampleRow | gameserver/DreamHero.cpp:1879-2007 | The row of one player, column by column, with every separator. |
| HeroSave.SaveHero | gameserver/DreamHero.cpp:1879-2007 | The printing loops produce the specified row. |
| HeroSave.PrintKillColumn | gameserver/DreamHero.cpp:1931-1954 | The nested loop over special kills produces the joined entries that have kills. |
| HeroSave.DbDoQueryHeroInfo | databaseserver/db_quest.cpp:219-408 | The parsing loops read the specified numbers and lists. |
| HeroSave.SetInfo | gameserver/DreamHero.cpp:49-126 | The loops of set_info rebuild the specified player. |
| Gate.StepKeepsInv | gateserver/user_manager.cpp:10-217 | Every handler keeps the gate invariant: disjoint maps, pending timers, owned ids, no orphans. |
| Gate.EveryRunKeepsInv | gateserver/user_manager.cpp:10-217 | In every run with fresh ids the wait, online and reconnect maps are disjoint, wait and channel maps have the same ids, every waiting or reconnecting id has its timer, and every player a live game server knows is online under that server or may reconnect. |
| Gate.LoginKeepsInv | gateserver/user_manager.cpp:175-217 | A login, successful or refused, keeps the invariant. |
| Gate.CloseKeepsInv | gateserver/user_manager.cpp:144-162 | A closing session keeps the invariant. |
| Gate.KickKeepsInv | gateserver/user_manager.cpp:53-84 | A kick keeps the invariant. |
| Gate.GameDownKeepsInv | gateserver/user_manager.cpp:85-119 | The loss of a game server keeps the invariant. |
| Gate.ChangeGsKeepsInv | gateserver/user_manager.cpp:120-136 | Moving a player (`parseChangeGS`, gateserver/game_client.cpp, lines 52 to 80) at the request of the server that has it keeps the invariant. |
| Gate.StaleTimerIsHarmless | gateserver/user_manager.cpp:163-174 | A reconnect timer that fires when the player is back changes nothing but the pending timers. |
| Gate.ExpiryReleasesPlayer | gateserver/user_manager.cpp:163-174 | Once the timer of an absent player has fired no game server has the player. |
| Gate.OneServerPerPlayer | gateserver/user_manager.cpp:175-217 | At most one live game server has a given player. |
| Gate.OthersLeaveAlone | gateserver/user_manager.cpp:10-217 | No step about other players and other servers changes anything about an announced id that is not connected. |
| Gate.AnnouncedPlayerConnects | gateserver/user_manager.cpp:10-217 | In every run whoever is announced and logs in, before a kick or the end of the waiting time, is connected to the idle server, which is told, with the account and channel announced. |
| Gate.LostPlayerReturns | gateserver/user_manager.cpp:144-217 | In every run a player who loses the connection to a live server and logs in again in time, whatever happens to others meanwhile, is connected in the new session to the same server, which still has the player if it had. |
| Gate.GonePlayerStaysOut | gateserver/user_manager.cpp:46-217 | In every run, once an id that waits or may reconnect is kicked, expires, loses its server or finds no idle one, every later login with it is refused and changes nothing else. |
| Gate.MovedPlayerIsThere | gateserver/user_manager.cpp:120-136 | After a move asked for by the player's own server the player is connected to the new server and registered there and nowhere else. |
| Gate.AddToWaitDisjointIff | gateserver/user_manager.cpp:10-27 | Announcing any id, fresh or not, keeps the maps disjoint if and only if the id may not reconnect. |
| Gate.CloseDisjointIff | gateserver/user_manager.cpp:144-162 | Closing keeps them disjoint if and only if it is not a connected session on a live server whose id waits again. |
| Gate.ReissuedIdBreaksDisjointness | gateserver/user_manager.cpp:10-162 | In a reached state the id of an online player is announced again and its session closes: the id waits and may reconnect at once. |
| Gate.StepKnownIff | gateserver/user_manager.cpp:10-217 | A step leaves every connected or reconnecting player known to the game server noted for it if and only if it is neither the close of a connected session whose id is off the online map nor a move whose account is not found. |
| Gate.CloseKnownIff | gateserver/user_manager.cpp:144-162 | A close leaves them known if and only if the session is not a connected one on a live server whose id is off the online map. |
| Gate.RunsWithoutKicksKeepKnown | gateserver/user_manager.cpp:10-217 | In every run without kicks in which the accounts of moved players are found, all those players are known. |
| Gate.KickedPlayerReturnsUnknown | gateserver/user_manager.cpp:53-217 | A run with a kick, the close of the kicked session and a login: the player is connected and no game server has it. |
| Gate.LostAccountLeavesUnknown | gateserver/user_manager.cpp:120-136 | A reached state in which the player's own server asks for a move and the account is not found: the player is connected and no game server has it. |
| Gate.ChangeGsTraceableIff | gateserver/user_manager.cpp:120-136 | For a request from any server, players stay traceable if and only if the session found still has its id and the server that asked is the one that has the player (or nothing changes). |
| Gate.MoveByOtherServer | gateserver/user_manager.cpp:120-136 | From a reached state another server asks for the move, and two servers have the player. |
| Gate.StepLeadsIff | gateserver/user_manager.cpp:10-217 | A step leaves every online id leading to a session that has this id if and only if it is not the successful login, under another id, of a session that has an online id and is no longer connected. |
| Gate.OldIdStaysOnline | gateserver/user_manager.cpp:85-217 | A run in which a session told to close logs in again as another player and then closes: the old id is online still and leads to a session without a player. |
| GateServer.UserSession.SetState | gateserver/user_session.cpp:13-51 | Sets the state; disabling forgets id and server. |
| GateServer.UserManager.KickUser | gateserver/user_manager.cpp:53-84 | Takes the maps through the kick step. |
| GateServer.UserManager.AddToWait | gateserver/user_manager.cpp:10-27 | Takes the maps through the announce step. |
| GateServer.UserManager.EventCallRemoveReconn | gateserver/user_manager.cpp:163-174 | Takes the maps through the expiry of a reconnect. |
| GateServer.UserManager.CheckConn | gateserver/user_manager.cpp:175-217 | Answers whether the login succeeds, and with the id stored is the login step. |
| GateServer.UserManager.ParseLoginGame | gateserver/user_session.cpp:112-140 | Takes session and maps through the login step. |
| GateServer.UserManager.CheckClose | gateserver/user_manager.cpp:144-162 | With the session disabled is the close step. |
| GateServer.UserManager.OnClose | gateserver/user_session.cpp:161-170 | Takes session and maps through the close step. |
| GateServer.UserManager.OnAccept | gateserver/user_session.cpp:155-159 | A session that is accepted waits for its account. |
| GateServer.UserManager.EraseValue | common/common_template.h:137-169 | The loop leaves exactly the entries with another value. |
| GateServer.UserManager.CloseUsers | gateserver/user_manager.cpp:85-116 | The loop tells exactly the online sessions of the server to close. |
| GateServer.UserManager.RemoveActiveGameClient | gateserver/game_manager.cpp:76-97 | Takes sessions and maps through the loss of a server. |
| GateServer.UserManager.ParseChangeGs | gateserver/user_manager.cpp:120-136 | Takes session and registrations through a move (`parseChangeGS`, gateserver/game_client.cpp, lines 52 to 80). |
| Promotion.EveryLifeIsCoherent | gameserver/ShopSalesPromotionManager.cpp:194-553 | In every life a promotion is booked at most once, cancelled exactly when destroyed and only if booked. |
| Promotion.PhasesOnlyAdvance | gameserver/ShopSalesPromotionManager.cpp:194-553 | Phases never go back, and a destroyed promotion stays as it is. |
| Promotion.EveryLifeIsOnTime | gameserver/ShopSalesPromotionManager.cpp:344-553 | In every life of a promotion by the clock whose timers never fire early, whenever none is overdue it waits before show, is announced before begin, executes before end and is destroyed from then on; its discounts count exactly from the later of show and begin until the end. |
| Promotion.LateIsNotStarted | gameserver/ShopSalesPromotionManager.cpp:366-374 | Only a promotion by the clock that would be shown after its end is not started. |
| Promotion.DayDecides | gameserver/ShopSalesPromotionManager.cpp:194-342 | A day makes an announced promotion by days execute exactly if the day is in its window, and ends it on the first day after. |
| Promotion.OpenDaysAreKept | gameserver/ShopSalesPromotionManager.cpp:194-342 | Day by day, a promotion by days since the server opened waits, is announced, executes and ends on its days. |
| Promotion.BeginsOrEnds | gameserver/ShopSalesPromotionManager.cpp:248-340 | On every day a promotion by days either begins or ends, never both. |
| Promotion.WeeklyEndsIff | gameserver/ShopSalesPromotionManager.cpp:299-321 | A weekly promotion ends on some weekday if and only if its window does not wrap and leaves a day out. |
| Promotion.WrappedWeekNeverEnds | gameserver/ShopSalesPromotionManager.cpp:259-321 | A wrapped weekly promotion that executes executes for ever. |
| Promotion.TotalReplaced | gameserver/ShopSalesPromotionManager.cpp:109-119 | Changing one promotion changes the sum of the discounts by the change of its share. |
| Promotion.TotalWithout | gameserver/ShopSalesPromotionManager.cpp:92-107 | Dropping a destroyed promotion leaves every sum as it is. |
| Promotion.TimeShopPromotion.Book | gameserver/ShopSalesPromotionManager.cpp:434-509 | The loop moves the ledger by the configured discounts, in or out, for every grid. |
| Promotion.TimeShopPromotion.DayPass | gameserver/ShopSalesPromotionManager.cpp:194-342 | The mutually recursive calls end, give the phase of the closed form, and the ledger follows. |
| Promotion.TimeShopPromotion.DoApply | gameserver/ShopSalesPromotionManager.cpp:511-553 | The same for apply. |
| Promotion.TimeShopPromotion.DoExcute | gameserver/ShopSalesPromotionManager.cpp:408-431 | The same for excute. |
| Promotion.TimeShopPromotion.Exit | gameserver/ShopSalesPromotionManager.cpp:398-405 | The same for exit, which passes through Wait and Excute to Destroy. |
| Promotion.TimeShopPromotion.Init | gameserver/ShopSalesPromotionManager.cpp:344-396 | Rejects a promotion shown after its end and starts any other. |
| Promotion.TimeShopPromotion.Fire | gameserver/ShopSalesPromotionManager.cpp:374-420 | The pending timer has the effect of its call-back, on promotion and ledger. |
| Promotion.ShopSalesPromotionManager.ModifyCheapGold | gameserver/ShopSalesPromotionManager.cpp:109-119 | Adds to one grid and leaves the others. |
| Promotion.ShopSalesPromotionManager.AddPromotion | gameserver/ShopSalesPromotionManager.cpp:55-71 | Adds the promotion if it starts, and the ledger stays the sum over what executes. |
| Promotion.ShopSalesPromotionManager.FireTimer | gameserver/ShopSalesPromotionManager.cpp:374-420 | Whichever timer fires, the ledger stays the sum over what executes. |
| Promotion.ShopSalesPromotionManager.DayPass | gameserver/ShopSalesPromotionManager.cpp:19-28 | The day passes for every promotion, and the ledger stays the sum. |
| Promotion.ShopSalesPromotionManager.Update | gameserver/ShopSalesPromotionManager.cpp:92-107 | Exactly the destroyed promotions leave the list, and the ledger stays the sum. |
| Orders.EveryRunCreditsOnce | gameserver/DreamHero.cpp:1383-1551 | In every run each order is credited at most once and stays closed afterwards, and gold and jewels are what they were plus what was credited. |
| Orders.AnnouncedOrderIsPaid | gameserver/DreamHero.cpp:1383-1504 | In every run an order that is announced and then notified as paid, before a new order is asked for, is credited the price of the product named. |
| Orders.AbandonedOrderIsNotPaid | gameserver/DreamHero.cpp:1383-1546 | In every run an order given up for a new one is never credited unless it is announced again. |
| Orders.PaymentAnswers | gameserver/DreamHero.cpp:1383-1466 | A notification credits if and only if it is free of error, for a product sold and a known order in one of the two payable states, with status 0; each other answer has its condition. |
| Orders.ClosedStaysClosed | gameserver/DreamHero.cpp:1383-1551 | A completed or failed order is never opened again nor forgotten. |
| Orders.CreditCloses | gameserver/DreamHero.cpp:1402-1414 | A credit is for a payable order, which it completes. |
| Orders.CreditsAreDueIff | gameserver/DreamHero.cpp:1383-1551 | In every run what is credited is, order by order, the price of the product ordered if and only if every notification that credits names a product of that price. |
| Orders.FairRunsPayWhatIsDue | gameserver/DreamHero.cpp:1383-1551 | In such a run gold and jewels are what they were plus the prices of the products ordered. |
| Orders.PaidEndsFailedIff | gameserver/DreamHero.cpp:1402-1431 | In every run a credited order ends as failed if and only if a failure was notified after the payment, and as completed otherwise. |
| Orders.FailedOrderIsPaid | gameserver/DreamHero.cpp:1402-1431 | A run in which an order is announced, paid and notified as failed: it has failed, and the gold is there. |
| Orders.OtherProductIsCredited | gameserver/DreamHero.cpp:1383-1414 | An order of a small product, notified as a large one, is credited as the large one. |
| Orders.ErasedOrderPaysTwice | gameserver/DreamHero.cpp:2070-2086 | Were completed orders erased as the dead loop intends, an order announced again would be credited twice. |
| Orders.DreamHero.AddDealPay | gameserver/DreamHero.cpp:1383-1466 | The nested branches compute the specified order, balance and error. |
| Orders.DreamHero.AddDealWaitToPay | gameserver/DreamHero.cpp:1468-1504 | A known order stays; an unknown one is entered as waiting. |
| Orders.DreamHero.ReqCreateDeal | gameserver/DreamHero.cpp:1524-1546 | The erasing loop leaves exactly the other orders. |
| Rank.SortSorts | gameserver/RankManager.cpp:5-25 | Sorting gives a permutation with the higher scores first and, among equal scores, the earlier times first. |
| Rank.SortIsStable | gameserver/RankManager.cpp:356-356 | Entries of equal score and time keep their order. |
| Rank.UpdateKeepsIndexed | gameserver/RankManager.cpp:303-370 | An update keeps accounts distinct, the map in step with the list, and the entries numbered. |
| Rank.PlaceOfEntry | gameserver/RankManager.cpp:358-367 | The map sends each account of the list to its place. |
| Rank.EntryOfPlace | gameserver/RankManager.cpp:358-367 | Every place in the map is the place of that account. |
| Rank.EveryBoardIsIndexed | gameserver/RankManager.cpp:303-370 | Every board reached from an empty one has all this, whatever the first minimum and the sizes set. |
| Rank.ToldRankIsPlace | gameserver/RankManager.cpp:303-370 | The rank told is the player's place if the player was added or the board sorted, and one more than the size otherwise. |
| Rank.ToldRankIsRightIff | gameserver/RankManager.cpp:303-370 | The rank told is right (the place of a listed player, one more than the size for any other) if and only if the score exceeds the minimum, the player was not on the board, or stood at the place after its size. |
| Rank.HighScoreSorts | gameserver/RankManager.cpp:353-368 | A score above the minimum leaves a sorted board of the same entries but for the change. |
| Rank.UpdateSortedIff | gameserver/RankManager.cpp:303-370 | An update leaves a sorted board sorted if and only if the score exceeds the minimum, so that it is sorted again, or the changed or added entry stands where it belongs. |
| Rank.FallenPlayerStaysOnTop | gameserver/RankManager.cpp:303-370 | After a run of two updates from the empty board the first player's score falls to 30: the entry stays on top, and the player is told to be off the board. |
| Rank.BoardFitsIff | gameserver/RankManager.cpp:305-351 | A board within its size stays within it if and only if the player is on it, there is room, or the minimum is not beaten. |
| Rank.FullBoardGrows | gameserver/RankManager.cpp:303-370 | A run on a board of one place that ends with two entries, the second at the place told to those who are off the board. |
| Rank.RankManager.UpdateHeroDailyRank | gameserver/RankManager.cpp:303-370 | The branches and loops compute the specified board and rank. |
| Rank.RankManager.Number | gameserver/RankManager.cpp:358-368 | The loop numbers the entries, rebuilds the map and finds the player. |
| Rank.RankManager.SortAndNumber | gameserver/RankManager.cpp:353-368 | Sorting and the numbering loop give the specified list, map and rank. |
| Rank.RankManager.GetHeroDailyRank | gameserver/RankManager.cpp:92-101 | The place of a player on the board, one more than the size for any other; the answer is ambiguous exactly for the player, if there is one, who stands at the place after the size. |
| Rank.RankManager.ClearRankList | gameserver/RankManager.cpp:49-53 | List and map are empty; size and minimum stay. |
| HeroTasks.OfferedIsNew | gameserver/DreamHero.cpp:465-536 | A task offered is configured, unlocked, not held, and not the one given up unless no other is held. |
| HeroTasks.NothingOfferedIff | gameserver/DreamHero.cpp:465-536 | Nothing is offered if and only if no task is eligible. |
| HeroTasks.UnlockedIff | gameserver/DreamHero.cpp:490-520 | A task is unlocked if and only if enough tasks are completed and the first record of its chapter has reached its section. |
| HeroTasks.CooldownIff | gameserver/DreamHero.cpp:872-934 | Whatever was asked for since the day began: a request has to wait if and only if more than the free ones were granted, the last less than a cooldown ago, and it is not refused for lack of gold first. |
| HeroTasks.FreeRequestsNeverWait | gameserver/DreamHero.cpp:361-934 | The first requests of a day never have to wait. |
| HeroTasks.RefreshCountsTasks | gameserver/DreamHero.cpp:872-934 | A granted request takes the one task given up and adds the one offered; when the task to give up is missing. |
| HeroTasks.DayBringsTask | gameserver/DreamHero.cpp:361-381 | A new day brings one task if and only if there is room and one is eligible, and takes none away. |
| HeroTasks.RefreshKeepsInv | gameserver/DreamHero.cpp:872-934 | Applying and giving up keep the ids distinct, and within the maximum if they were. |
| HeroTasks.DayRefreshKeepsInv | gameserver/DreamHero.cpp:361-381 | So does the passing of a day. |
| HeroTasks.FilledCount | gameserver/DreamHero.cpp:1030-1053 | Replacing offers a new task as long as an unlocked one is not held: the number of tasks is exactly the smaller of rounds and unlocked tasks. |
| HeroTasks.ReplaceFitsIff | gameserver/DreamHero.cpp:1030-1053 | Replacing keeps to the maximum if and only if the count asked for is not negative or no more tasks are unlocked: a negative count becomes a huge size_t. A count that is not negative gives as many tasks as asked for, allowed and unlocked. |
| HeroTasks.NegativeCountOverfills | gameserver/DreamHero.cpp:1030-1053 | Minus one tasks asked for, one allowed, two unlocked: two are held. |
| HeroTasks.FreeRefreshIff | gameserver/DreamHero.cpp:872-950 | A refresh not to be paid for costs nothing if and only if the price is 0, it fails, or no task is eligible once the one given up is gone; when it leaves a debt is stated too. |
| HeroTasks.FreeRefreshInDebt | gameserver/DreamHero.cpp:936-950 | A hero without gold applies for a task, not paying, and owes the price. |
| HeroTasks.GivenUpIsOfferedIff | gameserver/DreamHero.cpp:465-536 | The task given up may be offered in its own place if and only if it was the only one held and is unlocked. |
| HeroTasks.GivenUpReturns | gameserver/DreamHero.cpp:872-981 | The only task there is, given up for another, is offered again for its price. |
| HeroTasks.EveryCandidateIsOffered | gameserver/DreamHero.cpp:465-536 | Each candidate is offered for some random number. |
| ExitGame.CompletionPaysOnce | gameserver/DreamHero.cpp:723-756 | Whatever ids are reported, exactly the held, configured and reported tasks are removed, each pays its gift once and counts one. |
| ExitGame.ExitAccounts | gameserver/DreamHero.cpp:614-859 | An exit without error sets gold to the old gold (not below 0) plus the reported gold plus the gifts, raises the count by the tasks removed, keeps the tasks distinct, and moves on exactly the record of the section before the one played, by one, and only after a success. |
| ExitGame.RefusedExit | gameserver/DreamHero.cpp:629-670 | An exit is accepted if and only if it is from the place the player is in and every lotion used is held; a refused one changes only the place. |
| ExitGame.RecordsAdvance | gameserver/DreamHero.cpp:779-797 | A record keeps its chapter and grows by one section if and only if it is the record of the section before; none moves back. |
| ExitGame.OverwrittenIsLast | gameserver/DreamHero.cpp:708-721 | A held task is as it was reported last. |
| ExitGame.NotReportedStays | gameserver/DreamHero.cpp:708-721 | A held task that is not reported is as it was. |
| ExitGame.NotedIsLast | gameserver/DreamHero.cpp:829-834 | A creature has the status reported last. |
| ExitGame.NotNotedStays | gameserver/DreamHero.cpp:829-834 | A creature that is not reported has the status it had. |
| ExitGame.LotionsBalanceIff | gameserver/DreamHero.cpp:635-704 | What is left is what was held less what was used if and only if no used kind was held more often than used; HeroLife.EveryExitBalances shows that this is always so. |
| ExitGame.MergedKeepsDistinct | gameserver/DreamHero.cpp:800-828 | Merging keeps the kills distinct and the old ones first, and holds exactly the old and the new. |
| HeroLife.EveryRunIsSound | gameserver/DreamHero.cpp:361-2397 | Over every run of refreshing, replacing, days, entering and leaving, lottery draws, purchases, map resets, other requests, saving and loading, from a player who holds no task, no lotion and no special kill of a place twice, none is ever held twice. |
| HeroLife.NewbornIsSound | gameserver/DreamHero.cpp:1706-1757 | A newborn player is such a player. |
| HeroLife.EveryExitBalances | gameserver/DreamHero.cpp:614-859 | Over every such run each exit without error leaves exactly the lotions held less the lotions used, each of which was held. |
| HeroLife.EveryExitWasEntered | gameserver/DreamHero.cpp:614-859 | Over every such run of a player who starts outside, an exit without error is from the place entered last, and the first exit since: no game entered is taken home twice. |
| HeroLife.RecordsOnlyAdvance | gameserver/DreamHero.cpp:361-2397 | Over every such run no exit, nor any other step of its own, ever sets a record back. |
| HeroLife.EveryRunKeepsTasks | gameserver/DreamHero.cpp:361-1053 | Over every such run the tasks stay within the maximum, as long as each replacing does (HeroTasks.ReplaceFitsIff). |
| HeroLife.EmptyPlaceIsForgotten | gameserver/DreamHero.cpp:800-1954 | A newborn player who leaves a game without a special kill has the place in the map, and once saved and loaded has not. |
| HeroLife.ReloadingIsInvisible | gameserver/DreamHero.cpp:49-2007 | However often a player is saved and loaded in a run, the player at its end is the one whom the requests alone would have made, but for places without special kills. |
| HeroRequests.RandomTaskInfo | gameserver/DreamHero.cpp:465-536 | The nested loops compute the specified offer. |
| HeroRequests.DreamHero.RefreshTask | gameserver/DreamHero.cpp:872-981 | The branches and the loop compute the specified hero and error. |
| HeroRequests.DreamHero.DayRefresh | gameserver/DreamHero.cpp:361-381 | Computes the specified hero. |
| HeroRequests.DreamHero.ReqReplaceTask | gameserver/DreamHero.cpp:1030-1053 | The loop computes the specified hero. |
| HeroRequests.CheckLotions | gameserver/DreamHero.cpp:635-670 | The loops accept exactly the reports whose lotions are all held. |
| HeroRequests.UseLotions | gameserver/DreamHero.cpp:673-702 | The loops leave exactly the lotions that are not among the used. |
| HeroRequests.OverwriteTasks | gameserver/DreamHero.cpp:708-721 | The loops overwrite the first task of each reported id. |
| HeroRequests.CompleteTasks | gameserver/DreamHero.cpp:723-756 | The loops remove and pay as specified. |
| HeroRequests.AdvanceRecords | gameserver/DreamHero.cpp:779-797 | The loop advances exactly the records whose next section was played. |
| HeroRequests.MergeKills | gameserver/DreamHero.cpp:810-828 | The loops add exactly the kills not there yet. |
| HeroRequests.DreamHero.ReqExitGame | gameserver/DreamHero.cpp:614-859 | The whole request computes the specified player and error. |
| HeroRequests.DreamHero.ReqDayLottery | gameserver/DreamHero.cpp:2164-2307 | The whole request computes the specified player and error. |
| HeroRequests.DreamHero.ReqBuyLotion | gameserver/DreamHero.cpp:2320-2397 | The whole request computes the specified player and error. |
| Lottery.Draw | gameserver/DreamHero.cpp:2213-2240 | The draw through the map of prefix sums picks the prize of the greatest start not above the residue, the latest of several, whatever the weights, or nothing if they do not add up to more than 0. |
| Lottery.PickedIsOwner | gameserver/DreamHero.cpp:2213-2240 | With no negative weight the prize picked is the owner of the residue. |
| Lottery.OwnerIsUnique | gameserver/DreamHero.cpp:2213-2240 | A residue has at most one owner. |
| Lottery.EveryResidueIsOwned | gameserver/DreamHero.cpp:2213-2240 | Every residue has an owner, and one of positive weight. |
| Lottery.DrawnByWeight | gameserver/DreamHero.cpp:2213-2240 | With no negative weight each prize is drawn for exactly as many residues as its weight. |
| Lottery.FairIff | gameserver/DreamHero.cpp:2213-2240 | All prizes are drawn by their weights if and only if no weight is negative. |
| Lottery.DrawPays | gameserver/DreamHero.cpp:2164-2307 | A draw without error takes a prize that may be won and pays that prize and nothing else: gold or jewels from the base to the base plus the random part, or the lotion; the time is noted. |
| Lottery.FailedDraw | gameserver/DreamHero.cpp:2164-2307 | A draw fails on the same day or without prizes; a failed draw changes nothing but, for a lotion that does not exist, the time. |
| Lottery.BuyCosts | gameserver/DreamHero.cpp:2320-2397 | A purchase succeeds if and only if the lotion is sold, not held and can be paid, and costs its price in its currency; a failed one costs nothing. |
| Lottery.Offer | gameserver/DreamHero.cpp:2183-2210 | The loops offer exactly the prizes that are not lotions already held. |
| Lottery.DrawKeepsDistinct | gameserver/DreamHero.cpp:2164-2307 | A draw keeps the lotions held distinct. |
| Lottery.BuyKeepsDistinct | gameserver/DreamHero.cpp:2320-2397 | So does a purchase. |
| Packet.ReadWritten | common/packet_interface.h:35-282 | For every shape and value, reading what was written gives the value and leaves the position behind it, or at the beginning if the value was all that was left and does not end in a string. |
| Packet.RestIsLeftIff | common/packet_interface.h:165-201 | What follows is what is read next if and only if something follows or the value ends in a string. |
| Packet.WrittenIsUnique | common/packet_interface.h:35-122 | No value's bytes are the beginning of another's. |
| Packet.CutMessage | common/packet_interface.h:165-282 | Every message cut short, whatever precedes it: reading fails unless the cut falls between two raw reads, and goes on from the beginning of the buffer, as specified, if it does. |
| Packet.CutAfterHeader | common/packet_interface.h:152-168 | A header and nothing else, where a number should follow: the number is read from the bytes of the header. |
| Packet.InsertLast | common/packet_interface.h:251-282 | Inserting the elements of a set or map in their order rebuilds it. |
| Packet.SamplePacket | common/packet_interface.h:35-122 | A header, a string and a list, byte by byte. |
| Packet.PacketSn.AddBuf | common/packet_interface.h:29-30 | `thread_send_buffer::write` (common/thread_buffer.h, lines 168 to 180) writes all or fails, and fails exactly when the buffer would be full or over. |
| Packet.PacketSn.Put | common/packet_interface.h:35-122 | Appends exactly the encoding, or fails exactly when there is no room. |
| Packet.PacketUsn.GetBuf | common/packet_interface.h:165-168 | `thread_recv_buffer::read` (common/thread_buffer.h, lines 265 to 280) reads as specified, rewinding at the end. |
| Packet.PacketUsn.Get | common/packet_interface.h:175-282 | The loops of the reader compute the specified value and position. |
| Packet.PacketUsn.ReadHead | common/packet_interface.h:152-159 | Reads the header and starts over. |
| UpdateMask.BitOfChanged | battleserver/UpdateMask.h:22-34 | Changing a bit through the byte view changes that bit of the word and no other. |
| UpdateMask.SampleBits | battleserver/UpdateMask.h:22-34 | Bit k of a word is worth 2 to the power k. |
| UpdateMask.BitsOfWords | battleserver/UpdateMask.h:88-100 | Word operations act on each bit as seen through the byte view. |
| UpdateMask.ChangedBits | battleserver/UpdateMask.h:22-34 | Setting and unsetting a bit adds and removes one member of the set. |
| UpdateMask.CombinedBits | battleserver/UpdateMask.h:88-100 | Word by word, & is intersection and | is union. |
| UpdateMask.UpdateMask.SetBit | battleserver/UpdateMask.h:22-27 | Adds the index to the members. |
| UpdateMask.UpdateMask.UnsetBit | battleserver/UpdateMask.h:29-34 | Removes the index. |
| UpdateMask.UpdateMask.GetBit | battleserver/UpdateMask.h:36-43 | Tells membership, for any index. |
| UpdateMask.UpdateMask.GetUpdateBlockCount | battleserver/UpdateMask.h:45-51 | The least number of blocks, at least 1, that holds all members. |
| UpdateMask.UpdateMask.SetCount | battleserver/UpdateMask.h:58-72 | An empty mask of the new size. |
| UpdateMask.UpdateMask.Clear | battleserver/UpdateMask.h:74-78 | No members. |
| UpdateMask.UpdateMask.Assign | battleserver/UpdateMask.h:80-86 | Size and members of the other mask, in words of its own; a mask assigned to itself loses its members, because its words are emptied before they are copied. |
| UpdateMask.UpdateMask.IntersectWith | battleserver/UpdateMask.h:88-93 | Intersection of the members. |
| UpdateMask.UpdateMask.UniteWith | battleserver/UpdateMask.h:95-100 | Union of the members. |
| UpdateMask.UpdateMask.Intersection | battleserver/UpdateMask.h:102-111 | A new mask with the common members. |
| UpdateMask.UpdateMask.Union | battleserver/UpdateMask.h:113-122 | A new mask with the members of both. |

## Left out

- Md5.Md5Digest.Update: an update of more than 2^32 - 64 bytes, for which the 32-bit loop index of the source wraps round, is excluded.
- SendPipeline.StepKeepsInv: a framed message has at least one byte, as `makeMessage` guarantees; its greatest length is not limited.
- HandOff.Queue.Poll: the call without pushes in between; with them it is the run of steps of EveryRunKeepsInv.
- HttpPipeline.HttpManager.Update: the call without tasks added in between; with them it is the run of steps of EveryRunKeepsInv.
- HttpPipeline.HttpManager.LogicUpdate: the call without the worker in between; with it, it is the run of steps of EveryRunKeepsInv.
- Gate.EveryRunKeepsInv: ids are fresh and a game server asks to move only a player it has; what happens otherwise is stated by AddToWaitDisjointIff, CloseDisjointIff and ChangeGsTraceableIff. A second game server under an id that is already active is not a step.
- GateServer.UserSession.SetState: the timers that close a session that gets no account or is being closed are not part of the object; a session may close at any moment.
- GateServer.UserManager.ParseLoginGame: the ping timers are not part of the object; a session may close at any moment.
- GateServer.UserManager.OnAccept: the session is one that was never used or has been closed; the reuse of session objects by the server's pool is not modelled, nor are the close and ping timers of a session, which may close it at any moment.
- GateServer.UserManager.ParseChangeGs: the map from accounts to ids is not modelled, whether the account is found is a parameter; the session that is told to close when the server or the account is missing is closed by a later step.
- GateServer.UserManager.EraseValue: the intended filter, as in the WIN32 branch; the other branch uses an iterator it has just erased. The same holds for Orders.DreamHero.ReqCreateDeal.
- Packet.ReadWritten: the bytes of a scalar are taken as they lie in memory, and operator< is a parameter; base64 of the whole buffer is left out.
- Packet.PacketUsn.Get: a string whose length field reaches beyond the buffer is a failure here; the source reads past the end.
- UpdateMask.UpdateMask.IntersectWith: both masks have equally many blocks; with fewer in the other one the source reads past its end.
- UpdateMask.UpdateMask.UniteWith: both masks have equally many blocks, for the same reason.
- UpdateMask.UpdateMask.Intersection: both masks have equally many blocks, for the same reason.
- UpdateMask.UpdateMask.Union: both masks have equally many blocks, for the same reason.
- UpdateMask.UpdateMask.GetUpdateBlockCount: the mask has at least one block; without any the source reads past the end.
- Promotion.TimeShopPromotion.Book: recharge ratings and the opening of hidden heroes are not in the ledger.
- Orders.EveryRunCreditsOnce: one hero's life in memory; orders that are paid while the hero is away go through the database.
- Rank.EveryBoardIsIndexed: boards start empty; loading a board and removing a hero do not keep the index.
- HeroSave.LoadedIsSaved: the name, the columns of spirit, tutorial and daily game, which are printed and read like the numbers modelled, and the size of the C buffers are left out; integers are unbounded.
- HeroSave.SaveHero: the columns are produced, but not the SQL statement around them; the two times are columns of numbers here, while the source prints a date and lets the database turn it back into a number.
- HeroSave.DbDoQueryHeroInfo: the conversion of number columns by the database library is taken to be that of `atoi`.
- HeroSave.NothingLostIff: the columns named under LoadedIsSaved and SaveHero.
- HeroLife.EveryRunIsSound: entering a game is any change of the place, and all requests that touch neither tasks nor lotions nor kills nor the place are one step, which sets the other fields as it likes.
- Framing.OpenMadeFrame: frames are not compressed; a frame marked as compressed is opened by a compressor that is not part of this model.
- The key exchange and the encryption of frames, which the source has switched off.
- HandOff.EveryRunKeepsInv: a received message counts as run also when its session has meanwhile been closed and the server skips it; `call_back_mgr::clear` is left out.
- Sockets, HTTP requests, the database, logging and configuration files: their effects are steps or parameters.
- Orders.DreamHero.AddDealPay: the price table holds what a product credits after the scaling by the recharge rating, which the source does with floats.
- Timers other than those of promotions fire at any time after they are set; how long they run is left out.
