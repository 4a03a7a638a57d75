# Deckback launcher: verified models

Deckback runs a television web application on a handheld. Its launcher talks to the browser engine over the
DevTools protocol, keeps a settings overlay, updates itself through the Flatpak portal, restarts a crashed
engine and writes its own JSON, WebSocket frames, SHA-256 and logs; two page scripts and a Python tool go with
it. This project models that logic in Dafny and proves what it is relied on for.

`dafny verify dfyconfig.toml` checks everything.

| modules | source |
|---|---|
| `CdpSession` (steps), `CdpSafety` (connection), `CdpReplies` (requests), `CdpSticky` (re-arm), `CdpRuns` (guarantees), `CdpDelivery` and `CdpReconnect` (what calls achieve), `CdpEarlyWrite` (a counterexample) | `CdpSession` in launcher/src/devtools.cpp |
| `Doubles` (rounding), `JsonSyntax` (grammar and meaning), `JsonParser`, `JsonGrammar`, `JsonCodes` (code points and numbers), `JsonDump` | launcher/src/json.cpp, `js_string_escape` in launcher/src/util.hpp |
| `Bytes`, `WebSocket`, `WebSocketWire` (bit by bit) | namespace `ws` and `read_loop` in launcher/src/devtools.cpp |
| `Updates` (steps), `UpdatesSafety`, `UpdatesRuns` (guarantees), `UpdatesAnswers` (what the user is told), `UpdatesWitness` (counterexamples) | launcher/src/updateprompt.cpp, updater.cpp, busloop.cpp |
| `ConfigStore`, `Captions`, `CaptionAnswers` (each action), `CaptionRestart` | launcher/src/config_store.cpp, caption_settings.cpp, main.cpp:284-293 |
| `OsdPage` (the page on values), `OsdMenu`, `OsdRuns`, `OsdEdits` (each key), `OsdObjects` (the objects) | config/scripts/osd.js, launcher/src/osdmenu.cpp |
| `Touch` (steps), `TouchSafety`, `TouchStream`, `TouchHolds`, `TouchGestures` (each gesture), `TouchRouter` (the object) | config/scripts/touch_gestures.js |
| `Vdf`, `Shortcuts`, `VdfBytes` (byte by byte) | scripts/steam_shortcuts.py |
| `Sha256`, `Sha256Bits` (bit by bit) | launcher/src/sha256.cpp |
| `LogRotation`, `Watchdog` | launcher/src/log.cpp, watchdog.cpp |

Objects that the source updates in place are classes whose methods are proved equal to a function on values;
the guarantees are then lemmas about those functions, over all inputs and all runs. The two protocols shared by
several threads are transition systems: one action for each critical section or system call, any interleaving,
with the network, the portal and the clock free to do anything.

## Where the code does less than it says

For each of these a failing run is given, and the exact condition under which the promise holds.

- A comment in `ensure_connected` (launcher/src/devtools.cpp:399-401) says no request reaches a new target ahead
  of the sticky user agent. One does in `CdpEarlyWrite.EarlyWrite`. While a socket is being re-armed, the threads
  that can go on to write to it are exactly those already past an admission (`CdpEarlyWrite.EarlyWriteExactly`),
  and that was at an earlier socket (`CdpEarlyWrite.PassedEarlier`, `CdpRuns.EarlyWritesAreStale`).
- One deploy at a time on a monitor fails when the portal takes a call whose reply is lost, because `do_update`
  treats that as a refusal. The deploys in flight are at most one more than the lost replies
  (`UpdatesRuns.OneInFlight`), and as many for every number of lost replies (`UpdatesWitness.ManyInFlight`).
- A fallback after an unreadable probe can replace `Done` by `Requested` (`UpdatesWitness.DoneOverwritten`), and
  that only in the gap named by `UpdatesRuns.OverwritesExactly`.
- A portal that restarts and refuses the new monitor is retried without end (`UpdatesWitness.RebuildsUncounted`),
  since a failed rebuild is not counted. The number of reconnections over a stretch without a stable link is the
  number of failed rebuilds, give or take what the budget allows (`UpdatesRuns.ReconnectsBounded`), so it is
  bounded exactly when they are.
- The page removes every copy of a language and the launcher the first one, so a hand-written overlay with a
  duplicate takes them out of step (`OsdRuns.DuplicatesDiverge`), and nothing else does (`OsdRuns.InStepExactly`).
- The gesture queue exceeds a `maxQueue` that is not positive (`TouchStream.TapOverflows`) or is lowered below the
  number queued (`TouchStream.LoweredOverflows`); from any state on, it stays within the bound exactly when neither
  is so (`TouchStream.QueueBoundedExactly`).
- A comment in `cmd_add` (scripts/steam_shortcuts.py:291) says that prior entries with our AppName are dropped.
  Entries go exactly when our name stands anywhere in their AppName or Exe (`VdfBytes.DropsExactly`), so those of
  another program whose name begins with ours go as well (`VdfBytes.LongerNamesGo`).
- With `max_bytes` not positive the log never rotates and its one file has no bound
  (`LogRotation.OneFileTakesAll`); the bound on files holds exactly when it is positive
  (`LogRotation.BoundedExactly`).

## Model

| member | source | states |
|---|---|---|
| CdpRuns.StepKeeps | launcher/src/devtools.cpp:247-592 | every critical section of every caller and of the reader, every outcome of the network, and any use of file descriptors by other code, keeps the invariant of the session |
| CdpRuns.ReachedHolds | launcher/src/devtools.cpp:233-592 | so the invariant holds in every state reachable from a new session under any scheduler |
| CdpRuns.RepliesMatch | launcher/src/devtools.cpp:247-290 | a request returns nothing, or the body of a reply that carried its own id and reports no error |
| CdpDelivery.ReplyReturns | launcher/src/devtools.cpp:542-557 | a reply found for a waiting request is delivered, and the request returns its body unless that reports an error: then nothing |
| CdpDelivery.AnswerReturns | launcher/src/devtools.cpp:528-558 | so does the whole way of an answer from the socket to the caller |
| CdpDelivery.FoundReturns | launcher/src/devtools.cpp:551-557 | once delivered, over any run in which nothing else is put into its slot, the body is in the slot, in the hands of its thread, or returned |
| CdpDelivery.DeliveredReturns | launcher/src/devtools.cpp:268-276 | a delivered body is not lost over any run without a mark of failure or a second reply under its id |
| CdpDelivery.TimeoutDrops | launcher/src/devtools.cpp:278-282 | a request that times out returns nothing, shuts the socket down and takes over every request in flight |
| CdpDelivery.FailedWriteDrops | launcher/src/devtools.cpp:261-265 | so does one whose write fails |
| CdpDelivery.NoSocketDrops | launcher/src/devtools.cpp:261-265 | and one that finds no socket |
| CdpDelivery.RequestSends | launcher/src/devtools.cpp:247-260 | on an open, armed socket a request writes its command whole to that socket and waits under a fresh id |
| CdpDelivery.CallSends | launcher/src/devtools.cpp:247-260 | the command sent is the one the caller gave |
| CdpDelivery.AgentSends | launcher/src/devtools.cpp:293-299 | a user agent is stored and sent |
| CdpDelivery.ScriptSends | launcher/src/devtools.cpp:301-310 | a script is stored once, at the end of the list, and sent at each call |
| CdpDelivery.GrantSends | launcher/src/devtools.cpp:312-319 | a permission is stored and sent |
| CdpDelivery.PingIsAnswered | launcher/src/devtools.cpp:530-534 | a ping is answered on its own socket |
| CdpReconnect.Reconnects | launcher/src/devtools.cpp:390-438 | a caller that finds no socket publishes a new one under the next epoch, hands it to a new reader and starts the re-arm |
| CdpReconnect.RearmEnds | launcher/src/devtools.cpp:457-461 | the end of a re-arm opens the socket to all, and the thread goes on to its own command |
| CdpReconnect.SendsItsOwn | launcher/src/devtools.cpp:247-260 | whatever happens in between, a re-arm included, a thread that is not re-arming is about the command it was called with |
| CdpReconnect.StopAdmitsNone | launcher/src/devtools.cpp:390-406 | on a stopped session nobody is let through but the thread that ends a re-arm |
| CdpReconnect.StoppedStaysShut | launcher/src/devtools.cpp:430-434 | and over any run no further socket is published |
| CdpReplies.KeepsReplies | launcher/src/devtools.cpp:528-558 | no interleaving gives one request's reply to another: every id is held by one thread, and every slot holds only what arrived under its id |
| CdpReplies.CallAccounts | launcher/src/devtools.cpp:333-351 | a request in flight is always done, in `pending_`, or in the hands of somebody about to mark it, whichever thread moves |
| CdpReplies.KeepsWaiters | launcher/src/devtools.cpp:247-290 | every step keeps each waiter accounted for, and each request sent and still in `pending_` tied to the latest socket, whose reader has yet to empty `pending_` |
| CdpRuns.NoStrandedWaiter | launcher/src/devtools.cpp:339-368 | an unfinished waiter is about to be marked by somebody whose marking step is enabled, or its id is in `pending_` and the very socket its request went out on is open, or the reader of that socket has yet to fail what is pending |
| CdpRuns.FinishedReaderLeavesNone | launcher/src/devtools.cpp:465-526 | once the reader of any socket has finished, `pending_` holds no request that was sent on it |
| CdpRuns.SentWhereRecorded | launcher/src/devtools.cpp:370-388 | the socket recorded for a request is the one its bytes went to |
| CdpSafety.KeepsConnection | launcher/src/devtools.cpp:361-462 | every step keeps the connection invariant: one reconnect and one writer at a time, descriptor ownership, one live reader |
| CdpRuns.OneReader | launcher/src/devtools.cpp:465-526 | at most one reader is live, and it reads a descriptor the session owns |
| CdpRuns.WriterHasSocket | launcher/src/devtools.cpp:370-388 | between the check of `fd_` and the end of the write the descriptor stays the session's latest socket |
| CdpRuns.WritesStayHome | launcher/src/devtools.cpp:370-388 | no byte is ever written to a closed or recycled descriptor |
| CdpRuns.NoLeak | launcher/src/devtools.cpp:416-436 | the only descriptors the session owns are `fd_` and the one a reconnect is about to publish |
| CdpRuns.JoinAfterClose | launcher/src/devtools.cpp:402-408 | whoever joins the old reader finds the socket already closed |
| CdpRuns.ReaderEnds | launcher/src/devtools.cpp:507-526 | a reader past closing its socket finishes by its own steps alone, so the join cannot deadlock |
| CdpSticky.OwedMoves | launcher/src/devtools.cpp:442-456 | a sticky command the re-arm has read stays owed by the arming thread until it is sent or the socket is shut down |
| CdpSticky.KeepsStickies | launcher/src/devtools.cpp:293-319 | every step keeps the accounts of the sticky state: owed, issued, or being sent by its setter |
| CdpRuns.ArmedIsRearmed | launcher/src/devtools.cpp:440-462 | an armed socket that is not shut down has carried Page.enable and every sticky command stored when it was published or read by its re-arm; what is stored now is issued or being sent by a setter |
| CdpRuns.AdmittedAfterRearm | launcher/src/devtools.cpp:390-407 | a thread other than the arming one that `ensure_connected` lets through to the latest socket finds it re-armed or shut down, even if the socket died mid-arm |
| CdpRuns.EarlyWritesAreStale | launcher/src/devtools.cpp:370-375 | a request written to an unarmed socket that is not shut down was admitted at an earlier socket |
| CdpEarlyWrite.EarlyWriteExactly | launcher/src/devtools.cpp:370-375 | while a socket is being re-armed, a thread other than the arming one can go on to write to it if and only if it is already past its admission |
| CdpEarlyWrite.PassedEarlier | launcher/src/devtools.cpp:390-398 | and it was then admitted at an earlier socket, unless this one has been shut down |
| CdpEarlyWrite.EarlyWrite | launcher/src/devtools.cpp:399-401 | such a write is reachable: the comment that no request reaches the new target ahead of the sticky user agent fails |
| JsonGrammar.ParseComplete | launcher/src/json.cpp:20-304 | every text the RFC 8259 grammar derives with nesting at most 64 and in-range numbers is accepted with the derivation's meaning |
| JsonGrammar.ParseSound | launcher/src/json.cpp:20-304 | every accepted text has such a derivation, and the value returned is its meaning |
| JsonGrammar.ParseExactly | launcher/src/json.cpp:20-29 | both directions: `parse` returns a value exactly when the grammar derives the text with that meaning (last duplicate key wins in the first one's place, surrogate pairs joined, lone surrogates kept, decimals rounded to the nearest double) |
| JsonCodes.Utf8Decodes | launcher/src/json.cpp:170-188 | a decoder written from the bit patterns of RFC 3629 reads every code point back from the bytes written, whatever follows them |
| JsonCodes.Utf8Only | launcher/src/json.cpp:170-188 | and only the shortest form decodes: what decodes is what would be written |
| JsonCodes.JoinExactly | launcher/src/json.cpp:255-266 | two escapes join into the code point whose UTF-16 halves they are, and into no other |
| JsonCodes.HexIs | launcher/src/json.cpp:190-206 | four hex digits of either case have their positional value |
| JsonCodes.EscapesDecode | launcher/src/json.cpp:226-251 | what each escape letter stands for |
| JsonCodes.FixedIs | launcher/src/json.cpp:276-302 | digits and fraction denote their decimal value |
| JsonCodes.ExponentIs | launcher/src/json.cpp:292-302 | and an exponent scales it by a power of ten, up or down |
| JsonCodes.SpacesAre | launcher/src/json.cpp:52-60 | the four space characters, and no others |
| JsonCodes.DepthExactly | launcher/src/json.cpp:99-102 | n nested arrays parse if and only if n is at most 65 |
| JsonParser.ParseText | launcher/src/json.cpp:377 | the parser object, run on a text, returns what the parsing function gives, never reads past the end and terminates |
| JsonParser.Parser.ParseValue | launcher/src/json.cpp:68-97 | the recursive descent from `p_` accepts, consumes and returns what the parsing function does |
| JsonParser.Parser.ParseObject | launcher/src/json.cpp:99-140 | the member loop, with the depth cap and the in-place update of a repeated key |
| JsonParser.Parser.ParseArray | launcher/src/json.cpp:142-168 | the item loop |
| JsonParser.Parser.ParseString | launcher/src/json.cpp:208-274 | the character loop, with escapes and raw control characters refused |
| JsonParser.Parser.UnicodeEscape | launcher/src/json.cpp:252-267 | a `\u` escape, joined with a low surrogate when one follows and left alone otherwise |
| JsonParser.Parser.Hex4 | launcher/src/json.cpp:190-206 | four hex digits in either case, or a refusal |
| JsonParser.Parser.ParseNumber | launcher/src/json.cpp:276-304 | the number scan: no leading zeros, digits after point and exponent, in range |
| Doubles.RoundIsNearest | launcher/src/json.cpp:298-302 | no double is nearer to a decimal than the one it is rounded to |
| Doubles.RoundIsDouble | launcher/src/json.cpp:298-302 | a decimal in range rounds to a double |
| Doubles.RoundsToItself | launcher/src/json.cpp:298-302 | a double rounds to itself |
| Doubles.TiesToEven | launcher/src/json.cpp:298-302 | of two doubles that are equally near the one with the even last digit is taken |
| Doubles.FiniteExactly | launcher/src/json.cpp:300-301 | a decimal is in range exactly when what it rounds to is below 2^1024 |
| JsonDump.IntTokValue | launcher/src/json.cpp:387-390 | the digits of an integer below 10^15 denote that very number |
| JsonDump.ShownIs | launcher/src/json.cpp:387-392 | integers of up to fifteen digits are written as their digits, other numbers as they are formatted |
| JsonDump.DumpThenParse | launcher/src/json.cpp:453-458 | reading back what `dump` wrote gives the value if and only if its keys are distinct and its height is at most 64, for every indent, all string bytes and all numbers whose text reads back |
| JsonDump.ParseDumpParse | launcher/src/json.cpp:400-458 | a parsed document survives rewriting if each number in it that is not a short integer is formatted as a text of the same double |
| JsonDump.ParsedIsTidy | launcher/src/json.cpp:99-140 | what `parse` returns always has distinct keys and height at most 64 |
| JsonDump.ParsedIsPrintable | launcher/src/json.cpp:300-302 | and that is so of every document under a formatting that gives each finite double one of its texts, as `std::format` does |
| JsonDump.RewritingKeepsValue | launcher/src/json.cpp:400-458 | so under such a formatting every document survives rewriting |
| JsonDump.SomeFormatInverts | launcher/src/json.cpp:387-392 | such a formatting exists |
| JsonDump.EscapeMeaningIs | launcher/src/util.hpp:33-70 | reading an escaped string gives the string back, NUL, quotes and control bytes included |
| JsonDump.JsStringEscape | launcher/src/util.hpp:33-70 | the escaping loop writes the escape tokens of its input |
| JsonDump.EscapeTextIs | launcher/src/util.hpp:33-70 | the text written for each byte |
| JsonDump.NewlineIs | launcher/src/json.cpp:394-398 | the line break and the spaces of each level, or nothing in compact output |
| JsonDump.Dump | launcher/src/json.cpp:453-458 | the writer produces the text of the writing function |
| JsonDump.Writer.DumpValue | launcher/src/json.cpp:400-449 | the recursive writer appends exactly the text of the value to `out` |
| JsonDump.Writer.DumpNumber | launcher/src/json.cpp:387-392 | short integers as digits, other numbers as they are formatted |
| JsonDump.Writer.DumpString | launcher/src/json.cpp:381-385 | appends the quoted, escaped string |
| WebSocket.DecodeEncode | launcher/src/devtools.cpp:35-111 | decoding an encoded frame followed by any bytes gives the frame and its exact length; only a payload over 32 MiB is refused (RFC 6455, sections 5.2 and 5.3) |
| WebSocket.PrefixNeedsMore | launcher/src/devtools.cpp:65-111 | every strict prefix of an encoded frame asks for more bytes |
| WebSocket.DecodeStable | launcher/src/devtools.cpp:65-111 | once the decoder has answered, further bytes do not change its answer |
| WebSocket.UnmaskMask | launcher/src/devtools.cpp:54-61 | masking twice with one key is the identity |
| WebSocket.DrainResume | launcher/src/devtools.cpp:489-504 | draining a buffer and then the rest is draining the whole |
| WebSocket.StoppedEarly | launcher/src/devtools.cpp:489-504 | bytes after a Close or an undecodable frame change nothing |
| WebSocket.SentFramesArrive | launcher/src/devtools.cpp:465-504 | the frames a peer sends arrive in order up to its first Close, and a cut-off last frame is not seen |
| WebSocket.EncodeFrame | launcher/src/devtools.cpp:35-63 | the byte loops write the section 5.2 header, the key and the masked payload |
| WebSocketWire.PayloadIs | launcher/src/devtools.cpp:54-61 | bit j of payload byte i differs on the wire exactly when bit j of key byte i mod 4 is set |
| WebSocketWire.HeaderIs | launcher/src/devtools.cpp:35-56 | the first two bytes, the extended length and the key stand at their section 5.2 places with their literal bits |
| WebSocketWire.HelloIs | launcher/src/devtools.cpp:35-63 | the masked "Hello" of RFC 6455, section 5.7, is written as the standard gives it |
| WebSocketWire.CapIs | launcher/src/devtools.cpp:31 | the cap on a payload is 33554432 bytes |
| WebSocket.ApplyMask | launcher/src/devtools.cpp:58-61 | the byte loop of both directions appends the masked payload |
| WebSocket.DecodeHead | launcher/src/devtools.cpp:73-89 | the header loop reads the three length encodings |
| WebSocket.DecodeFrame | launcher/src/devtools.cpp:65-111 | the decoder answers what the specification does |
| WebSocket.HandOn | launcher/src/devtools.cpp:489-504 | the inner loop hands on every frame at the front of the buffer and keeps the rest |
| WebSocket.ReadLoop | launcher/src/devtools.cpp:465-506 | for every way of cutting the stream into reads, the frames handed on are those of the whole stream |
| UpdatesRuns.StepKeeps | launcher/src/updateprompt.cpp:376-656 | every step of the input thread, the probe, the portal loop and the clock keeps the invariant |
| UpdatesRuns.NoDeployWithoutConsent | launcher/src/updater.cpp:587-668 | in notify mode the calls of `Update()` never outnumber the presses of Update now and Check, over probes, timeouts, reconnects and portal restarts |
| UpdatesRuns.OneInFlight | launcher/src/updater.cpp:481-492 | at most one deploy is in flight on a monitor, plus one for each accepted call whose reply was lost |
| UpdatesWitness.ManyInFlight | launcher/src/updater.cpp:653-664 | for every n, a run with n lost replies has n + 1 deploys in flight on one monitor: the bound is reached |
| UpdatesRuns.CheckingIsAnswered | launcher/src/updateprompt.cpp:535-552 | between callbacks, `Checking` has a probe running or unread |
| UpdatesRuns.ProbeAnswers | launcher/src/updateprompt.cpp:572-612 | reading the probe leaves `Checking`, or leaves nothing to do but ask the portal |
| UpdatesRuns.CheckingEnds | launcher/src/updateprompt.cpp:572-612 | a check is answered: any continuation in which the probe ends and then a tick runs from its start to its end leaves `Checking`, whatever else happens in between, Check pressed again included |
| UpdatesRuns.CheckingCanEnd | launcher/src/updateprompt.cpp:572-612 | and such a continuation always exists, whatever the probe finds |
| UpdatesAnswers.CheckAnswers | launcher/src/updateprompt.cpp:572-612 | the answer: a newer commit that is not refused is offered; otherwise a standing announcement stays on offer, and with none the tab says "latest", with news of it; an unreadable probe goes to the portal |
| UpdatesAnswers.LaunchProbeSays | launcher/src/updateprompt.cpp:572-612 | a probe nobody asked for announces a newer commit and says "latest" only where nothing was said and nothing is announced |
| UpdatesAnswers.EmptyExactly | launcher/src/updateprompt.cpp:570-602 | no step of the input thread says "latest" while the flag it read says an unrefused announcement stands, and that flag says so exactly (`FlagIs`) |
| UpdatesAnswers.AvailableStays | launcher/src/updateprompt.cpp:570-586 | over any run nothing withdraws an announcement |
| UpdatesAnswers.TickFinds | launcher/src/updateprompt.cpp:406-454 | an announcement not seen before takes back an earlier "latest", failure or block, and nothing else |
| UpdatesAnswers.TickRefuses | launcher/src/updateprompt.cpp:427-433 | a commit is refused exactly when the portal had nothing to install for it after the probe announced it |
| UpdatesAnswers.PressAsks | launcher/src/updateprompt.cpp:517-530 | a press of Update now is recorded and becomes consent |
| UpdatesAnswers.PressChecks | launcher/src/updateprompt.cpp:535-568 | a press of Check starts a probe unless one is about, or asks the portal where there is no probe |
| UpdatesAnswers.LaunchProbes | launcher/src/updateprompt.cpp:395-400 | the first tick of a launch starts a probe and no later one does (`LaunchedStays`) |
| UpdatesAnswers.TurnCalls | launcher/src/updater.cpp:625-633 | the loop calls the portal on its turn exactly when there is consent, latched or new, and no deploy under way |
| UpdatesAnswers.ConsentStays | launcher/src/updater.cpp:478-492 | consent survives every drop, rebuild and refusal until the loop takes it up |
| UpdatesAnswers.OwnerRebuilds | launcher/src/updater.cpp:611-624 | after a restart of the portal the monitor is rebuilt before anything else, at no cost to the retry budget |
| UpdatesAnswers.CallAnswers | launcher/src/updater.cpp:638-668 | what a call does to phase, news, consent and the deploys in flight, for each outcome |
| UpdatesRuns.RequestedEnds | launcher/src/updateprompt.cpp:412-419 | `Requested` ends by a verdict or by the first tick after the timeout, whatever else happens |
| UpdatesRuns.OverwritesExactly | launcher/src/updateprompt.cpp:517-612 | a Check press, a probe result or an announcement changes `Requested` or `Done` if and only if it is the fallback after an unreadable probe and `Done` came in between its two sections |
| UpdatesRuns.DoneStays | launcher/src/updateprompt.cpp:517-612 | over any run outside that gap, `Done` stays until the user presses Update now or the portal answers another call |
| UpdatesRuns.RequestedStays | launcher/src/updateprompt.cpp:517-612 | over any run, only an answer from the portal ends `Requested` before its timeout |
| UpdatesWitness.DoneOverwritten | launcher/src/updateprompt.cpp:598-611 | that gap is reachable |
| UpdatesRuns.ReconnectionEnds | launcher/src/updater.cpp:556-610 | over any stretch without a link of 30 s, drops and failed attempts number at most 12 and their waits at most 363 s |
| UpdatesRuns.LinksConserved | launcher/src/updater.cpp:587-624 | over any stretch, links made and links dropped or given up after a refused monitor balance |
| UpdatesRuns.ReconnectsBounded | launcher/src/updater.cpp:556-624 | over any stretch without a drop of a link up 30 s, the bus is connected anew at most 12 times more than the portal refused a new monitor, and at least as often less one |
| UpdatesRuns.InertAtTheTwelfth | launcher/src/updater.cpp:556-610 | the loop goes inert exactly when the count since the last stable link reaches 12 |
| UpdatesRuns.DelayIs | launcher/src/busloop.cpp:27-31 | every delay is min(60000, 1000 * 2^k) although the shift stops at 6 |
| UpdatesWitness.RebuildsUncounted | launcher/src/updater.cpp:611-624 | for every n, a run with n refused monitors reconnects n times without a wait and with the whole budget left |
| ConfigStore.Store.Load | launcher/src/config_store.cpp:65-87 | loading keeps exactly the allowlisted members of a well-formed object, in order |
| ConfigStore.Store.Put | launcher/src/config_store.cpp:97-111 | replaces the member in place or appends it, refuses other keys, and writes the file when the write succeeds |
| ConfigStore.Store.Remove | launcher/src/config_store.cpp:128-135 | drops the first member of that key and saves only if there was one |
| ConfigStore.AppliedIsOverlaid | launcher/src/config_store.cpp:89-93 | applying the table row by row sets each field to its overlay value where the type fits, and leaves the others |
| ConfigStore.FileSets | launcher/src/config_store.cpp:89-93 | a member of the right type sets its field, be it empty; a missing one or one of another type leaves the configured value |
| ConfigStore.FindUpsert | launcher/src/config_store.cpp:97-111 | a put is seen by later lookups of its key and by no others |
| ConfigStore.UpsertSound | launcher/src/config_store.cpp:97-111 | a put keeps the overlay something the next start reads back |
| ConfigStore.SavedLoads | launcher/src/config_store.cpp:137-142 | what is saved is what the next start loads |
| ConfigStore.SavedLooks | launcher/src/config_store.cpp:137-142 | the text of a file with one setting: two spaces of indent, a space after the colon, a last line break |
| ConfigStore.LoadedSound | launcher/src/config_store.cpp:65-87 | an overlay loaded from a file reads back when saved, if its numbers are formatted as texts of the same doubles |
| ConfigStore.AlwaysSound | launcher/src/config_store.cpp:65-87 | so does one loaded from any file, if every finite double is formatted as one of its texts |
| Captions.CaptionSettings.constructor | launcher/src/caption_settings.cpp:83-98 | unknown control or type falls back, an empty list becomes "system" |
| Captions.CaptionSettings.ApplyAction | launcher/src/caption_settings.cpp:252-306 | the settings, the overlay and the file after an action; true exactly when a setting changed, whether or not the write succeeded |
| Captions.CaptionSettings.ApplyLanguages | launcher/src/caption_settings.cpp:279-303 | add, remove and reorder the language list in place |
| Captions.CaptionSettings.SetOn | launcher/src/caption_settings.cpp:145-149 | the on-state, marked known, persisted only while to be remembered |
| Captions.CaptionSettings.NoteApply | launcher/src/caption_settings.cpp:151-156 | only a seeding verdict changes the on-state |
| CaptionAnswers.ResultTells | launcher/src/caption_settings.cpp:151-156 | "seed_on:" and a code means on, "seed_off" means off, and nothing else means anything |
| CaptionAnswers.StartsWithDefaults | launcher/src/caption_settings.cpp:83-98 | what the settings fall back to, and that the on-state counts as known only if it was to be remembered |
| CaptionAnswers.ChoiceIsMade | launcher/src/caption_settings.cpp:252-272 | a known control or type other than the present one is set and written under its key, any other value does nothing |
| CaptionAnswers.SwitchIsSet | launcher/src/caption_settings.cpp:273-278 | "on" turns a switch on and everything else off, written under its key only if that changes it |
| CaptionAnswers.ListIsWritten | launcher/src/caption_settings.cpp:279-303 | a list edit touches only the list, and writes the whole new list if it changes it |
| Captions.CaptionSettings.EffectiveLanguages | launcher/src/caption_settings.cpp:100-112 | the loop returns the effective list |
| Captions.EffectiveIs | launcher/src/caption_settings.cpp:100-112 | the effective list is duplicate-free, holds exactly the preferred codes with "system" resolved, in order of first mention |
| CaptionRestart.RestartRestores | launcher/src/caption_settings.cpp:83-98 | after any actions, on/off changes and apply verdicts, the last write having succeeded, a restart rebuilds control, type, languages, remember and toast, with the on-state last persisted or configured, if the overlay loaded at the start reads back when saved |
| CaptionRestart.RestartKeepsOn | launcher/src/caption_settings.cpp:145-149 | and the on-state itself if it was last changed while to be remembered and still is |
| CaptionRestart.AnyFileRestores | launcher/src/caption_settings.cpp:83-98 | both from no user.json, and from any user.json if every finite double is formatted as one of its texts |
| CaptionRestart.StepMirrors | launcher/src/caption_settings.cpp:252-306 | after each event the overlay mirrors the settings |
| OsdPage.OpenedOk | config/scripts/osd.js:345-367 | the menu opens with its focus naming an existing row |
| OsdPage.ExecOk | config/scripts/osd.js:680-707 | every command leaves the focus and picker indices naming something that exists |
| OsdPage.UpdatedOk | config/scripts/osd.js:710-738 | re-rendering the Updates panel repairs the focus |
| OsdMenu.EditArrives | launcher/src/osdmenu.cpp:31-43 | an `apply:` verdict reaches `apply_action` whole, even if the value contains "=" |
| OsdMenu.RemoveInStep | config/scripts/osd.js:520-535 | removing by code on the page and by first match in the launcher leave equal lists |
| OsdMenu.MoveInStep | config/scripts/osd.js:660-678 | moving a language leaves equal lists, also at either end |
| OsdMenu.PickInStep | config/scripts/osd.js:581-598 | picking a language adds it on both sides or on neither |
| OsdMenu.ComboInStep | config/scripts/osd.js:509-519 | a cycled combo is accepted by the launcher with the same value |
| OsdEdits.ComboTurns | config/scripts/osd.js:509-519 | Right turns the focused combo to the next option and Left to the one before, round and round, on the page and in the settings |
| OsdEdits.TurnAndBack | config/scripts/osd.js:509-519 | each takes back what the other did, on the page and in the settings |
| OsdEdits.RightsTurn | config/scripts/osd.js:509-519 | k presses of Right go k options on |
| OsdEdits.RightsReachAll | config/scripts/osd.js:509-519 | so they reach every option, each after one number of presses below the number of options |
| OsdEdits.DeleteTakes | config/scripts/osd.js:520-535 | Delete takes the focused language off both lists, "system" taking the place of the last |
| OsdEdits.LanguageMoves | config/scripts/osd.js:660-678 | Left and Right move it one place up or down in both lists with the focus, and do nothing at the ends |
| OsdEdits.PickerMoves | config/scripts/osd.js:567-575 | up and down go one language and the tab keys ten, no further than the ends |
| OsdEdits.PickerAdds | config/scripts/osd.js:581-598 | Select adds the language shown at the end of both lists unless it is there |
| OsdEdits.PanelIs | config/scripts/osd.js:387-424 | the elements of each panel in order |
| OsdEdits.OpensOn | launcher/src/osdmenu.cpp:57-115 | the menu opens on the key list with the selector in focus and the settings as the launcher has them |
| OsdEdits.PushKeepsFocus | config/scripts/osd.js:710-738 | new buttons leave the focus where it was, or on the last one if there are fewer |
| OsdEdits.ButtonSays | launcher/src/osdmenu.cpp:31-43 | a button answers with its action, which reaches the launcher whole and closes the menu unless it is a check |
| OsdEdits.TabsTurn | config/scripts/osd.js:454-477 | the tab keys go round the tabs in opposite directions |
| OsdEdits.FocusMoves | config/scripts/osd.js:478-487 | up and down move the focus by one, no further than the ends |
| OsdMenu.ExecInStep | launcher/src/osdmenu.cpp:122-162 | one answered command leaves page and launcher equal and the settings good |
| OsdRuns.StaysInStep | launcher/src/osdmenu.cpp:122-162 | from a duplicate-free list, after any session of opens, commands, updates and closes, combos and the ordered list agree, the list is non-empty and duplicate-free, and the indices name existing rows |
| OsdRuns.DuplicatesDiverge | config/scripts/osd.js:520-535 | from every list with a duplicate some session makes them differ, with any picker that offers English after "system" |
| OsdRuns.InStepExactly | launcher/src/osdmenu.cpp:122-162 | they agree through every session if and only if the starting list has no duplicate |
| OsdObjects.Page.Command | config/scripts/osd.js:680-707 | the page object moves and answers as the specification does |
| OsdObjects.Page.Collect | config/scripts/osd.js:450-453 | the focusable elements of the shown panel, in document order |
| OsdObjects.Page.RemoveLangNamed | config/scripts/osd.js:520-535 | every copy of the code goes, "system" replaces an empty list, the focus is clamped |
| OsdObjects.Page.MoveLangNamed | config/scripts/osd.js:660-678 | swaps with the neighbour and moves the focus along |
| OsdObjects.Page.SelectPicked | config/scripts/osd.js:581-598 | closes the picker and appends the code unless present |
| OsdObjects.Page.Update | config/scripts/osd.js:710-738 | new buttons, focus repaired only on the Updates tab |
| OsdObjects.Controller.Run | launcher/src/osdmenu.cpp:122-162 | the verdict is acted on: an edit reaches the settings, the overlay and the file, a close drops the page, an action closes it unless it is a check |
| TouchHolds.HoldsAndArrows | config/scripts/touch_gestures.js:98-236 | over every touch stream that leaves the router enabled, holds strictly alternate and end off once all fingers lift, and a sequence emits at most max(1, maxSteps) arrows, for the largest maxSteps in force if it changes |
| TouchGestures.DragMakes | config/scripts/touch_gestures.js:125-230 | a straight drag makes one arrow for each step of its travel, within the limit and at least one, and those its speed earns, all following the finger |
| TouchGestures.DragConserves | config/scripts/touch_gestures.js:125-154 | however a drag goes to and fro, arrows one way less those the other, times the step, and what is left over are the way it has come |
| TouchGestures.EdgeDragMakes | config/scripts/touch_gestures.js:202-207 | a drag from the left edge is Back if it goes far enough to the right, and otherwise nothing |
| TouchGestures.HoldMakes | config/scripts/touch_gestures.js:115-122 | a long press holds the third of the screen it began in until the finger is lifted |
| TouchGestures.TapMakes | config/scripts/touch_gestures.js:172-200 | what a touch that stays put makes |
| TouchGestures.JitterMakes | config/scripts/touch_gestures.js:125-137 | moves within the tap slop change nothing of that |
| TouchGestures.SecondFingerEnds | config/scripts/touch_gestures.js:98-105 | after a second finger the touch makes nothing more, however it goes on |
| TouchGestures.DisabledIsDeaf | config/scripts/touch_gestures.js:243-253 | a router that is off takes no notice of fingers and adds no gesture |
| TouchGestures.PollSays | config/scripts/touch_gestures.js:289-295 | a wait is answered at once with all that is queued, or stands and has the earlier one answered |
| TouchGestures.GestureGoesOut | config/scripts/touch_gestures.js:43-57 | a gesture goes at once, with what was queued before it, to a wait that stands |
| TouchStream.QueueHonest | config/scripts/touch_gestures.js:43-57 | over every stream and all calls: a pending wait means an empty queue, each wait is answered at most once, and every gesture is, in order and once, delivered, queued, dropped or cleared |
| TouchStream.QueueBounded | config/scripts/touch_gestures.js:51-57 | with a positive bound never lowered below what is queued, the queue stays within it and the drop counter counts what was lost |
| TouchStream.QueueBoundedExactly | config/scripts/touch_gestures.js:51-57 | from any state on, the queue stays within the bound in force over every stream that leaves it, if and only if the bound is positive and the queue is within it now |
| TouchStream.LoweredOverflows | config/scripts/touch_gestures.js:296-300 | a bound lowered below what is queued is exceeded: two taps, then a bound of one |
| TouchSafety.PushBound | config/scripts/touch_gestures.js:51-57 | one push leaves the queue within its bound if and only if the bound is positive and the queue was within it |
| TouchSafety.PushOk | config/scripts/touch_gestures.js:51-57 | a push adds one gesture to the history, keeps every fate, and leaves recognition alone |
| TouchRouter.Router.Start | config/scripts/touch_gestures.js:98-123 | a touch start: a second finger abandons the sequence |
| TouchRouter.Router.LongPressed | config/scripts/touch_gestures.js:116-122 | the long-press callback acts on whatever sequence is current |
| TouchRouter.Router.Move | config/scripts/touch_gestures.js:125-154 | axis lock, edge drags held back, one arrow for each step earned |
| TouchRouter.Router.End | config/scripts/touch_gestures.js:156-230 | the last finger up: hold off, tap, seek, back, at least one arrow, momentum arrows within the bound |
| TouchRouter.Router.Cancel | config/scripts/touch_gestures.js:232-236 | a cancelled hold is switched off |
| TouchRouter.Router.Emit | config/scripts/touch_gestures.js:51-57 | queue, drop the oldest when full, wake the poll |
| TouchRouter.Router.Poll | config/scripts/touch_gestures.js:289-295 | answers at once or replaces the earlier wait, which is answered |
| TouchRouter.Router.Enable | config/scripts/touch_gestures.js:301-311 | a disable clears queue, timer and sequence |
| Vdf.WriteRead | scripts/steam_shortcuts.py:31-70 | reading written items followed by anything gives the same items and stops at their end |
| Vdf.ReadWrite | scripts/steam_shortcuts.py:31-70 | whatever reads as a map is exactly the writing of what was read |
| Vdf.ReadMapAt | scripts/steam_shortcuts.py:31-46 | the position loop reads what the reading function does |
| Vdf.ReadCstrAt | scripts/steam_shortcuts.py:26-28 | up to the next NUL, or a failure |
| Vdf.WriteMap | scripts/steam_shortcuts.py:60-70 | appends the bytes of the items |
| VdfBytes.WireIs | scripts/steam_shortcuts.py:60-70 | the bytes of each entry: its tag, key and value, numbers with the lowest byte first |
| VdfBytes.FileIs | scripts/steam_shortcuts.py:73-78 | the file: a zero byte, the root key, the entries and two closing bytes |
| Shortcuts.DumpLoad | scripts/steam_shortcuts.py:49-78 | loading a dumped library gives it back |
| Shortcuts.LoadedWritable | scripts/steam_shortcuts.py:49-57 | whatever loads can be dumped again |
| Shortcuts.OwnMatches | scripts/steam_shortcuts.py:113-117 | the entry `add` makes is matched by its own name |
| VdfBytes.EntryReads | scripts/steam_shortcuts.py:233-255 | each setting is read back from the entry `add` makes under its own name |
| VdfBytes.DropsExactly | scripts/steam_shortcuts.py:113-117 | an entry matches exactly when the name stands somewhere in its AppName or its Exe, case aside |
| VdfBytes.FieldSays | scripts/steam_shortcuts.py:88-92 | a field is found by its name, case aside, and reads as no text when it is missing, zero or an empty list |
| VdfBytes.MatchFails | scripts/steam_shortcuts.py:113-117 | matching fails exactly where a text method meets a number or a list, the program being looked at only if the name does not match |
| VdfBytes.LongerNamesGo | scripts/steam_shortcuts.py:291-292 | so entries of other programs whose names begin with ours are dropped too |
| Shortcuts.OthersDiffer | scripts/steam_shortcuts.py:291-294 | the entries kept are ones that do not match |
| Shortcuts.AddedIs | scripts/steam_shortcuts.py:291-294 | after `add`: the non-matching entries unchanged and in order, then ours, keyed 0 to n-1 |
| Shortcuts.AddTwice | scripts/steam_shortcuts.py:291-294 | adding twice is adding once |
| Shortcuts.CmdAddSucceeds | scripts/steam_shortcuts.py:268-300 | the command fails exactly on a file it cannot read or an entry it cannot match |
| Shortcuts.CmdAddTwice | scripts/steam_shortcuts.py:268-300 | a second `add` writes the same bytes, whatever the file held before the first |
| VdfBytes.NewFileIs | scripts/steam_shortcuts.py:273-297 | without a file, one is written with our entry alone |
| VdfBytes.KeyIs | scripts/steam_shortcuts.py:292-294 | the keys are decimal numbers without leading zeros |
| Sha256.Sha256Hex | launcher/src/sha256.cpp:61-91 | for every message under 2^61 bytes, the FIPS 180-4 digest in lower-case hex |
| Sha256.ProcessBlock | launcher/src/sha256.cpp:22-57 | the in-place rounds compute the section 6.2.2 compression of the block |
| Sha256.FillSchedule | launcher/src/sha256.cpp:23-31 | `w[64]` is the message schedule |
| Sha256.LoadWord | launcher/src/sha256.cpp:24-26 | four bytes, most significant first |
| Sha256.FullBlocks | launcher/src/sha256.cpp:66-67 | after the full blocks only the tail of the padded message is left to hash |
| Sha256.FillTail | launcher/src/sha256.cpp:69-77 | the buffer is the tail of the section 5.1.1 padding, in 64 or 128 bytes |
| Sha256.TailAt | launcher/src/sha256.cpp:69-77 | that tail byte by byte: the rest of the message, 0x80, zeros, the bit length |
| Sha256.LeastPadding | launcher/src/sha256.cpp:74 | no padding with fewer zero bytes reaches a block boundary |
| Sha256.ConstantsAreRoots | launcher/src/sha256.cpp:10-18 | the constants are the leading fractional bits of the cube roots of the first 64 primes and the square roots of the first 8 |
| Sha256Bits.BigSigma0Is | launcher/src/sha256.cpp:37 | each bit of the function of section 4.1.2: three bits of the word, rotated by 2, 13 and 22 |
| Sha256Bits.BigSigma1Is | launcher/src/sha256.cpp:34 | by 6, 11 and 25 |
| Sha256Bits.SmallSigma0Is | launcher/src/sha256.cpp:28 | by 7 and 18, and shifted by 3 |
| Sha256Bits.SmallSigma1Is | launcher/src/sha256.cpp:29 | by 17 and 19, and shifted by 10 |
| Sha256Bits.ChIs | launcher/src/sha256.cpp:35 | each bit chosen by the first word |
| Sha256Bits.MajIs | launcher/src/sha256.cpp:38 | each bit the majority of three |
| Sha256.AddReordered | launcher/src/sha256.cpp:30 | the schedule terms may be added in the code's order |
| Sha256.HexDigits | launcher/src/sha256.cpp:81-90 | the digit loop writes the words in hex, most significant digit first |
| LogRotation.LogKeepsSuffix | launcher/src/log.cpp:53-125 | from no files, after any writes and restarts: at most `max_files` + 1 files, reading oldest to newest a contiguous suffix of all lines, each within `max_bytes` or one line |
| LogRotation.NothingLostEarly | launcher/src/log.cpp:53-125 | no line is lost before all `max_files` + 1 files exist, and no file was left before the next line would have overflowed it |
| LogRotation.SessionsKeepSuffix | launcher/src/log.cpp:74-125 | the same when the limits change from one start to the next, provided that `max_files` is never lowered; each file is then within the largest `max_bytes` or one line |
| LogRotation.LoweringLeavesGap | launcher/src/log.cpp:62-66 | lowering `max_files` strands an old file, and the files have a gap after the next rotation |
| LogRotation.BoundedExactly | launcher/src/log.cpp:109-125 | every file stays within `max_bytes` or holds one line, over all runs, if and only if `max_bytes` is positive |
| LogRotation.OneFileTakesAll | launcher/src/log.cpp:113-121 | otherwise the active file takes every line and there is no other |
| LogRotation.RotatedKept | launcher/src/log.cpp:62-69 | a rotation loses lines only when the file with the last number exists |
| LogRotation.RotatedContents | launcher/src/log.cpp:53-70 | a rotation loses the oldest file and nothing else |
| LogRotation.WroteOk | launcher/src/log.cpp:109-125 | a write keeps those properties |
| LogRotation.StartedOk | launcher/src/log.cpp:74-97 | so does opening the log again |
| LogRotation.Sink.Rotate | launcher/src/log.cpp:53-70 | the downward renaming loop over the directory moves every file up by one |
| LogRotation.Sink.Write | launcher/src/log.cpp:109-121 | the line is appended, after a rotation if it would not fit |
| Watchdog.RestartsBounded | launcher/src/watchdog.cpp:50-113 | for all crash times, any closed 60 seconds hold at most twice the configured number of restarts |
| Watchdog.GivesUpExactly | launcher/src/watchdog.cpp:102-110 | supervision gives up on a crash exactly when it is one too many since its window began, less than 60 s before |
| Watchdog.ExitSays | launcher/src/watchdog.cpp:84-112 | the status supervision ends with after each kind of exit, and the one restart it makes otherwise |
| Watchdog.BoundReached | launcher/src/watchdog.cpp:102-107 | some crash times reach twice the number: the factor is needed |
| Watchdog.StoppedStays | launcher/src/watchdog.cpp:86-110 | nothing is restarted after supervision has ended |
| Watchdog.Run | launcher/src/watchdog.cpp:50-115 | the supervise loop does what the specification says for all exits it sees |

## Left out

- Sockets, poll and recv errors, target discovery and the WebSocket handshake: a connection, a read or a write succeeds or fails as the environment likes.
- JSON error messages with their line and column; the sign of zero. `strtod` is modelled as rounding to the nearest double, ties to even; which of a double's texts `std::format` prints is a parameter, and the round trips assume only that it is one of them.
- Masking keys are parameters; the random generator is not modelled.
- CdpSession: memory ordering of atomics, failure to create a thread, warnings, the truncation of a reply id from double to 64 bits. Whether a body reports an error is a flag on it.
- CdpSession: a dropped connection may shut a socket newer than the one that failed, and two concurrent setters may reach the wire in either order; both are allowed by the model, and no guarantee speaks of them.
- CdpSession and the update threads are transition systems on values rather than classes, because their steps interleave; the objects' identity and the threads' stacks are not modelled.
- Self-update: release notes, toasts, dismissal markers, seeding of the permission store, auto-mode announcements, sd-bus itself. The updater is assumed present with its callbacks wired, and the portal reports the end of a deploy it accepted once.
- UpdatesRuns.RequestedEnds: speaks of the tick's step that looks at the clock; that ticks keep coming is the input loop's business.
- Captions: labels, rendered scripts, language tables (the picker's list is a parameter), toggle scripts; painting and scroll offsets; commands the page does not answer; the Exit hold beyond its verdict.
- Touch: whether two taps pair and how long a seek run is come from outside, and so does the momentum of a release; `maxSteps` and `maxQueue` are integers; the statistics other than emitted and dropped, the test seam and uninstalling are not modelled.
- Vdf: text is kept as its UTF-8 bytes, so the replacement of invalid UTF-8 on reading is not modelled, nor is Python's recursion limit.
- Shortcuts: the backup and atomic replacement, the running-Steam check, `remove` and `art`; the CRC-32 of the grid id is a parameter and lower-casing an arbitrary function that agrees with ASCII lower-casing on ASCII text.
- Sha256.Sha256Hex: says nothing of messages of 2^61 bytes or more, where the 64-bit length wraps and the standard's limit is passed.
- LogRotation: time stamps and levels, standard error, failing I/O and shutdown. Lines are non-empty because each ends in a newline.
- Watchdog: fork, exec and signals; the times of crashes are a parameter and do not run backwards.
- Tables with no hard statement: configuration binding, key and language tables, error-text classification, version comparison, the remaining page scripts and drivers.
