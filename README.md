# alertas: the mail-alert backend, modelled in Dafny

alertas polls an IMAP mailbox, stores every new e-mail and pushes it to
WebSocket subscribers, which can also mark e-mails read, manage scheduled
activities and edit the configuration. Two small IMAP servers stand in for
a real mailbox during testing. This project models the sequential core of
each component and proves what each one promises:

- `Storage` (`StorageManager`): the messages document (e-mails, at most
  1000, and processed identifiers, at most 10000) and the schedule
  document. The store opens on whatever the files already hold, and any
  key may be missing. Every file read and write can fail, and both
  outcomes are inputs.
- `Monitor` (`EmailMonitor`): the poller.
  - One cycle connects, searches, fetches the candidates it has not
    processed, and hands the new e-mails to the callback.
  - The loop then waits 30, 5 or 10 seconds or the configured interval.
  - Body truncation, header decoding and the flags `start`/`stop` change
    are modelled too.
  - MIME parsing and header decoding are uninterpreted functions of a
    `Codec`.
- `Hub` (`WebSocketServer`): the subscriber registry, the dispatch of the
  nine request kinds, their handlers and `broadcast`. A client is an id, and
  the set of clients whose connection fails is an input. Every handler
  yields the events it causes, in order.
- `Config` (`ConfigLoader`): validation of the required sections, the
  e-mail and master-credential checks, and `update_email_config`.
- `ImapWire`, `BackendImap`, `ScriptImap`: the two IMAP test servers,
  `backend/src/test_imap_server.py` and `scripts/test_imap_server.py`.
  - Each is a state machine over `logged_in` and `selected` that answers a
    subset of IMAP4rev1 (RFC 3501).
  - `ImapWire` holds what both share: the RFC 822 text of a fixture, and
    the bytes of a reply, including the FETCH literal of section 4.3 of
    RFC 3501.
- `Pipeline`: `_on_new_email` of backend/src/main.py, which stores an
  e-mail, records its id and broadcasts it.
- Helper modules:
  - `Base`: Option, Result, distinctness, set of a sequence;
  - `Json`: decoded JSON values and Python truthiness;
  - `PyText`: `str.strip`, `split`, `upper`, `int()`, `str(n)`;
  - `Utf8`: the encoder;
  - `Records`: the e-mail and activity records.

## Model

| member | source | states |
|---|---|---|
| Storage.AppendThenKeepLast | backend/src/storage_manager.py:101-105 | after append-then-trim the new entry is last, the length is at most n, a list below n just grows, and a full list loses exactly its oldest entry |
| Storage.StampSavedAt | backend/src/storage_manager.py:97-98 | `saved_at` is set to now only when absent; an existing one is kept and no other field changes |
| Storage.SaveIntoFullListDropsOldest | backend/src/storage_manager.py:101-105 | saving into a list of 1000 gives the last 999 old e-mails followed by the new one |
| Storage.SaveUidIdempotent | backend/src/storage_manager.py:166-175 | after saving, the id is present, and saving it again changes nothing |
| Storage.SaveUidKeepsDistinct | backend/src/storage_manager.py:167-173 | a list of identifiers without repetitions stays without repetitions, the trim included |
| Storage.RecentEmailsAreNewest | backend/src/storage_manager.py:127-138 | limit ≥ 1 gives the newest min(limit, n) e-mails in order; limit 0 gives the whole list; a negative limit drops that many of the oldest |
| Storage.FirstWithId | backend/src/storage_manager.py:258-259 | the index found is the first record with the id; None means no record has it |
| Storage.UpdateTouchesOnlyFirstMatch | backend/src/storage_manager.py:243-270 | no write exactly when no record has the id; otherwise only the first match changes: it takes every given field and a fresh `updated_at` and keeps its other fields |
| Storage.WithoutIdAppend | backend/src/storage_manager.py:287 | the filter distributes over concatenation, so the kept records stay in order |
| Storage.WithoutIdContents | backend/src/storage_manager.py:286-289 | exactly the records without the id survive, and the list gets shorter exactly when some record had the id |
| Storage.StorageManager.constructor | backend/src/storage_manager.py:29-40 | a file that exists keeps the keys it holds; a missing one starts as the empty document, or with every key absent when that write fails |
| Storage.StorageManager.SaveEmail | backend/src/storage_manager.py:83-115 | the caller's record is stamped even on failure; success exactly when read, key and write are all fine, and then the list is the appended and trimmed one; the other keys are untouched |
| Storage.StorageManager.GetAllEmails | backend/src/storage_manager.py:117-125 | the stored list, `[]` when missing or unreadable |
| Storage.StorageManager.GetRecentEmails | backend/src/storage_manager.py:127-138 | the recent slice of the readable list; at most `limit` items for a positive limit, all of them stored e-mails |
| Storage.StorageManager.ClearEmails | backend/src/storage_manager.py:140-149 | on a write the e-mails become empty and `processed_uids` stays, unless the read failed, in which case it is lost; the result is the write outcome |
| Storage.StorageManager.SaveProcessedUid | backend/src/storage_manager.py:153-179 | a failed read fails without change; a known id answers true without change; a new id is appended and trimmed on a successful write |
| Storage.StorageManager.GetProcessedUids | backend/src/storage_manager.py:181-189 | the stored ids as a set, empty when unreadable |
| Storage.StorageManager.ClearProcessedUids | backend/src/storage_manager.py:191-200 | the mirror image of ClearEmails: the identifiers are emptied and the e-mails kept unless the read failed |
| Storage.StorageManager.SaveActivity | backend/src/storage_manager.py:204-231 | `created_at` is stamped only when absent; the record is appended exactly when the read succeeds, the document holds `activities` and the write succeeds |
| Storage.StorageManager.GetActivities | backend/src/storage_manager.py:233-241 | the stored list, `[]` when unreadable or missing |
| Storage.StorageManager.UpdateActivity | backend/src/storage_manager.py:243-270 | true exactly when the read succeeds, some record has the id and the write succeeds, and then the list is the update of the first match; otherwise unchanged |
| Storage.StorageManager.DeleteActivity | backend/src/storage_manager.py:272-298 | true exactly when the filtered list got shorter and the write succeeded, and then the list is the filtered one; otherwise unchanged |
| Storage.StorageManager.ClearActivities | backend/src/storage_manager.py:300-309 | the activities are emptied on a successful write, whatever the read did; the messages document is untouched |
| Config.Lookup | backend/src/config_loader.py:76-143 | `config[section][key]` succeeds exactly when the section is an object holding the key, and returns that value |
| Config.IsEmailConfigured | backend/src/config_loader.py:181-185 | true exactly when address, password and server are all set; it raises exactly when a lookup the short-circuit reaches is missing |
| Config.VerifyMasterCredentials | backend/src/config_loader.py:166-178 | true exactly when both stored values are the given strings; the password lookup happens only after the user name matched |
| Config.UpdateEmailConfigIsExact | backend/src/config_loader.py:146-163 | exactly the five e-mail fields take the given values, the other e-mail fields and every other section stay, and `last_updated` is stamped |
| Config.ConfigLoader.constructor | backend/src/config_loader.py:26-32 | the loader holds the given document |
| Config.ConfigLoader.ValidateConfig | backend/src/config_loader.py:51-56 | no result exactly when all five sections are present; otherwise the first missing one in the order checked |
| Config.ConfigLoader.Load | backend/src/config_loader.py:34-48 | the document is kept even when validation fails, and validation passes exactly when all sections are present |
| Config.ConfigLoader.SaveConfig | backend/src/config_loader.py:59-66 | `last_updated` is stamped in memory whatever the write does; the result is the write outcome |
| Config.ConfigLoader.UpdateEmailConfig | backend/src/config_loader.py:146-163 | with an `email` object the document becomes WithEmailConfig of the old one; without one nothing changes and the call fails |
| Config.ConfigLoader.GetAllConfig | backend/src/config_loader.py:188-190 | the result equals the stored document, section by section |
| Monitor.BodyTextBounds | backend/src/email_monitor.py:282-285 | the stored body has at most 5003 characters; a long one becomes its first 5000 characters without leading blanks, followed by `...` |
| Monitor.JoinChunksFailsIff | backend/src/email_monitor.py:239-248 | joining the decoded pieces fails exactly when some piece cannot be decoded |
| Monitor.HeaderText | backend/src/email_monitor.py:222-248 | an empty header is `''`, and a header whose decoding raises falls back to the raw value |
| Monitor.PlainHeaderIsKept | backend/src/email_monitor.py:235-245 | a header the decoder returns as one plain piece reads as itself |
| Monitor.DecodeHeaderValue | backend/src/email_monitor.py:222-248 | the accumulating loop yields HeaderText |
| Monitor.FirstTextPart | backend/src/email_monitor.py:263-274 | the part chosen is the first plain-text, non-attachment part with a payload; None means there is none |
| Monitor.GetEmailBody | backend/src/email_monitor.py:250-289 | the body is at most 5003 characters, and `''` when decoding raises |
| Monitor.FetchEmail | backend/src/email_monitor.py:175-220 | a record exactly when the fetch answered; it carries the id, unread, no `saved_at`, the fetch time, the raw date and the decoded body |
| Monitor.FetchEmailDefaults | backend/src/email_monitor.py:196-198 | missing Subject, From and To headers become `Sin asunto`, `Desconocido` and `''` |
| Monitor.DedupSeen | backend/src/email_monitor.py:153-164 | after a pass the processed set is the old one plus every id whose fetch succeeded |
| Monitor.DedupDelivers | backend/src/email_monitor.py:153-164 | the new e-mails are exactly the fetched ids not processed before, each once, even when the search repeats an id |
| Monitor.DedupAppend | backend/src/email_monitor.py:153-164 | two passes in a row equal one pass over both lists of hits, keeping search order |
| Monitor.FailedFetchIsRetried | backend/src/email_monitor.py:161-164 | a hit whose fetch failed is not marked, and a later pass that fetches it delivers it |
| Monitor.ConnectAsWritten | backend/src/email_monitor.py:65-89 | as written: no session exactly when the socket could not be opened; success exactly when the login is accepted and `select` does not raise, even when it answers NO; a refused login or a raising `select` reports failure with the session still stored; INBOX is selected exactly on full success or when `IMAP4.readonly` was raised |
| Monitor.Connect | backend/src/email_monitor.py:72-89 | the corrected `_connect`: a session is kept exactly when login and `select` both succeed, and it is logged in with INBOX selected |
| Monitor.DelayPolicy | backend/src/email_monitor.py:104-133 | as written: a failed `_connect` waits 30 s, fetches nothing and leaves what `_connect` stored; otherwise the pass's e-mails are delivered and marked, and then a valid interval with no exception keeps the session and waits that interval, an abort drops it and waits 5 s, and a negative interval or another exception drops it and waits 10 s |
| Monitor.CycleKeepsSessionHealthy | backend/src/email_monitor.py:104-133 | the corrected cycle never leaves a session that is not logged in with INBOX selected, and a refused login or `select` leaves no session at all |
| Monitor.LoginFailureIsSticky | backend/src/email_monitor.py:72-89 | as written, a refused login stores a session that every later fault-free cycle keeps and gets nothing from |
| Monitor.RaisingSelectKeepsSession | backend/src/email_monitor.py:78-89 | as written, a raising `select` stores the logged-in session and waits 30 s; after `IMAP4.readonly` the next cycle polls that selected session, and otherwise it cannot be searched |
| Monitor.SelectRefusalIsSticky | backend/src/email_monitor.py:78-82 | as written, a `select` answered NO counts as connected: the unselected session is kept, and neither that cycle nor any later fault-free one delivers anything |
| Monitor.LoginFailureCounterexample | backend/src/email_monitor.py:104-114 | a refused login, then a cycle where login and search would succeed: nothing is delivered as written, one e-mail with the correction |
| Monitor.SelectRefusalCounterexample | backend/src/email_monitor.py:104-114 | a refused `select`, then a cycle where `select` and search would succeed: nothing is delivered as written, one e-mail with the correction |
| Monitor.StuckSessionDeliversNothing | backend/src/email_monitor.py:104-124 | as written, a session `_connect` left unusable is kept by every fault-free cycle: the run delivers nothing, marks nothing and waits the interval every time |
| Monitor.CycleMarksDelivered | backend/src/email_monitor.py:114-133 | a cycle, as written or corrected, marks exactly what it delivers, delivers each id once and nothing already processed, even when the sleep after the pass raises |
| Monitor.RunNeverRedelivers | backend/src/email_monitor.py:102-133 | over any run of the loop as written no e-mail goes to the callback twice, and the processed set is the initial one plus what was handed over |
| Monitor.EmailMonitor.constructor | backend/src/email_monitor.py:22-37 | stopped, no session, nothing processed, and the configured interval |
| Monitor.EmailMonitor.Start | backend/src/email_monitor.py:39-51 | a no-op when running; otherwise it starts exactly when the e-mail settings are complete, and a refusal leaves it stopped |
| Monitor.EmailMonitor.Disconnect | backend/src/email_monitor.py:91-100 | whatever close and logout do, no session remains |
| Monitor.EmailMonitor.Stop | backend/src/email_monitor.py:53-63 | a no-op when stopped; otherwise it ends stopped and disconnected |
| Monitor.EmailMonitor.IsConnected | backend/src/email_monitor.py:310-313 | true exactly when a session is stored |
| Monitor.EmailMonitor.SetProcessedUids | backend/src/email_monitor.py:291-299 | the stored set equals the argument; sets are values, so later changes do not alias |
| Monitor.EmailMonitor.GetProcessedUids | backend/src/email_monitor.py:301-304 | a copy equal to the stored set |
| Monitor.EmailMonitor.FetchNewEmails | backend/src/email_monitor.py:135-173 | the loop's new e-mails and processed set are FetchPass: `[]` and no change without a logged-in session with INBOX selected or on a failed search, otherwise the dedup pass |
| Monitor.EmailMonitor.RunCycle | backend/src/email_monitor.py:105-133 | one loop body, with `_connect` as written, yields exactly CycleAsWritten's session, processed set, deliveries and wait |
| Monitor.EmailMonitor.MonitorLoop | backend/src/email_monitor.py:102-133 | the loop's final state, deliveries and waits are those of Run, the loop as written, over the attempts, and nothing runs when stopped |
| Hub.CommandOf | backend/src/websocket_server.py:117-156 | the handler chosen has the type given, and it is the unknown handler exactly when the type is none of the nine |
| Hub.DispatchIsExact | backend/src/websocket_server.py:117-156 | each of the nine kinds reaches its own handler |
| Hub.MissingTypeIsUnknown | backend/src/websocket_server.py:111 | a message without `type` is answered as the unknown type `unknown` |
| Hub.ConfigViewOf | backend/src/websocket_server.py:205-234 | the view exists exactly when all nine values it reads exist |
| Hub.PasswordNeverShown | backend/src/websocket_server.py:209-228 | the view is the same whatever the stored password is |
| Hub.FirstEmailWithId | backend/src/websocket_server.py:254-258 | the index found is the first e-mail with the id; None means no e-mail has it |
| Hub.MarkReadFlipsOnlyFirst | backend/src/websocket_server.py:253-258 | nothing is found exactly when no e-mail has the id; otherwise only the first match changes, and only its `unread` flag, to false |
| Hub.UpdateConfigWithoutSections | backend/src/websocket_server.py:347-391 | a request naming no section changes nothing and succeeds |
| Hub.UpdateConfigFallsBack | backend/src/websocket_server.py:353-363 | each e-mail field takes the supplied value or keeps the current one, and the other sections stay |
| Hub.UpdateConfigMergesSections | backend/src/websocket_server.py:366-377 | `monitor` and `logging` are merged key by key into their sections |
| Hub.UpdateConfigKeepsEarlierMerge | backend/src/websocket_server.py:369-377 | a `monitor` merge stays in the document even when the `logging` merge then raises and the update is reported failed |
| Hub.NewEmailEnvelope | backend/src/websocket_server.py:461-465 | the envelope is a `new_email` whose data is the e-mail and whose timestamp is the e-mail's |
| Hub.SendAll | backend/src/websocket_server.py:412-420 | every client of the snapshot is tried exactly once, the count is the clients whose send succeeded, and the failures are exactly the closed ones |
| Hub.WebSocketServer.constructor | backend/src/websocket_server.py:19-26 | no clients, not running |
| Hub.WebSocketServer.Start | backend/src/websocket_server.py:28-44 | running once serving succeeded; the registry is untouched |
| Hub.WebSocketServer.Stop | backend/src/websocket_server.py:46-65 | a no-op unless running; otherwise it stops and asks every registered client to close |
| Hub.WebSocketServer.Broadcast | backend/src/websocket_server.py:393-427 | each client of the snapshot is tried once; the result counts the successes; the registry loses exactly the failed clients; an empty registry gives 0 and sends nothing |
| Hub.WebSocketServer.Evict | backend/src/websocket_server.py:423-424 | the registry loses exactly the failed clients |
| Hub.WebSocketServer.BroadcastNewEmail | backend/src/websocket_server.py:453-467 | the envelope is announced to all clients whose connection holds, and the others leave the registry |
| Hub.WebSocketServer.Connect | backend/src/websocket_server.py:76-86 | the client is registered, and the welcome count includes it |
| Hub.WebSocketServer.Disconnect | backend/src/websocket_server.py:96-98 | the client leaves the registry |
| Hub.WebSocketServer.HandleMarkRead | backend/src/websocket_server.py:236-274 | a missing id gives an error and no write; an unknown id gives a not-found error and no write; otherwise MarkedRead is written and acknowledged |
| Hub.WebSocketServer.HandleAddActivity | backend/src/websocket_server.py:276-311 | missing title or date gives an error and no broadcast; an invalid date or failed save gives an error; on success the requester is answered first, then the same payload is broadcast |
| Hub.WebSocketServer.HandleDeleteActivity | backend/src/websocket_server.py:313-345 | a missing id gives an error; any other id, found or not, is removed where present, acknowledged and broadcast |
| Hub.WebSocketServer.HandleUpdateConfig | backend/src/websocket_server.py:347-391 | the document becomes UpdatedConfig and the reply says whether every step succeeded |
| Hub.WebSocketServer.HandleMessage | backend/src/websocket_server.py:101-162 | non-JSON gets no reply; other input gets a reply to its sender first; ping, status, the getters and an unknown type are answered as the source does |
| Hub.WebSocketServer.HandleClient | backend/src/websocket_server.py:67-99 | the welcome counts the new client; then come the events of each message in turn: none for non-JSON, a reply to the sender first otherwise, and the whole answer to a non-object, a ping or an unknown type; afterwards the client has left the registry whatever happened |
| ImapWire.Rfc822RoundTrip | backend/src/test_imap_server.py:192-200 | when no field holds a line break, reading the built message back gives exactly the five header lines and the body |
| ImapWire.Rfc822UsesBareLf | scripts/test_imap_server.py:78-87 | lines end with a bare LF: a message whose fields hold no CR holds no CR at all |
| ImapWire.SearchIdsOfThree | backend/src/test_imap_server.py:161 | the SEARCH list of a three-message mailbox is `1 2 3` |
| ImapWire.RenderedLiteralIsExact | backend/src/test_imap_server.py:172 | with an octet count, the literal announced is followed by exactly that many bytes, which are the message's, and the count reads back as itself |
| ImapWire.AsWrittenUndercounts | scripts/test_imap_server.py:153 | as written, a message holding a non-ASCII code point is announced shorter than its bytes |
| ImapWire.NonAsciiSenderIsUndercounted | backend/src/test_imap_server.py:172 | as written, a message whose sender holds a non-ASCII code point is announced shorter than its UTF-8 bytes, and the octet count matches them |
| ImapWire.AsciiCountsAgree | backend/src/test_imap_server.py:172 | on ASCII text the written count and the octet count agree, and so do both renderings |
| BackendImap.RespondKeepsValid | backend/src/test_imap_server.py:144-152 | `selected ⇒ logged_in` survives every command, and neither flag is ever cleared |
| BackendImap.SessionKeepsValid | backend/src/test_imap_server.py:115-181 | the invariant holds at the end of every session |
| BackendImap.LoginChecksCredentials | backend/src/test_imap_server.py:140-148 | `logged_in` is set exactly for the quote-stripped test pair; a mismatch answers NO with no change; fewer than four tokens send nothing |
| BackendImap.SelectReplies | backend/src/test_imap_server.py:150-157 | when logged in: `* 3 EXISTS`, `* 3 RECENT`, OK, and selected; otherwise NO and no change |
| BackendImap.SearchReplies | backend/src/test_imap_server.py:159-163 | with both flags set, `* SEARCH 1 2 3` and OK, otherwise nothing |
| BackendImap.FetchReplies | backend/src/test_imap_server.py:165-176 | for n from 1 to 3, the n-th fixture as a literal, then OK; a non-number gives BAD; anything else sends nothing |
| BackendImap.KeywordIgnoresCase | backend/src/test_imap_server.py:133 | the keyword is matched without regard to case |
| BackendImap.OtherCommands | backend/src/test_imap_server.py:130-134 | fewer than two tokens are ignored; LOGOUT sends BYE and OK and ends the loop; another keyword gets BAD; only LOGOUT ends it |
| BackendImap.FirstFixtureIsUndercounted | backend/src/test_imap_server.py:38 | the literal announced for fixture 1 is shorter than its UTF-8 bytes, and the octet count matches them |
| BackendImap.TestImapServer.constructor | backend/src/test_imap_server.py:15-28 | not running |
| BackendImap.TestImapServer.Start | backend/src/test_imap_server.py:62-71 | a no-op when running; it ends running |
| BackendImap.TestImapServer.Stop | backend/src/test_imap_server.py:73-81 | it ends stopped |
| BackendImap.TestImapServer.HandleClient | backend/src/test_imap_server.py:112-190 | the greeting, then exactly the replies of Session from the initial flags while the server runs |
| ScriptImap.RespondKeepsValid | scripts/test_imap_server.py:118-129 | `selected ⇒ logged_in` survives every command, and neither field is ever cleared |
| ScriptImap.CommandKeepsValid | scripts/test_imap_server.py:110-168 | for any keyword, the if-chain keeps `selected ⇒ logged_in`, never clears a field, and ends the loop exactly on LOGOUT |
| ScriptImap.SessionKeepsValid | scripts/test_imap_server.py:95-165 | the invariant holds at the end of every session |
| ScriptImap.LoginReplies | scripts/test_imap_server.py:114-125 | OK and `logged_in` exactly for the test pair, `NO [AUTHENTICATIONFAILED]` on a mismatch, BAD with fewer than four tokens |
| ScriptImap.LoginOutcome | scripts/test_imap_server.py:115-125 | the LOGIN branch on the tokens after the keyword: OK and `logged_in` for the test pair, NO on a mismatch, BAD with fewer than two arguments, and the loop goes on |
| ScriptImap.SelectReplies | scripts/test_imap_server.py:127-135 | when logged in: EXISTS, RECENT, `OK [UNSEEN 3]` and a READ-WRITE OK, and selected; otherwise NO |
| ScriptImap.SelectOutcome | scripts/test_imap_server.py:128-135 | the SELECT branch: the three counts of 3 and a READ-WRITE OK with both fields set when logged in, NO otherwise |
| ScriptImap.SearchReplies | scripts/test_imap_server.py:137-144 | with both fields set, `* SEARCH 1 2 3` and OK; otherwise NO |
| ScriptImap.SearchOutcome | scripts/test_imap_server.py:138-144 | the SEARCH branch: `* SEARCH 1 2 3` and OK with both fields set, NO otherwise, and no field changes |
| ScriptImap.FetchReplies | scripts/test_imap_server.py:146-160 | without both fields NO; a missing or non-numeric number BAD; 1 to 3 the literal and OK; any other number `NO Message not found` |
| ScriptImap.FetchOutcome | scripts/test_imap_server.py:147-160 | the FETCH branch on the tokens after the keyword: NO without both fields, BAD for a missing or non-numeric number, the n-th fixture for 1 to 3, NO otherwise |
| ScriptImap.OtherCommands | scripts/test_imap_server.py:102-107 | fewer than two tokens are ignored; LOGOUT sends BYE and OK and closes; another keyword gets a BAD naming it upper-cased |
| ScriptImap.AlwaysAnswers | scripts/test_imap_server.py:110-168 | every command of two or more tokens is answered, and the new flags and the closing agree with the backend's server |
| ScriptImap.CommandsAgree | scripts/test_imap_server.py:110-168 | for any keyword, this server replies and leaves the same flags and closing as the backend's server on the same keyword |
| ScriptImap.BackendSilentWhereScriptAnswers | scripts/test_imap_server.py:159-160 | before login, `a1 FETCH 1` gets nothing from the backend's server and NO from this one |
| ScriptImap.FirstFixtureIsUndercounted | scripts/test_imap_server.py:27 | the literal announced for fixture 1 is shorter than its UTF-8 bytes, and the octet count matches them |
| ScriptImap.ImapClientHandler.constructor | scripts/test_imap_server.py:55-59 | neither logged in nor selected |
| ScriptImap.ImapClientHandler.Handle | scripts/test_imap_server.py:89-174 | the greeting, then exactly the replies of Session from the fields, which end as the session leaves them, keeping `selected ⇒ logged_in` |
| ScriptImap.ImapClientHandler.Serve | scripts/test_imap_server.py:101-168 | one pass of the loop body: the replies of the command from the current fields, and both fields set as the command leaves them |
| Pipeline.OnNewEmail | backend/src/main.py:93-116 | the stamped e-mail is saved, its id recorded and its envelope broadcast; each step runs whatever the previous one returned |
| Pipeline.StoredIsBroadcast | backend/src/main.py:101-108 | after a successful save the stored list ends with the record that is broadcast, stamped, within the 1000 bound |
| Pipeline.RecordedIsNotRedelivered | backend/src/main.py:166-171 | once its id is recorded, a poller seeded from the store never delivers that e-mail again |

## Left out

- Sockets, threads and `asyncio` are not modelled. This covers
  `websockets.serve`, the accept loops of both IMAP servers, `join(timeout=5)`
  and the `run_coroutine_threadsafe` bridging of `broadcast_sync`.
  A broadcast is modelled as completing synchronously. The `running` flag of
  the backend IMAP server cannot change during one `HandleClient`.
- Pipeline.OnNewEmail: the broadcast is stated as if it completed. In the
  source, `_on_new_email` runs on the poller's thread, which has no event
  loop, so `broadcast_sync` (backend/src/websocket_server.py:429-451) gets
  a RuntimeError from `get_event_loop`, then another from `create_task`;
  the second is logged and swallowed and nothing is sent. Which thread a
  call runs on is outside the model.
- Hub.WebSocketServer.BroadcastNewEmail: the same; the model states what
  `broadcast` sends once the call reaches the server's event loop.
- Hub.WebSocketServer.HandleClient: the effects of each message on the
  storage and the configuration are those of HandleMessage, call after
  call. The contract states them only through the state-independent
  replies, since a method cannot be folded over the messages in a contract.
- Config.ConfigLoader.GetAllConfig: the source returns a shallow copy
  whose sections are the stored ones. The model returns the document as a
  value. The only caller that mutates a section, `_handle_update_config`,
  is modelled as writing each merge straight into the stored document, as
  the shared sections make it.
- `_write_json` (backend/src/storage_manager.py:62-78) opens the file with
  `'w'`, so a write that fails part-way leaves the file truncated. The model
  keeps the old document on a failed write. This matches the source only
  when the failure comes before `open` succeeds.
- Monitor.AfterConnect: only the final `time.sleep(check_interval)` can raise in
  the loop body, since connecting, fetching and the callback catch their
  own exceptions. A negative interval raises ValueError, which is
  modelled. `IMAP4.abort` cannot come from the sleep, so the modelled
  abort path follows the handler as written but cannot be reached.
  OverflowError for a huge interval, and an interrupted wait, are not
  modelled. A connection dropped during the search is a failed search:
  `[]`, and the session is kept.
- `recv(4096)` chunking: one received chunk is one command.
- File and JSON I/O are outside the model:
  - `_read_json`, `_write_json` and `save_config`'s write are inputs (a
    read or a write succeeds or fails);
  - `_load_config` receives the decoded document;
  - the `ConfigLoader` singleton (`__new__`) and `reload` are not modelled.
- The clock, `uuid4()` and `time.sleep` are outside the model. Timestamps
  and ids are parameters, and the waits are returned as numbers.
- `imaplib`, `email.message_from_bytes`, `decode_header` and
  `bytes.decode` are library calls. What they answer is an input:
  - the outcome of connecting;
  - the search reply;
  - each fetch reply;
  - the `Codec` functions.
- Exceptions are modelled only where the source raises or catches them on
  a path modelled here. An exception from a library call becomes one of the
  injected outcomes. Messages, logging and `print` are left out.
- `str.upper` is modelled for ASCII, dotless i and long s only. `int()`
  covers ASCII digits, a sign and single underscores. Header lookup in a
  parsed message is case-sensitive in the model.
- Monitor.EmailMonitor.FetchNewEmails: a failure to decode a search id
  part-way through the loop is not modelled. The ids are strings already.
- Hub.MergeSection: an update argument that is not an object is treated
  as raising, although `dict.update` also accepts a list of pairs.
- backend/src/schedule_manager.py is modelled only where `add_activity`
  builds its record. `datetime.fromisoformat` is the predicate `isoValid`.
  `remove_activity` is the store's `DeleteActivity`.
- backend/src/main.py is modelled only in `_on_new_email` and in the
  seeding of the processed set. Logging, signals and start-up ordering
  are not part of this model.
- Not part of this model: `get_credentials` and `_run_server` in backend/src/test_imap_server.py, and
  `update_config_file`, `run_server` and `main` in scripts/test_imap_server.py.
- ImapWire.BuildRfc822 is written as the five header lines each ended
  by `\n`, a blank line and the body. This equals the f-string both
  servers use, whose line breaks are bare LF.

## Findings

| source | as written | input that shows it | evidently intended | confidence | as-written member | corrected member |
|---|---|---|---|---|---|---|
| backend/src/email_monitor.py:72-89 | `_imap` is assigned before `login`, and a refused login returns False with it still set, so `_monitor_loop` never reconnects: it runs a search on the unauthenticated session every interval and gets nothing | a refused login, then a cycle whose login and search would succeed | a refused login leaves no session, so the next cycle connects again | not executed | Monitor.LoginFailureCounterexample | Monitor.CycleKeepsSessionHealthy |
| backend/src/email_monitor.py:78-82 | `select('INBOX')` does not raise when the server answers NO, so `_connect` returns True with no mailbox selected; the session is kept, every later search is refused outside the selected state and yields `[]`, and the loop never reconnects | a cycle whose `select` is refused, then a cycle whose `select` and search would succeed | `_connect` checks the `select` answer and fails, so the next cycle connects again | not executed | Monitor.SelectRefusalCounterexample | Monitor.CycleKeepsSessionHealthy |
| backend/src/test_imap_server.py:172 | the literal announces (here and at scripts/test_imap_server.py:153) `len(rfc822)` code points, then sends the UTF-8 bytes of the text, so the count is short whenever the message holds a non-ASCII character | fixture 1, whose sender `Juan Pérez` puts `é` twelve code points into the message | announce the number of octets, as section 4.3 of RFC 3501 requires | not executed | ImapWire.AsWrittenUndercounts | ImapWire.RenderedLiteralIsExact |

Both halves of each row are in the model:

- Login and select. `Monitor.ConnectAsWritten`, `Monitor.CycleAsWritten`,
  `Monitor.Run`, `Monitor.LoginFailureIsSticky`,
  `Monitor.SelectRefusalIsSticky`, `Monitor.RaisingSelectKeepsSession` and
  `Monitor.StuckSessionDeliversNothing`
  state the behaviour as written, and `Monitor.EmailMonitor` runs it.
  `Monitor.Connect` and `Monitor.Cycle` are the corrected pair. The
  counterexamples compare the two on the same inputs.
- Literal count. `ImapWire.RenderAsWritten`,
  `ImapWire.NonAsciiSenderIsUndercounted` and its instances
  `BackendImap.FirstFixtureIsUndercounted` and
  `ScriptImap.FirstFixtureIsUndercounted` (each server has its own
  fixtures) state the count as written.
  `ImapWire.Render` is the corrected rendering.
