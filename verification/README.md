# Agent garage: a verified model

This project models the protocols and transformations of the agent garage (a Go program that runs
coding agents in sandboxes, lets them talk in a chatroom, and releases itself) and proves what they
keep. Each module follows one component:

- **The sandbox lifecycle manager.** `SandboxLife` has one entry: the transitions its goroutine
  makes, and a class whose methods make them in place against a backend whose calls may fail.
  `SandboxSystem` is the whole manager as a step system: any number of callers of Open, Exec,
  Destroy, Reconcile and Close, a goroutine for every entry ever made, idle wakeups, the adoption
  pass under its lock, shutdown, and the backend. `SandboxInvariant`, `SandboxTiming`,
  `SandboxBelief`, `SandboxCalm` and `SandboxRuns` prove what every run of it keeps, and
  `SandboxStories` what it does for its callers, from the call to the answer.
- **Mail.** `Bucket` is the store with conditional writes and the signing client over it, `Mailbox`
  the numbered box that senders race for. The two-way relay between box and chatroom, with its saved
  cursors and interrupted at any operation, is `MailRelay`; `RelayPosting` and `RelayMailing` are what
  each of its directions keeps.
- **Stores that must agree with a plain one.** `Utf8` and `KvStore`: a prefix scan done as a key
  range against a filter over all entries. `SessionStore`: saving by appending rows against replacing
  the record. `AgentTurn`: the loop whose transcripts make appending sound.
- **Releases.** `Release`: the compared-and-swapped pointer, and an install that may crash at any
  file operation.
- **Wakeups.** `ChatRoom` (waiting for posts), `MessageQueue` (a list with a one-slot signal),
  `AgentPair` (two agents that wake each other by mention), `DevTask` (what one of them has read of its
  room and told its session, over restarts).
- **Transformations.** `StreamCollect` (answers as streams and back), `SplitMessage` (long answers
  in several messages), `ShellQuote` (scripts as a shell reads them).

Where the program updates state in place, a class does the same and each method is tied to a function
of the old state; what the program promises is then proved about those functions over all inputs and
runs. Failures are nondeterministic: a call may fail whenever the code allows for it, and a crash is an
operation after which nothing else of the same activity happens.

## What the proofs turned up

These promises hold only under a condition, or not at all. Each has a lemma with a run or input that
breaks it, and one that says when it holds.

- The manager's belief about a sandbox can become false in two ways: a `Destroy` that overlaps an
  adoption pass (`SandboxRuns.StaleAfterDestroy`), and a `Close` that begins during one, because a
  command then no longer waits for the pass (`SandboxRuns.StaleAfterClose`). Without these overlaps it
  always holds (`SandboxCalm.BeliefHolds`), and a later explicit `Reconcile` does no harm as long as
  nobody else changes the backend. In general an observation keeps it exactly when it is still true
  and does not take a running entry to stopped (`SandboxBelief.ObservationBelieved`).
- `Save` followed by `Load` returns what was saved exactly when the stored transcript is a prefix of the
  new one; a shorter transcript updates the session's row and silently keeps the longer messages
  (`SessionStore.SaveLoads`).
- The dev agent appends a user message to its session before each turn. If the last turn was cancelled
  between a tool call and its answer, the model is then asked about a transcript with an unanswered
  call (`AgentTurn.MentionedAfterCancel`); it is fine exactly when no call is open
  (`AgentTurn.UserMessageResumes`).
- The comment that every answer of grug but a review is plain, so that it cannot wake another agent, is
  not so: an answer that cites a link whose text contains a mention wakes that agent
  (`AgentPair.CitedLinkLoops`), and so does one that quotes an error with a mention in it
  (`AgentPair.CitedErrorLoops`); exactly when is in `AgentPair.PlainAnswerWakes`. And a review that the
  database fails to remember does not count against the budget, so the pair can go round for ever
  (`AgentPair.ForgettingLoops`). Otherwise every chain of wakes ends (`AgentPair.EveryChainEnds`).
- Dev remembers how far it read a room before its session is saved: if the process ends in between, the
  messages of that wake are lost to the session (`DevTask.LostOverRestart`); exactly when the record and
  the session were both written or neither was, each message is told once over restarts
  (`DevTask.Dev.Wake`, `DevTask.Dev.Restart`).
- A `Post` that stores its row and then fails wakes nobody (`ChatRoom.BrokenPostWakesNobody`). A waiter
  stays blocked although its room has a message for it exactly while such a message's post stands, or
  stopped for good, between storing the row and waking (`ChatRoom.BlockedIff`).
- The relay's mail to the laptop is not always in the order of the rooms, not even but for immediate
  repeats: if a pass is interrupted between sending a message and saving its cursor, and the next one
  registers a room with an earlier message of an agent, that message is sent before the repeat
  (`RelayMailing.MailBetweenRepeats`). After a pass that was not interrupted the box is in order exactly
  when no room was ever registered so (`MailRelay.Service.RelayMail`, `RelayMailing.OrderIff`). The number
  of repeats is bounded all the same (`MailRelay.Interrupted`).
- `catFile` does not read back what `putFile` wrote to the path `-`, which `cat` takes for its standard
  input (`ShellQuote.PutThenCat`).

## Model

| member | source | states |
|---|---|---|
| SandboxLife.Entry.DoExec | metaharness/sandbox/manager.go:502-534 | a command leaves the entry believing the truth whatever the backend answers: back to the prior state with the backend untouched if it could not be made ready, else Ready with the command's end on record and one idle window from now; the old timer is stopped |
| SandboxLife.Entry.DoIdle | metaharness/sandbox/manager.go:536-557 | a wakeup has the backend asked to stop exactly when the entry is Ready and the deadline is the one on record; then it is Stopped and off the clock or, if that fails, Ready for one more window; otherwise nothing changes |
| SandboxLife.Entry.DoDestroy | metaharness/sandbox/manager.go:559-580 | the entry is gone exactly when the backend's Destroy succeeded; a failed one leaves its state and its last use, with one new window if it was Ready |
| SandboxLife.Entry.DoObserve | metaharness/sandbox/manager.go:582-596 | an observation keeps the entry's belief exactly when it is true and does not put a Ready entry to Stopped |
| SandboxLife.Entry.ArmIdle | metaharness/sandbox/manager.go:598-612 | at most one live timer, for the deadline on record, one window from now; none without an idle policy |
| SandboxLife.Entry.StopTimer | metaharness/sandbox/manager.go:614-622 | the timer is stopped, the deadline cleared, and the snapshot says so |
| SandboxLife.ObserveSettles | metaharness/sandbox/manager.go:582-596 | an observation leaves a settled entry settled if and only if it is not Ready to Stopped under an idle policy |
| SandboxInvariant.StepKeeps | metaharness/sandbox/manager.go:152-208 | every step keeps: state and goroutine position agree, callers and goroutines are paired, lock and lookup are consistent, shutdown has drained what it waits for |
| SandboxTiming.NoStopIsEarly | metaharness/sandbox/manager.go:536-557 | in every run each backend Stop comes at least one idle window after every earlier command's end and every earlier Stop attempt of that name, however stale its wakeup |
| SandboxStories.WakeupDecides | metaharness/sandbox/manager.go:536-557 | in every run a wakeup that is taken begins a Stop exactly when the entry is Ready and the deadline is the one on record |
| SandboxStories.DeadlineChanges | metaharness/sandbox/manager.go:598-622 | a deadline that is set is one window away, and one on record goes only when a command or Destroy is taken, the sandbox was stopped, or the manager closes |
| SandboxStories.DeadlineNear | metaharness/sandbox/manager.go:598-612 | no deadline is ever more than a window away |
| SandboxStories.IdleStops | metaharness/sandbox/manager.go:598-612 | wherever a run has got to, a Ready sandbox that is left alone is stopped within one window |
| SandboxStories.CommandOnReady | metaharness/sandbox/manager.go:502-534 | on a Ready sandbox a command is one call of the backend, whose result its caller gets, and a full window starts at its end |
| SandboxStories.CommandPrepared | metaharness/sandbox/manager.go:502-534 | on any other the sandbox is made ready first, and then the same |
| SandboxStories.CommandNotPrepared | metaharness/sandbox/manager.go:506-518 | if that fails the command is not run, its caller is told and nothing else has changed |
| SandboxStories.DestroyRemoves | metaharness/sandbox/manager.go:167-180 | a Destroy that succeeds removes the sandbox, frees its name and ends its goroutine |
| SandboxStories.DestroyRefused | metaharness/sandbox/manager.go:559-572 | one that fails changes nothing but the window, and its caller is told |
| SandboxStories.OpenBinds | metaharness/sandbox/manager.go:152-161 | Open gives the entry its name has, or a fresh one, and calls no backend; refused once closing |
| SandboxStories.DestroyAsks | metaharness/sandbox/manager.go:167-180 | Destroy asks the entry its name leads to |
| SandboxStories.PassAdopts | metaharness/sandbox/manager.go:304-320 | a pass leaves tracked sandboxes alone and makes an entry for each other, told whether it was found running |
| SandboxStories.PassObserves | metaharness/sandbox/manager.go:582-612 | what was found is recorded, and a sandbox found running is on the idle clock from then |
| SandboxStories.CommandStays | metaharness/sandbox/manager.go:278-297 | a command stays with the entry it was called on, and no pass before it makes it fail |
| SandboxStories.CommandWaits | metaharness/sandbox/manager.go:278-297 | it asks its entry only after a pass succeeded, or its own failed, or the manager is closing |
| SandboxStories.PassCounts | metaharness/sandbox/manager.go:278-297 | only a pass that has been through its whole listing counts, and it counts for good |
| SandboxStories.PassOnce | metaharness/sandbox/manager.go:278-297 | once one has, no command makes another |
| SandboxStories.ReconcileAnswers | metaharness/sandbox/manager.go:254-269 | Reconcile succeeds only with its whole listing done, and each of its errors has its cause |
| SandboxStories.CloseGoesOn | metaharness/sandbox/manager.go:192-208 | a Close that drains can always go on: a goroutine can exit, or its backend call can return, or the backend can be closed |
| SandboxBelief.BelievedStep | metaharness/sandbox/manager.go:477-491 | no step but an observation can make a belief false |
| SandboxBelief.ObservationBelieved | metaharness/sandbox/manager.go:304-320 | an observation keeps every belief if and only if what was found is still there and it does not take a Ready entry to Stopped |
| SandboxCalm.BeliefHolds | metaharness/sandbox/manager.go:278-329 | in every run where no Destroy and no start of Close overlaps a pass, what each entry believes is what the backend holds, also of the state it falls back to with a call in flight; between requests it has a timer for the deadline on record exactly when Ready, and its snapshot is current |
| SandboxCalm.CoveredStep | metaharness/sandbox/manager.go:298-329 | after a pass the lookup covers the backend, so that later passes find nothing new |
| SandboxRuns.OneCallPerName | metaharness/sandbox/manager.go:338-354 | of all goroutines a name ever had at most one can still call the backend |
| SandboxRuns.ForgetTestHolds | metaharness/sandbox/manager.go:358-364 | the test in forget always succeeds: a destroyed entry is still the one its name leads to |
| SandboxRuns.FreshEntryAfterDestroy | metaharness/sandbox/manager.go:167-180 | a name gets a fresh entry only after each earlier one was destroyed, with that destroy answered and forgotten |
| SandboxRuns.AnsweredOnce | metaharness/sandbox/manager.go:450-475 | every request taken is answered exactly once, by the one goroutine serving it |
| SandboxRuns.AnswerComes | metaharness/sandbox/manager.go:461-491 | a waiting caller waits for nothing but its own goroutine's backend calls, of which each return brings the answer or leaves fewer |
| SandboxRuns.TurnedAwayWithReason | metaharness/sandbox/manager.go:450-459 | a request that was not taken gets the reason the goroutine exited for |
| SandboxRuns.CloseDrains | metaharness/sandbox/manager.go:192-208 | the backend is closed at most once, after every per-sandbox call, with none in flight or to come, and every Close caller gets the same answer |
| SandboxRuns.AdoptionVersusClose | metaharness/sandbox/manager.go:197-204 | every goroutine that lives while Close drains is among those it waits for; an adoption that comes once the manager is closing makes no entry |
| SandboxRuns.StaleAfterDestroy | metaharness/sandbox/manager.go:304-320 | a run in which a Destroy overlaps a pass and a fresh entry believes a destroyed sandbox is running |
| SandboxRuns.StaleAfterClose | metaharness/sandbox/manager.go:278-281 | a run in which Close begins during a pass and an entry believes a running sandbox is stopped |
| Bucket.Fake.Put | bucket/fake.go:34-50 | a conditional write succeeds exactly when its condition holds, under an ETag above all others, and else changes nothing |
| Bucket.Caller.Get | bucket/client.go:85-98 | what is returned is verified under a trusted key; each error names its cause |
| Bucket.Caller.Create | bucket/client.go:106-112 | creates only what does not exist, signed by the caller |
| Bucket.Caller.Swap | bucket/client.go:115-121 | replaces only the version with the given ETag |
| Bucket.WrittenVerifies | bucket/client.go:122-131 | what a client wrote is verified by exactly those who trust it, under its own key only |
| Mailbox.KeyInjective | bucket/mail/mail.go:36 | no two numbers of any boxes share a key |
| Mailbox.Send | bucket/mail/mail.go:40-55 | mail takes the first free number from the cursor on and touches nothing else; an error leaves nothing |
| Mailbox.Receive | bucket/mail/mail.go:56-81 | hands over exactly the readable mail of the numbers it passed, in order, and stops at the first missing number; it fails only if the bucket cannot be reached or the reader refuses a message, which is then not consumed; forged mail does not stop it |
| Mailbox.SentIsRead | bucket/mail/mail.go:40-81 | mail that was sent is read as it was sent by exactly those who trust its sender, and disturbs no other number |
| Mailbox.CopiesAreForged | bucket/mail/mail.go:58-81 | a copy of signed mail under another number is not read |
| Mailbox.DeliveredExactly | bucket/mail/mail.go:56-81 | the deliveries of a range are its verified, well-formed numbers, each once, in order |
| Mailbox.DeliveredStable | bucket/mail/mail.go:56-81 | what a range delivers does not change as mail is added |
| Mailbox.NumbersStayDense | bucket/mail/mail.go:38-55 | with any number of senders interleaved at single creates the numbers taken are always 0..n-1, never rewritten, and no two senders share one |
| MailRelay.Service.RelayMail | chatroom/mail.go:16-73 | one pass, interrupted anywhere: mail posted, sent, passed and the cursors keep fitting each other, and only an interrupted pass adds to the repeats allowed; it is interrupted exactly if an operation failed; one that is not has posted all readable mail there was and mailed every agent's message that was in a registered room after the cursor, and then the laptop's box is in order if and only if no room was registered under a mail not yet passed |
| MailRelay.Service.Inbound | chatroom/mail.go:27-45 | readable mail is posted in number order, its rooms are registered, the cursor never passes mail that was not posted, and success means that it reached the end of the box |
| MailRelay.Service.Outbound | chatroom/mail.go:47-72 | success means that each agent's message in a registered room, from the start to the end of the rooms, is in the laptop's box; wherever it stops, the saved seen cursor has passed no such message, written since its room was registered, that is not |
| MailRelay.Service.Passes | chatroom/mail.go:13-16 | all this holds after any number of passes, interrupted or not, with posts and mail in between; interruptions are at most as many as passes, and what was posted and sent stays |
| MailRelay.Interrupted | chatroom/mail.go:13-73 | after any number of passes interrupted between any two operations: what was posted is the readable mail in order with immediate repeats only, repeats both ways are at most as many as interruptions, and every agent's message the seen cursor has passed, written after its room was registered and the relay first looked, is in the laptop's box; in order but for immediate repeats if no room was registered under a mail not yet passed |
| MailRelay.WordForWord | chatroom/mail.go:31-66 | mail the cursor passed is in its room word for word with the room registered, and what is in the laptop's box are agents' messages, word for word, of rooms mail came from |
| MailRelay.ExactlyOnce | chatroom/mail.go:13-73 | if no pass was interrupted, what was posted is exactly the readable mail below the cursor, and what was mailed is, each once and in order, exactly the agents' messages up to the seen cursor that were written after their room was registered and the relay first looked |
| RelayPosting.SlotsAreMail | bucket/mail/mail.go:56-81 | the readable slots the relay posts are, number for number, what a receiver of the box is handed |
| RelayMailing.OutRegister | chatroom/mail.go:31-34 | registering a room keeps what was sent, passed and owed fitting each other |
| RelayMailing.OutSent | chatroom/mail.go:57-66 | so does sending the next message |
| RelayMailing.OutSeen | chatroom/mail.go:67-72 | and saving the cursor behind messages that were dealt with |
| RelayMailing.OrderIff | chatroom/mail.go:57-72 | once everything was mailed the box is in order but for immediate repeats if and only if no message was overtaken by a mail that its room was registered under |
| RelayMailing.MailBetweenRepeats | chatroom/mail.go:31-71 | a run in which other mail comes between a message and its repeat |
| Utf8.DecodeEncode | metaharness/agentdb/turso/kv.go:115-126 | a rune's encoding decodes to it whatever follows (section 3 of RFC 3629) |
| Utf8.DecodeLastEncode | metaharness/agentdb/turso/kv.go:118-121 | the last rune of a text is found from its end |
| Utf8.EncodeTable | metaharness/agentdb/turso/kv.go:115-126 | how many bytes a rune takes and what they carry (the table of section 3 of RFC 3629) |
| Utf8.OrderAgrees | metaharness/agentdb/turso/kv.go:115-116 | byte order of encodings is code point order (section 1 of RFC 3629) |
| Utf8.PrefixAgrees | metaharness/agentdb/turso/kv.go:111-113 | one encoding is a prefix of another exactly when the text is |
| Utf8.EncodeDecodeAll | metaharness/agentdb/turso/kv.go:115-116 | valid text decodes and encodes back to itself |
| KvStore.NextRuneLeast | metaharness/agentdb/turso/kv.go:129-140 | the next rune is the least above, over the surrogate gap |
| KvStore.Successor | metaharness/agentdb/turso/kv.go:118-127 | for a valid prefix the bound the loop returns, or that it returns none, makes the key range exactly the keys that start with the prefix |
| KvStore.BoundSplits | metaharness/agentdb/turso/kv.go:111-113 | keys at least the prefix and below the bound are exactly those that start with it |
| KvStore.RangeIsPrefix | metaharness/agentdb/turso/kv.go:66-84 | on valid bytes the key range is exactly the prefix |
| KvStore.TursoKv.List | metaharness/agentdb/turso/kv.go:71-109 | lists exactly what is stored under the prefix, in key order |
| KvStore.MemKv.List | metaharness/testutils/kv.go:69-85 | the plain filter and sort lists the same |
| KvStore.ListingUnique | metaharness/agentdb/turso/kv.go:66 | a listing is determined by what is stored |
| KvStore.ListsAgree | metaharness/agentdb/turso/kv.go:71-109 | stores with the same contents list the same for every valid prefix |
| SessionStore.Store.Append | metaharness/agentdb/turso/store.go:130-149 | a save commits exactly when no row has the number of one it adds; its row is then up to date and keeps when it was created; otherwise it leaves nothing behind |
| SessionStore.Store.Save | metaharness/agentdb/turso/store.go:116-149 | with others saving in between and any operation failing, rows stay dense, stored rows never change, what commits is the append of what was counted, and it fails only if an operation did or somebody else stored one of its numbers |
| SessionStore.Store.Load | metaharness/agentdb/turso/store.go:229-289 | the session's row with its messages in the order of their numbers |
| SessionStore.SaveLoads | metaharness/agentdb/turso/store.go:108-110 | Save then Load returns the record if and only if what was stored is a prefix of it |
| SessionStore.AppendRefinesReplace | metaharness/testutils/store.go:32-56 | over any sequence of saves appending agrees with replacing the record throughout if and only if each save continues the one before |
| SessionStore.SecondWriterFails | metaharness/agentdb/turso/store.go:204-206 | of two writers with the same count and new messages the second to commit fails |
| SessionStore.AppendedTranscript | metaharness/agentdb/turso/store.go:140-144 | a save that commits adds exactly the messages beyond its count |
| AgentTurn.Agent.Run | metaharness/agent/run.go:50-134 | in every transcript the model is asked about each call of each message is answered right behind it, in order and under its own ID, and the model is not asked after its own last word; each of these was saved before; usage is the start plus every call's; the events report each added message once in order and end with one done, or with the error exactly if the turn was cancelled, the model failed or a save failed; the final session is offered to the store |
| AgentTurn.Agent.AnswerCalls | metaharness/agent/run.go:64-69 | every call of the last message gets one answer, in order, under its own ID; each tool the agent has is run once for each of its calls |
| AgentTurn.CallsAreAll | metaharness/agent/run.go:144-156 | the calls of a message are what stands at the positions of its call parts, all of them, in order |
| AgentTurn.BalancedIff | metaharness/agent/run.go:61-69 | a transcript is balanced exactly when all calls of each message are answered right behind it, in order, and no other message is an answer |
| AgentTurn.Agent.AskModel | metaharness/agent/run.go:81-94 | usage counts in all six fields whether or not the call failed, and only an answer is appended |
| AgentTurn.Agent.Dispatch | metaharness/agent/run.go:118-128 | a known tool is run once and its answer goes back as it is, a failure as an error; a tool that is unknown becomes an error result that names it |
| AgentTurn.TurnKeepsStoresAgreeing | metaharness/agent/run.go:70-98 | the saves of a turn keep an appending and a replacing store in agreement |
| AgentTurn.UserMessageResumes | agents/dev.go:123-126 | a user message may follow a transcript if and only if no call of it is open |
| AgentTurn.MentionedAfterCancel | agents/dev.go:124 | a transcript for which it may not |
| Release.Point | hosting/release.go:58-70 | the pointer is written only over the version that was read, a lost race is reported as such, and it fails only if the bucket cannot be reached, the pointer is not signed by a trusted key, or somebody moved it |
| Release.Publish | hosting/release.go:34-42 | the pointer is moved only to a sha whose binary it has just put in the bucket |
| Release.Rollback | hosting/release.go:46-54 | so is a rollback |
| Release.PointerReads | hosting/release.go:95-97 | a pointer is read as the text it holds but for white space around it |
| Release.ShaIff | hosting/release.go:30 | a release is named by 7 to 40 lower-case hexadecimal digits |
| Release.Rollout | hosting/release.go:58-118 | what was pointed at is what runs after the next look, if the host is not at its first and nothing fails |
| Release.OneWinner | hosting/release.go:56-58 | of two that read the same version of the pointer the second to write loses |
| Release.Race | hosting/release.go:56-70 | of two points that both read before either writes, others writing in between, at most one succeeds if they read the same version |
| Release.Host.Update | hosting/release.go:81-118 | with a failure or crash at any operation, current is what setup left or names an installed binary that was signed for it and passed its trial; the result is exactly what the look called for, and it returns normally unless the files, the trial, the process, the bucket or a signature failed, or releases/current names no release that can be had; a look that is no attempt touches no binary and costs at most one GET |
| Release.CurrentIsGenuine | hosting/release.go:120-152 | whatever was interrupted wherever, current is what setup linked, or names a binary that setup installed or that was read under a trusted key as that release's and passed its trial run |
| Release.TriedOncePerMove | hosting/release.go:84-86 | a release is attempted again only after the pointer was seen at another one in between; every install is such an attempt |
| Release.Poll | hosting/release.go:81-118 | the above holds after any number of looks with crashes between and inside them; there are no more attempts than looks, each look costs one GET and each attempt one more, without an attempt no binary is touched, and installed binaries are never replaced |
| Release.Host.Install | hosting/release.go:122-152 | is called only for a release that may be tried and puts the attempt on record; done means current names the release; refused means it is unchanged; at most one GET; installed binaries are never replaced |
| Release.Host.Link | hosting/release.go:156-168 | the link moves at once or not at all |
| ChatRoom.NoLostWakeup | chatroom/chatroom.go:99-179 | in every interleaving no waiter is blocked on an open channel once a post into the room it was called for returned, and what it returns is exactly what that room had after the ID it was called with when it read, in order, with nothing missed that was there when it was called |
| ChatRoom.CallStays | chatroom/chatroom.go:164-179 | a Wait keeps the room and ID, and a Post the message, it was called with |
| ChatRoom.FoundReturns | chatroom/chatroom.go:164-172 | a Wait that finds something returns it without blocking |
| ChatRoom.WokenReturns | chatroom/chatroom.go:164-179 | a waiter woken for a message returns it |
| ChatRoom.BrokenPostWakesNobody | chatroom/chatroom.go:101-109 | a post that fails after its row was stored leaves a waiter blocked |
| ChatRoom.BlockedIff | chatroom/chatroom.go:99-179 | in every reachable state a waiter blocked on an open channel has a message in its room if and only if the post of one stands or failed between storing it and waking |
| ChatRoom.LaterExactly | chatroom/chatroom.go:133-136 | a read returns each later message of the room once, in order of IDs |
| ChatRoom.Service.Announce | chatroom/chatroom.go:111-128 | member by member: one more message exactly if it is mentioned, is not the author and has fewer than a hundred waiting |
| ChatRoom.Service.Read | chatroom/chatroom.go:133-161 | the loop over rows returns the later messages |
| MessageQueue.Queue.Pop | metaharness/bridge/xmpp/bridge.go:400-416 | pops the oldest and passes the signal on while more wait |
| MessageQueue.Queue.Interleave | metaharness/bridge/xmpp/bridge.go:390-416 | under any interleaving the messages appended are pushed in that order, pops are pushes in order, none lost or repeated, and what waits is announced or about to be |
| MessageQueue.Queue.Serve | metaharness/bridge/xmpp/bridge.go:346-374 | the consumer left to itself handles all that was pushed |
| DevTask.Dev.Wake | agents/dev.go:107-123 | a wake tells the session exactly what others wrote since, so that it was told all of the room once and in order; the database would resume the same exactly when the task's record and the session were both written or neither was |
| DevTask.Dev.Restart | agents/dev.go:179-212 | after a restart the session was told exactly what was read if and only if what the database held fits |
| DevTask.NewsContinue | agents/dev.go:107-118 | what is read after the last message seen, but for dev's own posts, is what the session has not been told |
| DevTask.EachTold | agents/dev.go:107-118 | every message of the room that dev did not write is to be told, in its place, and nothing else |
| DevTask.NothingMissed | agents/dev.go:113-118 | after the last message read nothing of the room is left to tell |
| DevTask.LostOverRestart | agents/dev.go:119-126 | a message that is remembered as read but never told |
| AgentPair.Grug.Wake | agents/grug.go:70-115 | a review is given exactly if there is a link, all that is needed can be had, fewer than three heads of the pull request are remembered and the last of them is another; it is then remembered if the database takes it and the last post tells who asked; otherwise there is one answer and nothing is remembered; this is the step that the theorems on runs are about |
| AgentPair.DevPostReaches | chatroom/chatroom.go:111-128 | what dev posts reaches grug exactly if it mentions grug and fewer than a hundred mentions wait |
| AgentPair.MentionsWait | chatroom/chatroom.go:79-94 | but for a restart mentions wait until they are taken, one at a time, oldest first |
| AgentPair.ReviewBudget | agents/grug.go:24-25 | over all runs and restarts a pull request is reviewed at most three times plus once for each review not remembered, and remembered heads never repeat in a row |
| AgentPair.EveryChainEnds | agents/grug.go:39-42 | no infinite chain of wakes in which reviews are remembered and are of finitely many pull requests, and no other answer cites a mention of dev |
| AgentPair.StepGoesDown | agents/grug.go:68-115 | each step goes down in the order of reviews left, mentions for dev, posts dev has to make, mentions for grug |
| AgentPair.ForgettingLoops | agents/grug.go:107-110 | four steps back to the start when a review is not remembered |
| AgentPair.CitedLinkLoops | agents/grug.go:81-84 | four steps back to the start through an answer that is not plain |
| AgentPair.CitedErrorLoops | agents/grug.go:86-90 | the same through an answer that quotes an error |
| AgentPair.PlainAnswerWakes | agents/grug.go:68-69 | an answer without a review wakes dev if and only if what it cites mentions dev |
| StreamCollect.Collect | metaharness/model/stream.go:21-67 | the loop returns blocks, text and calls of the stream, or its first error with the usage so far, or that the output limit was hit, exactly if it finished for its length with no text and no calls but the provider's own |
| StreamCollect.EachSays | metaharness/model/stream.go:42-48 | text is the text deltas, and calls are the tool calls but the provider's own, wherever they stand |
| StreamCollect.RanOutIff | metaharness/model/stream.go:49-57 | when the output limit was hit, over the stream parts themselves |
| StreamCollect.OwnDeltas | metaharness/model/stream.go:30-41 | however blocks interleave, one with an ID of its own gets all text under it and only that |
| StreamCollect.OwnOptions | metaharness/model/stream.go:35-41 | and the options of the last part under its ID that had any |
| StreamCollect.ContinueNext | metaharness/model/stream.go:35-41 | under a shared ID text goes to the latest block |
| StreamCollect.NormalIff | metaharness/model/stream.go:19-20 | a message is its own normal form if and only if it is reasoning, then at most one nonempty text, then calls |
| StreamCollect.RoundTrip | metaharness/model/stream.go:69-98 | an answer sent as a stream is collected as its normal form, with its usage |
| StreamCollect.CollectedAgain | metaharness/model/stream.go:19-98 | what was collected from any stream is collected as itself again |
| SplitMessage.Split | metaharness/bridge/telegram/text.go:39-65 | chunks rejoined with the dropped separators are the text; each is cut at the last newline, else the last space, in the back half of its window, else full; none is empty for limits of two or more |
| SplitMessage.ChunkCount | metaharness/bridge/telegram/text.go:39-65 | at most 1 + n / (limit / 2 + 1) chunks |
| SplitMessage.BreakPoint | metaharness/bridge/telegram/text.go:72-81 | the last newline in the back half, else the last space there, else the end |
| SplitMessage.LastIndexRune | metaharness/bridge/telegram/text.go:83-90 | the last occurrence, or -1 exactly when there is none |
| ShellQuote.QuotedWord | metaharness/tools/files.go:20-22 | before any delimiter a quoted string is read as one word equal to it (section 2.2 of the POSIX Shell Command Language) |
| ShellQuote.QuoteReads | metaharness/tools/files.go:20-22 | and anywhere else as that part of a word |
| ShellQuote.ScriptReads | metaharness/tools/files.go:33-47 | a script of words, operators and command substitutions is read as the tokens it was meant to be |
| ShellQuote.ScriptTexts | metaharness/tools/files.go:34-45 | the two scripts, character by character |
| ShellQuote.PutRuns | metaharness/tools/files.go:42-47 | putFile writes exactly the content to exactly the path, or fails, whatever they contain |
| ShellQuote.PutSucceeds | metaharness/tools/files.go:33-47 | a file in a directory, there already or not, is written and read back, unless a file is where the directory should be or the other way round |
| ShellQuote.PutThenCat | metaharness/tools/files.go:33-47 | catFile reads back what putFile wrote if and only if the path is not "-" or the content is empty |

## Left out

- The manager's observer events, `Inspect` sorting, the reconcile report, the `closed` flag of a handle, option parsing, and command contexts that are cancelled.
- Other processes that change the backend behind the manager: the belief is about what this manager did.
- `List` on the backend after `Close`: `Close` does not take the adoption lock, so it is not covered by the drain.
- SandboxSystem.Next: taking a request is one step with the bookkeeping up to the backend call it leads to, and a backend call takes effect when it returns; a timer may fire more than once.
- SandboxSystem.IsRun: scheduler fairness is not modelled; answers are shown to be possible in every reachable state, not inevitable.
- The rate limiter of the bucket client; its counters are those of the store. Cryptography is symbolic: a signature names its signer, key and body. JSON is an injective codec.
- Mailbox.Send: a create that took effect although it reported an error is not part of it; the relay's model has that case. The time of a message is not modelled.
- MailRelay.Service.RelayMail: the members of the chatroom do not change, mention dispatch of relayed posts is in `ChatRoom`, and mail arriving during one pass is finite.
- SQL: tables are maps, a transaction is one step, and the driver's locking is not modelled. `ListSessions` and the ordering of summaries.
- Text that is not valid UTF-8 in stored keys, other than as a prefix, which the driver rejects; invalid bytes in messages to split.
- AgentTurn.Agent.Run: whoever started a turn gives up after some number of rounds, which may be any; tools do not change the session they are given; the checks before the turn starts.
- File contents surviving a power failure, file modes and ownership, and setup; a crash is the process stopping between or inside operations.
- `Deploy`, the build, and the notice told on boot.
- ChatRoom.NoLostWakeup: fairness; it says the waiter can go on, not that it is scheduled.
- AgentPair.EveryChainEnds: grug's wake is one step; what agents write is arbitrary, and a mention is a set of names.
- DevTask.Dev.Wake: one room; worktrees, the choice of a workspace and the prompt's wording. A room whose task cannot be resumed starts a new one that reads the room from the beginning.
- The schedule of the XMPP bridge and what its consumer does with a message.
- StreamCollect.Collect: provider options are maps in which empty and absent are the same; tool input deltas and other stream parts are ignored as in the code.
- StreamCollect.RoundTrip: text and calls carry no provider options and calls no provider-executed flag, which `Streamed` does not send; `StreamCollect.NormalIff` too speaks of messages without these.
- ShellQuote.PutRuns: paths are compared as strings, `mkdir -p` adds the one directory named, base64 is any decoder that inverts the encoding at hand, and the commands of a pipeline run one after the other. NUL, which no argument can hold, is not treated apart.
- Progress and status rendering, prompts, tool schemas, model providers, the commands and the user interface.
