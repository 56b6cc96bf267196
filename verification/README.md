# A verified model of jsonrpsee's core

This project models the parts of jsonrpsee, a JSON-RPC 2.0 client and server library, whose correctness
depends on several pieces of code working together, and proves what those parts promise over every input,
every run or every reachable state. `dafny verify dfyconfig.toml` checks all of it.

## What is modelled

**The async client** (`Ids`, `ClientMessages`, `BatchReplies`, `RequestManager`, `ClientSections`,
`ClientTasks`, `ClientSystem`, `ClientInvariant`, `ClientProofs`, `ClientRuns`, `ClientTheorems`). The
request manager is a class; each of its methods is proved against an operation on values. What the send side and the read side
do while they hold the manager's lock is a *section*, and the client is a transition system whose steps are
sections and moves of callers, transport and server, in any interleaving. The server answers each request
it received at most once and with its id, a batch by one array with one reply per request in any order;
apart from that it may push anything at any time.

**The server's subscriptions** (`ServerSubscriptions`, `SubscriptionTable`, `SubscriptionOrder`,
`SubscriptionPermits`). A transition system over any number of connections and subscribe calls, with the
table of stored receivers, the oneshots between sinks and calls, the outgoing queues and the permits. A
drop is two steps, as in the code: it looks whether the sink is active and then takes the lock.

**Answering messages** (`ResponseCodec`, `MethodResponses`, `RpcService`). Bounded writing, the batch
response builder, dispatch, the batch loop and the handling of one message, on UTF-8 bytes. Callbacks may
answer by anything that was called before.

**Parameters** (`Json`, `Params`). A small JSON model with a compact printer and a prefix parser, and the
builder and the reader of parameter lists on top of it.

**The `rpc` macro** (`MethodRegistry`, `RpcMacro`). The name check, the registrations it renders and the
registry these run on.

**Client channels, inactivity and request bodies** (`SubscriptionChannel`, `Inactivity`, `HttpBody`).

## Where the code does something else than one would expect

- A caller that leaves before its subscription is acknowledged: the comment at
  core/src/client/async_client/mod.rs:981-985 says the unsubscribe request has to be sent, but it meets the
  slot reserved for it and is refused in silence (`ClientTheorems.AbandonedUnsubscribeRefused`, with a whole
  run in `ClientTheorems.LeftBeforeAcknowledged`). Exactly when an unsubscribe goes out is
  `ClientTheorems.UnsubscribeSentExactlyWhen`.
- `remove_subscription` does not check that its two ids belong together
  (`RequestManager.MismatchedRemovalBreaksIndex`); the index stays exact exactly if they do
  (`RequestManager.RemovalKeepsIndexExactly`), which callers see to by looking the id up first.
- Inside an array, an element that is neither a reply nor an item is tried as a subscription error with the
  text of the whole array (core/src/client/async_client/mod.rs:749); the model does the same.
- A response does not always read back as it was written: the code of a busy server is not among those
  `From<i32>` recognises (types/src/error.rs:244-257), and error data that is a null reads as no data. Exactly
  when it does is `ResponseCodec.RoundTripExactly`.
- When ids repeat, a drop whose two halves are apart can take a newer subscription's entry
  (`SubscriptionTable.RepeatedIdRace`); exactly when is `SubscriptionTable.LateDropTakes`.
- Dropping one clone of a live sink ends the subscription for all of them
  (`SubscriptionTable.DropTakesOnlyItsOwn`).
- A parameter whose serializer fails halfway leaves its partial text in the buffer, and building may then
  panic (`Params.AbortedInsertSpoils`); exactly when the built text is right is `Params.BuiltExactly` and
  `Params.BuiltNamedExactly`.
- Only the literal `[]` counts as no parameters; every other text of an empty array fails
  (`Params.EmptyArrayReads`).
- Messages do not reset the count of inactive ticks (`Inactivity.CountIsNeverReset`).
- The macro refuses a notification named like a method although it would register
  (`RpcMacro.CheckIsStricter`); exactly what it asks beyond that is `RpcMacro.AcceptedExactly`.
- A body whose leading whitespace comes in a frame of its own is refused (`HttpBody.WhitespaceFrameRefused`);
  exactly when the cut into frames matters is `HttpBody.CutMattersExactly`.

## Model

| member | source | states |
|---|---|---|
| `ClientTheorems.NeverAnInvalidId` | core/src/client/async_client/mod.rs:961-1024 | In every reachable state of every interleaving, the read side has not stopped because of a reply id, an overflowing range or a failed `expect` |
| `ClientTheorems.EachCallerOwnReply` | core/src/client/async_client/helpers.rs:174-234 | In every reachable state each oneshot was used at most once, only with what the server answered to its caller's own request (a batch with the replies of its own array in request order, a subscriber with the subscription id that answer holds), and never with a refusal |
| `ClientTheorems.ItemsReachTheirSubscriber` | core/src/client/async_client/helpers.rs:94-121 | In every reachable state an item is offered exactly if its subscription is active, and then to the channel of a caller that was told that id by the answer to its own request |
| `ClientTheorems.EachCallerAccountedFor` | core/src/client/async_client/mod.rs:802-848 | Every caller of a call, a subscription or a batch waits for the send side, is pending with its request in flight, or is answered: exactly one of the three |
| `ClientTheorems.NeverOccupied` | core/src/client/async_client/manager.rs:108-159 | In any order of arrival no call, subscribe or batch of a caller is refused as occupied, and what is sent for it was never sent before |
| `ClientTheorems.NothingSentTwice` | core/src/client/async_client/mod.rs:850-864 | No request id and no batch range is ever sent twice, so at most one unsubscribe goes out per subscription |
| `ClientTheorems.UnsubscribeSentExactlyWhen` | core/src/client/async_client/mod.rs:850-864 | A step sends a subscription's unsubscribe request if and only if it takes the closing of that subscription while it is active |
| `ClientTheorems.AbandonedUnsubscribeRefused` | core/src/client/async_client/mod.rs:815-826 | The unsubscribe of a subscription whose caller left before the acknowledgement changes nothing and sends nothing |
| `ClientTheorems.AbandonedForever` | core/src/client/async_client/mod.rs:815-826 | In every continuation of a run with an abandoned subscription, its unsubscribe request is never sent |
| `ClientTheorems.LeftBeforeAcknowledged` | core/src/client/async_client/mod.rs:700-703 | A complete run in which that happens: nothing is left that would tell the server |
| `ClientTheorems.IndexExact` | core/src/client/async_client/manager.rs:164-302 | In every reachable state the reverse index is exactly the injective inverse of the active subscriptions |
| `ClientTheorems.StepKeeps` | core/src/client/async_client/mod.rs:905-949 | Every step of every part of the client keeps the invariant the theorems above rest on |
| `ClientSections.EveryRun` | core/src/client/async_client/helpers.rs:94-142 | Over every sequence of sections, whatever the server sends: the index is exact, no `expect` fails, and subscriptions activated = active + unsubscribed + closed by the server |
| `ClientRuns.SubscriptionsConserved` | core/src/client/async_client/mod.rs:850-864 | In every run of the client's steps, subscriptions activated = active + unsubscribed + closed by the server, and the index is exact, whatever the id counter does |
| `ClientRuns.RunIsSections` | core/src/client/async_client/mod.rs:675-720 | The manager of every run is the one the sections of its steps make, in order |
| `ClientRuns.StepIsSection` | core/src/client/async_client/mod.rs:796-883 | Every step changes the manager, and uses oneshots, as the one section it runs does, or not at all |
| `ClientSections.SectionKeepsIndex` | core/src/client/async_client/helpers.rs:129-142 | Every section keeps the index exact and never fails its `expect` |
| `RequestManager.IndexAfterRemove` | core/src/client/async_client/manager.rs:255-302 | A removal or unsubscribe by a pair looked up in the index succeeds and keeps the index exact |
| `RequestManager.RemovalKeepsIndexExactly` | core/src/client/async_client/manager.rs:255-302 | A removal or unsubscribe that succeeds keeps the index exact if and only if its two ids belong together |
| `RequestManager.MismatchedRemovalBreaksIndex` | core/src/client/async_client/manager.rs:255-279 | There are tables and mismatched pairs for which the removal succeeds and breaks the index |
| `RequestManager.RequestManager.TryInsertPendingCall` | core/src/client/async_client/manager.rs:108-121 | Inserts the call or refuses an id in use, changing nothing else |
| `RequestManager.RequestManager.TryInsertPendingBatch` | core/src/client/async_client/manager.rs:124-138 | The same for a batch and its range |
| `RequestManager.RequestManager.TryInsertPendingSubscription` | core/src/client/async_client/manager.rs:140-162 | Takes both slots, the second reserved for the unsubscribe call, or none |
| `RequestManager.RequestManager.TryInsertSubscription` | core/src/client/async_client/manager.rs:164-182 | Adds the entry and its index entry together, or neither |
| `RequestManager.RequestManager.TakePendingCall` | core/src/client/async_client/manager.rs:238-252 | Takes out a pending call and only that |
| `RequestManager.RequestManager.TakePendingSubscription` | core/src/client/async_client/manager.rs:205-222 | Takes out a pending subscription and only that |
| `RequestManager.RequestManager.TakePendingBatch` | core/src/client/async_client/manager.rs:225-235 | Takes out a pending batch and only that |
| `RequestManager.RequestManager.TakeSubscription` | core/src/client/async_client/manager.rs:255-279 | Takes out the entry and the index entry if both exist, otherwise nothing |
| `RequestManager.RequestManager.StartUnsubscribe` | core/src/client/async_client/manager.rs:281-302 | Takes out the index entry and leaves the request id behind as a call nobody waits for |
| `ClientTasks.HandleFrontendMessage` | core/src/client/async_client/mod.rs:796-883 | Has the effect of the section of its message: new manager, what is written, who is refused |
| `ClientTasks.ProcessSingleResponse` | core/src/client/async_client/helpers.rs:174-234 | Has the effect of the section of a single reply, including the caller that left |
| `ClientTasks.ProcessBatchResponse` | core/src/client/async_client/helpers.rs:52-88 | Has the effect of the section of a batch reply; a bad reply drops the oneshot unused |
| `ClientTasks.ProcessSubscriptionResponse` | core/src/client/async_client/helpers.rs:94-121 | Offers the item to the sink of the active subscription with that id, and asks for closing exactly when that channel did not take it |
| `ClientTasks.ProcessSubscriptionClose` | core/src/client/async_client/helpers.rs:129-142 | With an exact index the removal cannot fail, and the index stays exact |
| `ClientTasks.ProcessNotification` | core/src/client/async_client/helpers.rs:150-167 | Offers the notification to the registered handler, and removes a handler that did not take it at once |
| `ClientTasks.BuildUnsubscribeMessage` | core/src/client/async_client/helpers.rs:249-269 | The request carries the unsubscribe id reserved when subscribing |
| `ClientTasks.HandleArray` | core/src/client/async_client/mod.rs:722-770 | Whatever the send side does between the elements, the loop over an array has the effect of reading it element by element as far as the first failure, and keeps the index exact |
| `ClientTasks.ArrayCollects` | core/src/client/async_client/mod.rs:727-741 | Reading gets past the last element exactly if every element is readable, a reply being so if its id is a number; then all replies are collected in order and the range is the least and greatest of their numbers |
| `ClientTasks.FullReplyResolves` | core/src/client/async_client/mod.rs:727-763 | An array whose replies answer a pending batch in full, in any order and among anything else, gives that batch's caller, and nobody else, the replies in request order |
| `BatchReplies.RunningRangeBounds` | core/src/client/async_client/mod.rs:727-741 | The running range is the least and the greatest of the reply numbers |
| `BatchReplies.RangeRecovered` | core/src/client/async_client/mod.rs:727-763 | Any permutation of a full reply gives back exactly the batch's range, without overflow |
| `BatchReplies.RangeOverflows` | core/src/client/async_client/mod.rs:756-763 | The range overflows if and only if a reply carries the largest 64-bit number |
| `BatchReplies.RepliesInRequestOrder` | core/src/client/async_client/helpers.rs:52-88 | For any permutation of a full reply, entry i is the reply with id start + i |
| `BatchReplies.PlaceReplies` | core/src/client/async_client/helpers.rs:63-83 | The loop fills the slots as specified, or fails at the first reply without one |
| `BatchReplies.AsyncBatchResponse` | core/src/client/async_client/mod.rs:560-581 | Succeeds exactly if all results decode, and then the counts match the entries |
| `BatchReplies.HttpBatchResponse` | client/http-client/src/client.rs:417-472 | The one-pass loop that places and counts together computes its specification, failures included |
| `BatchReplies.BothClients` | client/http-client/src/client.rs:405-474 | For any permutation of a full reply and both id kinds, both clients give the same result: entries in request order and matching counts |
| `Ids.IdRoundTrip` | types/src/params.rs:390-396 | Every issued id reads back as its number, for both id kinds |
| `Ids.IntoIdInjective` | core/src/client/mod.rs:493-500 | Different numbers never share an id |
| `SubscriptionTable.ActiveExactlyWhenStored` | core/src/server/subscription.rs:251-261 | In every run, even when ids repeat, a sink is active exactly when the receiver stored under its key is its own |
| `SubscriptionTable.DropTakesOnlyItsOwn` | core/src/server/subscription.rs:404-415 | In every run a drop in one go takes no other subscription's entry, takes nothing if the sink was inactive, and leaves all clones inactive |
| `SubscriptionTable.LateDropTakes` | core/src/server/subscription.rs:409-415 | A drop with its halves apart spares all others' entries if and only if it did not find the sink active first and its key taken over since |
| `SubscriptionTable.DistinctKeysAreSafe` | core/src/server/subscription.rs:409-415 | Where ids do not repeat, no drop takes another subscription's entry, however interleaved |
| `SubscriptionTable.InactiveForever` | core/src/server/subscription.rs:168-186 | A subscription that is not active is not active in any continuation of the run |
| `SubscriptionTable.RepeatedIdRace` | core/src/server/subscription.rs:404-415 | A run with a repeated id in which a slow drop silences a new subscription nobody ended |
| `SubscriptionTable.SlowDropSilencesNewcomer` | core/src/server/subscription.rs:409-415 | In any state: a drop that saw its sink active takes the receiver stored meanwhile under the same key |
| `SubscriptionTable.StepKeepsTable` | core/src/server/rpc_module.rs:1015-1027 | Every step, unsubscribe calls included, keeps receivers alive exactly while stored under their own key |
| `SubscriptionOrder.ReplyOnceAndFirst` | core/src/server/rpc_module.rs:801-870 | In every run a subscribe call has at most one reply, everything sent for the subscription follows the reply that grants it, and nothing is sent unless it was accepted |
| `SubscriptionOrder.SettledHasOneReply` | core/src/server/subscription.rs:223-267 | Once the pending sink is accepted, rejected or dropped, on an open connection, there is exactly one reply, a grant exactly if it is live; a dropped one is answered by the call itself |
| `SubscriptionOrder.TurnedDownStaysSilent` | core/src/server/subscription.rs:214-227 | A rejected or dropped pending sink sends nothing but its reply in any continuation |
| `SubscriptionOrder.StepKeepsOrder` | server/src/transport/ws.rs:262-282 | Every step keeps the order of messages, with the reply left to the sink exactly if the call was told the outcome |
| `SubscriptionPermits.PermitsConserved` | core/src/server/subscription.rs:470-481 | In every run free permits + permits held by pending sinks and groups of clones = limit, and a subscribe call is turned away exactly when all are held |
| `SubscriptionPermits.StepKeepsPermits` | server/src/middleware/rpc.rs:107-132 | Every step keeps that balance on every connection |
| `RpcService.RunBatch` | server/src/middleware/rpc.rs:151-188 | The batch loop replies as the entries' replies make it; calls run in order, all of them or those up to the first entry that makes the reply too long |
| `RpcService.BatchReplyReads` | server/src/middleware/rpc.rs:151-188 | The reply is a JSON array within the limit that reads back as one response per entry that is not a notification, in entry order and with the entries' ids |
| `RpcService.SilentExactlyOnNotifications` | server/src/middleware/rpc.rs:179-186 | A non-empty batch gets no reply if and only if all its entries are notifications |
| `RpcService.HandleRpcCall` | server/src/server.rs:1354-1420 | A disabled, unreadable or over-long batch is one error and nothing is run; otherwise entries are told apart in order and the batch is run; single messages are answered by kind |
| `RpcService.DispatchReplies` | server/src/middleware/rpc.rs:82-148 | Every call is answered by a response object with its own id, or null if its blocking method failed |
| `RpcService.TooLongStays` | core/src/server/method_response.rs:343-356 | Once the replies of the first entries are too long, the whole is |
| `MethodResponses.WriteBounded` | core/src/server/method_response.rs:524-545 | For any split into writes, writing succeeds exactly if the total is within the limit and then holds all of it |
| `MethodResponses.BoundedWriter.Write` | core/src/server/method_response.rs:537-545 | A write that would pass the limit fails and changes nothing |
| `MethodResponses.MakeResponse` | core/src/server/method_response.rs:176-235 | However serialization is split, the response is the text if it is complete and within the limit, the error about its size if it is not within the limit, and an internal error if the serializer gives up |
| `MethodResponses.BatchResponseBuilder.Append` | core/src/server/method_response.rs:343-356 | An element is refused exactly if the array with it would be too long, and then nothing changes |
| `MethodResponses.BatchResponseBuilder.Finish` | core/src/server/method_response.rs:364-376 | The array of all elements, within the limit; without elements one null-id invalid request |
| `MethodResponses.ArrayOfTexts` | core/src/server/method_response.rs:330-377 | Assembling printed elements gives the printed array |
| `ResponseCodec.VisitMap` | types/src/response.rs:273-344 | The field loop accepts exactly the well-formed lists of fields, with the response they stand for, and names the field it refused |
| `ResponseCodec.ReadFields` | types/src/response.rs:313-341 | An accepted list has one id, at most one version and either a result or an error, once; duplicates and result with error are refused |
| `ResponseCodec.RoundTripExactly` | types/src/response.rs:352-374 | Written fields read back as the same response if and only if it is a success or its error has a recognised code and no null data |
| `ResponseCodec.FieldsRoundTrip` | types/src/response.rs:352-374 | Any response reads back up to its error's code and data |
| `ResponseCodec.TextRoundTrip` | types/src/response.rs:352-374 | The same through the text |
| `ResponseCodec.NormalExactly` | types/src/error.rs:244-257 | An error reads back unchanged exactly if its code is recognised and its data is not null; what it reads back as is stable |
| `ResponseCodec.BusyDoesNotReadBack` | types/src/error.rs:207-219 | The busy-server error reads back as a different one |
| `ResponseCodec.OrderAndUnknownsDoNotMatter` | types/src/response.rs:281-311 | Lists with the same known fields, in any order and among any unknown ones, read the same |
| `Json.ParsePrint` | core/src/params.rs:89-110 | A printed value, with numbers of any form, followed by any delimiter reads back as the value and the rest |
| `Json.DocumentRoundTrip` | core/src/params.rs:111-127 | A printed document reads back as itself |
| `Params.SendAndRead` | types/src/params.rs:172-258 | For every list of values: insert, build, read one by one gives them in order, then no more, and nothing for an optional read |
| `Params.BuildArray` | core/src/params.rs:80-127 | The built text is the compact array of the values; an empty list gives no parameters |
| `Params.BuildObject` | core/src/params.rs:89-127 | The built text is the compact object of the fields in insertion order; no fields give no parameters |
| `Params.BuildPositional` | core/src/params.rs:80-127 | For every list of insertions, failed ones included, building closes what was written and panics exactly if that is no JSON document |
| `Params.BuiltExactly` | core/src/params.rs:101-127 | What is built is the array of the written values if and only if no failed insertion left any text, or nothing was written and one comma is left |
| `Params.BuildNamed` | core/src/params.rs:89-127 | The same as `BuildPositional` for named insertions |
| `Params.BuiltNamedExactly` | core/src/params.rs:89-127 | What is built is the object of the written fields if and only if no insertion failed |
| `Params.ReadAt` | types/src/params.rs:172-218 | Reading at any position returns that value and moves to the next, or ends the sequence if the type does not accept it |
| `Params.ReadPastEnd` | types/src/params.rs:172-218 | After the last value there is nothing to read, however often |
| `Params.ReadFromStart` | types/src/params.rs:93-118 | The built text survives trimming and is where reading starts |
| `Params.ParamsBuilder.Insert` | core/src/params.rs:101-109 | Appends the value and a comma, or what a failing serializer wrote |
| `Params.ParamsBuilder.InsertNamed` | core/src/params.rs:89-99 | The same with a name in front |
| `Params.ParamsBuilder.Build` | core/src/params.rs:111-127 | Nothing if nothing was inserted, else the bracketed body without its last comma, or a panic exactly if that is no JSON document |
| `Params.ParamsSequence.Next` | types/src/params.rs:221-230 | Moves the cursor past one parameter; the end is an error |
| `Params.ParamsSequence.OptionalNext` | types/src/params.rs:249-257 | Moves the cursor past one parameter; null and the end are nothing |
| `Params.NamedRoundTrip` | types/src/params.rs:121-129 | Named parameters inserted, built, received and parsed as one value are the fields in insertion order; none read as null |
| `Params.AbortedInsertSpoils` | core/src/params.rs:111-127 | An insertion that failed halfway after which building panics |
| `Params.EmptyArrayReads` | types/src/params.rs:110-118 | Any received text of an empty array reads as no parameters if it is trimmed to the two brackets, and fails otherwise |
| `Params.SpacedEmptyArrayFails` | types/src/params.rs:110-118 | A space inside is enough for it to fail |
| `RpcMacro.AcceptedNeverFails` | proc-macros/src/render_server.rs:127-345 | If no name is reported twice, every generated registration succeeds and the registry serves every method, subscription and alias |
| `RpcMacro.SucceedsExactly` | core/src/server/rpc_module.rs:979-1051 | The generated registrations succeed if and only if the registered names are distinct |
| `RpcMacro.ExpandAndRun` | core/src/proc_macros_support.rs:22-26 | From the interface to the registry: without a compile error nothing panics |
| `RpcMacro.RenderIntoRpc` | proc-macros/src/render_server.rs:127-345 | Renders the registrations in order and reports exactly the names defined before |
| `RpcMacro.NoRepeats` | proc-macros/src/render_server.rs:132-139 | No name is reported exactly if all checked names are distinct |
| `RpcMacro.AcceptedExactly` | proc-macros/src/render_server.rs:127-345 | The macro accepts an interface if and only if it registers and its overriding notification names differ from each other and from all registered names |
| `RpcMacro.CheckIsStricter` | proc-macros/src/render_server.rs:221-227 | An interface that is refused although it would register |
| `RpcMacro.IntoRpc` | proc-macros/src/render_server.rs:116-125 | The generated code panics exactly if a registration fails |
| `MethodRegistry.RegisteredExactly` | core/src/server/rpc_module.rs:979-1051 | Registrations whose aliases are of earlier names all succeed if and only if no two take the same name; the registry then has just those names |
| `MethodRegistry.Methods.Merge` | core/src/server/rpc_module.rs:253-267 | Adds all of the other registry, or nothing if any name is taken |
| `MethodRegistry.Methods.VerifyAndInsert` | core/src/server/rpc_module.rs:235-243 | Inserts under a free name, else changes nothing |
| `MethodRegistry.Methods.RegisterSubscription` | core/src/server/rpc_module.rs:979-1030 | Registers both names or neither |
| `MethodRegistry.Methods.RegisterAlias` | core/src/server/rpc_module.rs:1036-1051 | The alias gets the existing callback, or nothing changes |
| `SubscriptionChannel.HandlerGetsPrefix` | core/src/client/async_client/helpers.rs:150-167 | In every run a notification handler's reader gets a gap-free prefix of the notifications since registration, all but the buffered ones while registered |
| `SubscriptionChannel.SubscriptionGetsSubsequence` | core/src/client/async_client/helpers.rs:94-121 | In every run a subscription's reader gets its items in order; while it is registered and read, nothing but the buffered ones is missing if and only if it has not lagged |
| `SubscriptionChannel.CloseReasonExactly` | core/src/client/mod.rs:321-331 | The buffer stays within capacity, lagging is reported exactly if a message was dropped for want of room, and a reader told otherwise has all that was kept |
| `SubscriptionChannel.LaterMayFollowDropped` | core/src/client/async_client/helpers.rs:108-116 | A subscription that lagged may still get later items |
| `SubscriptionChannel.SubscriptionPair.Send` | core/src/client/mod.rs:623-633 | Stores the message, or reports a closed reader, or a full buffer and sets the flag |
| `SubscriptionChannel.SubscriptionPair.PollNext` | core/src/client/mod.rs:644-647 | Takes the oldest message; the stream ends when the sender is gone and the buffer empty |
| `Inactivity.WatchConnection` | core/src/client/async_client/mod.rs:1000-1018 | The read loop stops at the first tick that makes as many idle ticks as allowed, and at no other; on schedule that is before max + 1 limits have passed since the last message, and an open connection is less than max limits past it at its last tick |
| `Inactivity.FiresInTime` | core/src/client/async_client/utils.rs:81-92 | With ticks every limit, a tick max limits or more after the last message ends the connection |
| `Inactivity.SilenceEnds` | core/src/client/async_client/mod.rs:328-336 | On an open connection on which nothing more arrives a tick ends it, the first to do so before max + 1 limits have passed since the last message |
| `Inactivity.Deadline` | core/src/client/async_client/utils.rs:81-92 | Every first firing tick comes before max + 1 limits have passed since the last message before it |
| `Inactivity.CountIsNeverReset` | core/src/client/async_client/utils.rs:94-98 | Idle ticks add up although messages came between them |
| `Inactivity.InactivityCheck.IsInactive` | core/src/client/async_client/utils.rs:81-92 | Counts a tick at which nothing had arrived for the limit |
| `HttpBody.ReadBody` | core/src/http_helpers.rs:127-184 | Reads the whole body without leading whitespace, or refuses it for the stated reason |
| `HttpBody.CutMattersExactly` | core/src/http_helpers.rs:147-174 | Two cuts of a body into frames read the same if and only if its declared length is too large, or both first frames are refused, or neither; within the limits, if and only if both or neither show what the body is |
| `HttpBody.WhitespaceFrameRefused` | core/src/http_helpers.rs:156-168 | Two such cuts that read differently |

## Left out

- Sockets, TLS, HTTP upgrade, redirects, the wasm client, and all of tokio, hyper, tower and soketto: libraries or plain I/O.
- The text level of incoming messages outside of parameters and responses: a received message is given by what each parser makes of it.
- The rounding and range of floating-point numbers (a number with a fraction or exponent is kept as its text), surrogate escapes and the recursion limit of the JSON library.
- Results that are raw JSON with spaces in it: payloads are `Json` values.
- `ErrorObject` as an array of its three values is read; other derived forms of the JSON library are not.
- Message encryption, the host filter, `ConnectionManager`, logging, builders, configuration setters and attribute parsing of the macro: user-supplied, library code, or read off from one branch.
- Request timeouts, and connection loss on the client: a caller may leave at any time, but the client itself is not torn down in `ClientSystem`.
- Wrap-around of the id counter: the theorems on reachable states are about runs in which the 64-bit counter has not wrapped.
- Servers that answer an id twice or an id nobody asked for: `ClientSections.EveryRun` covers them, `ClientTheorems` does not.
- Channel capacities in `ClientSystem`: the outcome of a send into a subscription's channel is a free choice there; `SubscriptionChannel` has the capacities.
- The server's subscription lifecycle is a step relation on values, not a class: what matters are the interleavings of several owners, so updates in place and aliasing of the shared table are not captured.
- A subscribe call inside a batch: it is answered by its sink and also in the array, so "exactly one reply" is stated for single calls only.
- Sends that wait for room with a time limit: a send in `ServerSubscriptions` passes the check and finishes later or never.
- Inactivity.FiresInTime: ticks are exactly on time; delayed ticks are not modelled.
- Extensions, completion notifications of responses, and the contents of HTTP headers other than the declared length.
