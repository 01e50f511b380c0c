# Mosquitto 1.4.5 in Dafny

A model, with proofs, of the MQTT broker and client library kept under
`Kocom/mosquitto`: how subscriptions and retained messages are stored and
found, how messages are queued, counted and acknowledged, how packets are cut
out of a stream and written to it, and how the broker's state is saved and
restored. `dafny verify dfyconfig.toml` checks the whole project.

Code that changes things in place is modelled in place: the subscription tree
is a tree of linked nodes, a client's queue a linked list with a tail pointer
and counters, the hash table chains and a doubly linked order, the packet reader
and the encoders work on buffers with a moving position. Each of these methods
is proved to do what a function on values says, and the properties are proved
about those functions, over every input and every run.

## The parts

- **Subscriptions and retained messages** (`Topics`, `Matcher`, `SubTree`,
  `SubSearch`, `Retained`, `Subscriptions`, `SessionClean`, `SubGather`,
  `SubHierarchy`, `SubRoot`). The tree answers like a flat table of filters
  (`BrokerRuns`), a publish reaches exactly the matching subscriptions once each,
  and the character matcher and the tree agree except in two shapes
  (`BrokerLaws`, with inputs in `BrokerExamples`). `PublishLaws` joins the tree
  with the queues: what each matching subscription puts into the queue of its
  client.
- **Message delivery** (`ClientQueue`, `QueueLaws`, `WriteLaws`, `MsgStore`,
  `ClientContext`, `ReleaseWalk`). `BrokerStore` puts all queues, the retained
  slots and the store together; `BrokerStoreLaws` proves over every run that
  reference counts are exact, that nothing points at a freed message, which
  messages are never freed (`LeakLaws`), and what states and ids the entries of a
  queue can have (steps in `BrokerStoreSteps` and `BrokerEntries`), with what was
  sent and received before (`EntryHistory`). What comes in: `ContentLaws` (what a
  stored message is), `WaitingLaws` (QoS 2 messages that wait), `ArrivalLaws` and
  `ReleaseLaws` (what is handed on). What goes out: `CopyLaws` and `OfferLaws`
  (entries for a publish and for a new subscription), `SessionLaws` and `SendLaws`
  (acknowledgements, retries, and what a client is sent when it is back). Small
  runs at which something unexpected happens are in `DeliveryExamples`.
- **Both together** (`WholeBroker`): runs of what clients do, in which tree, queues
  and retained slots go on side by side and agree.
- **The client library's window** (`ClientLib`, `WindowLaws`).
- **QoS 2 from end to end** (`Qos2`, `Qos2Receiver`, `Qos2Steps`, `Qos2Laws`):
  library as sender and broker as receiver over two channels, with retries on
  both sides and connections that break at any time and are resumed; an exchange
  can always be brought to its end (`Qos2Progress`).
- **Packets** (`Framing`, `FramingSteps`, `FramingLaws`, `PacketReader`, `Wire`,
  `WireLaws`, `Packets`, `OutQueue`).
- **The hash table** (`UtHash`, `UtHashTable`).
- **The database file** (`Persist`, `PersistLoad`, `PersistLaws`, `PersistFile`,
  `Database`, with inputs in `PersistExamples` and a file byte by byte in
  `FileExamples`). Restoring counts references as the code does and frees what
  nothing points at.
- `Common` holds the option type and the removal of one element of a list.

## Where the code is not what one would expect

The model follows the code. Each of these comes with the exact condition and,
where a property fails, an input at which it does.

- The character matcher refuses two shapes that the standard and the tree
  accept: `#` for no level right behind `+`, and `#` for a single empty last level
  (`Matcher.TopicMatchesSub`, `BrokerLaws.MatcherAgainstTree`; inputs in
  `BrokerExamples.MatcherRefuses`).
- The filters `#`, `+` and those that start with `+/` are refused, which the
  comment on the check does not say (`Topics.SubTopicCheck`).
- A retained message on a topic whose first level starts with `$` is kept only if
  that top-level node exists already (`BrokerLaws.RetainKeptIff`; input in
  `BrokerLaws.RetainedLost`).
- With both wildcards in a filter, the retained message of the parent level of
  `#` can be missed (`BrokerLaws.OfferedExactly`; input in
  `BrokerExamples.OfferSkips`).
- The loop that starts waiting messages after a removal tests the in-flight limit
  but never counts, so that it starts all of them
  (`ClientContext.Context.StartHead`): more are in flight than the limit allows
  exactly when those left and those that wait at the head are more together
  (`QueueLaws.StartsTooMany`; input in `DeliveryExamples.StartsTwo`).
- After a reconnect the client library counts every queued message as in flight,
  but lets only one less than the limit go on. If the queue is at least one short of
  twice the limit, nothing held or accepted later is sent while that connection
  holds, whatever is acknowledged; if it is shorter, the held messages get their
  turn (`WindowLaws.HeldForGood`; input in `WindowLaws.HeldAfterOne`: with a limit of
  one this is always so).
- A message of QoS 2 whose PUBREC has come is published again if the connection
  breaks once more before its PUBREL is repeated: a reconnect goes on with a PUBREL
  if and only if the entry waits for PUBCOMP (`SendLaws.ReconnectSends`; input in
  `DeliveryExamples.PublishedAgain`).
- A QoS 2 message that arrives at a full queue stays in the store for good
  (`BrokerStoreLaws.LeakedExactly`; input in `DeliveryExamples.LeakedThird`).
- The check for a repeated message looks at the id only, so that a QoS 1 message
  with the id of a waiting QoS 2 message is taken for it: that one is handed on in
  its place, and put into its slot if it is retained. The message published is
  handed on if and only if its QoS is 0 or nothing waits under its id
  (`ArrivalLaws.ArriveHands`, `ArrivalLaws.KeptIsPublished`; input in
  `DeliveryExamples.ReusedId`). Such a slot does not come back from a backup
  (`PersistLaws.SlotBackIff`; input in `PersistExamples.SlotMoves`).
- Restoring a retained message lets go of it at once, so that it is freed unless
  it waits in a queue or its slot could be set (`PersistLaws.StoreBackIff`; input
  in `PersistExamples.DollarFreed`: a topic below a `$` node that nobody lasting
  is subscribed to). If the file names it again, the program reads it through a
  dead pointer: a backup can be restored if and only if this does not happen
  (`PersistLaws.Restored`; input in `PersistExamples.TwiceFails`, with a run that
  leads to its slots in `DeliveryExamples.ReusedTwice`), as it never does when no
  message is in two slots (`PersistLaws.OneSlotEachLoads`).
- A packet whose command byte is zero is taken for no packet when a read ends
  behind that byte (`FramingLaws.FragmentationMatters` has the condition and
  builds the input from any stream that breaks it).
- A saved filter that starts with `/` or `$` comes back under another name
  (`Persist.NameKept`; input in `PersistExamples.SlashLost`), and of two filters
  saved under one name the later one decides (`PersistLaws.Restored`; input in
  `PersistExamples.LaterFilterWins`).

## Model

| member | source | states |
|---|---|---|
| `Topics.Tokenise` | `Kocom/mosquitto/src/subs.c:169-230` | The token list is the levels of the string between slashes, behind one empty token unless the string starts with `$`. |
| `Topics.TokensInjective` | `Kocom/mosquitto/src/subs.c:169-230` | Different strings have different token lists, so that a path of the tree belongs to one filter only. |
| `Topics.TokensMatch` | `Kocom/mosquitto/src/subs.c:169-230` | Matching token lists level by level is matching the strings level by level together with the rule about a leading `$` (sections 4.7.1 and 4.7.2 of MQTT 3.1.1). |
| `Topics.PubTopicCheck` | `Kocom/mosquitto/lib/util_mosq.c:174-187` | Accepts exactly the strings without `+` and `#` of at most 65535 characters. |
| `Topics.SubTopicCheck` | `Kocom/mosquitto/lib/util_mosq.c:196-227` | Accepts exactly the filters whose wildcards stand alone in their level with `#` last, of at most 65535 characters, other than `#`, `+` and those that start with `+/`, which a local edit refuses. |
| `Matcher.TopicMatchesSub` | `Kocom/mosquitto/lib/util_mosq.c:229-304` | For a valid non-empty filter and a non-empty topic without wildcards a result is always assigned; it is the level-by-level answer except in two shapes, where it is false: `#` standing for no level right behind `+`, and `#` standing for one empty last level. No result exactly when both strings are empty. |
| `SubTree.AddEffect` | `Kocom/mosquitto/src/subs.c:246-333` | Adding changes the granted QoS of one client at one path, and no other answer and no retained message. |
| `SubTree.AddCreates` | `Kocom/mosquitto/src/subs.c:246-333` | After adding, every node of the path exists, and every node that was there still is. |
| `SubTree.AddWellFormed` | `Kocom/mosquitto/src/subs.c:246-333` | Siblings stay distinct, a node keeps one leaf for each client, and nothing hangs below a `#`. |
| `SubTree.RemoveEffect` | `Kocom/mosquitto/src/subs.c:335-394` | Removing takes away the one leaf at the one path; pruning loses no other leaf and no retained message. |
| `SubTree.RemoveWellFormed` | `Kocom/mosquitto/src/subs.c:335-394` | Removing keeps siblings distinct and one leaf for each client. |
| `SubSearch.ReachedIff` | `Kocom/mosquitto/src/subs.c:396-426` | The recursive search reaches a node exactly when its path, read as a filter, matches the topic level by level. |
| `SubSearch.ReachedNoDup` | `Kocom/mosquitto/src/subs.c:396-426` | No node is reached twice. |
| `SubSearch.LeavesAtNoDup` | `Kocom/mosquitto/src/subs.c:98-140` | In a tree with distinct siblings and one leaf for each client at a node, which is every tree of a run, walking distinct nodes meets no leaf twice. |
| `Retained.SetRetainedEffect` | `Kocom/mosquitto/src/subs.c:74-97` | A retained publish changes the slot at the path of its own topic and no other slot and no leaf. |
| `Retained.OfferedIff` | `Kocom/mosquitto/src/subs.c:698-739` | Exactly which nodes the search for retained messages offers, including the one shape it misses. |
| `Retained.OfferedNoDup` | `Kocom/mosquitto/src/subs.c:698-739` | No node is offered twice. |
| `Subscriptions.AddTopEffect` | `Kocom/mosquitto/src/subs.c:428-483` | Subscribing from the root changes one client at the path of its filter, also when the top-level node is new. |
| `Subscriptions.RemoveTopEffect` | `Kocom/mosquitto/src/subs.c:485-508` | Unsubscribing from the root takes away one client at the path of its filter and nothing else. |
| `Subscriptions.RetainTopEffect` | `Kocom/mosquitto/src/subs.c:525-543` | A retained publish sets the slot at the path of its topic exactly when the top-level node of the topic stands. |
| `SessionClean.ClimbEffect` | `Kocom/mosquitto/src/subs.c:550-593` | Removing empty nodes upwards loses no leaf, no retained message and no node another list entry names. |
| `SessionClean.CleanAllEffect` | `Kocom/mosquitto/src/subs.c:595-641` | Session clean-up takes away the leaves of the one client at the listed nodes and nothing else. |
| `BrokerRuns.RunAgrees` | `Kocom/mosquitto/src/subs.c:246-641` | After any sequence of subscribe, unsubscribe, session clean and publish the tree, the client lists and the retained slots answer like two flat tables. |
| `BrokerLaws.DeliveredExactly` | `Kocom/mosquitto/src/subs.c:396-426` | After any run a publish is handed to exactly the (client, filter, QoS) triples of the flat table whose filter matches by levels, and to none of them twice. |
| `BrokerLaws.DeliveredToKnown` | `Kocom/mosquitto/src/subs.c:396-426` | Every delivery belongs to a filter somebody subscribed to. |
| `PublishLaws.DeliveriesCounted` | `Kocom/mosquitto/src/subs.c:396-426` | After any run the deliveries of a publish to one client are one for each of its filters that match, with the QoS of that filter. |
| `PublishLaws.PublishQueues` | `Kocom/mosquitto/src/subs.c:98-140` | Tree, queues and slots together, for a PUBLISH of QoS 0 or 1 that arrives after any run of subscriptions and any run of the store: what is put behind the queue of every client is, for its own matching filters one after the other, one outgoing entry each, or none if it has no room by what the queue holds by then, or if duplicates are forbidden and it got one. Its QoS is that of the subscription with upgrading, and otherwise at most both and equal to one of them; it starts in the state of its QoS if it may go at once, and waits if not. A retained one takes the slot of its topic, set by the same walk, if and only if the top-level node stands, and no other slot changes. |
| `PublishLaws.CopiesAtOnce` | `Kocom/mosquitto/src/database.c:343-366` | A connected client without an in-flight limit gets an entry that may go at once for every delivery, or only for the first when duplicates are forbidden. |
| `PublishLaws.CopiesKept` | `Kocom/mosquitto/src/database.c:384-396` | For a client that is away, without a limit on what waits, an entry waits for every delivery of QoS 1 and 2, and of QoS 0 exactly if the broker is told to keep those; with duplicates forbidden only for the first of them. |
| `CopyLaws.CopyQueues` | `Kocom/mosquitto/src/database.c:303-468` | One outgoing entry behind the queue of one client exactly if it has room (both limits together when connected, the second when away, zero for none, QoS 0 not counted) and need not be kept from a second copy; its fields and its id, the next one of the client, which is used up in either case; the reference and the note of the client; nothing else changes. |
| `BrokerLaws.MatcherAgainstTree` | `Kocom/mosquitto/lib/util_mosq.c:229-304` | Whenever the character matcher says true the tree delivers; where the tree delivers and the matcher says false, it is one of the two shapes. |
| `BrokerExamples.MatcherRefuses` | `Kocom/mosquitto/lib/util_mosq.c:229-304` | The inputs at which the character matcher says false and the levels match: `a/+/#` against `a/b`, and `a/#` against `a/`. |
| `BrokerLaws.RetainedIsMap` | `Kocom/mosquitto/src/subs.c:63-97` | Over every run the slot of a topic below a top-level node that always exists holds the last retained publish with a payload, or nothing if the last was empty; paths with wildcards never hold one (section 3.3.1.3 of MQTT 3.1.1). Publishes are known here by the id of what they store; when that is the message published is `ArrivalLaws.KeptIsPublished`. |
| `BrokerLaws.RetainedStep` | `Kocom/mosquitto/src/subs.c:63-97` | For every topic, `$` or not, and every run: a slot changes exactly when a retained message is published on its own topic while the top-level node of the topic stands, and then takes the message, or nothing if it was empty. |
| `BrokerLaws.RetainedOnTopics` | `Kocom/mosquitto/src/subs.c:525-543` | Over every run only the paths of topics without wildcards hold a retained message. |
| `BrokerLaws.RetainKeptIff` | `Kocom/mosquitto/src/subs.c:525-543` | For any topic: a retained publish is kept if and only if the top-level node of the topic stands. |
| `BrokerLaws.RetainedLost` | `Kocom/mosquitto/src/subs.c:525-543` | The input: a retained message on a fresh `$` tree other than `$SYS` is lost. |
| `BrokerLaws.OfferedExactly` | `Kocom/mosquitto/src/subs.c:698-768` | A new subscriber is offered the retained message of a topic if and only if the filter matches and the node is not in the one gap (`#` standing for no level in a filter that also has `+`). |
| `BrokerExamples.OfferSkips` | `Kocom/mosquitto/src/subs.c:698-739` | The input: `a/b` is retained, and a subscriber to `a/+/#` is not offered it although the filter matches. |
| `BrokerLaws.OfferedOnlyMatching` | `Kocom/mosquitto/src/subs.c:698-768` | Nothing is offered that the filter does not match. |
| `BrokerLaws.OfferedAllAfterSubscribe` | `Kocom/mosquitto/src/read_handle_server.c:697-703` | Right after subscribing, a filter without both wildcards is offered every retained message it matches. |
| `BrokerLaws.QueuedAreHanded` | `Kocom/mosquitto/src/subs.c:510-546` | The leaves the publish entry point walks over are those of the deliveries characterised above. |
| `BrokerLaws.QueuedAreOffered` | `Kocom/mosquitto/src/subs.c:741-768` | The messages the retained entry point gathers are those of the offered nodes. What is queued for them is in `OfferLaws.OfferReaches` and `WholeBroker.NewSubscriber`. |
| `OfferLaws.OfferReaches` | `Kocom/mosquitto/src/subs.c:674-696` | After any run a connected client that has subscribed gets, for the slots listed, one outgoing entry marked as retained for each that holds a message, in that order, with that message, of the lower QoS, as far as there is room: for each of them without an in-flight limit. No other queue and no slot changes. |
| `WholeBroker.LifeHolds` | `Kocom/mosquitto/src/subs.c:63-97` | After any run of what clients do (connecting, subscribing, publishing in all three QoS, acknowledging, losing connections, ending sessions), client ids are distinct, every topic has its own slot, and the tree holds in the node of each topic what the store holds in its slot. |
| `WholeBroker.PublishReaches` | `Kocom/mosquitto/src/subs.c:98-140` | After any such run a PUBLISH of QoS 0 or 1 puts behind the queue of every client copies for its own matching filters; if it is retained and the top-level node of its topic stands, the node of the topic then holds the message that was handed on, or nothing if that is empty. |
| `WholeBroker.PubrelReaches` | `Kocom/mosquitto/src/database.c:743-808` | After any such run a PUBREL hands on the message that waits under its id, unless access control denied it: every client gets copies for its own matching filters, and the entry is gone from the queue of the sender. |
| `WholeBroker.SessionEnds` | `Kocom/mosquitto/src/context.c:92-186` | After any such run, when a session ends its queue is empty and none of its filters is left, and those of all others stay. |
| `WholeBroker.NewSubscriber` | `Kocom/mosquitto/src/subs.c:674-768` | After any such run a client that subscribes gets a retained copy of the message of every topic that holds one and that its filter matches, but for the one gap of the search, each of the lower QoS, as far as there is room: without an in-flight limit all of them. No other queue and no slot changes. |
| `SubHierarchy.SubHier.FindChild` | `Kocom/mosquitto/src/subs.c:299-304` | The sibling loop stops at the first child with the topic. |
| `SubHierarchy.SubHier.Subscribe` | `Kocom/mosquitto/src/subs.c:246-333` | The linked tree after subscribing is the tree the specification function gives, and the result tells whether the client had a leaf there before. |
| `SubHierarchy.SubHier.Unsubscribe` | `Kocom/mosquitto/src/subs.c:335-394` | The linked tree after unsubscribing, with empty nodes unlinked on the way back, is the one the specification function gives; the result tells whether there was a leaf. |
| `SubHierarchy.SubHier.Process` | `Kocom/mosquitto/src/subs.c:63-142` | At a node: the slot takes the message or is emptied when the message is retained, and all leaves are returned in order. |
| `SubHierarchy.SubHier.Search` | `Kocom/mosquitto/src/subs.c:396-426` | The loop over siblings with recursion returns the leaves the specification gathers and sets the slots it sets. |
| `SubHierarchy.SubHier.RetainSearch` | `Kocom/mosquitto/src/subs.c:698-739` | The retained search returns the messages the specification gathers, with its flag. |
| `SubRoot.SubAdd` | `Kocom/mosquitto/src/subs.c:428-483` | Subscribing on the linked tree equals the edit on the value, a new top-level node in front; a new leaf is noted in the first empty slot of the client's list of nodes, a leaf that was there changes its QoS only. |
| `SubRoot.SubRemove` | `Kocom/mosquitto/src/subs.c:485-508` | Unsubscribing on the linked tree equals the edit on the value, and empties the slot of the client's list that names the node. |
| `SubHierarchy.SubHier.Clean` | `Kocom/mosquitto/src/subs.c:595-641` | On the linked tree, one node loses the client's leaf and bare nodes are unlinked from there upwards, as unsubscribing at that path would; nothing happens if the node is not there. |
| `SubRoot.CleanSession` | `Kocom/mosquitto/src/subs.c:595-641` | The loop over the client's list on the linked tree gives the tree the value function gives, the two first nodes staying, and empties the list. |
| `SessionClean.CleanNodeIs` | `Kocom/mosquitto/src/subs.c:550-641` | Climbing from a node to its parents while they are bare is the same as removing from the root down, for every tree. |
| `SubRoot.MessagesQueue` | `Kocom/mosquitto/src/subs.c:510-546` | Publishing on the linked tree returns the leaves met and leaves the tree the value functions give. |
| `SubRoot.RetainQueue` | `Kocom/mosquitto/src/subs.c:741-768` | The retained messages for a new filter, gathered from the linked tree. |
| `ClientQueue.PromoteKeeps` | `Kocom/mosquitto/src/database.c:231-253` | Starting the waiting head of a queue changes progress only. |
| `QueueLaws.SweepSplits` | `Kocom/mosquitto/src/database.c:256-301` | Deleting loses nothing: references, the counter of QoS 1 and 2 entries, and the rule for incoming entries split between what stays and what was taken out. |
| `QueueLaws.SweepTakesOne` | `Kocom/mosquitto/src/database.c:256-301` | Whatever the limits, if a queue has at most one entry of that id and direction, deleting or releasing takes out exactly that one, appends what handing it on queued, and keeps the order of everything else. `BrokerStoreLaws.ReleaseTakesOne` shows that incoming entries always meet the condition. |
| `QueueLaws.WriteSplits` | `Kocom/mosquitto/src/database.c:810-934` | Writing loses nothing. |
| `WriteLaws.WriteOrdered` | `Kocom/mosquitto/src/database.c:810-934` | For every limit, zero included, and wherever the transport stops: packets leave in list order, each with the id, message, QoS, retain and duplicate flag of its entry; an entry that sends its packet waits for the answer to it, and only one in the state for QoS 0 leaves; all others keep their order; if the transport took everything, every entry that had a packet sent it, and otherwise exactly as many were sent as it took, by entries in front of the one it refused. |
| `SessionLaws.WriteAnswers` | `Kocom/mosquitto/src/database.c:810-934` | If the transport takes everything, every QoS 2 message on its way in that has been started, or that waits within the limit by the loop's own count, is answered with its PUBREC. |
| `ClientContext.Context.Append` | `Kocom/mosquitto/src/database.c:395-405` | A new entry goes behind the tail pointer; the counters follow. |
| `ClientContext.Context.Unlink` | `Kocom/mosquitto/src/database.c:208-230` | An entry is unlinked by its predecessor; tail pointer and both counters follow. |
| `ClientContext.Context.StartHead` | `Kocom/mosquitto/src/database.c:231-253` | Every waiting entry at the head is started: the loop tests the limit and never counts. |
| `QueueLaws.StartsTooMany` | `Kocom/mosquitto/src/database.c:231-253` | For every queue and limit: after a removal more entries are active than the limit if and only if the active ones left and the startable ones at the head are more together. |
| `DeliveryExamples.StartsTwo` | `Kocom/mosquitto/src/database.c:231-253` | The input: limit one, three QoS 1 copies, the first written and acknowledged; both others are started. |
| `ClientContext.Context.MessageRemove` | `Kocom/mosquitto/src/database.c:198-254` | One entry leaves, its reference goes back, and the waiting head is started. |
| `ClientContext.Context.MessageDelete` | `Kocom/mosquitto/src/database.c:256-301` | The list and the store after the loop are those of the specification function, freed messages included. |
| `ClientContext.Context.StoreFind` | `Kocom/mosquitto/src/database.c:600-617` | Finds the first incoming entry whose message came with the id. |
| `ClientContext.Context.MessageUpdate` | `Kocom/mosquitto/src/database.c:470-484` | The first entry of the id and direction takes the state; the result tells whether there was one. |
| `ClientContext.Context.TimeoutCheck` | `Kocom/mosquitto/src/database.c:700-741` | Every entry found too old goes back to the state from which it is repeated, marked as a duplicate; others stay. |
| `ClientContext.Context.ReconnectReset` | `Kocom/mosquitto/src/database.c:621-698` | Both passes over the moved queue: tail and counters are found again, started entries begin again, waiting ones start within the limit. |
| `SendLaws.ReconnectSends` | `Kocom/mosquitto/src/database.c:621-698` | For every queue and limit: after a reconnect, if the transport takes everything, every outgoing entry that had been started, and every waiting one that the limit lets start, has its packet sent in the order of the queue: a PUBREL if and only if it is of QoS 2 and waits for PUBCOMP, and otherwise its PUBLISH. |
| `SendLaws.RetrySends` | `Kocom/mosquitto/src/database.c:700-741` | For every queue and limit: after the retry check, if the transport takes everything, every entry found too old has its packet repeated in the order of the queue, PUBLISH (marked as a duplicate), PUBREC or PUBREL by what it waits for; the others are as before. |
| `SendLaws.BackInRun` | `Kocom/mosquitto/src/database.c:621-698` | The same over every run of the broker, for the client that comes back; nobody else's queue and no slot changes. |
| `SendLaws.RetryInRun` | `Kocom/mosquitto/src/database.c:700-741` | The same over every run of the broker, for the client whose entries are too old. |
| `SendLaws.PublishedWhileAway` | `Kocom/mosquitto/src/database.c:384-396` | Without limits: a new message published while a client is away waits for it, an entry for each of its matching filters whose QoS is kept, and once the client is back and takes everything, a PUBLISH of that message and QoS has been sent for each of them. |
| `DeliveryExamples.PublishedAgain` | `Kocom/mosquitto/src/database.c:641-655` | The input: the PUBREC of a QoS 2 message has come, the connection breaks and is back twice without a write in between, and the message is published again. |
| `ClientContext.Context.MessageInsert` | `Kocom/mosquitto/src/database.c:303-468` | Whether an entry is taken, in what state and with what return code; the new list, the reference, and the record of the client, as the function that `CopyLaws.CopyQueues` and `WaitingLaws.ArriveWaits` are about. |
| `ClientContext.Context.MessagesDelete` | `Kocom/mosquitto/src/database.c:486-505` | The queue is emptied and every reference given back. |
| `ClientContext.Context.MessageWrite` | `Kocom/mosquitto/src/database.c:810-934` | Terminates for every limit; queue, packets, removed entries and freed messages are those of the function that `WriteLaws.WriteOrdered` is about. |
| `ClientContext.Context.MidGenerate` | `Kocom/mosquitto/lib/util_mosq.c:148-172` | Ids run through 1 to 65535 and never are zero. |
| `ClientContext.Context.QueueOwn` | `Kocom/mosquitto/src/subs.c:98-140` | Handing a message on to its own sender does to its list, counters, last id and the store exactly what the broker as a whole does for the sender's own subscriptions. |
| `ClientContext.Context.MessageRelease` | `Kocom/mosquitto/src/database.c:743-808` | The release loop with the client subscribed to its own messages: list, last id, store, packets, handed messages and result are those of the broker's release for its own subscriptions, and those of a sweep of its queue. |
| `ReleaseWalk.FinishIsRelease` | `Kocom/mosquitto/src/database.c:743-808` | The loop step by step leaves the broker exactly as releasing does. |
| `ReleaseWalk.FinishIsSweep` | `Kocom/mosquitto/src/database.c:743-808` | What the loop leaves in the queue, sends and hands on is a sweep of the queue, with the entries the client's own subscriptions put behind it. |
| `MsgStore.StoreTable.Add` | `Kocom/mosquitto/src/database.c:526-598` | A stored message enters under a new id with no reference. |
| `MsgStore.StoreTable.Release` | `Kocom/mosquitto/src/database.c:188-196` | One reference less; with the last one the message goes. |
| `MsgStore.BackedDrop` | `Kocom/mosquitto/src/database.c:198-212` | Taking an entry out and giving its reference back leaves every other entry pointing at a message that counts it. |
| `ContentLaws.StepContent` | `Kocom/mosquitto/src/database.c:526-598` | Messages are stored by PUBLISH only, with the sender, id, topic, QoS, retain flag and payload it came with, and stay as they are through every operation. |
| `ContentLaws.Origin` | `Kocom/mosquitto/src/database.c:526-598` | Over every run each stored message is what one PUBLISH of the run brought, stored under the id that was next then. |
| `WaitingLaws.FoundWaiting` | `Kocom/mosquitto/src/database.c:600-617` | Over every run an arriving message is taken for one that waits if and only if an incoming entry has its id, and then for the message of that entry. |
| `WaitingLaws.ArriveWaits` | `Kocom/mosquitto/src/read_handle.c:217-252` | Over every run a QoS 2 message that arrives while one waits under its id changes nothing; any other is stored, and an entry for it waits for its PUBREL at once up to the first limit, waits to be started up to both together, and is not made beyond them. No other queue and no slot changes. |
| `BrokerStoreSteps.DerefFrees` | `Kocom/mosquitto/src/database.c:188-196` | Giving a reference back frees the message if and only if nothing else points at it. |
| `BrokerStoreSteps.SlotBalanced` | `Kocom/mosquitto/src/subs.c:83-95` | Exchanging a retained message keeps all counts exact, also when it is exchanged for itself. |
| `BrokerStoreSteps.ReleaseBalanced` | `Kocom/mosquitto/src/database.c:743-808` | Releasing keeps all counts exact, also when the publisher is among its own subscribers. |
| `BrokerStoreSteps.ReleaseIsSweep` | `Kocom/mosquitto/src/database.c:743-808` | In the broker as a whole the releasing client's queue changes as a sweep of it says, where what is queued meanwhile is, for each message handed on, outgoing copies, no more than the tree made, each of a QoS that a subscription of that client grants. |
| `ReleaseLaws.ReleaseNothing` | `Kocom/mosquitto/src/database.c:743-808` | Over every run a PUBREL under whose id nothing waits hands on nothing and frees nothing: at most entries of its client are started. |
| `ReleaseLaws.ReleaseDenied` | `Kocom/mosquitto/src/database.c:743-808` | Over every run a PUBREL for a message that access control denied takes out its entry and hands on nothing. |
| `ReleaseLaws.ReleaseQueues` | `Kocom/mosquitto/src/database.c:743-808` | After any run of subscriptions and any run of the store a PUBREL hands on exactly the message that waits under its id: what is put behind the queue of every client are copies of it for that client's matching filters, the entry is gone from the queue of its sender, everything else keeps its place, and the slot of its topic takes it as for a PUBLISH. |
| `SessionLaws.SweepStarts` | `Kocom/mosquitto/src/database.c:256-301` | Deleting leaves none of the first entries waiting, as many as may be in flight; releasing, which counts the entries it takes out, one less for each of them. |
| `SessionLaws.SweepAnswers` | `Kocom/mosquitto/src/database.c:743-808` | While a PUBREL is handled, every waiting message on its way in that the loop passes within the limit, up to the one released, is answered with its PUBREC. |
| `SessionLaws.AcknowledgedGoes` | `Kocom/mosquitto/src/database.c:256-301` | Over every run a PUBACK or PUBCOMP takes out the one outgoing entry of its id, or nothing if there is none; all others keep their order, and none of the first entries, as many as may be in flight, waits. Nobody else's queue and no slot changes. |
| `SessionLaws.ReceivedMoves` | `Kocom/mosquitto/src/database.c:470-484` | A PUBREC moves the first outgoing entry of its id on to wait for PUBCOMP and changes nothing else. |
| `SessionLaws.BreaksAndJoins` | `Kocom/mosquitto/src/context.c:28-205` | Over every run, a connection that breaks leaves the client's queue and everything else as they are; a new client is connected and has an empty queue. |
| `SessionLaws.CleanEmpties` | `Kocom/mosquitto/src/database.c:486-505` | Over every run, when a session ends its queue is emptied, and exactly the messages stay that another queue or a slot points at or that were leaked before. |
| `BrokerStoreLaws.ReferencesConserved` | `Kocom/mosquitto/src/database.c:146-254` | Over every run, each stored message counts exactly the queue entries and retained slots that point at it, none points at a freed one, and a message nothing points at is still there only if it is one of the leaked. |
| `BrokerStoreLaws.LeakedExactly` | `Kocom/mosquitto/src/read_handle.c:217-252` | Over every run, a message is stored for nothing if and only if a new QoS 2 message arrives while the sender's queue is exactly full, and no operation ever gives back one that was. |
| `DeliveryExamples.LeakedThird` | `Kocom/mosquitto/src/read_handle.c:217-252` | The input: with limits of one and one, the third QoS 2 message of a client leaks. |
| `BrokerStoreLaws.OneCopy` | `Kocom/mosquitto/src/database.c:322-331` | With duplicates forbidden, over the whole life of a message at most one outgoing non-retained entry is made of it for each client id. |
| `BrokerStoreLaws.QueueBounds` | `Kocom/mosquitto/src/database.c:343-392` | Over every run incoming entries have QoS 2, and with both limits set no queue holds more QoS 1 and 2 entries than their sum. |
| `BrokerStoreLaws.StatesAllowed` | `Kocom/mosquitto/src/database.c:303-468` | Over every run an entry is in a state its QoS and direction allow, an outgoing one never in a state of the receiving side nor the other way round, and with no in-flight limit an incoming one in one of the two states of a receiver, which is what the exchange of QoS 2 starts from. |
| `EntryHistory.WaitsForSent` | `Kocom/mosquitto/src/database.c:855-881` | Over every run an outgoing entry waits for PUBACK or PUBREC only if its PUBLISH was written while it was in the queue, where it has been since. |
| `EntryHistory.WaitsForReceived` | `Kocom/mosquitto/src/database.c:621-660` | Over every run an outgoing entry waits for PUBCOMP, or is about to have its PUBREL repeated, only if a PUBREC of its id came while it was in the queue, where it has been since. |
| `EntryHistory.PubrelAfterPubrec` | `Kocom/mosquitto/src/database.c:893-902` | Over every run no PUBREL is written but for an outgoing entry whose PUBREC came while it was in the queue, where it has been since. |
| `BrokerStoreLaws.ReleaseTakesOne` | `Kocom/mosquitto/src/database.c:743-808` | Over every run no client has two incoming entries of one id, so that releasing takes out exactly the one asked for. |
| `BrokerStoreLaws.WrittenInRun` | `Kocom/mosquitto/src/database.c:810-934` | Over every run, what leaves a queue while it is written is exactly the entries of QoS 0 whose PUBLISH was sent; the queue left behind is that of `WriteLaws.WriteOrdered`, and nobody else's queue and no slot changes. |
| `DeliveryExamples.ReusedId` | `Kocom/mosquitto/src/read_handle.c:213-252` | The input: a retained QoS 1 message that comes with the id of a waiting QoS 2 message on another topic puts that other message into its slot. |
| `DeliveryExamples.ReusedTwice` | `Kocom/mosquitto/src/read_handle.c:213-252` | The input: used twice before the PUBREL, such an id leaves one message of another topic in two slots and in no queue. |
| `ArrivalLaws.ArriveHands` | `Kocom/mosquitto/src/read_handle.c:213-252` | Over every run, a PUBLISH of QoS 0 or 1 hands on one message: the one that waits under its id, or else its own; it is the first exactly if its QoS is 1 and an incoming entry has the id. Copies of it alone join the queues, it takes the slots the tree names if it has a payload, and its content stays as it was. |
| `ArrivalLaws.KeptIsPublished` | `Kocom/mosquitto/src/subs.c:74-97` | Over every run, the slot of a retained publish then holds the message published, under a new id and with its topic, if and only if the QoS is 0 or nothing waits under the id. |
| `ClientLib.Mosq.Publish` | `Kocom/mosquitto/lib/mosquitto.c:557-622` | A message is queued and sent at once if the window has room, held otherwise. |
| `ClientLib.Mosq.MessageQueue` | `Kocom/mosquitto/lib/messages_mosq.c:117-152` | Appends and counts, and tells whether the window was full. |
| `ClientLib.Mosq.MessageRemove` | `Kocom/mosquitto/lib/messages_mosq.c:214-309` | The first message of the id leaves; held messages start while there is room and the transport takes them. The result is a send error, and on_publish is not called, exactly when the transport refused one of them. |
| `ClientLib.Mosq.OutUpdate` | `Kocom/mosquitto/lib/messages_mosq.c:371-389` | The first message of the id takes the state; the result tells whether there was one. |
| `ClientLib.Mosq.ReconnectReset` | `Kocom/mosquitto/lib/messages_mosq.c:154-212` | After a reconnect every queued message is counted and those beyond the limit are held. |
| `ClientLib.AcknowledgeKeepsWindow` | `Kocom/mosquitto/lib/messages_mosq.c:214-309` | Acknowledging a message that was sent keeps the window exact, also when the transport refuses the next one. |
| `ClientLib.ResetSafe` | `Kocom/mosquitto/lib/messages_mosq.c:154-212` | After a reconnect no more messages are active than the limit allows. |
| `ClientLib.WindowHolds` | `Kocom/mosquitto/lib/messages_mosq.c:117-309` | Over whole sessions in which only sent messages are acknowledged: without reconnects the counter is the number of active messages, within the limit, they are a prefix of the queue, and a message is held only when the window is full; with reconnects the active messages stay within the limit. |
| `WindowLaws.AcknowledgeSends` | `Kocom/mosquitto/lib/messages_mosq.c:214-309` | Acknowledging takes the first message of the id out and starts held ones: nothing but their state changes, and each is sent as a PUBLISH with its own fields, in the order of the queue, the last of them perhaps refused by the transport. |
| `WindowLaws.KeptInOrder` | `Kocom/mosquitto/lib/messages_mosq.c:117-309` | Over every session, reconnects included, the queue holds exactly the messages that were accepted and not acknowledged, with id, QoS and content, in their order, each in a state of its QoS. |
| `WindowLaws.ReconnectRepeats` | `Kocom/mosquitto/lib/messages_mosq.c:154-212` | After a reconnect each QoS 1 message within the window is sent again by the retry check, marked as a duplicate; a QoS 2 message there goes on where it was; all others are held, and nothing is sent for them. |
| `WindowLaws.HeldForGood` | `Kocom/mosquitto/lib/messages_mosq.c:154-309` | For every queue and limit: after a reconnect from an exact window, if the queue is at least one short of twice the limit, every held message and every one accepted later stays held over every session on that connection; if it is shorter and some are held, acknowledging the first messages gets the first held one started. |
| `WindowLaws.HeldAfterOne` | `Kocom/mosquitto/lib/messages_mosq.c:154-309` | The input: limit one, one QoS 1 message in flight, a reconnect: it is held, and neither it nor any later message is sent on that connection. |
| `Qos2Receiver.ReleaseFirst` | `Kocom/mosquitto/src/database.c:743-808` | With both limits zero a PUBREL takes out the first incoming entry of its id and touches nothing else. |
| `Qos2Receiver.WriteIdent` | `Kocom/mosquitto/src/database.c:810-934` | With both limits zero writing answers only for incoming entries that are there, sends no PUBCOMP, and keeps them. |
| `Qos2Receiver.FindIff` | `Kocom/mosquitto/src/database.c:600-617` | The duplicate check finds an id if and only if an incoming entry holds it. |
| `Qos2Steps.PubrecKeeps` | `Kocom/mosquitto/lib/read_handle_shared.c:94-116` | Handling PUBREC keeps the invariant of the exchange. |
| `Qos2Steps.PubcompKeeps` | `Kocom/mosquitto/lib/read_handle_shared.c:58-92` | Handling PUBCOMP, and calling on_publish, keeps the invariant. |
| `Qos2Steps.BrokerPublishKeeps` | `Kocom/mosquitto/src/read_handle.c:217-252` | Receiving a PUBLISH, new or repeated, allowed or denied, keeps the invariant. |
| `Qos2Steps.BrokerReleaseKeeps` | `Kocom/mosquitto/lib/read_handle_shared.c:118-161` | Receiving a PUBREL, first or repeated, keeps the invariant. |
| `Qos2Steps.RetryKeeps` | `Kocom/mosquitto/lib/messages_mosq.c:311-363` | The library's retry check, whatever it sends, keeps the invariant. What it sends is in `Qos2Progress.RetryRepeats`. |
| `Qos2Steps.ReconnectKeeps` | `Kocom/mosquitto/lib/messages_mosq.c:154-212` | Resuming both sessions keeps the invariant. |
| `Qos2Laws.RunInv` | `Kocom/mosquitto/src/read_handle.c:217-252` | The invariant of sender, receiver and both channels holds after every interleaving of sends, retries on both sides, reads, writes, other traffic and connection losses. |
| `Qos2Laws.AtMostOnce` | `Kocom/mosquitto/src/database.c:743-808` | Over every run no accepted message is handed on twice, and what is handed on is what was accepted under its id (section 4.3.3 of MQTT 3.1.1). |
| `Qos2Laws.ExactlyOnce` | `Kocom/mosquitto/lib/read_handle_shared.c:58-92` | When on_publish has been called for a message it has been handed on exactly once, or, if and only if access control denied it, not at all; on_publish is called at most once. |
| `Qos2Laws.PubrecIsKnown` | `Kocom/mosquitto/lib/read_handle_shared.c:94-116` | Over every run the sender knows the message of every PUBREC that reaches it, so that no PUBREC closes the connection. |
| `Qos2Progress.RetryRepeats` | `Kocom/mosquitto/lib/messages_mosq.c:311-363` | Over every run the retry check repeats the PUBLISH of a message that waits for PUBREC, with its content and marked as a duplicate, and the PUBREL of one that waits for PUBCOMP. |
| `Qos2Progress.BrokerAnswers` | `Kocom/mosquitto/src/read_handle.c:217-252` | The broker answers a PUBLISH with the PUBREC and a PUBREL with the PUBCOMP of its id. |
| `Qos2Progress.ClientAnswers` | `Kocom/mosquitto/lib/read_handle_shared.c:58-116` | The client answers a PUBREC it knows with the PUBREL of its id, and calls on_publish at a PUBCOMP it knows. |
| `Qos2Progress.Completion` | `Kocom/mosquitto/lib/messages_mosq.c:311-363` | After every run every accepted message can be brought to its end: there are further steps, none of them a new publish or a loss, after which on_publish has been called for it, however access control decides. |
| `Framing.FeedSane` | `Kocom/mosquitto/lib/net_mosq.c:948-982` | On any input the accumulator and the multiplier of the remaining length stay within 32 bits. |
| `Framing.NeverWraps` | `Kocom/mosquitto/lib/net_mosq.c:948-982` | The wrap-around of 32-bit arithmetic never happens, whatever stream comes. |
| `FramingLaws.OneShotIs` | `Kocom/mosquitto/lib/net_mosq.c:911-1046` | The resumable parser delivers the packets of a reference parser that looks at the whole stream, and rejects at the same byte. |
| `FramingLaws.TakenApart` | `Kocom/mosquitto/lib/net_mosq.c:911-1046` | The packets of the reference parser are consecutive pieces of the stream (command, length bytes that say the length of the body, body), the first a CONNECT where it must be; what is left is no whole packet, and a stream is bad only for a length that is too long or a first packet that is not CONNECT. |
| `Framing.CutsAgree` | `Kocom/mosquitto/lib/net_mosq.c:911-1046` | Every way of cutting a steady stream into reads gives the outcome of the whole stream. |
| `FramingLaws.FragmentationIndependence` | `Kocom/mosquitto/src/websockets.c:264-334` | For every stream in which no packet with a zero command byte goes on past that byte, and every way of cutting it, the same packets come out as from one look, or the rejection is at the same byte. |
| `FramingLaws.FragmentationMatters` | `Kocom/mosquitto/lib/net_mosq.c:911-917` | The condition is exact: every other stream has a beginning that leaves another state when it is cut in two, and one that delivers other packets when it goes on with a zero byte in a read of its own. |
| `PacketReader.Reader.TakeCommand` | `Kocom/mosquitto/lib/net_mosq.c:911-922` | The command byte, refused unless it is CONNECT where it must be. |
| `PacketReader.Reader.CountByte` | `Kocom/mosquitto/lib/net_mosq.c:948-964` | One byte of the remaining length, rejected as the fifth. |
| `PacketReader.Reader.StartBody` | `Kocom/mosquitto/lib/net_mosq.c:982-992` | Makes room for the body, if there is one. |
| `PacketReader.Reader.TakeBytes` | `Kocom/mosquitto/lib/net_mosq.c:993-1001` | Bytes of the body go behind those that are there. |
| `PacketReader.Reader.ReadLength` | `Kocom/mosquitto/lib/net_mosq.c:948-992` | The loop over the length bytes of a socket, stopping wherever nothing is there. |
| `PacketReader.Reader.ReadBody` | `Kocom/mosquitto/lib/net_mosq.c:993-1026` | The loop over the body of a socket, any number of bytes at a time. |
| `PacketReader.Reader.PacketRead` | `Kocom/mosquitto/lib/net_mosq.c:882-1046` | A call takes a beginning of what is there and makes of it what the parser makes: one packet at its end, part of one, or a rejection at the last byte. |
| `PacketReader.Reader.ReceiveOne` | `Kocom/mosquitto/src/websockets.c:272-334` | One turn of the websocket loop. |
| `PacketReader.Reader.Receive` | `Kocom/mosquitto/src/websockets.c:264-338` | A chunk gives the packets the parser finds in it and leaves the state the parser leaves. |
| `Wire.LengthRoundTrip` | `Kocom/mosquitto/lib/util_mosq.c:49-75` | Every length up to 268435455 takes at most four bytes and decodes to itself; every larger one takes more (section 2.2.3 of MQTT 3.1.1). |
| `Wire.LengthMinimal` | `Kocom/mosquitto/lib/util_mosq.c:52-61` | No shorter sequence of bytes decodes to the same length. |
| `WireLaws.LengthMeans` | `Kocom/mosquitto/lib/net_mosq.c:948-982` | A remaining length is the number its bytes spell, seven bits each, lowest first, at most four of them, all but the last with the top bit set. |
| `Wire.FramedBack` | `Kocom/mosquitto/lib/net_mosq.c:911-1046` | A packet written whole is framed as itself, whatever follows. |
| `Wire.PublishRoundTrip` | `Kocom/mosquitto/lib/read_handle.c:64-113` | Written, framed and decoded, a PUBLISH is the same message in every field. |
| `WireLaws.PublishRead` | `Kocom/mosquitto/lib/read_handle.c:64-113` | A body of a non-empty topic behind its length, an id for QoS 1 and 2, and a payload is read as these, with the flags of the command. |
| `WireLaws.PublishWas` | `Kocom/mosquitto/lib/read_handle.c:64-113` | No other body is read as a PUBLISH. |
| `Wire.ConnectRoundTrip` | `Kocom/mosquitto/src/read_handle_server.c:113-312` | Written, framed and decoded, a CONNECT gives back flags, keepalive, id, will and credentials, except a password without a user name, which is not sent; its buffer is filled exactly. |
| `WireLaws.AcceptedDecodes` | `Kocom/mosquitto/src/read_handle_server.c:113-312` | Every CONNECT of the stated form (name and version, flags, keepalive, id, will, user name, password, byte by byte) that meets the stated conditions is accepted and means what its parts say: an empty id only in a clean session of 3.1.1 that the broker gives ids to, a will of QoS at most 2 on a topic without wildcards, no will flags without a will and no password without a user name in 3.1.1, missing credentials overlooked in 3.1 only. |
| `WireLaws.DecodedIs` | `Kocom/mosquitto/src/read_handle_server.c:113-312` | Every CONNECT that is accepted has that form and meets these conditions, so that all others are refused. |
| `Packets.PacketAlloc` | `Kocom/mosquitto/lib/util_mosq.c:41-78` | No packet if and only if the length exceeds 268435455; otherwise a buffer of exactly the right size with its fixed header written. |
| `Packets.OutPacket.WriteString` | `Kocom/mosquitto/lib/net_mosq.c:624-629` | Writes the string behind its 16-bit length, both cut to sixteen bits. |
| `Packets.SendPublish` | `Kocom/mosquitto/lib/send_mosq.c:248-282` | Writes the framed PUBLISH; the buffer is filled exactly if and only if the topic fits its length field. |
| `Packets.SendConnect` | `Kocom/mosquitto/lib/send_client_mosq.c:72-134` | Writes the framed CONNECT; what is left of the buffer is what the 16-bit length fields cut off. |
| `Packets.Cursor.ReadString` | `Kocom/mosquitto/lib/net_mosq.c:601-622` | Takes a length and that many bytes, or refuses when they are not there. |
| `Packets.Cursor.ReadU16` | `Kocom/mosquitto/lib/net_mosq.c:631-646` | Takes two bytes, high one first, or refuses. |
| `Packets.Cursor.ReadBytes` | `Kocom/mosquitto/lib/net_mosq.c:581-590` | Takes as many bytes as asked for, or refuses. |
| `Packets.HandlePublish` | `Kocom/mosquitto/lib/read_handle.c:64-151` | Decodes what the specification decodes, refusing an empty topic, a missing id and QoS 3. |
| `Packets.ReadWill` | `Kocom/mosquitto/src/read_handle_server.c:219-262` | Reads a will, refusing a topic that is none. |
| `Packets.ReadLogin` | `Kocom/mosquitto/src/read_handle_server.c:264-307` | Reads user name and password; a missing one is overlooked in version 3.1 only. |
| `Packets.ReadName` | `Kocom/mosquitto/src/read_handle_server.c:118-171` | Accepts the two protocol names with their versions and, for 3.1.1, zero reserved flags. |
| `Packets.HandleConnect` | `Kocom/mosquitto/src/read_handle_server.c:113-312` | Decodes exactly the requests the specification decodes. |
| `OutQueue.OutputConserved` | `Kocom/mosquitto/lib/net_mosq.c:146-196` | For every sequence of sends and every pattern of short writes, bytes written followed by bytes still waiting are the packets in the order of sending. |
| `OutQueue.DrainedOrRefused` | `Kocom/mosquitto/lib/net_mosq.c:750-879` | Over every run, a write to a connection that stands makes writes of at least a byte each and ends with nothing left, with the connection closed, or with something unsent that the transport refused; no packet waits behind an empty current place. |
| `OutQueue.WireFrames` | `Kocom/mosquitto/lib/net_mosq.c:750-879` | However writes are cut, what the other side can frame at any time is a beginning of the packets sent, and never a broken one. |
| `OutQueue.Connection.PacketQueue` | `Kocom/mosquitto/lib/net_mosq.c:146-196` | The packet goes behind the tail of the list and as much as possible is written. |
| `OutQueue.Connection.PacketWrite` | `Kocom/mosquitto/lib/net_mosq.c:750-879` | Current packet, list and bytes on the wire are those of the specification function. |
| `OutQueue.Connection.TakeNext` | `Kocom/mosquitto/lib/net_mosq.c:857-865` | The head of the list becomes the current packet. |
| `UtHash.FindIsLookup` | `Kocom/mosquitto/src/uthash.h:94-105` | A sound table finds in the bucket of a key what a search through all elements in order of insertion finds. |
| `UtHash.SpreadHolds` | `Kocom/mosquitto/src/uthash.h:678-696` | Redistribution puts every element into the bucket of its hash, once, and into no other. |
| `UtHash.ExpandSound` | `Kocom/mosquitto/src/uthash.h:663-712` | Doubling keeps the table sound and the order unchanged. |
| `UtHash.AddSound` | `Kocom/mosquitto/src/uthash.h:177-201` | Adding under a new key keeps the table sound, expansion included, and appends to the order. |
| `UtHash.GrowsWhen` | `Kocom/mosquitto/src/uthash.h:610-620` | Adding doubles the buckets exactly when the bucket of the element reaches ten times one more than its multiplier and growing has not been given up, and otherwise changes that bucket only. |
| `UtHash.GrownCounts` | `Kocom/mosquitto/src/uthash.h:663-712` | After doubling, each bucket longer than the rounded-up average gets its length over that average as multiplier, and growing is given up when twice in a row more than half of the elements lie beyond it. |
| `UtHash.DeleteSound` | `Kocom/mosquitto/src/uthash.h:221-248` | Deleting keeps the table sound and takes the element out of the order. |
| `UtHash.TableRefines` | `Kocom/mosquitto/src/uthash.h:94-248` | Over every run, for any hash function, the table holds the elements of an association list in its order and finds what it finds; expansion shows in neither. |
| `UtHashTable.HashTable.FindKey` | `Kocom/mosquitto/src/uthash.h:597-607` | The walk along a chain finds what the specification finds. |
| `UtHashTable.HashTable.LinkTail` | `Kocom/mosquitto/src/uthash.h:184-193` | The element goes behind the tail of the doubly linked order. |
| `UtHashTable.HashTable.PushChain` | `Kocom/mosquitto/src/uthash.h:610-620` | The element goes to the head of its chain; counts and both directions of the links are right. |
| `UtHashTable.HashTable.UnlinkOrder` | `Kocom/mosquitto/src/uthash.h:230-243` | The element leaves the order; head, tail and neighbours are patched. |
| `UtHashTable.HashTable.UnlinkChain` | `Kocom/mosquitto/src/uthash.h:623-633` | The element leaves its chain; head, count and neighbours are patched. |
| `UtHashTable.HashTable.MoveOne` | `Kocom/mosquitto/src/uthash.h:682-694` | One element moves to its new bucket; count, multiplier and the number of badly placed elements follow. |
| `UtHashTable.HashTable.MoveChain` | `Kocom/mosquitto/src/uthash.h:681-695` | The whole old chain is moved while its links are being rewritten. |
| `UtHashTable.HashTable.ExpandBuckets` | `Kocom/mosquitto/src/uthash.h:663-712` | The table after doubling is the one the specification gives, with all links and counts right. |
| `UtHashTable.HashTable.HashAdd` | `Kocom/mosquitto/src/uthash.h:177-201` | Adding on the linked table equals adding on the value. |
| `UtHashTable.HashTable.HashDelete` | `Kocom/mosquitto/src/uthash.h:221-248` | Deleting on the linked table equals deleting on the value; the last element takes the buckets with it. |
| `Persist.StoresBack` | `Kocom/mosquitto/src/persist.c:554-655` | All stored messages come back, in reverse list order, without their outgoing id and with `$SYS` ones not retained. |
| `Persist.ClientsBack` | `Kocom/mosquitto/src/persist.c:455-552` | Every lasting session comes back with its id, last message id and messages in order, each with its reference; the others do not. |
| `Persist.SessionChunk` | `Kocom/mosquitto/src/persist.c:45-66` | A chunk for a session adds it, or, if it is known, replaces its last message id by one that is not zero and keeps its queue. |
| `Persist.NameIs` | `Kocom/mosquitto/src/persist.c:246-261` | A node of the tree is written under its levels without the empty ones in front. |
| `Persist.NameKept` | `Kocom/mosquitto/src/persist.c:246-261` | A filter is restored under its own name if and only if it starts with neither `/` nor `$`. |
| `PersistLaws.TreeChunkIff` | `Kocom/mosquitto/src/persist.c:246-325` | The chunks of the tree are one for each leaf of a lasting client and one for each retained message outside `$SYS`. |
| `PersistLaws.TreeOfRun` | `Kocom/mosquitto/src/subs.c:246-641` | The trees of all runs meet what the round trip asks of them: subscriptions stand where their filters say, retained messages on the paths of topics. |
| `PersistLaws.RunConsistent` | `Kocom/mosquitto/src/subs.c:246-641` | The tree of any run, with any stored messages and sessions that are there for it, meets the whole condition of the round trip. |
| `PersistLaws.Restored` | `Kocom/mosquitto/src/persist.c:408-843` | A backup can be restored if and only if no message that is saved for two slots has been freed when it is named again. Then come back: the lasting sessions with their queues; all stored messages but those saved for a slot that wait in no lasting queue and are in no slot now; every slot and every reference count exactly; and, path by path, exactly the subscriptions under the names they were saved with: a filter that starts with neither `/` nor `$` always, with its own QoS unless another filter of the client is saved under its name; and topic by topic, outside `$`, a retained message exactly where some slot held one of that topic. |
| `PersistLaws.StoreBackIff` | `Kocom/mosquitto/src/persist.c:632-680` | Which stored messages come back: one does unless it was saved for a slot, waits in no lasting queue, and is in no slot after the restore. |
| `PersistLaws.SlotChunk` | `Kocom/mosquitto/src/persist.c:632-680` | A chunk for a retained message sets the slot of its topic, if the message was sent as retained and the top-level node stands, to the message, or to nothing if it is empty; no other slot changes. |
| `PersistLaws.ContentBack` | `Kocom/mosquitto/src/persist.c:127-203` | A stored message that comes back has its source, id of the source, topic, QoS and payload, no outgoing id, and its retain flag unless its topic starts with `$SYS`. |
| `PersistLaws.SessionsBack` | `Kocom/mosquitto/src/persist.c:205-244` | Exactly the lasting sessions come back, each as it was. |
| `PersistLaws.SlotsOwn` | `Kocom/mosquitto/src/persist.c:632-680` | After a restore a slot holds only a message that was sent as retained, on its own topic. |
| `PersistLaws.OneSlotEachLoads` | `Kocom/mosquitto/src/persist.c:246-325` | If no message is in two slots, the backup can be restored. |
| `PersistLaws.HeldTwiceFails` | `Kocom/mosquitto/src/persist.c:632-680` | A message not sent as retained that two slots hold and no lasting queue makes the backup impossible to restore. |
| `PersistLaws.DollarLost` | `Kocom/mosquitto/src/subs.c:525-543` | Below a `$` node other than `$SYS` a retained message does not come back unless some lasting client is subscribed there. |
| `PersistLoad.AllGrow` | `Kocom/mosquitto/src/persist.c:632-725` | Restoring the chunks of a tree, whatever they are: it succeeds if and only if no chunk names a message freed before it, and then tree, slots, reference counts and the messages left are as flat tables of the chunks say. |
| `PersistLaws.SlotBackIff` | `Kocom/mosquitto/src/persist.c:246-325` | If the backup can be restored, a slot comes back as it was if and only if it holds a retained message of its own topic, when no other slot holds one of that topic. |
| `PersistExamples.SlashLost` | `Kocom/mosquitto/src/persist.c:246-261` | The input: the filter `/a` is saved under the name `a`. |
| `PersistExamples.LaterFilterWins` | `Kocom/mosquitto/src/persist.c:246-325` | The input: with `a` at QoS 0 and `/a` at QoS 2 both chunks say `a`, the later one decides the QoS, and the subscription to `/a` is gone. |
| `PersistExamples.SlotMoves` | `Kocom/mosquitto/src/persist.c:246-325` | The input: the slot of `a` holding a message of topic `b` comes back empty; the slot of `b` gets the message if it was sent as retained, and otherwise the message is freed. |
| `PersistExamples.DollarFreed` | `Kocom/mosquitto/src/persist.c:632-680` | The input: a retained message on `$x/y`, where only a clean session was subscribed, is freed while it is restored. |
| `PersistExamples.TwiceFails` | `Kocom/mosquitto/src/persist.c:632-680` | The input: one message of topic `b`, not sent as retained, in the slots of `a` and `d`: its second chunk names it when it has been freed. |
| `PersistFile.LengthIsDeclared` | `Kocom/mosquitto/src/persist.c:68-325` | The length written in front of every chunk is the length of its body. |
| `PersistFile.ChunkBack` | `Kocom/mosquitto/src/persist.c:455-725` | Each kind of chunk is read back as it was written, whatever follows. |
| `PersistFile.FileRoundTrip` | `Kocom/mosquitto/src/persist.c:727-830` | A file gives its chunks back. |
| `FileExamples.BytesOfFile` | `Kocom/mosquitto/src/persist.c:68-325` | A file with one chunk of each kind, byte by byte. |
| `PersistFile.DatabaseRoundTrip` | `Kocom/mosquitto/src/persist.c:327-406` | Written to a file and restored from it, the state comes back as above, and fails to in exactly the same cases. |
| `Database.DbFile.WriteStores` | `Kocom/mosquitto/src/persist.c:127-203` | The loop writes one chunk for each stored message. |
| `Database.DbFile.WriteMessages` | `Kocom/mosquitto/src/persist.c:68-125` | The loop writes one chunk for each queued message of a session. |
| `Database.DbFile.WriteClients` | `Kocom/mosquitto/src/persist.c:205-244` | The loop writes the lasting sessions, each with its messages. |
| `Database.DbFile.WriteNode` | `Kocom/mosquitto/src/persist.c:246-312` | The recursion writes leaves, retained message and the nodes below. |
| `Database.DbFile.WriteAll` | `Kocom/mosquitto/src/persist.c:327-406` | The bytes of the file are header and chunks of the backup. |
| `Database.ReadStore` | `Kocom/mosquitto/src/persist.c:554-630` | Reads a stored message, or refuses. |
| `Database.ReadChunk` | `Kocom/mosquitto/src/persist.c:764-815` | Reads one chunk and passes over one of an unknown type by its length. |
| `Database.RestoreFile` | `Kocom/mosquitto/src/persist.c:727-830` | Restoring chunk by chunk while reading equals restoring all chunks of the file; a bad file is refused. |

## Left out

- Sockets, TLS, name lookup, poll loops, threads, logging, statistics and the configuration files: a read or write is any part of what is asked for, and a clock is an argument that says which entries are too old.
- Bridges and mount points: a client is never a bridge, and topics are not rewritten.
- Access control: a PUBLISH is allowed or denied by an argument of the step, and a copy to a subscriber that may not read is a copy that is not made.
- Allocation failures: memory is always there.
- The pruning of queued messages by access control on reconnect, and the moving of queue and subscription pointers from an old context to a new one: a session is a value under its client id that goes on.
- The client library as receiver of QoS 2 messages: it queues duplicates, so nothing of this kind holds of it.
- The JavaScript and the other programs of the repository.
- SubHierarchy.SubHier.Subscribe: the return code for a client of version 3.1 that is subscribed already is the result `had`; the entry point turns it into success, so it shows nowhere.
- SubHierarchy.SubHier.Unsubscribe: a client is told apart by its id, not by its context; the client's list of nodes is updated by the entry point.
- SubHierarchy.SubHier.Process: a retained message and a leaf are a store id and a client id; the counting of references and the queueing are in BrokerStore.
- SubRoot.SubAdd: a node in the client's list is named by its path, not by a pointer.
- SubRoot.SubRemove: as for SubAdd.
- SubRoot.MessagesQueue: protecting the message while it is queued, and the queueing itself, are BrokerStore.MessagesQueue; PublishLaws.PublishQueues joins the two.
- SubRoot.RetainQueue: the QoS, id and queueing of the messages gathered are in OfferLaws.OfferReaches and WholeBroker.NewSubscriber.
- SessionClean.CleanAllEffect: a list entry names its node by its path.
- SubRoot.CleanSession: the node is found from the root and bare nodes are removed on the way back, instead of over parent pointers; SessionClean.CleanNodeIs shows that this is the same.
- BrokerRuns.RunAgrees: a session ends by one operation; the order of the tree's top-level nodes is kept but nothing is claimed about it.
- PublishLaws.PublishQueues: the work of the PUBLISH is the one the tree gives, which WholeBroker carries out; of the message ids of the new entries only the range is stated, and that each is the next one of its client is in CopyLaws.CopyQueues; the order of a client's filters is that of the walk through the tree.
- SendLaws.PublishedWhileAway: a PUBLISH that is taken for a message that waits is left to PublishLaws.PublishQueues, and limits to SendLaws.ReconnectSends.
- WholeBroker.LifeHolds: a topic keeps its slot when its node is pruned, and a node that is made again finds it empty.
- SessionLaws.WriteAnswers: the loop counts a waiting entry twice, so that which of them start is bounded by that count and not by the number of messages.
- BrokerStoreSteps.ReleaseIsSweep: what the tree queues meanwhile for the releasing client is any work; which work a tree gives is in PublishLaws.
- MsgStore.StoreTable.Release: the doubly linked list of stored messages is a map from ids; its order matters for persistence only and is kept there.
- ClientContext.Context.ReconnectReset: the removal of incoming entries below QoS 2 is not modelled, because BrokerStoreLaws.QueueBounds shows there are none.
- ClientContext.Context.MessageInsert: writing at once to a websocket client is not modelled.
- ClientContext.Context.QueueOwn: the tree is the list of the client's own matching subscriptions; copies to other clients are in BrokerStore.
- ClientContext.Context.MessageRelease: as for QueueOwn.
- QueueLaws.SweepTakesOne: for outgoing entries no run theorem excludes two of one id, since ids wrap around after 65535 messages.
- BrokerStoreLaws.OneCopy: the copies are counted in a log of the entries made, since entries leave the queue when they are done.
- BrokerStoreLaws.ReferencesConserved: restoring a database is not one of the operations of a run, because restored queues do not set the counters.
- ClientLib.WindowHolds: with reconnects only the bound is claimed, since the counter then includes held messages; what follows from that is in WindowLaws.HeldForGood.
- WindowLaws.KeptInOrder: retries are not among the operations of a session, so that no message is marked as a duplicate.
- Qos2Laws.ExactlyOnce: both in-flight limits are zero and message ids are not used twice in a run, since a limit makes a reconnect start waiting incoming entries as if they were outgoing.
- Qos2Laws.RunInv: the other messages of the two clients are any change of outgoing entries; their own exchange is not followed.
- PacketReader.Reader.Receive: the handler of a packet is outside the model and always accepts; a handler that refuses closes the connection.
- OutQueue.Connection.PacketWrite: the callback for a QoS 0 PUBLISH that has been written is not modelled.
- Wire.ConnectRoundTrip: the configured prefixes of client ids and the id generated for an empty one are not modelled.
- Packets.HandleConnect: as for ConnectRoundTrip; what the broker does with an accepted request is outside the model of packets.
- Packets.HandlePublish: what follows the decoding is in BrokerStore and Qos2.
- Packets.SendPublish: the sum of the lengths is not wrapped to 32 bits; callers limit payload and topic.
- UtHash.TableRefines: the hash function itself, the Bloom filter and sorting are not modelled; masking with a power of two is a remainder.
- PersistLaws.Restored: states in which a QoS 2 message that access control denied still waits are left out, since the code reads its topic through a null pointer when it saves; the time a session was disconnected is written as it is, not replaced by the present time when it is zero.
- Persist.StoresBack: a file with two stored messages of one id is not told apart by objects, only by ids; no backup is such a file.
- Database.RestoreFile: reading a freed message is a failed restore; what the program does then is not modelled.
- PersistLaws.RunConsistent: the stored messages of a backup are records of their own and not those of BrokerStore, so that what a slot points at is asked for and not taken from a run (that tree and store agree over runs is WholeBroker.LifeHolds); a retained message has a payload and a topic by the handler of PUBLISH.
