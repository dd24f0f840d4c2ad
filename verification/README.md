# ContextKit, verified

A Dafny model of ContextKit's publish/subscribe core: what each method does to its object, what every
run of the protocol keeps, and what the registry, the type system and the text formats promise.

## What is modelled

**Providers.** `Property` is one published property: setting, emitting, overhearing. `Overhearing` puts
any number of providers and clients on one bus: every signal travels to every provider and client through
its own first-in-first-out channel, actions carry a strictly increasing clock, and clients may subscribe
late. `Convergence` and `Quiescence` are the theorems about those runs; `StaleReemission`, `LostWrite` and
`UnheardWrite` show that their hypothesis is needed. `Adaptor` is the client bookkeeping of a property and
the counting group.

**Subscribers.** `Provider` is the subscriber's side of one provider with its plugin: intentions, two
batches, the three-state automaton, calls queued and in flight, and what is subscribed on D-Bus.
`Subscriptions` is a whole process of handles and providers under every interleaving. `Settling` says which
calls it has made when it comes to rest, `ObjectPaths` and `Routing` what that means on D-Bus, where calls and
signals go by object paths, and `SharedPath` what happens to two keys with one path; `SingleProvider` spells
out steps for the runs that serve as inputs. `SubscriberObjects` are the classes themselves, handles holding
provider objects that hold plugin objects, method by method against those functions. `Resolution` picks a
handle's value, `Coalescing` carries it to the user, `QueuedInvoker` defers calls.

**Trees and types.** `AssocTree` is the tree of strings and lists. `NanoXml` and `NanoXmlHandler` are the
stack machine that builds it from parser events; `TreeXml` prints it and reads it back.
`TypeRegistry` looks types up with a cache, `TypeInfo` defines what acceptance means, `TypeChecking`
proves the recursive checker and its laws, `BuiltinTypes` says for every built-in name which values it
accepts, and `OldNames` is about type names of the old style.

**Registry and durations.** `XmlRegistry` loads key declarations, and `LoadedFiles` says what given files
declare; `Cdb` is the database as an insertion-ordered multimap; `CacheDump` writes the one into the other
and answers from it. `DurationSyntax` and `Duration` print and parse durations, and `WrittenDurations` says
letter by letter which text stands for how many nanoseconds.

## Assumptions

- The plugin has been told to keep nothing when `ready` ends the initializing or failed state; a `ready` received
  while already ready is ignored and changes nothing (`libcontextsubscriber/src/provider.cpp:67-72`, `219`).
  Nothing is assumed about D-Bus: a path counts as subscribed there if the last call made to it since the
  service was last lost is Subscribe.
- Replies in flight survive `failed`: resetting a plugin leaves its pending watchers alone
  (`libcontextsubscriber/src/contextkitplugin.cpp:112-122`).
- A handle is given provider lists without duplicates. `DuplicateUnsubscribing` and `DuplicateSubscribing` say
  exactly what happens otherwise. The registry does list a provider once per declaration of a key
  (`FirstDeclarationWins`).
- That calls reach the right key assumes that no other key in use has the same object path. `SharedPaths` says
  exactly which keys share one, and `RivalsLoseSubscriptions` what then happens to any two of them.
- Slots are not re-entered, and one operation of a handle is atomic with respect to the main loop.
- Clocks are strictly increasing over the whole network, so two `setValue` calls never share a stamp.
- Convergence further needs every step to be harmless: whoever emits without a subscriber tells nobody anything
  they need to know, and no last signal is answered with a stale value. Both can be read off the state before
  the step. `HarmlessIsExact` shows that this is exact for every step, `GoodRunsAreExact` for every run,
  `MistakenIsHarmful` that the invariant behind it cannot be weaker, and `OneProviderIsGood` that it always
  holds for a single provider. `TheLastWriteCanBeLost` starts from any two constructed providers and a client,
  sets v twice, lets a newer w be overheard, and the third set of v is never heard of;
  `UnheardEmissionLosesTheLastWrite` sets two different values before anybody subscribes.
- A group is filled before any subscription, each member once.
- Type checking assumes an acyclic registry; `UngroundedNeverEnds` says exactly which names have an infinite
  chain of bases. A type whose elements have such a type makes the checker run for ever too, on values that
  are not empty.

## Where the code and its descriptions disagree

- `emitValue` clears the overheard mark even when the stamp it repeats is older than the value overheard, so
  the documented guarantee that a repeated value is heard fails exactly in the stale case
  (`RepetitionIsHeardUnlessStale`).
- The cache is dumped through introspection objects that never look up the empty key. The cache agrees with
  the registry on all keys if and only if the empty key has no type, documentation or providers
  (`AgreementIsExact`).
- The type of a key is read from a database even if the database is incompatible; everything else is not. The
  answers agree if and only if the database is compatible or holds no type for the key
  (`InfoCdbBackend.TypeInfo`, with `IncompatibleTypeShows` as an input).
- `parameterValue` finds the first parameter of a name, merging keeps the last. They agree if and only if the
  first node of the name is also its last mention, or the name does not occur (`FirstIsLast`, with
  `RepeatedBound` as an input).
- Bounds do not hold off what is not a number: all comparisons with it fail, so `number` accepts it with any
  bounds (`NotANumberIsInRange`).
- Old type names are normalised to "double" when a definition is looked up and to "number" when a declaration
  is loaded, and names inside a type are not replaced on loading at all. Under an old name a type's own check
  is skipped (`LoadedNames`, `NestedNamesStay`, `OldNameSkipsOwnCheck`, with `DoublesAreUnchecked` as an
  input).
- An Unsubscribe call is made at once while a Subscribe call is queued, so an unsubscription can overtake and
  the key stays subscribed on D-Bus. Once idle, exactly the wanted keys and those left behind this way are
  subscribed (`IdleMeansSettled`, with `LateSubscribeStays` as a run).
- Different keys can have one object path. Unsubscribing one then unsubscribes the other, and signals of both
  are passed on as the one subscribed last (`RivalsLoseSubscriptions`).
- A prefix belongs to the name of an element but not of an attribute, so a leaf with a prefixed name cannot be
  written as an attribute (`AttributeOrElement`).
- `valueChanged` is documented never to be emitted while unsubscribed. Calls already queued still run: a
  report is given if and only if there is one and the handle's value is not the last one reported
  (`ReportAfterUnsubscribe`, with `UnsubscribedYetReported` as a run).
- Durations of 2^63 ns and more can be printed but overflow signed arithmetic when parsed (`PrintThenParse`).

## Model

| member | source | states |
|---|---|---|
| Property.SetStep | libcontextprovider/src/propertyprivate.cpp:59-111 | one setValue keeps intended and emitted value equal, keeps the stamps ordered, pays for at most one emission, and either announces the new intention at once or changes nothing but its stamp |
| Property.OverhearStep | libcontextprovider/src/propertyprivate.cpp:140-160 | overhearing never changes the intention, never emits more than is owed, and for older or equal values does nothing at all |
| Property.RepetitionIsHeardUnlessStale | libcontextprovider/src/propertyprivate.cpp:69-111 | after overhearing a newer different value, the provider is sure to be heard when it repeats its own value, if and only if it was not caught with an unemitted intention older than that |
| Property.PropertyPrivate.SetValue | libcontextprovider/src/propertyprivate.cpp:59-84 | new state and signals are those of the specification, from every consistent state |
| Property.PropertyPrivate.EmitValue | libcontextprovider/src/propertyprivate.cpp:86-111 | emits once, only if something changed and only while subscribed |
| Property.PropertyPrivate.UpdateOverheardValue | libcontextprovider/src/propertyprivate.cpp:140-160 | reacts exactly to newer and different values |
| Property.PropertyPrivate.SetSubscribed | libcontextprovider/src/propertyprivate.cpp:116-123 | the first-subscriber notice is given on a change only |
| Property.PropertyPrivate.SetUnsubscribed | libcontextprovider/src/propertyprivate.cpp:127-133 | the last-subscriber notice is given on a change only |
| Overhearing.EveryRunIsSound | libcontextprovider/src/propertyprivate.cpp:45-160 | over every run of any number of providers: values agree, stamps are ordered and never shared, an overheard mark means nothing is owed, channels never hold a signal newer than its sender's last emission |
| Overhearing.EmissionsNeverExceedSets | libcontextprovider/src/propertyprivate.cpp:59-160 | in every run each provider has emitted at most as often as it was set |
| Overhearing.OwnSignalsChangeNothing | libcontextprovider/src/propertyprivate.cpp:140-160 | a signal that comes back to its sender changes nothing, in every reachable state |
| Quiescence.EveryNetworkDrains | libcontextprovider/src/propertyprivate.cpp:86-160 | from every sound state there is a run of deliveries after which nothing is in transit |
| Quiescence.ChatterEnds | libcontextprovider/src/propertyprivate.cpp:86-160 | without further sets, every order of deliveries ends within a bound fixed at the start, with at most one more emission per provider |
| Convergence.HarmlessIsExact | libcontextprovider/src/propertyprivate.cpp:59-160 | every step of a converging network, be it a set, a delivery, a subscription or a departure, leaves it converging if and only if it is harmless |
| Convergence.GoodRunConverges | libcontextprovider/src/propertyprivate.cpp:59-160 | in every run of harmless steps no provider can be mistaken about another's last emission, and each client knows or will learn what its providers emitted |
| Convergence.GoodRunsAreExact | libcontextprovider/src/propertyprivate.cpp:59-160 | a run converges all along if and only if all its steps are harmless |
| Convergence.OneProviderIsGood | libcontextprovider/src/propertyprivate.cpp:59-160 | every run of a single provider is harmless, also if it sets values before anybody subscribes |
| Convergence.MistakenIsHarmful | libcontextprovider/src/propertyprivate.cpp:59-84 | if a provider can be mistaken when everything is delivered, it can repeat its value unheard and be ranked behind an older write |
| Convergence.OthersAreOlder | libcontextsubscriber/src/propertyhandle.cpp:248-287 | in a drained network a differing value with an older intention is cached with an older stamp |
| Convergence.LastWriterWins | libcontextsubscriber/src/propertyhandle.cpp:248-287 | once all channels drain, every client resolves, over the providers it is subscribed to, to the value of the one with the greatest intention stamp among those with a non-null value, and to null if there is none |
| Convergence.SetIsExact | libcontextprovider/src/propertyprivate.cpp:59-111 | setting a value keeps the network converging if and only if it is heard, or everybody else has no value, the same one, a later emission, or has overheard another |
| Convergence.HearingIsExact | libcontextprovider/src/propertyprivate.cpp:86-160 | every delivery to a provider keeps the network converging if and only if it does not give a stale answer to a last signal, nor an answer that somebody needed and cannot hear |
| StaleReemission.StaleReemissionLosesTheLastWrite | libcontextprovider/src/propertyprivate.cpp:69-98 | after the five-step story in a drained network, however deliveries are ordered, clients settle on the older write |
| LostWrite.StoryHappens | libcontextprovider/src/propertyprivate.cpp:69-98 | the story can be told from every drained state with everybody subscribed |
| LostWrite.EverybodyJoins | libcontextprovider/src/propertyadaptor.cpp:64-88 | from all constructed networks with a client there is a good run that subscribes every client to every provider and drains |
| LostWrite.TheLastWriteCanBeLost | libcontextprovider/src/propertyprivate.cpp:45-160 | every constructed network with two providers and a client has a drained run in which one provider wrote last and all clients resolve to the other's value |
| UnheardWrite.UnheardEmissionLosesTheLastWrite | libcontextprovider/src/propertyprivate.cpp:59-111 | a run whose only harmful step sets a second value before its provider has a subscriber, and which settles on the older write |
| Adaptor.StepIsCoherent | libcontextprovider/src/propertyadaptor.cpp:64-166 | each of Subscribe, Unsubscribe, client exit and service stop leaves the property subscribed exactly while it has clients, watches exactly those, and gives a notice exactly on a change |
| Adaptor.EveryGroupRunIsCoherent | libcontextprovider/src/group.cpp:82-123 | over every run the group counts its subscribed members, and first and last notices strictly alternate for members and group |
| Adaptor.ClientsAreThoseWhoStay | libcontextprovider/src/propertyadaptor.cpp:64-166 | in every run the clients of a property are those that have subscribed and not unsubscribed, exited or lost the service since |
| Adaptor.SubscribedPositive | libcontextprovider/src/group.cpp:120-123 | the counter is positive if and only if some member is subscribed |
| Adaptor.PropertyAdaptor.Subscribe | libcontextprovider/src/propertyadaptor.cpp:64-88 | the client becomes one of the clients, the first one subscribes the property; the reply holds the current value, nothing if it is null, with its stamp |
| Adaptor.PropertyAdaptor.Unsubscribe | libcontextprovider/src/propertyadaptor.cpp:92-110 | the client and no other is dropped, the last one unsubscribes the property |
| Adaptor.PropertyAdaptor.OnClientExited | libcontextprovider/src/propertyadaptor.cpp:131-139 | an exit is an unsubscription that also stops watching |
| Adaptor.PropertyAdaptor.ForgetClients | libcontextprovider/src/propertyadaptor.cpp:160-166 | all clients and their watches are dropped and the property unsubscribed |
| Adaptor.Group.OnFirstSubscriberAppeared | libcontextprovider/src/group.cpp:100-106 | counts a member in; only the first one is announced |
| Adaptor.Group.OnLastSubscriberDisappeared | libcontextprovider/src/group.cpp:110-116 | counts a member out; only the last one is announced |
| Adaptor.Group.IsSubscribedTo | libcontextprovider/src/group.cpp:120-123 | true exactly while some member is subscribed |
| Provider.FlushIsSound | libcontextsubscriber/src/provider.cpp:341-369 | flushing keeps the batches equal to the difference between intention and wire |
| Provider.EventLoopIsSound | libcontextsubscriber/src/contextkitplugin.cpp:238-285 | queued calls and replies keep every pending key backed by a queued call or an outstanding watcher |
| Provider.FlushForgetsNothing | libcontextsubscriber/src/provider.cpp:341-369 | a scheduled or in-flight key is finished, still scheduled, or in flight after a flush |
| Provider.BatchIsSound | libcontextsubscriber/src/provider.cpp:293-337 | alternating requests leave the batches equal to the difference between the intention and what the plugin was told, and the intention equal to applying them one by one |
| Provider.BatchingIsExact | libcontextsubscriber/src/provider.cpp:293-369 | one flush leaves the plugin told to keep what immediate requests would have told it, asks it for the net changes only, and leaves nothing to do |
| Provider.FailureIsRepaired | libcontextsubscriber/src/provider.cpp:214-253 | after any failure and the next ready, the plugin has been told to keep the intention, whatever was requested in between |
| Provider.DuplicateUnsubscribing | libcontextsubscriber/src/provider.cpp:319-337 | unsubscribing n times keeps exact batches if and only if n is at most one, the key is already on the wire, or the plugin has failed; otherwise, once ready, the next subscription is lost |
| Provider.DuplicateSubscribing | libcontextsubscriber/src/provider.cpp:293-315 | subscribing n times keeps exact batches if and only if n is at most one, the key was not about to be unsubscribed, or the plugin has failed; otherwise, once ready, the handle waits and the flush makes a call for a key that stays on the wire |
| Subscriptions.EveryRunKeepsInvariant | libcontextsubscriber/src/propertyhandle.cpp:148-217 | in every interleaving a provider is asked for a key exactly if a subscribed handle of that key lists it, and pending providers are listed and justified |
| Subscriptions.HandlesCount | libcontextsubscriber/src/propertyhandle.cpp:191-217 | in every run the count of a handle is the number of its subscriptions less that of its unsubscriptions, and its list the one given last |
| Subscriptions.AskedByBalance | libcontextsubscriber/src/propertyhandle.cpp:191-217 | in every run a provider is asked for a key if and only if the key was subscribed more often than unsubscribed and the provider is on the list given last |
| Subscriptions.WaitingIsExact | libcontextsubscriber/src/propertyhandle.cpp:148-217 | in every run a handle waits for a provider if and only if it subscribed to it, without just taking back a scheduled unsubscription, and neither a reply, a failure, an unsubscription nor a change of providers has ended that since |
| Subscriptions.NoLostWakeup | libcontextsubscriber/src/provider.cpp:212-369 | whoever is pending is scheduled or in flight, and whenever something is scheduled outside initializing a flush is queued or about to run |
| Settling.ToldIsOnItsWay | libcontextsubscriber/src/contextkitplugin.cpp:220-256 | in every run a key the plugin was told to keep is subscribed on D-Bus or its call is queued |
| Settling.ExtraIsLeftBehind | libcontextsubscriber/src/contextkitplugin.cpp:238-309 | in every run the keys on the bus or on their way there that nobody told the plugin to keep are exactly those dropped while their call was queued and not settled since |
| Settling.IdleMeansCalled | libcontextsubscriber/src/contextkitplugin.cpp:220-309 | once the main loop is idle no handle waits, ready plugins have been told exactly the wanted keys, and the last call for a key was Subscribe exactly for those and the keys left behind |
| Settling.LateSubscribeStays | libcontextsubscriber/src/contextkitplugin.cpp:238-305 | a run of one handle and one provider that ends idle and ready with a key subscribed on D-Bus that nobody wants |
| ObjectPaths.SharedPaths | libcontextsubscriber/src/contextkitplugin.cpp:74-80 | two keys have one path if and only if they are equal, neither starts with a slash and they differ only between characters a path cannot tell apart, or one is absolute and spells out the other |
| ObjectPaths.PathOfKey | libcontextsubscriber/src/contextkitplugin.cpp:74-80 | a key without a leading slash is put below the prefix, with dots as slashes and all but letters, digits and slashes as underscores; others are paths already |
| Routing.PathsAreExact | libcontextsubscriber/src/contextkitplugin.cpp:238-309 | in every run, whatever keys share paths, a path is subscribed if and only if a call for some key with it was made and no key with it has been unsubscribed, nor the service lost, since |
| Routing.KeysOwnTheirPaths | libcontextsubscriber/src/contextkitplugin.cpp:238-382 | in every run, a key whose path no other subscribed key has is subscribed exactly if its path is, and then every signal from that path is passed on as that key |
| Routing.IdleMeansSettled | libcontextsubscriber/src/contextkitplugin.cpp:220-309 | once the main loop is idle no handle waits, and the path of a key with a path of its own is subscribed on D-Bus exactly if the key is wanted or left behind, with signals reaching it |
| SharedPath.RivalsLoseSubscriptions | libcontextsubscriber/src/contextkitplugin.cpp:238-305 | for every two keys with one path a run that passes signals of the first on as the second, and ends idle with the first wanted but its path not subscribed |
| SharedPath.RivalsExist | libcontextsubscriber/src/contextkitplugin.cpp:74-80 | two pairs of keys with one path |
| Subscriptions.SubscribeAllEffect | libcontextsubscriber/src/propertyhandle.cpp:191-203 | the loop subscribes each listed provider once and waits for exactly those that say so |
| SubscriberObjects.ContextKitPlugin.Subscribe | libcontextsubscriber/src/contextkitplugin.cpp:220-236 | every key becomes pending with one queued call |
| SubscriberObjects.ContextKitPlugin.NewSubscribe | libcontextsubscriber/src/contextkitplugin.cpp:238-285 | a queued call for a key that is no longer pending does nothing; otherwise its path is subscribed on D-Bus and mapped to the key, and one watcher takes over |
| SubscriberObjects.ContextKitPlugin.Unsubscribe | libcontextsubscriber/src/contextkitplugin.cpp:289-307 | the loop unsubscribes the keys' paths on D-Bus at once and forgets which keys they stand for; queued calls stay queued |
| SubscriberObjects.ContextKitPlugin.OnNewValueChanged | libcontextsubscriber/src/contextkitplugin.cpp:371-382 | a signal is passed on as the key recorded for its path, if any |
| SubscriberObjects.ContextKitPlugin.OnFinished | libcontextsubscriber/src/contextkitplugin.cpp:404-431 | a reply ends one watcher |
| SubscriberObjects.Provider.Subscribe | libcontextsubscriber/src/provider.cpp:293-315 | cancels a scheduled unsubscription or schedules, and asks to wait exactly in the second case |
| SubscriberObjects.Provider.Unsubscribe | libcontextsubscriber/src/provider.cpp:319-337 | cancels a scheduled subscription or schedules the opposite |
| SubscriberObjects.Provider.HandleSubscribes | libcontextsubscriber/src/provider.cpp:341-369 | ready: tell the plugin; failed: finish everything; initializing: wait |
| SubscriberObjects.Provider.OnPluginReady | libcontextsubscriber/src/provider.cpp:214-231 | schedules the whole intention, unless already ready |
| SubscriberObjects.Provider.OnPluginFailed | libcontextsubscriber/src/provider.cpp:242-253 | finishes what was scheduled and waits for the next ready |
| SubscriberObjects.Provider.OnPluginValueChanged | libcontextsubscriber/src/provider.cpp:373-387 | only values of subscribed keys are kept and announced |
| SubscriberObjects.PropertyHandle.SubscribeTo | libcontextsubscriber/src/propertyhandle.cpp:191-203 | the loop calls subscribe on the listed provider objects and collects those to wait for; other providers and all cached values stay |
| SubscriberObjects.PropertyHandle.UnsubscribeFrom | libcontextsubscriber/src/propertyhandle.cpp:208-217 | the loop calls unsubscribe on the listed provider objects and touches nothing else |
| SubscriberObjects.PropertyHandle.Subscribe | libcontextsubscriber/src/propertyhandle.cpp:191-206 | every subscription is counted, and only the first one reaches the providers |
| SubscriberObjects.PropertyHandle.Unsubscribe | libcontextsubscriber/src/propertyhandle.cpp:208-217 | every unsubscription is counted, only the last one reaches the providers, and then nobody stays pending |
| SubscriberObjects.PropertyHandle.UpdateProvider | libcontextsubscriber/src/propertyhandle.cpp:148-182 | a subscribed handle moves from the old providers to the new ones; the commander replaces the registry; if nobody is pending the handle takes the newest value its new providers have cached |
| SubscriberObjects.PropertyHandle.SetSubscribeFinished | libcontextsubscriber/src/propertyhandle.cpp:184-188 | the provider is no longer waited for |
| SubscriberObjects.PropertyHandle.OnValueChanged | libcontextsubscriber/src/propertyhandle.cpp:248-287 | the handle takes the value that, among those its providers have cached for its key, is newer than every different one, if it passes the type check, and null if there is none; it announces changes only |
| Resolution.PickLatest | libcontextsubscriber/src/propertyhandle.cpp:250-276 | the loop returns the non-null value with the greatest stamp, the first of several equal ones |
| Resolution.OrderIsIrrelevant | libcontextsubscriber/src/timedvalue.h:45-48 | with distinct stamps the result does not depend on the order of providers |
| Resolution.NewestWins | libcontextsubscriber/src/propertyhandle.cpp:250-276 | a non-null value newer than every different one is the result |
| Coalescing.DrainedMeansCurrent | libcontextsubscriber/src/contextproperty.cpp:243-285 | over every run a property holds one subscription exactly while subscribed, never reports the same value twice in a row, and once its queue drains after a change holds the handle's value |
| Coalescing.ReportAfterUnsubscribe | libcontextsubscriber/src/contextproperty.cpp:243-285 | calls queued before an unsubscription still run, and report exactly if there is one and the handle's value differs from the last report |
| Coalescing.UnsubscribedYetReported | libcontextsubscriber/src/contextproperty.cpp:277-285 | a run that reports a value while unsubscribed |
| Coalescing.ContextProperty.Subscribe | libcontextsubscriber/src/contextproperty.cpp:258-271 | a second subscription changes nothing |
| Coalescing.ContextProperty.Unsubscribe | libcontextsubscriber/src/contextproperty.cpp:277-285 | a second unsubscription changes nothing |
| Coalescing.ContextProperty.OnValueChanged | libcontextsubscriber/src/contextproperty.cpp:243-253 | takes the handle's value and reports it only if it differs |
| QueuedInvoker.AtMostOneOutstanding | libcontextsubscriber/src/queuedinvoker.cpp:53-75 | under every interleaving the queued signals are exactly the call queue, each method once |
| QueuedInvoker.NoCallIsLost | libcontextsubscriber/src/queuedinvoker.cpp:53-75 | every queueOnce is followed by an invocation that starts after it, or the call is still outstanding |
| QueuedInvoker.Invoker.QueueOnce | libcontextsubscriber/src/queuedinvoker.cpp:68-75 | posts a signal only if none is outstanding |
| QueuedInvoker.Invoker.OnQueuedCall | libcontextsubscriber/src/queuedinvoker.cpp:53-64 | leaves the queue before the call is made |
| AssocTree.FirstNamed | libcontextsubscriber/src/assoctree.cpp:88-104 | the first sub-tree that is a list starting with the name, null if there is none |
| AssocTree.FindNode | libcontextsubscriber/src/assoctree.cpp:88-104 | the loop finds that sub-tree |
| AssocTree.FilterNodes | libcontextsubscriber/src/assoctree.cpp:195-214 | the loop keeps the name and every sub-tree of another name, in order |
| AssocTree.ReplaceThenLookUp | libcontextsubscriber/src/assoctree.cpp:195-214 | after filtering out a name and appending a node of it, that name finds the new node and every other name what it found before |
| AssocTree.PartsOfTrees | libcontextsubscriber/src/assoctree.cpp:75-86 | what name, nodes and value are of a list, of a string and of a missing tree |
| AssocTree.ValueIsBehindName | libcontextsubscriber/src/assoctree.cpp:138-153 | the value of a name is the element behind it in the first node of that name |
| NanoXml.ElementRuns | libcontextsubscriber/src/nanoxml.cpp:97-173 | the events of an element push one list, fill it with the element's meaning and pop it |
| NanoXml.ContentEffect | libcontextsubscriber/src/nanoxml.cpp:97-173 | the events of well-nested content append its meaning and leave the stack alone |
| NanoXml.DocumentParses | libcontextsubscriber/src/nanoxml.cpp:97-173 | every well-nested document ends with an empty stack and the tree it means |
| NanoXml.WrittenOut | libcontextsubscriber/src/nanoxml.cpp:97-173 | a document with an attribute, blank text and a leaf, event by event, and the tree it leaves |
| NanoXml.AttributeOrElement | libcontextsubscriber/src/nanoxml.cpp:142-173 | a leaf written as last attribute or as first child element gives the same tree if and only if its value is trimmed and not empty and its name has no prefix |
| NanoXmlHandler.NanoXml.StartElement | libcontextsubscriber/src/nanoxml.cpp:142-155 | the callback takes the step of the machine |
| NanoXmlHandler.NanoXml.Parse | libcontextsubscriber/src/nanoxml.cpp:81-173 | feeding the events of a document leaves its tree as the result |
| TreeXml.DumpXml | libcontextsubscriber/src/assoctree.cpp:50-72 | the loops print the text of the recursive definition at every level of indentation |
| TreeXml.ElementLeads | libcontextsubscriber/src/assoctree.cpp:50-72 | reading the print of a tree, between any text before and after it, adds exactly that tree to the list being built |
| TreeXml.RoundTrip | libcontextsubscriber/src/assoctree.cpp:50-72 | every tree with ASCII XML names, trimmed non-empty markup-free strings and no adjacent strings is rebuilt from its print, at every level |
| TreeXml.PrintedOut | libcontextsubscriber/src/assoctree.cpp:50-72 | the print of an empty node and of leaves at two levels, character by character |
| TypeRegistry.CacheIsCoherent | libcontextsubscriber/src/contexttyperegistryinfo.cpp:98-126 | after any sequence of lookups the next answer is that of a fresh linear scan for the normalised name |
| TypeRegistry.DefinitionIs | libcontextsubscriber/src/contexttyperegistryinfo.cpp:98-126 | a type is defined by the first node called type that gives its name, if there is one |
| TypeRegistry.OldNamesAre | libcontextsubscriber/src/contexttyperegistryinfo.cpp:98-126 | under which new name each old one is looked up |
| TypeRegistry.ContextTypeRegistryInfo.TypeDefinitionForName | libcontextsubscriber/src/contexttyperegistryinfo.cpp:98-126 | the scan with its cache returns the definition and keeps the cache correct |
| TypeInfo.HeightIsUnique | libcontextsubscriber/src/contexttypeinfo.cpp:300-309 | the length of a type's base chain is well defined |
| TypeInfo.BaseIsLower | libcontextsubscriber/src/contexttypeinfo.cpp:99-114 | in an acyclic registry the merged base type has a shorter chain, whatever its parameters |
| OldNames.LoadedNames | libcontextsubscriber/src/contexttypeinfo.cpp:78-95 | loading replaces exactly the old names and agrees with the look-up on all but DOUBLE |
| OldNames.NestedNamesStay | libcontextsubscriber/src/contexttypeinfo.cpp:78-95 | the type in a parameter keeps its written name, so an old one reaches the look-up exactly if the type around it is not old |
| OldNames.OldNameSkipsOwnCheck | libcontextsubscriber/src/contexttypeinfo.cpp:114-245 | a type under its old name accepts what it accepts under the normalised one, except that its own check is skipped |
| OldNames.UndefinedAccepts | libcontextsubscriber/src/contexttypeinfo.cpp:99-245 | an old name under whose normalised form nothing is defined accepts every value |
| OldNames.DoublesAreUnchecked | libcontextsubscriber/src/contexttyperegistryinfo.cpp:98-126 | in every acyclic registry without a type "double", a DOUBLE inside a type accepts everything and a list of DOUBLE every list, while a list of number checks its elements |
| TypeChecking.FirstIsLast | libcontextsubscriber/src/assoctree.cpp:88-104 | looking a name up from the front and from the back agree if and only if the first node of the name is its last mention or the name does not occur |
| TypeChecking.RepeatedBound | libcontextsubscriber/src/contexttypeinfo.cpp:103-112 | of two bounds of one name the type itself finds the first, its bases the second |
| TypeChecking.UngroundedNeverEnds | libcontextsubscriber/src/contexttypeinfo.cpp:99-114 | the chain of merged bases is infinite exactly for names that never reach a type without base |
| TypeChecking.AncestorsAccept | libcontextsubscriber/src/contexttypeinfo.cpp:99-114 | a value accepted by a type is accepted by every merged ancestor |
| TypeChecking.AcceptsMeansFitsAll | libcontextsubscriber/src/contexttypeinfo.cpp:99-245 | acceptance means satisfying every merged ancestor's built-in meaning, and nothing else |
| TypeChecking.MergingIsOverride | libcontextsubscriber/src/contexttypeinfo.cpp:103-112 | a name in the merged base finds the last instance parameter of that name, else the base's default |
| TypeChecking.ParameterReachesAncestors | libcontextsubscriber/src/contexttypeinfo.cpp:103-112 | an instance parameter is what every merged ancestor finds under its name |
| TypeChecking.BoundsAreEnforced | libcontextsubscriber/src/contexttypeinfo.cpp:128-146 | a single min or max on an instance bounds every accepted value, however long the chain down to number, unless the value or the bound is not a number |
| TypeChecking.NotANumberIsInRange | libcontextsubscriber/src/contexttypeinfo.cpp:128-146 | what is not a number passes number with any bounds |
| TypeChecking.LengthsAreEnforced | libcontextsubscriber/src/contexttypeinfo.cpp:163-180 | a single min or max on an instance bounds the length of every accepted list, however long the chain down to list |
| TypeChecking.HasBaseSearchesChain | libcontextsubscriber/src/contexttypeinfo.cpp:247-273 | hasBase and getBase find the wanted name exactly if it occurs in the chain within the depth |
| TypeChecking.MergeParameters | libcontextsubscriber/src/contexttypeinfo.cpp:103-112 | the loop builds the merged base type |
| TypeChecking.CheckEntries | libcontextsubscriber/src/contexttypeinfo.cpp:197-218 | the loop accepts exactly if every described entry is accepted and undescribed ones are allowed |
| TypeChecking.TypeCheck | libcontextsubscriber/src/contexttypeinfo.cpp:99-245 | the recursive checker terminates on every value and type of an acyclic registry and decides acceptance |
| BuiltinTypes.BoolType | libcontextsubscriber/src/contexttypeinfo.cpp:123-128 | a bool accepts exactly the booleans its base accepts, and whatever has bool among its bases accepts booleans only |
| BuiltinTypes.NumberType | libcontextsubscriber/src/contexttypeinfo.cpp:129-146 | the same for number and what converts to a number within the bounds |
| BuiltinTypes.NumbersBetween | libcontextsubscriber/src/contexttypeinfo.cpp:129-146 | a finite number passes finite bounds if and only if it lies between them |
| BuiltinTypes.IntegerType | libcontextsubscriber/src/contexttypeinfo.cpp:147-155 | the same for integer and the four kinds of integers |
| BuiltinTypes.StringType | libcontextsubscriber/src/contexttypeinfo.cpp:156-161 | the same for string and strings |
| BuiltinTypes.ListType | libcontextsubscriber/src/contexttypeinfo.cpp:162-187 | the same for list and lists of a length within the bounds whose elements are of the element type, if there is one |
| BuiltinTypes.MapType | libcontextsubscriber/src/contexttypeinfo.cpp:188-224 | the same for map and maps: unless nothing is described, every entry is of the type in the last description of its key, and entries without one need allow-other-keys |
| BuiltinTypes.StringEnumType | libcontextsubscriber/src/contexttypeinfo.cpp:225-234 | the same for string-enum and values whose text is the name of a parameter |
| BuiltinTypes.IntEnumType | libcontextsubscriber/src/contexttypeinfo.cpp:235-244 | the same for int-enum and values whose number is the value of a parameter |
| BuiltinTypes.OtherType | libcontextsubscriber/src/contexttypeinfo.cpp:99-122 | a type of any other name accepts exactly what its base accepts |
| BuiltinTypes.DerivedRange | libcontextsubscriber/src/contexttypeinfo.cpp:99-146 | a type derived from number with two bounds accepts the numbers between them, and an instance that gives one bound those between that and the inherited one |
| XmlRegistry.FirstDeclarationWins | libcontextsubscriber/src/infoxmlbackend.cpp:250-305 | a key's data are those of its first declaration, its providers those of all declarations in order, and only declared keys have any |
| LoadedFiles.FilesAddUp | libcontextsubscriber/src/infoxmlbackend.cpp:203-247 | of files read one after the other the earlier ones decide about the data of a key, and the providers of all are listed in order |
| LoadedFiles.ProvidersTogether | libcontextsubscriber/src/infoxmlbackend.cpp:336-343 | several providers below a root of another name count like the files that hold one each |
| LoadedFiles.OthersAreIgnored | libcontextsubscriber/src/infoxmlbackend.cpp:313-325 | a file that cannot be parsed or has another version declares nothing |
| LoadedFiles.KeyOfProvider | libcontextsubscriber/src/infoxmlbackend.cpp:250-335 | a key of a file of one provider has the name, type, text and deprecation of its first declaration, and the plugin of the file or its old-style bus and service as provider |
| LoadedFiles.OnlyDeclaredKeys | libcontextsubscriber/src/infoxmlbackend.cpp:327-335 | no other keys are declared by such a file |
| LoadedFiles.OldStyleProvider | libcontextsubscriber/src/infoxmlbackend.cpp:279-289 | a written-out file with a bus and a service: the answers about its key and all others, and the construction string bus:service, also one level below another root |
| LoadedFiles.PluginProvider | libcontextsubscriber/src/infoxmlbackend.cpp:250-278 | the same for a file with a plugin and a construction string |
| LoadedFiles.CoreProperty | libcontextsubscriber/src/infoxmlbackend.cpp:287-294 | the same for declarations without a provider |
| XmlRegistry.InfoXmlBackend.ParseKey | libcontextsubscriber/src/infoxmlbackend.cpp:250-305 | one declaration is added to the two tables |
| XmlRegistry.InfoXmlBackend.ReadKeyDataFromXml | libcontextsubscriber/src/infoxmlbackend.cpp:309-344 | a file adds the declarations of its single provider or of all its providers, or nothing if it is unreadable or of another version |
| XmlRegistry.InfoXmlBackend.RegenerateKeyDataList | libcontextsubscriber/src/infoxmlbackend.cpp:203-247 | the tables hold exactly the declarations of the core file and then of the directory, which alone is counted |
| Cdb.Values | libcontextsubscriber/src/cdbreader.cpp:102-131 | a lookup finds nothing exactly if no entry has the key |
| Cdb.PutThenFind | libcontextsubscriber/src/cdbwriter.cpp:90-112 | adding appends a value, inserting keeps what is there, replacing leaves one value, and other keys keep theirs |
| Cdb.CDBWriter.Add | libcontextsubscriber/src/cdbwriter.cpp:90-93 | one more value for the key, none while closed |
| Cdb.CDBWriter.Insert | libcontextsubscriber/src/cdbwriter.cpp:99-102 | a value only for a key without one |
| Cdb.CDBWriter.Replace | libcontextsubscriber/src/cdbwriter.cpp:109-112 | the only value for the key |
| Cdb.CDBWriter.Close | libcontextsubscriber/src/cdbwriter.cpp:115-127 | nothing is written any more and the descriptor is given up |
| Cdb.CDBReader.Reopen | libcontextsubscriber/src/cdbreader.cpp:82-98 | a file can be open without being a database; lookups then find nothing |
| Cdb.CDBReader.ValuesForKey | libcontextsubscriber/src/cdbreader.cpp:102-131 | the cursor loop returns all values of the key in order |
| Cdb.CDBReader.ValueForKey | libcontextsubscriber/src/cdbreader.cpp:136-141 | the first value, or nothing |
| CacheDump.NamesNeverCollide | libcontextsubscriber/update-contextkit-providers/update-contextkit-providers.cpp:132-161 | no two records of the cache share a name, whatever the keys are called |
| CacheDump.DumpRecords | libcontextsubscriber/update-contextkit-providers/update-contextkit-providers.cpp:132-161 | the dump holds one record of each kind for each key, the version and the list, and nothing else under these names |
| CacheDump.DumpWrittenOut | libcontextsubscriber/update-contextkit-providers/update-contextkit-providers.cpp:132-161 | the names and contents of all records of the dump |
| CacheDump.DumpRegistry | libcontextsubscriber/update-contextkit-providers/update-contextkit-providers.cpp:132-161 | the loop writes the dump and closes the writer |
| CacheDump.DumpProviders | libcontextsubscriber/update-contextkit-providers/update-contextkit-providers.cpp:150-158 | the provider hashes read back as the providers |
| CacheDump.CacheAnswersLikeRegistry | libcontextsubscriber/src/infocdbbackend.cpp:79-111 | the cache is compatible, lists the same keys, and gives the registry's answers for every non-empty key, declared or not |
| CacheDump.AgreementIsExact | libcontextsubscriber/src/contextpropertyinfo.cpp:201-216 | cache and registry agree on all keys if and only if the empty key has no type, documentation or providers |
| CacheDump.CacheHoldsDeclarations | libcontextsubscriber/src/infoxmlbackend.cpp:250-344 | through load, dump and lookup every non-empty key keeps its first declaration's data and all its providers |
| CacheDump.IncompatibleTypeShows | libcontextsubscriber/src/infocdbbackend.cpp:222-225 | an incompatible database of one key from which the type is still read |
| CacheDump.SupportedVersions | libcontextsubscriber/src/infocdbbackend.cpp:145-157 | a database without a version may be used, and one with a version exactly if that is empty or the supported one |
| CacheDump.InfoCdbBackend.CheckCompatibility | libcontextsubscriber/src/infocdbbackend.cpp:145-157 | a database counts if it is open and its version is missing or ours |
| CacheDump.InfoCdbBackend.OnDatabaseDirectoryChanged | libcontextsubscriber/src/infocdbbackend.cpp:163-205 | a new inode reopens the database; a stale compatibility flag is never seen in an answer |
| CacheDump.InfoCdbBackend.Keys | libcontextsubscriber/src/infocdbbackend.cpp:79-85 | the listed keys, none from a closed or incompatible database |
| CacheDump.InfoCdbBackend.Doc | libcontextsubscriber/src/infocdbbackend.cpp:87-93 | the documentation, empty from a closed or incompatible database |
| CacheDump.InfoCdbBackend.Declared | libcontextsubscriber/src/infocdbbackend.cpp:95-103 | whether the key is listed |
| CacheDump.InfoCdbBackend.Deprecated | libcontextsubscriber/src/infocdbbackend.cpp:105-111 | the deprecation flag, false from a closed or incompatible database |
| CacheDump.InfoCdbBackend.Providers | libcontextsubscriber/src/infocdbbackend.cpp:207-220 | the providers in order, none from a closed or incompatible database |
| CacheDump.InfoCdbBackend.TypeInfo | libcontextsubscriber/src/infocdbbackend.cpp:222-225 | the stored type whatever the version, which is the answer of the usable database if and only if the database is compatible or the stored type is null |
| DurationSyntax.SimplifiedTwice | libcontextsubscriber/src/duration.cpp:189 | simplifying white space is idempotent |
| DurationSyntax.DecimalRoundTrip | libcontextsubscriber/src/duration.cpp:155-190 | a printed number is read back |
| DurationSyntax.RecogniserIsExact | libcontextsubscriber/src/duration.cpp:88-94 | the greedy recogniser matches exactly what the pattern matches, and its captures are the pattern's only ones |
| DurationSyntax.WrittenThenScanned | libcontextsubscriber/src/duration.cpp:155-190 | any written list of counts, its letters in either case, is recognised with the same counts |
| Duration.FieldsAddUp | libcontextsubscriber/src/duration.cpp:71-83 | the fields stay within their units and are worth the whole seconds of the duration |
| Duration.DurationsMatch | libcontextsubscriber/src/duration.cpp:199-204 | a text is a duration if and only if it is not blank and matches the pattern |
| Duration.PrintThenParse | libcontextsubscriber/src/duration.cpp:86-106 | for every 64-bit duration, parsing its print gives its whole seconds, and overflows exactly if those need more than 63 bits |
| Duration.PrintIsInjective | libcontextsubscriber/src/duration.cpp:155-190 | two durations print alike if and only if they have the same whole seconds |
| Duration.NormalForm | libcontextsubscriber/src/duration.cpp:86-190 | whatever parses is whole seconds below 2^63 ns, and its print parses to the same duration |
| WrittenDurations.CountsAreRead | libcontextsubscriber/src/duration.cpp:86-106 | up to six counts with the letters Y W D H M S in either case are parsed to their sum in years of 365 days, weeks, days, hours, minutes and seconds; counts of more than 63 bits are read as zero |
| WrittenDurations.OneCountIsRead | libcontextsubscriber/src/duration.cpp:86-106 | what a number with each of the twelve letters stands for |
| WrittenDurations.DurationsAreInAlphabet | libcontextsubscriber/src/duration.cpp:199-204 | a duration has no characters but digits, white space and the twelve letters |
| WrittenDurations.DecimalDigits | libcontextsubscriber/src/duration.cpp:155-190 | numbers are written with their most significant digit first |
| WrittenDurations.PartsArePrinted | libcontextsubscriber/src/duration.cpp:71-190 | every duration given by years, weeks, days, hours, minutes and seconds within their ranges prints as its parts that are not zero with their letters, and less than a second as 0S |
| Duration.Duration.FromNanoSecs | libcontextsubscriber/src/duration.cpp:71-83 | the fields and the rest below a second add up to the duration |
| Duration.Duration.FromText | libcontextsubscriber/src/duration.cpp:86-106 | the duration the text stands for; zero for other texts |
| Duration.Duration.ToString | libcontextsubscriber/src/duration.cpp:155-190 | the appended buffer, simplified, is the joined list of non-zero counts, or 0S |

## Left out

- D-Bus transport, name watching and the old Manager/Subscriber protocol: only the events they deliver are modelled.
- Blocking waits (blockUntilReady, blockUntilSubscribed, event-loop spinning): they depend on event delivery outside this code.
- Plugin loading, environment variables, directories, file watching, temporary files and renames: I/O; file contents and inodes are parameters.
- The bytes of a cdb file and of serialised variants: the database is a multimap with an identity codec.
- XML beyond attribute-free elements and text in `TreeXml.Scan`, and entities: the XML parser itself is not part of this model; `NanoXml` starts from its events, and `Scan` stands for the parser only on names and characters that XML allows.
- The regular-expression engine and non-ASCII digits: durations use a recogniser proved equal to the pattern over ASCII.
- Variant conversions and floating point: conversions are functions of the environment, numbers are reals with infinities and what is not a number but without rounding, and values are compared by plain equality, also where the code compares null flags and types separately.
- QTime: the time of day is a number of milliseconds.
- Duration.Duration.FromText: promises nothing when the signed sum overflows, because the result is then undefined; fields after a text that is no duration are unset, as in the code.
- SubscriberObjects.PropertyHandle.UpdateProvider: a handle reads its commander and registry lists as parameters; the moment at which the commander becomes known is not modelled.
- That a handle's value is current right after a provider switch: the code does not recompute it then, so resolution is stated at recomputation points only.
- Singletons: handles name the provider objects of a process by their position in a `Hub`, which stands for the instance table.
- TreeXml.RoundTrip: names are ASCII and texts are without carriage returns and control characters; names in other scripts, which the XML parser classifies by tables, are not covered.
- The data race on a handle's pending set, which is reset outside the provider's lock: operations of a handle are atomic here.
- XmlRegistry.InfoXmlBackend.ReadKeyDataFromXml: expects a parsed file to have an element at its root, which is what the XML handler produces.
- Characters are Unicode scalar values: one outside the basic plane becomes one underscore in a path here and two in the code.
- Hash iteration order: key lists are arbitrary permutations.
- Command-line tools, bindings, wrappers, logging, deprecated signals, service registration and plugin listings: they would add easy members only.
