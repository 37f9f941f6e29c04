# NServiceBus: saga unit of work, license selection, queue provisioning

A Dafny model of three pieces of sequential decision and state logic in NServiceBus.

- **Saga persistence unit of work** (`saga_unit_of_work.dfy`, module `SagaPersistence`).
  The RavenDB saga-persister test fixture drives a persister through a unit of work.
  Each unit of work builds a fresh session factory and persister, then runs the caller's action.
  It commits (`SaveChanges`) only if the action returned normally, and it releases the session in a `finally`.
  The helpers `SaveSaga`, `CompleteSaga` and `UpdateSaga` are built on it.
  `CompleteSaga` and `UpdateSaga` only complete or update the entity that `Get` returned in the same session, and fail with "Saga not found" when `Get` returns null.
  The document store is a class holding a map from saga id to saga data.
  The session factory is a state machine: no session, open with staged operations, committed, released.
  It also keeps a ghost history of every call made on the factory and its session.
  `DisciplinedUnitOfWork` states the discipline on such a history, and every unit of work is proved to follow it.
- **License selection and caching** (`license_manager.dfy`, module `Licensing`).
  `LicenseManager` keeps the license text and the cached license.
  The `License` getter (`GetLicense`) runs `Verify` only while nothing is cached.
  `Verify` picks the deserialized license, the basic license or a trial license.
  Every foreign collaborator is a field of `Environment`: the license location conventions, the signed-XML verifier, the deserializer, the expiration checker (clock), the SID check and the registry trial date.
- **Queue provisioning** (`queues_creator.dfy`, module `Queuing`).
  `QueuesCreator.Install` does nothing on a send-only endpoint or when queue creation is switched off.
  Otherwise it skips disabled requesters and fails on the first enabled requester with a null address.
  It calls `CreateQueueIfNecessary(address, identity)` once per enabled requester, in list order.
  The container's instance list and both settings are parameters; the queue creator records the calls it receives.

`wrappers.dfy` (module `Wrappers`) holds the `Option`, `Outcome` and `Result` types.
An exception in the source is a `Fail`/`Err` value carrying its message (for `Verify`, the error kind).

`SagaPersister.Update` stages whatever entity it is given.
`UnitOfWorkIsDisciplined` shows that the fixture only updates or completes an entity that `Get` returned in the same session.

## Model

| member | source | states |
|---|---|---|
| `SagaPersistence.SessionFactory.constructor` | src/NServiceBus.Core.Tests/Persistence/RavenDB/SagaPersister/Raven_saga_persistence_concern.cs:36 | A new factory holds no session: nothing tracked, nothing staged, no calls yet. |
| `SagaPersistence.SessionFactory.OpenSession` | src/NServiceBus.Core.Tests/Persistence/RavenDB/SagaPersister/Raven_saga_persistence_concern.cs:40-41 | The session is opened lazily, once: a held session is kept as it is; otherwise a session is opened and the opening is recorded. |
| `SagaPersistence.SessionFactory.SaveChanges` | src/NServiceBus.Core.Tests/Persistence/RavenDB/SagaPersister/Raven_saga_persistence_concern.cs:43 | With a session held, the store becomes the staged operations applied in staging order, and nothing stays staged. Without a session, the store is untouched. |
| `SagaPersistence.SessionFactory.ReleaseSession` | src/NServiceBus.Core.Tests/Persistence/RavenDB/SagaPersister/Raven_saga_persistence_concern.cs:45-48 | Staged work and tracked entities are dropped without touching the store. A second release leaves the session state as it was. |
| `SagaPersistence.SagaPersister.constructor` | src/NServiceBus.Core.Tests/Persistence/RavenDB/SagaPersister/Raven_saga_persistence_concern.cs:40 | The persister works through the factory it is built with. |
| `SagaPersistence.SagaPersister.Save` | src/NServiceBus.Core.Tests/Persistence/RavenDB/SagaPersister/Raven_saga_persistence_concern.cs:54 | Stages exactly one store of the given saga and tracks it under its id. |
| `SagaPersistence.SagaPersister.Get` | src/NServiceBus.Core.Tests/Persistence/RavenDB/SagaPersister/Raven_saga_persistence_concern.cs:61 | Returns the entity the session tracks for the id. Otherwise it returns a new tracked entity holding the stored document, or null when the id is not stored. It stages nothing. |
| `SagaPersistence.SagaPersister.Complete` | src/NServiceBus.Core.Tests/Persistence/RavenDB/SagaPersister/Raven_saga_persistence_concern.cs:63 | Stages exactly one removal of the given entity. |
| `SagaPersistence.SagaPersister.Update` | src/NServiceBus.Core.Tests/Persistence/RavenDB/SagaPersister/Raven_saga_persistence_concern.cs:74 | Stages exactly one update of the given entity. |
| `SagaPersistence.Perform` | src/NServiceBus.Core.Tests/Persistence/RavenDB/SagaPersister/Raven_saga_persistence_concern.cs:52-76 | Runs a helper's action in a fresh factory. It fails with the helper's "Saga not found" message when `Get` returns null, with nothing staged. Otherwise committing what it staged yields the expected documents. The entity completed or updated is the one `Get` returned; for an update, its data is the caller's change applied to the stored data. |
| `SagaPersistence.SagaPersistenceConcern.WithASagaPersistenceUnitOfWork` | src/NServiceBus.Core.Tests/Persistence/RavenDB/SagaPersister/Raven_saga_persistence_concern.cs:34-50 | Uses a freshly built factory that ends released. Its calls are: open, the action's calls, `SaveChanges` exactly when the action returned normally, then exactly one release, last. On success the store holds the expected documents; on failure it is unchanged and the failure is returned. |
| `SagaPersistence.UnitOfWorkIsDisciplined` | src/NServiceBus.Core.Tests/Persistence/RavenDB/SagaPersister/Raven_saga_persistence_concern.cs:38-49 | Every unit of work the fixture runs releases exactly once, last. It commits at most once, right before the release, and only on success. Every staged update or removal is of the very entity an earlier `Get` of that session returned for its id. |
| `SagaPersistence.SagaPersistenceConcern.SaveSaga` | src/NServiceBus.Core.Tests/Persistence/RavenDB/SagaPersister/Raven_saga_persistence_concern.cs:52-55 | Succeeds and stores the saga's data under its id. Its calls are exactly: open, one staged store of that saga, commit, release. |
| `SagaPersistence.SagaPersistenceConcern.CompleteSaga` | src/NServiceBus.Core.Tests/Persistence/RavenDB/SagaPersister/Raven_saga_persistence_concern.cs:57-65 | Succeeds if and only if the id is stored, and then removes it. Its calls are: open, `Get`, removal of the loaded entity, commit, release. Otherwise it fails with "Could not complete saga. Saga not found" after only open, `Get` and release, and the store is unchanged. |
| `SagaPersistence.SagaPersistenceConcern.UpdateSaga` | src/NServiceBus.Core.Tests/Persistence/RavenDB/SagaPersister/Raven_saga_persistence_concern.cs:67-76 | Succeeds if and only if the id is stored, and then stores the caller's change applied to the stored data. The updated entity is the loaded one, carrying the changed data. Otherwise it fails with "Could not update saga. Saga not found" after only open, `Get` and release, and the store is unchanged. |
| `SagaPersistence.SavedSagaIsFound` | src/NServiceBus.Core.Tests/Persistence/RavenDB/SagaPersister/Raven_saga_persistence_concern.cs:52-55 | After a save, the id holds the saved data and every other document is kept. A later update of that id succeeds on the saved data. |
| `SagaPersistence.CompletedSagaIsGone` | src/NServiceBus.Core.Tests/Persistence/RavenDB/SagaPersister/Raven_saga_persistence_concern.cs:57-64 | Completing a stored saga removes exactly its id. A later complete or update of that id fails with "Saga not found". |
| `SagaPersistence.MissingSagaIsNotFound` | src/NServiceBus.Core.Tests/Persistence/RavenDB/SagaPersister/Raven_saga_persistence_concern.cs:59-75 | Completing or updating an id that is not stored fails with the matching "Saga not found" message. |
| `Licensing.LicenseManager.constructor` | src/NServiceBus.Core/Licensing/LicenseManager.cs:143-144 | Both static fields start out null: no license text and no cached license. |
| `Licensing.LicenseManager.InitializeLicenseText` | src/NServiceBus.Core/Licensing/LicenseManager.cs:18-21 | Sets the license text, null included, and leaves the cached license alone. |
| `Licensing.LicenseManager.ConfigureNServiceBusToRunInTrialMode` | src/NServiceBus.Core/Licensing/LicenseManager.cs:74-99 | Caches the trial-mode license and leaves the text alone. |
| `Licensing.TrialModeDecision` | src/NServiceBus.Core/Licensing/LicenseManager.cs:76-98 | Trial mode yields the basic license when the SID check fails or the registry trial date has expired. Otherwise it yields the trial license for exactly that date. |
| `Licensing.NullOrWhiteSpaceByParts` | src/NServiceBus.Core/Licensing/LicenseManager.cs:107 | The blank-text test answers character by character with `char.IsWhiteSpace`: null and empty text are blank, a text is blank exactly when both its parts are, and a text starting with `<` is never blank. |
| `Licensing.Verified` | src/NServiceBus.Core/Licensing/LicenseManager.cs:101-128 | After `Verify`, the stored text is the text it worked with. A `Verify` that does not throw has cached a license; one that throws leaves the cache as it was. |
| `Licensing.LicenseManager.Verify` | src/NServiceBus.Core/Licensing/LicenseManager.cs:101-128 | The fields and the completion are exactly those `Verified` gives for the old fields. |
| `Licensing.ConfiguredTextTakesPrecedence` | src/NServiceBus.Core/Licensing/LicenseManager.cs:103-106 | With configured text, `Verify` neither consults nor stores what the location conventions would find, and keeps the configured text. |
| `Licensing.BlankDiscoveredTextMeansTrialMode` | src/NServiceBus.Core/Licensing/LicenseManager.cs:104-111 | Null or whitespace discovered text stores that text and caches the trial-mode license. The signature check, the deserializer and the expiry check are not consulted. |
| `Licensing.SignatureCheckedBeforeDeserializing` | src/NServiceBus.Core/Licensing/LicenseManager.cs:113-114 | A rejected signature makes `Verify` throw with the cache unchanged, whatever the deserializer would return. |
| `Licensing.SignedTextYieldsDeserializedUnlessExpired` | src/NServiceBus.Core/Licensing/LicenseManager.cs:113-126 | An accepted text caches its deserialized license, or the basic license when the deserialized one has expired. |
| `Licensing.Fetched` | src/NServiceBus.Core/Licensing/LicenseManager.cs:132-142 | A cached license is returned with nothing changed. What the getter returns is what it leaves cached, and a getter that throws leaves nothing cached. |
| `Licensing.LicenseManager.GetLicense` | src/NServiceBus.Core/Licensing/LicenseManager.cs:132-142 | The fields and the result are exactly those `Fetched` gives for the old fields. |
| `Licensing.CacheFilledOnce` | src/NServiceBus.Core/Licensing/LicenseManager.cs:132-142 | After a read that did not throw, every later read returns the same license and changes nothing, whatever the collaborators answer. |
| `Licensing.CachedLicenseIsKept` | src/NServiceBus.Core/Licensing/LicenseManager.cs:136-141 | Once a license is cached, any run of reads returns it and keeps both fields. |
| `Licensing.LicenseManager.RecordIfLicenseHasExpiredInTheHeader` | src/NServiceBus.Core/Licensing/LicenseManager.cs:12-16 | Reads the license through the getter. It then sets only the license-expired header, to "true" or "false" by the expiry check of that license. If the getter throws, the headers are unchanged. |
| `Queuing.Enabled` | src/NServiceBus.Core/Unicast/Queuing/QueuesCreator.cs:36 | The filter keeps no disabled requester. |
| `Queuing.EnabledMembers` | src/NServiceBus.Core/Unicast/Queuing/QueuesCreator.cs:36 | The filter keeps exactly the enabled requesters of the list. |
| `Queuing.EnabledDistributes` | src/NServiceBus.Core/Unicast/Queuing/QueuesCreator.cs:36 | The filter keeps list order: filtering a concatenation concatenates the filtered parts. |
| `Queuing.EnabledSkipsDisabled` | src/NServiceBus.Core/Unicast/Queuing/QueuesCreator.cs:36 | A disabled requester anywhere in the list drops out of the filtered list. |
| `Queuing.FirstNullAddress` | src/NServiceBus.Core/Unicast/Queuing/QueuesCreator.cs:38-41 | Gives the position of the first requester with a null address, or the length when every requester has an address. |
| `Queuing.FirstNullAddressIsUnique` | src/NServiceBus.Core/Unicast/Queuing/QueuesCreator.cs:38-41 | That position is the only one whose predecessors all have addresses and which itself has none (or is the end). |
| `Queuing.CreationCalls` | src/NServiceBus.Core/Unicast/Queuing/QueuesCreator.cs:43 | One call per requester, in order, each with that requester's address and the same identity. |
| `Queuing.CreationCallsExtend` | src/NServiceBus.Core/Unicast/Queuing/QueuesCreator.cs:36-43 | Handling one more addressed requester appends exactly its call. |
| `Queuing.QueueCreator.CreateQueueIfNecessary` | src/NServiceBus.Core/Unicast/Queuing/QueuesCreator.cs:43 | Records one call with the given address and account. |
| `Queuing.QueuesCreator.Install` | src/NServiceBus.Core/Unicast/Queuing/QueuesCreator.cs:22-46 | The calls appended are exactly `InstallCalls` and the completion is exactly `InstallOutcome`. |
| `Queuing.SendOnlyInstallsNothing` | src/NServiceBus.Core/Unicast/Queuing/QueuesCreator.cs:24-27 | A send-only endpoint makes no creation call and completes normally. |
| `Queuing.DontCreateQueuesInstallsNothing` | src/NServiceBus.Core/Unicast/Queuing/QueuesCreator.cs:29-32 | With queue creation switched off, no creation call is made. |
| `Queuing.DisabledRequesterIgnored` | src/NServiceBus.Core/Unicast/Queuing/QueuesCreator.cs:36 | A disabled requester, wherever it stands and whatever its address, changes neither the calls nor the completion. |
| `Queuing.InstallSucceedsWithOneCallPerEnabled` | src/NServiceBus.Core/Unicast/Queuing/QueuesCreator.cs:36-44 | When every enabled requester has an address, `Install` succeeds. It makes exactly one call per enabled requester, in list order, each for the same identity. |
| `Queuing.NullAddressStopsAfterPrecedingCalls` | src/NServiceBus.Core/Unicast/Queuing/QueuesCreator.cs:36-44 | An enabled requester with a null address makes `Install` fail, naming its type. The calls already made are exactly those a successful install over the preceding requesters makes. |

## Left out

- The fixture's `Setup`/`Teardown` and the embedded document store are left out, and so is the type-tag naming convention. `RavenConventions` is not part of this model.
- `RavenSessionFactory`, `RavenSagaPersister` and the Raven client are not part of this model. The session is reduced to tracked entities and staged operations, and `SaveChanges`/`ReleaseSession` do nothing without a session.
- `SagaPersistence.SagaPersister.Get`: the saga type parameter `T` of `SaveSaga<T>`, `CompleteSaga<T>`, `UpdateSaga<T>` and `Get<T>` is not modelled. All saga kinds share one key space, so a `Get<T>` that misses because the id belongs to another kind of saga is not expressed.
- `SagaPersistence.SagaPersister.Update`: stages whatever entity it is given. Any check the Raven persister makes on that entity is not modelled, because `RavenSagaPersister` is not part of this model.
- `SagaPersistence.SessionFactory.SaveChanges`: committing never fails. Optimistic-concurrency conflicts, duplicate ids and store outages are not modelled. The release after a commit that throws is therefore not exercised.
- `SagaPersistence.SagaPersister.Get`: does not model a session returning null for an entity deleted earlier in the same session. The fixture never gets an id after completing it in one unit of work.
- `SagaPersistence.SagaPersistenceConcern.WithASagaPersistenceUnitOfWork`: actions are limited to the three the fixture's helpers build (save, complete, update). Arbitrary caller lambdas are not modelled, and the caller's update is a total function that does not throw.
- NUnit's assertion exception is reduced to the message the fixture passes; NUnit's own "Expected: not null / But was: null" lines are not modelled.
- `LicenseManager.PromptUserForLicenseIfTrialHasExpired` is left out. It covers the debugger check, the Windows Forms dialog and the named cross-process mutex, which are UI and inter-process coordination.
- `LicenseManager.WriteLicenseInfo` and every logger call are logging only.
- The thread-safety of the static license cache is not modelled. The two static fields are fields of one `LicenseManager` object.
- The license collaborators are inputs, not code. This covers the signed-XML verifier, the deserializer, the expiration checker and its clock, the registry trial reader, the SID check and the location conventions.
- The deserializer throwing on malformed text is not modelled. Only a rejected signature makes `Verify` throw, and the verifier's own message is not modelled.
- The header key "$.diagnostics.license.expired" is the value of `Headers.HasLicenseExpired`. `Headers` is not part of this model.
- Whitespace follows `char.IsWhiteSpace` of current .NET; U+180E, which older Unicode versions counted as a space, is not included.
- `QueuesCreator.RegisterTypes`, the container's `BuildAll`, `SettingsHolder` and `ConfigureQueueCreation` are left out as dependency-injection and configuration plumbing. The instance list and the two flags are parameters.
- The transport's queue creation is not modelled: the queue creator only records its calls, and a creation call that throws is not modelled.
- The `InvalidOperationException` raised for a null address is reduced to its message.
