/** The unit-of-work discipline that drives a saga persister: every unit of
    work builds a fresh session factory and persister, runs the caller's
    action, commits the session only when the action returned normally, and
    releases the session on every path. Completing or updating a saga only
    happens to the entity that `Get` loaded in that same session.
    The document store is an in-memory map from saga id to saga data; the
    session the factory holds is reduced to its staged operations and the
    entities it tracks. */
module SagaPersistence {
  import opened Wrappers

  /** The id of a saga (a Guid). */
  type SagaId(==)

  /** The process-specific fields of a saga. */
  type SagaData

  /** A saga entity: a fixed id and data that handlers change in place. */
  class SagaEntity {
    const id: SagaId
    var data: SagaData

    constructor (id: SagaId, data: SagaData)
      ensures this.id == id && this.data == data
    {
      this.id := id;
      this.data := data;
    }
  }

  /** The document store: the committed saga documents, by id. */
  class DocumentStore {
    var documents: map<SagaId, SagaData>

    constructor (documents: map<SagaId, SagaData>)
      ensures this.documents == documents
    {
      this.documents := documents;
    }
  }

  /** An operation a session holds until it is committed. */
  datatype StagedOp = StoreOp(saga: SagaEntity) | UpdateOp(saga: SagaEntity) | DeleteOp(saga: SagaEntity)

  /** The entities the staged operations refer to. */
  function Entities(ops: seq<StagedOp>): set<SagaEntity>
  {
    set i | 0 <= i < |ops| :: ops[i].saga
  }

  /** The documents after one staged operation is committed. The entity's data
      is read at commit time, as a tracking session does. */
  function Applied(documents: map<SagaId, SagaData>, op: StagedOp): map<SagaId, SagaData>
    reads op.saga
  {
    match op
    case StoreOp(saga) => documents[saga.id := saga.data]
    case UpdateOp(saga) => documents[saga.id := saga.data]
    case DeleteOp(saga) => documents - {saga.id}
  }

  /** The documents after committing the staged operations, in staging order. */
  function Flushed(documents: map<SagaId, SagaData>, ops: seq<StagedOp>): map<SagaId, SagaData>
    reads Entities(ops)
    decreases |ops|
  {
    if ops == [] then documents
    else
      assert Entities(ops[1..]) <= Entities(ops) by {
        forall i | 0 <= i < |ops[1..]| ensures ops[1..][i].saga in Entities(ops) {
          assert ops[1..][i] == ops[i + 1];
        }
      }
      Flushed(Applied(documents, ops[0]), ops[1..])
  }

  /** Where the factory's session stands: none yet, open with work staged,
      committed, or released. */
  datatype Phase = NoSession | Open | Committed | Released

  /** One call made on the session factory or on the session it holds, as the
      unit of work observes it. `Loaded` records the entity the lookup returned. */
  datatype SessionCall =
    | SessionOpened
    | Loaded(sagaId: SagaId, result: SagaEntity?)
    | Staged(op: StagedOp)
    | ChangesSaved
    | SessionReleased

  /** The session factory, with the session it currently holds. */
  class SessionFactory {
    const store: DocumentStore
    var phase: Phase
    /** Entities the session has loaded or stored, by id (its identity map). */
    var tracked: map<SagaId, SagaEntity>
    /** Operations staged and not yet committed. */
    var staged: seq<StagedOp>
    /** Every call made on the factory and its session so far. */
    ghost var history: seq<SessionCall>

    /** A session is held. */
    predicate HasSession()
      reads this
    {
      phase.Open? || phase.Committed?
    }

    /** Without a session nothing is tracked or staged; a committed session has
        nothing staged; the identity map files each entity under its own id. */
    ghost predicate Valid()
      reads this
    {
      && (!HasSession() ==> staged == [] && tracked == map[])
      && (phase.Committed? ==> staged == [])
      && (forall k :: k in tracked ==> tracked[k].id == k)
    }

    constructor (store: DocumentStore)
      ensures this.store == store && phase == NoSession && tracked == map[] && staged == [] && history == []
      ensures Valid()
    {
      this.store := store;
      phase := NoSession;
      tracked := map[];
      staged := [];
      history := [];
    }

    /** The lazy `Session` getter: opens a session unless one is held. */
    method OpenSession()
      requires Valid()
      modifies this
      ensures Valid() && HasSession()
      ensures tracked == old(tracked) && staged == old(staged)
      ensures phase == (if old(HasSession()) then old(phase) else Open)
      ensures history == old(history) + OpenedIfNeeded(old(HasSession()))
    {
      if !HasSession() {
        phase := Open;
        history := history + [SessionOpened];
      }
    }

    /** Commits the staged operations of the held session to the store. */
    method SaveChanges()
      requires Valid()
      modifies this, store
      ensures Valid()
      ensures tracked == old(tracked) && history == old(history) + [ChangesSaved]
      ensures old(HasSession()) ==> phase == Committed && staged == [] && store.documents == old(Flushed(store.documents, staged))
      ensures !old(HasSession()) ==> phase == old(phase) && staged == [] && store.documents == old(store.documents)
    {
      if HasSession() {
        store.documents := Flushed(store.documents, staged);
        staged := [];
        phase := Committed;
      }
      history := history + [ChangesSaved];
    }

    /** Disposes of the held session, dropping whatever it still has staged;
        without a session it does nothing. The store is not touched. */
    method ReleaseSession()
      requires Valid()
      modifies this
      ensures Valid()
      ensures staged == [] && tracked == map[] && history == old(history) + [SessionReleased]
      ensures phase == (if old(HasSession()) then Released else old(phase))
    {
      history := history + [SessionReleased];
      if HasSession() {
        phase := Released;
        staged := [];
        tracked := map[];
      }
    }
  }

  /** The `SessionOpened` call a session operation makes when no session is held. */
  function OpenedIfNeeded(hadSession: bool): seq<SessionCall>
  {
    if hadSession then [] else [SessionOpened]
  }

  /** The saga persister, reduced to what the unit of work relies on: it
      stages `Save`, `Update` and `Complete` in the factory's session, and
      `Get` returns the saga of an id or null. */
  class SagaPersister {
    const factory: SessionFactory

    constructor (factory: SessionFactory)
      ensures this.factory == factory
    {
      this.factory := factory;
    }

    /** Stages the storing of a new saga and tracks it. */
    method Save(saga: SagaEntity)
      requires factory.Valid()
      modifies factory
      ensures factory.Valid() && factory.phase == Open
      ensures factory.staged == old(factory.staged) + [StoreOp(saga)]
      ensures factory.tracked == old(factory.tracked)[saga.id := saga]
      ensures factory.history == old(factory.history) + OpenedIfNeeded(old(factory.HasSession())) + [Staged(StoreOp(saga))]
    {
      factory.OpenSession();
      factory.tracked := factory.tracked[saga.id := saga];
      factory.staged := factory.staged + [StoreOp(saga)];
      factory.phase := Open;
      factory.history := factory.history + [Staged(StoreOp(saga))];
    }

    /** Loads a saga by id: the entity the session already tracks for that id,
        else a new entity holding the stored document (now tracked), else null. */
    method Get(sagaId: SagaId) returns (saga: SagaEntity?)
      requires factory.Valid()
      modifies factory
      ensures factory.Valid() && factory.HasSession()
      ensures factory.phase == (if old(factory.HasSession()) then old(factory.phase) else Open)
      ensures factory.staged == old(factory.staged)
      ensures factory.history == old(factory.history) + OpenedIfNeeded(old(factory.HasSession())) + [Loaded(sagaId, saga)]
      ensures sagaId in old(factory.tracked) ==> saga == old(factory.tracked[sagaId]) && factory.tracked == old(factory.tracked)
      ensures sagaId !in old(factory.tracked) && sagaId in factory.store.documents ==>
        && saga != null && fresh(saga) && saga.id == sagaId && saga.data == factory.store.documents[sagaId]
        && factory.tracked == old(factory.tracked)[sagaId := saga]
      ensures sagaId !in old(factory.tracked) && sagaId !in factory.store.documents ==>
        saga == null && factory.tracked == old(factory.tracked)
    {
      factory.OpenSession();
      if sagaId in factory.tracked {
        saga := factory.tracked[sagaId];
      } else if sagaId in factory.store.documents {
        saga := new SagaEntity(sagaId, factory.store.documents[sagaId]);
        factory.tracked := factory.tracked[sagaId := saga];
      } else {
        saga := null;
      }
      factory.history := factory.history + [Loaded(sagaId, saga)];
    }

    /** Stages the update of a saga. */
    method Update(saga: SagaEntity)
      requires factory.Valid()
      modifies factory
      ensures factory.Valid() && factory.phase == Open
      ensures factory.staged == old(factory.staged) + [UpdateOp(saga)]
      ensures factory.tracked == old(factory.tracked)
      ensures factory.history == old(factory.history) + OpenedIfNeeded(old(factory.HasSession())) + [Staged(UpdateOp(saga))]
    {
      factory.OpenSession();
      factory.staged := factory.staged + [UpdateOp(saga)];
      factory.phase := Open;
      factory.history := factory.history + [Staged(UpdateOp(saga))];
    }

    /** Stages the removal of a completed saga. */
    method Complete(saga: SagaEntity)
      requires factory.Valid()
      modifies factory
      ensures factory.Valid() && factory.phase == Open
      ensures factory.staged == old(factory.staged) + [DeleteOp(saga)]
      ensures factory.tracked == old(factory.tracked)
      ensures factory.history == old(factory.history) + OpenedIfNeeded(old(factory.HasSession())) + [Staged(DeleteOp(saga))]
    {
      factory.OpenSession();
      factory.staged := factory.staged + [DeleteOp(saga)];
      factory.phase := Open;
      factory.history := factory.history + [Staged(DeleteOp(saga))];
    }
  }

  /** The actions the fixture's helpers run inside a unit of work:
      save a saga; complete the saga of an id; update the saga of an id with
      the caller's change. */
  datatype Action =
    | SaveAction(saga: SagaEntity)
    | CompleteAction(sagaId: SagaId)
    | UpdateAction(sagaId: SagaId, update: SagaData -> SagaData)

  /** The assertion messages of the not-found guards. */
  const CompleteNotFound: string := "Could not complete saga. Saga not found"
  const UpdateNotFound: string := "Could not update saga. Saga not found"

  /** What a unit of work running `action` over the committed `documents`
      leaves in the store, or the failure it ends with (the store then keeps
      `documents`). */
  function Expected(documents: map<SagaId, SagaData>, action: Action): Result<map<SagaId, SagaData>, string>
    reads if action.SaveAction? then {action.saga} else {}
  {
    match action
    case SaveAction(saga) => Ok(documents[saga.id := saga.data])
    case CompleteAction(sagaId) =>
      if sagaId in documents then Ok(documents - {sagaId}) else Err(CompleteNotFound)
    case UpdateAction(sagaId, update) =>
      if sagaId in documents then Ok(documents[sagaId := update(documents[sagaId])]) else Err(UpdateNotFound)
  }

  /** The data of the entity a completing or updating action loaded, once the
      action is done with it: the stored document, changed by `update` for an
      update. */
  function LoadedData(documents: map<SagaId, SagaData>, action: Action): SagaData
    requires !action.SaveAction? && action.sagaId in documents
  {
    if action.UpdateAction? then action.update(documents[action.sagaId]) else documents[action.sagaId]
  }

  /** The session calls an action makes, given the entity its `Get` returned. */
  function ActionCalls(action: Action, loaded: SagaEntity?): seq<SessionCall>
  {
    match action
    case SaveAction(saga) => [Staged(StoreOp(saga))]
    case CompleteAction(sagaId) =>
      [Loaded(sagaId, loaded)] + (if loaded == null then [] else [Staged(DeleteOp(loaded))])
    case UpdateAction(sagaId, _) =>
      [Loaded(sagaId, loaded)] + (if loaded == null then [] else [Staged(UpdateOp(loaded))])
  }

  /** The calls of a whole unit of work: open, the action's calls, the commit
      when the action returned normally, the release. */
  function UnitOfWorkCalls(actionCalls: seq<SessionCall>, committed: bool): seq<SessionCall>
  {
    [SessionOpened] + actionCalls + (if committed then [ChangesSaved] else []) + [SessionReleased]
  }

  /** The unit-of-work discipline, stated on a sequence of calls:
      - the session is released exactly once, as the last call;
      - the changes are committed at most once, right before the release, and
        exactly when `committed`;
      - every staged update or removal is of an entity that an earlier `Get`
        of the same session returned for that entity's id. */
  ghost predicate DisciplinedUnitOfWork(calls: seq<SessionCall>, committed: bool)
  {
    && |calls| >= 2
    && calls[|calls| - 1] == SessionReleased
    && (forall i :: 0 <= i < |calls| - 1 ==> calls[i] != SessionReleased)
    && (forall i :: 0 <= i < |calls| && calls[i] == ChangesSaved ==> i == |calls| - 2)
    && (committed <==> calls[|calls| - 2] == ChangesSaved)
    && (forall i :: 0 <= i < |calls| && calls[i].Staged? && !calls[i].op.StoreOp? ==>
          exists j :: 0 <= j < i && calls[j] == Loaded(calls[i].op.saga.id, calls[i].op.saga))
  }

  /** Every unit of work the fixture runs follows the discipline, whether the
      action returned normally (and was committed) or threw. */
  lemma UnitOfWorkIsDisciplined(action: Action, loaded: SagaEntity?, committed: bool)
    requires !action.SaveAction? && loaded != null ==> loaded.id == action.sagaId
    ensures DisciplinedUnitOfWork(UnitOfWorkCalls(ActionCalls(action, loaded), committed), committed)
  {
    var calls := UnitOfWorkCalls(ActionCalls(action, loaded), committed);
    var n := |calls|;
    forall i | 0 <= i < n && calls[i].Staged? && !calls[i].op.StoreOp?
      ensures exists j :: 0 <= j < i && calls[j] == Loaded(calls[i].op.saga.id, calls[i].op.saga)
    {
      assert i == 2 && calls[1] == Loaded(action.sagaId, loaded);
    }
  }

  /** The body of each helper's lambda, run against a persister whose factory
      holds no session yet. `loaded` is the entity `Get` returned, if the
      action calls `Get`. */
  method Perform(persister: SagaPersister, action: Action) returns (outcome: Outcome<string>, ghost loaded: SagaEntity?)
    requires persister.factory.Valid() && persister.factory.phase == NoSession
    modifies persister.factory
    ensures persister.factory.Valid() && persister.factory.HasSession()
    ensures persister.factory.history == old(persister.factory.history) + [SessionOpened] + ActionCalls(action, loaded)
    ensures action.SaveAction? ==> loaded == null
    ensures !action.SaveAction? ==>
      && (loaded == null <==> action.sagaId !in persister.factory.store.documents)
      && (loaded != null ==> fresh(loaded) && loaded.id == action.sagaId)
      && (loaded != null ==> loaded.data == LoadedData(old(persister.factory.store.documents), action))
    ensures match Expected(old(persister.factory.store.documents), action)
      case Ok(documents) => outcome == Pass && Flushed(persister.factory.store.documents, persister.factory.staged) == documents
      case Err(message) => outcome == Fail(message)
  {
    var p := persister;
    match action
    case SaveAction(saga) =>
      p.Save(saga);
      assert p.factory.staged == [StoreOp(saga)];
      assert p.factory.staged[1..] == [];
      loaded := null;
      outcome := Pass;
    case CompleteAction(sagaId) =>
      var saga := p.Get(sagaId);
      loaded := saga;
      if saga == null {
        outcome := Fail(CompleteNotFound);
        return;
      }
      p.Complete(saga);
      assert p.factory.staged == [DeleteOp(saga)];
      assert p.factory.staged[1..] == [];
      outcome := Pass;
    case UpdateAction(sagaId, update) =>
      var saga := p.Get(sagaId);
      loaded := saga;
      if saga == null {
        outcome := Fail(UpdateNotFound);
        return;
      }
      saga.data := update(saga.data);
      p.Update(saga);
      assert p.factory.staged == [UpdateOp(saga)];
      assert p.factory.staged[1..] == [];
      outcome := Pass;
  }

  /** The test fixture's saga helpers over one document store. */
  class SagaPersistenceConcern {
    const store: DocumentStore

    constructor (store: DocumentStore)
      ensures this.store == store
    {
      this.store := store;
    }

    /** Runs `action` in a unit of work of its own: a fresh session factory
        and persister, a commit only when the action returned normally, and a
        release on every path. `uow` is the factory it used and `loaded` the
        entity the action's `Get` returned. */
    method WithASagaPersistenceUnitOfWork(action: Action) returns (outcome: Outcome<string>, ghost uow: SessionFactory, ghost loaded: SagaEntity?)
      modifies store
      ensures fresh(uow) && uow.store == store
      ensures uow.phase == Released && uow.staged == [] && uow.tracked == map[]
      ensures uow.history == UnitOfWorkCalls(ActionCalls(action, loaded), outcome.Pass?)
      ensures DisciplinedUnitOfWork(uow.history, outcome.Pass?)
      ensures action.SaveAction? ==> loaded == null
      ensures !action.SaveAction? ==>
        && (loaded == null <==> action.sagaId !in old(store.documents))
        && (loaded != null ==> fresh(loaded) && loaded.id == action.sagaId)
        && (loaded != null ==> loaded.data == LoadedData(old(store.documents), action))
      ensures match old(Expected(store.documents, action))
        case Ok(documents) => outcome == Pass && store.documents == documents
        case Err(message) => outcome == Fail(message) && store.documents == old(store.documents)
    {
      var sessionFactory := new SessionFactory(store);
      uow := sessionFactory;
      var sagaPersister := new SagaPersister(sessionFactory);
      outcome, loaded := Perform(sagaPersister, action);
      if outcome.Pass? {
        sessionFactory.SaveChanges();
      }
      sessionFactory.ReleaseSession();
      UnitOfWorkIsDisciplined(action, loaded, outcome.Pass?);
    }

    /** Saves `saga` in a unit of work of its own. */
    method SaveSaga(saga: SagaEntity) returns (outcome: Outcome<string>, ghost uow: SessionFactory)
      modifies store
      ensures outcome == Pass
      ensures store.documents == old(store.documents)[saga.id := saga.data]
      ensures fresh(uow) && uow.history == [SessionOpened, Staged(StoreOp(saga)), ChangesSaved, SessionReleased]
    {
      ghost var loaded;
      outcome, uow, loaded := WithASagaPersistenceUnitOfWork(SaveAction(saga));
    }

    /** Completes the saga of `sagaId` in a unit of work of its own; fails with
        "Saga not found", committing nothing, when there is none. */
    method CompleteSaga(sagaId: SagaId) returns (outcome: Outcome<string>, ghost uow: SessionFactory, ghost loaded: SagaEntity?)
      modifies store
      ensures outcome.Pass? <==> sagaId in old(store.documents)
      ensures outcome.Pass? ==> store.documents == old(store.documents) - {sagaId}
      ensures outcome.Fail? ==> outcome.error == CompleteNotFound && store.documents == old(store.documents)
      ensures fresh(uow)
      ensures outcome.Pass? ==>
        && loaded != null && loaded.id == sagaId
        && uow.history == [SessionOpened, Loaded(sagaId, loaded), Staged(DeleteOp(loaded)), ChangesSaved, SessionReleased]
      ensures outcome.Fail? ==> uow.history == [SessionOpened, Loaded(sagaId, null), SessionReleased]
    {
      outcome, uow, loaded := WithASagaPersistenceUnitOfWork(CompleteAction(sagaId));
    }

    /** Applies `update` to the saga of `sagaId` and stages its update, in a
        unit of work of its own; fails with "Saga not found", committing
        nothing, when there is none. */
    method UpdateSaga(sagaId: SagaId, update: SagaData -> SagaData) returns (outcome: Outcome<string>, ghost uow: SessionFactory, ghost loaded: SagaEntity?)
      modifies store
      ensures outcome.Pass? <==> sagaId in old(store.documents)
      ensures outcome.Pass? ==> store.documents == old(store.documents)[sagaId := update(old(store.documents)[sagaId])]
      ensures outcome.Fail? ==> outcome.error == UpdateNotFound && store.documents == old(store.documents)
      ensures fresh(uow)
      ensures outcome.Pass? ==>
        && loaded != null && loaded.id == sagaId
        && loaded.data == update(old(store.documents)[sagaId])
        && uow.history == [SessionOpened, Loaded(sagaId, loaded), Staged(UpdateOp(loaded)), ChangesSaved, SessionReleased]
      ensures outcome.Fail? ==> uow.history == [SessionOpened, Loaded(sagaId, null), SessionReleased]
    {
      outcome, uow, loaded := WithASagaPersistenceUnitOfWork(UpdateAction(sagaId, update));
    }
  }

  /** A saved saga can be loaded by later units of work, with the data saved,
      and every other document is kept. */
  lemma SavedSagaIsFound(documents: map<SagaId, SagaData>, saga: SagaEntity, update: SagaData -> SagaData)
    ensures Expected(documents, SaveAction(saga)).Ok?
    ensures var saved := Expected(documents, SaveAction(saga)).value;
      && saga.id in saved && saved[saga.id] == saga.data
      && (forall k :: k in documents && k != saga.id ==> k in saved && saved[k] == documents[k])
      && Expected(saved, UpdateAction(saga.id, update)) == Ok(saved[saga.id := update(saga.data)])
  {
  }

  /** A completed saga is gone for every later unit of work: completing or
      updating it again fails with "Saga not found". */
  lemma CompletedSagaIsGone(documents: map<SagaId, SagaData>, sagaId: SagaId, update: SagaData -> SagaData)
    requires sagaId in documents
    ensures Expected(documents, CompleteAction(sagaId)) == Ok(documents - {sagaId})
    ensures Expected(documents - {sagaId}, CompleteAction(sagaId)) == Err(CompleteNotFound)
    ensures Expected(documents - {sagaId}, UpdateAction(sagaId, update)) == Err(UpdateNotFound)
  {
  }

  /** Completing or updating a saga that was never saved fails with "Saga not
      found". */
  lemma MissingSagaIsNotFound(documents: map<SagaId, SagaData>, sagaId: SagaId, update: SagaData -> SagaData)
    requires sagaId !in documents
    ensures Expected(documents, CompleteAction(sagaId)) == Err(CompleteNotFound)
    ensures Expected(documents, UpdateAction(sagaId, update)) == Err(UpdateNotFound)
  {
  }
}
