/**
 * The saga store: the `sagas` table as a map keyed by saga id. Serialising `data` to JSON and
 * back is taken to be the identity.
 */
module SagaStore {
  import opened Wrappers
  import opened Commands
  import opened SagaMachine

  /** One row: the columns name, data, current_step and status of the saga with that id. */
  datatype Record = Record(name: string, data: Data, currentStep: int, status: Status)

  type Table = map<SagaId, Record>

  /** What `get_saga_class` hands back: a registered saga type, or the bare base class. */
  datatype SagaClass = BaseSaga | Registered(sagaType: SagaType)

  /** A row read back, bound to the class its name selects. */
  datatype Loaded = Loaded(sagaClass: SagaClass, id: SagaId, data: Data, currentStep: int, status: Status)

  /** The saga type registered under a name, or the base class for a name nobody registered. */
  function GetSagaClass(classes: map<string, SagaType>, name: string): (c: SagaClass)
    ensures c.Registered? <==> name in classes
    ensures c.Registered? ==> c.sagaType == classes[name]
  {
    if name !in classes then BaseSaga else Registered(classes[name])
  }

  /** `create`: insert a row, or overwrite every column of the row with the same id. */
  function Upsert(table: Table, id: SagaId, rec: Record): (t: Table)
    ensures t.Keys == table.Keys + {id}
    ensures t[id] == rec
    ensures forall other :: other in table && other != id ==> t[other] == table[other]
  {
    table[id := rec]
  }

  /** `update`: overwrite the row with that id if there is one; otherwise change nothing. */
  function UpdateExisting(table: Table, id: SagaId, rec: Record): (t: Table)
    ensures t.Keys == table.Keys
    ensures id in table ==> t[id] == rec
    ensures id !in table ==> t == table
    ensures forall other :: other in table && other != id ==> t[other] == table[other]
  {
    if id in table then table[id := rec] else table
  }

  /** `get_one_by_id`: nothing for an absent id, else the row bound to its class. */
  function GetOneById(classes: map<string, SagaType>, table: Table, id: SagaId): (r: Option<Loaded>)
    ensures r.None? <==> id !in table
    ensures r.Some? ==> var rec := table[id];
      r.value == Loaded(GetSagaClass(classes, rec.name), id, rec.data, rec.currentStep, rec.status)
  {
    if id !in table then None
    else
      var rec := table[id];
      Some(Loaded(GetSagaClass(classes, rec.name), id, rec.data, rec.currentStep, rec.status))
  }

  /** Round trip: what `create` wrote is what `get_one_by_id` reads, as an instance of the registered class. */
  lemma CreateThenGet(classes: map<string, SagaType>, table: Table, id: SagaId, rec: Record)
    requires rec.name in classes
    ensures GetOneById(classes, Upsert(table, id, rec), id)
            == Some(Loaded(Registered(classes[rec.name]), id, rec.data, rec.currentStep, rec.status))
  {
  }

  /** A write for one id leaves every other id's row, and its absence, as it was. */
  lemma WritesAreIsolated(table: Table, id: SagaId, rec: Record, other: SagaId)
    requires other != id
    ensures (other in Upsert(table, id, rec) <==> other in table)
    ensures (other in UpdateExisting(table, id, rec) <==> other in table)
    ensures other in table ==> Upsert(table, id, rec)[other] == table[other]
    ensures other in table ==> UpdateExisting(table, id, rec)[other] == table[other]
  {
  }

  /** The row a saga object is written as. */
  function RecordOf(saga: Saga): (r: Record)
    reads saga
    ensures r.name == saga.name && r.data == saga.data
    ensures Config(r.currentStep, r.status) == saga.Snapshot()
  {
    Record(saga.name, saga.data, saga.currentStep, saga.status)
  }

  /** The data-access object over one `sagas` table. */
  class SagaDao {
    const sagaClasses: map<string, SagaType>
    var table: Table

    /** `rows` is what the database already holds. */
    constructor (sagaClasses: map<string, SagaType>, rows: Table)
      ensures this.sagaClasses == sagaClasses && table == rows
    {
      this.sagaClasses := sagaClasses;
      table := rows;
    }

    method Create(saga: Saga) returns (r: Saga)
      modifies this`table
      ensures r == saga
      ensures table == Upsert(old(table), saga.id, RecordOf(saga))
    {
      table := Upsert(table, saga.id, RecordOf(saga));
      r := saga;
    }

    method Update(saga: Saga) returns (r: Saga)
      modifies this`table
      ensures r == saga
      ensures table == UpdateExisting(old(table), saga.id, RecordOf(saga))
    {
      table := UpdateExisting(table, saga.id, RecordOf(saga));
      r := saga;
    }

    /** `get_one_by_id` on this store: nothing for an absent id, else that row bound to its class. */
    function Get(id: SagaId): (r: Option<Loaded>)
      reads this
      ensures r.None? <==> id !in table
      ensures r.Some? ==> && r.value.id == id && r.value.data == table[id].data
                          && r.value.currentStep == table[id].currentStep && r.value.status == table[id].status
                          && r.value.sagaClass == GetSagaClass(sagaClasses, table[id].name)
    {
      GetOneById(sagaClasses, table, id)
    }
  }
}
