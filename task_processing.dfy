/** The task-processing side of a processing service: the metadata kept for
    each submitted task (TaskMetadata.cs, with TaskErrorInfo from
    CalcServer.Contracts) and the table that hands out task ids
    (TaskProcessingTable.cs). */
module TaskProcessing {
  import P = Primitives
  import D = DateTimeExtensions
  import E = Expiry

  /** CalcServer.Contracts.TaskState. */
  datatype TaskState = None | Ready | Started | Completed

  /** CalcServer.Contracts.TaskErrorCode. */
  datatype TaskErrorCode = Unknown | ComponentNotFound | ComponentReadDataFailed | ComponentProcessingFailed
                         | ComponentWriteResultFailed | ComponentUnknownError | InternalError

  /** The contents of a TaskErrorInfo object. */
  datatype ErrorValue = ErrorValue(id: string, code: TaskErrorCode, details: string)

  /** TaskErrorInfo: one error reported for a task. */
  class TaskErrorInfo {
    var id: string
    var code: TaskErrorCode
    var details: string

    function Value(): ErrorValue
      reads this
    {
      ErrorValue(id, code, details)
    }

    constructor ()
      ensures Value() == ErrorValue("", Unknown, "")
    {
      id := "";
      code := Unknown;
      details := "";
    }

    /** TaskErrorInfo.Copy: a new object with the same contents. */
    static method Copy(error: TaskErrorInfo) returns (copy: TaskErrorInfo)
      ensures fresh(copy) && copy.Value() == error.Value()
    {
      copy := new TaskErrorInfo();
      copy.id := error.id;
      copy.code := error.code;
      copy.details := error.details;
    }
  }

  /** The contents of a TaskMetadata object; `errors` holds references. */
  datatype Metadata = Metadata(pathToSourceFile: string, pathToTargetFile: string,
                               className: string, classVersion: string,
                               readyTime: P.Option<D.DateTime>, startingTime: P.Option<D.DateTime>,
                               completionTime: P.Option<D.DateTime>,
                               state: TaskState, errors: seq<TaskErrorInfo>)

  /** TaskMetadata: what the service records about one task. */
  class TaskMetadata {
    var pathToSourceFile: string
    var pathToTargetFile: string
    var className: string
    var classVersion: string
    var readyTime: P.Option<D.DateTime>
    var startingTime: P.Option<D.DateTime>
    var completionTime: P.Option<D.DateTime>
    var state: TaskState
    var errors: seq<TaskErrorInfo>

    function Value(): Metadata
      reads this
    {
      Metadata(pathToSourceFile, pathToTargetFile, className, classVersion,
               readyTime, startingTime, completionTime, state, errors)
    }

    /** A new task: no state yet, no timestamps, no errors. */
    constructor (className: string, classVersion: string, sourceFileName: string, targetFileName: string)
      ensures Value() == Metadata(sourceFileName, targetFileName, className, classVersion,
                                  P.None, P.None, P.None, TaskState.None, [])
    {
      this.className := className;
      this.classVersion := classVersion;
      pathToSourceFile := sourceFileName;
      pathToTargetFile := targetFileName;
      state := TaskState.None;
      readyTime := P.None;
      startingTime := P.None;
      completionTime := P.None;
      errors := [];
    }

    method UpdateOnReady(ready: D.DateTime)
      modifies this
      ensures Value() == old(Value()).(readyTime := P.Some(ready), state := Ready)
    {
      readyTime := P.Some(ready);
      state := Ready;
    }

    method UpdateOnStarting(started: D.DateTime)
      modifies this
      ensures Value() == old(Value()).(startingTime := P.Some(started), state := Started)
    {
      startingTime := P.Some(started);
      state := Started;
    }

    method UpdateOnCompletion(finished: D.DateTime)
      modifies this
      ensures Value() == old(Value()).(completionTime := P.Some(finished), state := Completed)
    {
      completionTime := P.Some(finished);
      state := Completed;
    }

    /** TaskMetadata.Copy: every field kept, and every error copied into a
        new object, so that later changes to the original's errors, or to
        its list, do not reach the copy. */
    static method Copy(tm: TaskMetadata) returns (copy: TaskMetadata)
      ensures fresh(copy)
      ensures copy.Value().(errors := []) == tm.Value().(errors := [])
      ensures |copy.errors| == |tm.errors|
      ensures forall i :: 0 <= i < |copy.errors| ==> fresh(copy.errors[i]) && copy.errors[i].Value() == tm.errors[i].Value()
      ensures forall i, j :: 0 <= i < j < |copy.errors| ==> copy.errors[i] != copy.errors[j]
    {
      copy := new TaskMetadata(tm.className, tm.classVersion, tm.pathToSourceFile, tm.pathToTargetFile);
      copy.state := tm.state;
      copy.readyTime := tm.readyTime;
      copy.startingTime := tm.startingTime;
      copy.completionTime := tm.completionTime;
      var copies: seq<TaskErrorInfo> := [];
      var i := 0;
      while i < |tm.errors|
        invariant 0 <= i <= |tm.errors| && |copies| == i
        invariant forall j :: 0 <= j < i ==> fresh(copies[j]) && copies[j].Value() == tm.errors[j].Value()
        invariant forall a, b :: 0 <= a < b < i ==> copies[a] != copies[b]
        invariant copy.Value().(errors := []) == tm.Value().(errors := [])
      {
        var e := TaskErrorInfo.Copy(tm.errors[i]);
        copies := copies + [e];
        i := i + 1;
      }
      copy.errors := copies;
    }
  }

  /** The range of the UInt64 counter. */
  const CounterLimit: nat := 0x1_0000_0000_0000_0000

  /** Counter values at or above `from` give ids not yet in use. */
  ghost predicate FreshFrom(data: map<string, TaskMetadata>, from: nat)
  {
    forall n :: from <= n < CounterLimit ==> P.Decimal(n) !in data
  }

  /** Ids drawn from distinct counter values differ. */
  lemma IdsNeverReused(a: nat, b: nat)
    requires a < b
    ensures P.Decimal(a) != P.Decimal(b)
  {
    if P.Decimal(a) == P.Decimal(b) {
      P.DecimalInjective(a, b);
    }
  }

  /** TaskProcessingTable: tasks by id, ids drawn from an unsigned 64-bit
      counter. */
  class TaskProcessingTable {
    var data: map<string, TaskMetadata>
    var counter: nat
    /** Whether the counter has gone round past its maximum. */
    ghost var wrapped: bool

    ghost predicate Valid()
      reads this
    {
      counter < CounterLimit && (!wrapped ==> FreshFrom(data, counter))
    }

    constructor ()
      ensures Valid() && data == map[] && counter == 0 && !wrapped
    {
      data := map[];
      counter := 0;
      wrapped := false;
    }

    /** InsertTask: the id is the counter in decimal, and the counter moves
        on (unchecked, so it wraps at 2^64). `ok` is false where
        Dictionary.Add would throw on a key already present, which can only
        happen once the counter has wrapped. */
    method InsertTask(tm: TaskMetadata) returns (id: string, ok: bool)
      requires Valid()
      modifies this
      ensures Valid()
      ensures id == P.Decimal(old(counter)) && counter == (old(counter) + 1) % CounterLimit
      ensures wrapped == (old(wrapped) || old(counter) == CounterLimit - 1)
      ensures ok <==> id !in old(data)
      ensures !old(wrapped) ==> ok
      ensures data == if ok then old(data)[id := tm] else old(data)
    {
      id := P.Decimal(counter);
      var previous := counter;
      counter := (counter + 1) % CounterLimit;
      wrapped := wrapped || previous == CounterLimit - 1;
      ok := id !in data;
      if ok {
        data := data[id := tm];
      }
      if !wrapped {
        forall n | counter <= n < CounterLimit
          ensures P.Decimal(n) !in data
        {
          IdsNeverReused(previous, n);
        }
      }
    }

    /** RemoveTask: true iff the id was present; only that entry goes. */
    method RemoveTask(id: P.Option<string>) returns (removed: bool)
      requires Valid()
      modifies this
      ensures Valid() && counter == old(counter) && wrapped == old(wrapped)
      ensures removed <==> id.Some? && id.value in old(data)
      ensures data == if id.Some? then old(data) - {id.value} else old(data)
    {
      if id.None? {
        return false;
      }
      removed := id.value in data;
      data := data - {id.value};
    }

    /** RemoveTasks: removes exactly the tasks whose metadata satisfies
        `selector`; the keys are collected first, then removed. */
    method RemoveTasks(selector: P.Option<Metadata -> bool>)
      requires Valid()
      modifies this
      ensures Valid() && counter == old(counter) && wrapped == old(wrapped)
      ensures selector.None? ==> data == old(data)
      ensures selector.Some? ==> forall id :: id in data <==> id in old(data) && !selector.value(old(data)[id].Value())
      ensures forall id :: id in data ==> data[id] == old(data)[id]
    {
      if selector.None? {
        return;
      }
      var snapshot := map id | id in data :: data[id].Value();
      var select := selector.value;
      var toRemove := E.CollectKeys(snapshot, (id: string, tm: Metadata) => select(tm));
      data := data - toRemove;
    }

    /** UpdateTask: replaces the metadata of an existing id; never adds. */
    method UpdateTask(id: P.Option<string>, tm: TaskMetadata) returns (updated: bool)
      requires Valid()
      modifies this
      ensures Valid() && counter == old(counter) && wrapped == old(wrapped)
      ensures updated <==> id.Some? && id.value in old(data)
      ensures data == if updated then old(data)[id.value := tm] else old(data)
    {
      if id.Some? && id.value in data {
        data := data[id.value := tm];
        return true;
      }
      return false;
    }

    /** TryGetTask: membership and the stored metadata (null otherwise). */
    method TryGetTask(id: P.Option<string>) returns (found: bool, tm: TaskMetadata?)
      ensures found <==> id.Some? && id.value in data
      ensures tm == if found then data[id.value] else null
    {
      if id.Some? && id.value in data {
        return true, data[id.value];
      }
      return false, null;
    }
  }
}
