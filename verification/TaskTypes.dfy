/** The enumerations and small value types shared by the whole model. */
module TaskTypes {

  datatype Option<+T> = None | Some(value: T)

  /** Names of threads and engines; there is no bound on either. */
  type Tid = nat
  type EngineId = nat

  /** Where a task runs. Structural equality is the source's operator==: the
      payload counts for engines and thread pool queues only. */
  datatype Handler =
    | Idle
    | Immediate
    | Engine(engine: EngineId)
    | ThreadPool(queue: nat)

  /** Why multiplex() was called. */
  datatype Event = InitialRun | ScheduleRun | NormalRun | InsertAbort

  datatype BaseState = Reset | Initialize | Multiplex | Abort | Finish | Callback | Killed

  /** A boolean one of whose values is only known to have held a moment ago. */
  datatype FuzzyBool = True | WasFalse
}
