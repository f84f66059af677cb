/** The scheduler's goroutines as a step system (`internal/services/scheduler/scheduler.go`): one scheduling loop,
  * N workers behind the unbuffered `jobs` channel, a `results` buffer of capacity N, one consumer that hands its
  * events back through the unbuffered `events` channel, and the ordered closes of a shutdown. */
module Pipeline {
  import opened Domain
  import opened Jobs
  import opened Results
  import opened SchedulerCore

  /** Where `schedule` stands: in `dispatch`'s loop, blocked on a send, in its own select, or returned. */
  datatype Loop = Dispatching(now: Time) | Sending(job: CheckJob, now: Time) | Waiting | Returned

  /** A result on its way. The ticket numbers the jobs in the order workers received them. */
  datatype Item = Item(ticket: nat, result: CheckResultInput)

  datatype Worker = Idle | Checking(ticket: nat, job: CheckJob) | Holding(item: Item) | Exited

  /** Where `consume` stands; `ClosingEvents` is between its two deferred closes, `done` first. */
  datatype Consumer = Receiving | Handling(item: Item) | Offering(item: Item) | ClosingEvents | Finished

  /** What the scheduling loop does that bears on a config's timing: a job handed to a worker by the dispatch that
    * began at `at`, a completion applied to a mapped state, a config event with the interval it leaves, if any. */
  datatype LogItem =
    | Sent(config: Id, ticket: nat, interval: Duration, at: Time)
    | Settled(config: Id, ticket: nat, interval: Duration, completedAt: Time)
    | Reconfigured(config: Id, left: Option<Duration>)

  /** The jobs on their way: workers, results buffer, consumer; what workers received and the handler was given. */
  datatype Flow = Flow(
    workers: seq<Worker>,
    results: seq<Item>,
    consumer: Consumer,
    received: seq<CheckJob>,
    handled: seq<Item>)

  /** The dispatch context and the channels' closes. */
  datatype Gates = Gates(
    cancelled: bool,
    jobsClosed: bool,
    resultsClosed: bool,
    doneClosed: bool,
    eventsClosed: bool)

  datatype Pipe = Pipe(loop: Loop, table: Table, log: seq<LogItem>, flow: Flow, gates: Gates, clock: Time)

  /** The system as `Start` leaves it, with at least one worker (`New` turns zero into ten). */
  ghost predicate Initial(s: Pipe) {
    && s.loop == Dispatching(s.clock)
    && TableFiled(s.table)
    && (forall id | id in s.table :: !s.table[id].inFlight)
    && s.log == []
    && |s.flow.workers| >= 1
    && (forall w | 0 <= w < |s.flow.workers| :: s.flow.workers[w].Idle?)
    && s.flow == Flow(s.flow.workers, [], Receiving, [], [])
    && s.gates == Gates(false, false, false, false, false)
  }

  datatype Action =
    | PopDue(id: Id)
    | DispatchDone
    | HandOff(w: nat)
    | SendCancelled
    | TimerFires
    | TakeCompletion
    | SeeEventsClosed
    | TakeConfigEvent(ev: ConfigEvent)
    | ScheduleReturns
    | CheckReturns(w: nat, outcome: CheckOutcome)
    | PushResult(w: nat)
    | WorkerExits(w: nat)
    | CloseResults
    | ConsumerReceives
    | HandlerReturns
    | OfferCancelled
    | CloseDone
    | CloseEvents
    | Cancel
    | Tick(to: Time)

  /** A send is enabled by where its goroutine stands, never by the channel being open: sending on a closed
    * channel would panic, and that it cannot happen is a theorem. */
  ghost predicate Enabled(s: Pipe, a: Action) {
    var f, g := s.flow, s.gates;
    match a
    case PopDue(id) => s.loop.Dispatching? && NextToPop(s.table, s.loop.now, id)
    case DispatchDone => s.loop.Dispatching? && DueConfigs(s.table, s.loop.now) == {}
    case HandOff(w) => s.loop.Sending? && w < |f.workers| && f.workers[w].Idle?
    case SendCancelled => s.loop.Sending? && g.cancelled
    case TimerFires => s.loop.Waiting?
    case TakeCompletion => s.loop.Waiting? && f.consumer.Offering?
    case SeeEventsClosed => s.loop.Waiting? && g.eventsClosed
    case TakeConfigEvent(_) => s.loop.Waiting?
    case ScheduleReturns => s.loop.Waiting? && g.cancelled
    case CheckReturns(w, _) => w < |f.workers| && f.workers[w].Checking?
    case PushResult(w) => w < |f.workers| && f.workers[w].Holding? && |f.results| < |f.workers|
    case WorkerExits(w) => w < |f.workers| && f.workers[w].Idle? && g.jobsClosed
    case CloseResults => !g.resultsClosed && forall w | 0 <= w < |f.workers| :: f.workers[w].Exited?
    case ConsumerReceives => f.consumer.Receiving? && f.results != []
    case HandlerReturns => f.consumer.Handling?
    case OfferCancelled => f.consumer.Offering? && g.cancelled
    case CloseDone => f.consumer.Receiving? && f.results == [] && g.resultsClosed
    case CloseEvents => f.consumer.ClosingEvents?
    case Cancel => !g.cancelled
    case Tick(to) => s.clock <= to
  }

  function NextLoop(s: Pipe, a: Action): Loop
    requires Enabled(s, a)
  {
    match a
    case PopDue(id) => Sending(s.table[id].job, s.loop.now)
    case HandOff(_) => Dispatching(s.loop.now)
    case DispatchDone => Waiting
    case SendCancelled => Waiting
    case TimerFires => Dispatching(s.clock)
    case TakeCompletion => Dispatching(s.clock)
    case SeeEventsClosed => Dispatching(s.clock)
    case TakeConfigEvent(_) => Dispatching(s.clock)
    case ScheduleReturns => Returned
    case _ => s.loop
  }

  function NextTable(s: Pipe, a: Action): Table
    requires Enabled(s, a)
  {
    match a
    case PopDue(id) => AfterPop(s.table, id)
    case TakeCompletion =>
      var r := s.flow.consumer.item.result;
      AfterCompletion(s.table, r.configID, r.checkedAt)
    case TakeConfigEvent(ev) => AfterConfigEvent(s.table, ev, s.clock)
    case _ => s.table
  }

  function Logged(s: Pipe, a: Action): seq<LogItem>
    requires Enabled(s, a)
  {
    match a
    case HandOff(_) =>
      var b := s.loop.job.base;
      [Sent(b.configID, |s.flow.received|, b.interval, s.loop.now)]
    case TakeCompletion =>
      var item := s.flow.consumer.item;
      var id := item.result.configID;
      if id !in s.table then []
      else [Settled(id, item.ticket, s.table[id].job.base.interval, item.result.checkedAt)]
    case TakeConfigEvent(ev) =>
      [Reconfigured(ev.Config(), if ev.Deleted? then None else Some(ev.job.base.interval))]
    case _ => []
  }

  function WithWorker(f: Flow, w: nat, worker: Worker): Flow
    requires w < |f.workers|
  {
    f.(workers := f.workers[w := worker])
  }

  function NextFlow(s: Pipe, a: Action): Flow
    requires Enabled(s, a)
  {
    var f := s.flow;
    match a
    case HandOff(w) =>
      WithWorker(f, w, Checking(|f.received|, s.loop.job)).(received := f.received + [s.loop.job])
    case TakeCompletion => f.(consumer := Receiving)
    case CheckReturns(w, outcome) =>
      var worker := f.workers[w];
      WithWorker(f, w, Holding(Item(worker.ticket, WorkerResult(worker.job, outcome, s.clock))))
    case PushResult(w) => WithWorker(f, w, Idle).(results := f.results + [f.workers[w].item])
    case WorkerExits(w) => WithWorker(f, w, Exited)
    case ConsumerReceives =>
      f.(consumer := Handling(f.results[0]), results := f.results[1..], handled := f.handled + [f.results[0]])
    case HandlerReturns => f.(consumer := Offering(f.consumer.item))
    case OfferCancelled => f.(consumer := Receiving)
    case CloseDone => f.(consumer := ClosingEvents)
    case CloseEvents => f.(consumer := Finished)
    case _ => f
  }

  function NextGates(g: Gates, a: Action): Gates {
    match a
    case ScheduleReturns => g.(jobsClosed := true)
    case CloseResults => g.(resultsClosed := true)
    case CloseDone => g.(doneClosed := true)
    case CloseEvents => g.(eventsClosed := true)
    case Cancel => g.(cancelled := true)
    case _ => g
  }

  function Next(s: Pipe, a: Action): Pipe
    requires Enabled(s, a)
  {
    Pipe(NextLoop(s, a), NextTable(s, a), s.log + Logged(s, a), NextFlow(s, a), NextGates(s.gates, a),
         if a.Tick? then a.to else s.clock)
  }

  /** `actions` can be taken one after the other from `s`. */
  ghost predicate IsRun(s: Pipe, actions: seq<Action>)
    decreases |actions|
  {
    actions == [] || (Enabled(s, actions[0]) && IsRun(Next(s, actions[0]), actions[1..]))
  }

  ghost function After(s: Pipe, actions: seq<Action>): Pipe
    requires IsRun(s, actions)
    decreases |actions|
  {
    if actions == [] then s else After(Next(s, actions[0]), actions[1..])
  }
}
