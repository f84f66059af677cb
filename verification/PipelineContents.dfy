/** What the pipeline holds: how many times each token, the identity of a received job, occurs in it. */
module PipelineContents {
  import opened Domain
  import opened Jobs
  import opened Results
  import opened SchedulerCore
  import opened Pipeline

  /** The identity a job keeps from the worker that receives it to the handler and back to the loop. */
  datatype Token = Token(ticket: nat, monitor: Id, config: Id, checkType: CheckType)

  function JobToken(ticket: nat, job: CheckJob): Token {
    Token(ticket, job.base.monitorID, job.base.configID, job.CheckType())
  }

  function ItemToken(item: Item): Token {
    Token(item.ticket, item.result.monitorID, item.result.configID, item.result.checkType)
  }

  function One(b: bool): nat {
    if b then 1 else 0
  }

  function AtWorker(w: Worker, t: Token): nat {
    match w
    case Checking(ticket, job) => One(JobToken(ticket, job) == t)
    case Holding(item) => One(ItemToken(item) == t)
    case _ => 0
  }

  function AtWorkers(ws: seq<Worker>, t: Token): nat {
    if ws == [] then 0 else AtWorkers(ws[..|ws| - 1], t) + AtWorker(ws[|ws| - 1], t)
  }

  function InItems(items: seq<Item>, t: Token): nat {
    if items == [] then 0 else InItems(items[..|items| - 1], t) + One(ItemToken(items[|items| - 1]) == t)
  }

  function AtConsumer(c: Consumer, t: Token): nat {
    if c.Handling? || c.Offering? then One(ItemToken(c.item) == t) else 0
  }

  /** Occurrences among the jobs received but not yet passed to the result handler. */
  function Unhandled(f: Flow, t: Token): nat {
    AtWorkers(f.workers, t) + InItems(f.results, t)
  }

  /** Occurrences among the jobs received whose completion the loop has neither taken nor lost to a cancellation. */
  function Outstanding(f: Flow, t: Token): nat {
    Unhandled(f, t) + AtConsumer(f.consumer, t)
  }

  /** Some worker received the job with this token. */
  predicate Issued(received: seq<CheckJob>, t: Token) {
    t.ticket < |received| && t == JobToken(t.ticket, received[t.ticket])
  }

  lemma {:induction false} WorkerUpdate(ws: seq<Worker>, w: nat, worker: Worker, t: Token)
    requires w < |ws|
    ensures AtWorkers(ws[w := worker], t) == AtWorkers(ws, t) - AtWorker(ws[w], t) + AtWorker(worker, t)
  {
    var n := |ws| - 1;
    if w < n {
      WorkerUpdate(ws[..n], w, worker, t);
      assert ws[w := worker][..n] == ws[..n][w := worker];
    } else {
      assert ws[w := worker][..n] == ws[..n];
    }
  }

  lemma {:induction false} NoneAtWorkers(ws: seq<Worker>, t: Token)
    requires forall w | 0 <= w < |ws| :: AtWorker(ws[w], t) == 0
    ensures AtWorkers(ws, t) == 0
  {
    if ws != [] {
      NoneAtWorkers(ws[..|ws| - 1], t);
    }
  }

  lemma ItemsAppend(items: seq<Item>, item: Item, t: Token)
    ensures InItems(items + [item], t) == InItems(items, t) + One(ItemToken(item) == t)
  {
    assert (items + [item])[..|items|] == items;
  }

  lemma {:induction false} ItemsDropFirst(items: seq<Item>, t: Token)
    requires items != []
    ensures InItems(items, t) == One(ItemToken(items[0]) == t) + InItems(items[1..], t)
  {
    var n := |items| - 1;
    if n > 0 {
      ItemsDropFirst(items[..n], t);
      assert items[..n][1..] == items[1..][..n - 1];
    }
  }

  /** An item occurs at least as often as the distinct positions `i` and `j` show. */
  lemma {:induction false} ItemOccurs(items: seq<Item>, i: nat, j: nat)
    requires i <= j < |items|
    ensures InItems(items, ItemToken(items[j])) >= 1
    ensures i < j && ItemToken(items[i]) == ItemToken(items[j]) ==> InItems(items, ItemToken(items[j])) >= 2
  {
    var n := |items| - 1;
    if j < n {
      ItemOccurs(items[..n], i, j);
    } else if i < n {
      ItemOccurs(items[..n], i, i);
    }
  }

  lemma {:induction false} ItemFound(items: seq<Item>, t: Token) returns (k: nat)
    requires InItems(items, t) >= 1
    ensures k < |items| && ItemToken(items[k]) == t
  {
    var n := |items| - 1;
    if ItemToken(items[n]) == t {
      k := n;
    } else {
      k := ItemFound(items[..n], t);
    }
  }

  // ---- how much the pipeline holds ---------------------------------------------------------------

  predicate Busy(w: Worker) {
    w.Checking? || w.Holding?
  }

  function BusyWorkers(ws: seq<Worker>): (n: nat)
    ensures n <= |ws|
  {
    if ws == [] then 0 else BusyWorkers(ws[..|ws| - 1]) + One(Busy(ws[|ws| - 1]))
  }

  /** The number of jobs outstanding: at workers, in the buffer, at the consumer. */
  function Load(f: Flow): nat {
    BusyWorkers(f.workers) + |f.results| + One(f.consumer.Handling? || f.consumer.Offering?)
  }

  lemma {:induction false} BusyUpdate(ws: seq<Worker>, w: nat, worker: Worker)
    requires w < |ws|
    ensures BusyWorkers(ws[w := worker]) == BusyWorkers(ws) - One(Busy(ws[w])) + One(Busy(worker))
  {
    var n := |ws| - 1;
    if w < n {
      BusyUpdate(ws[..n], w, worker);
      assert ws[w := worker][..n] == ws[..n][w := worker];
    } else {
      assert ws[w := worker][..n] == ws[..n];
    }
  }

  lemma {:induction false} AllBusy(ws: seq<Worker>)
    requires forall w | 0 <= w < |ws| :: Busy(ws[w])
    ensures BusyWorkers(ws) == |ws|
  {
    if ws != [] {
      AllBusy(ws[..|ws| - 1]);
    }
  }

  // ---- how much is left to do --------------------------------------------------------------------

  function WorkAt(w: Worker): nat {
    match w
    case Checking(_, _) => 6
    case Holding(_) => 5
    case Idle => 1
    case Exited => 0
  }

  function WorkAtAll(ws: seq<Worker>): nat {
    if ws == [] then 0 else WorkAtAll(ws[..|ws| - 1]) + WorkAt(ws[|ws| - 1])
  }

  function WorkAtConsumer(c: Consumer): nat {
    match c
    case Handling(_) => 4
    case Offering(_) => 3
    case Receiving => 2
    case ClosingEvents => 1
    case Finished => 0
  }

  /** A bound on the steps workers and consumer can take before they need a new job or a new close. */
  function Work(f: Flow): nat {
    WorkAtAll(f.workers) + 3 * |f.results| + WorkAtConsumer(f.consumer)
  }

  lemma {:induction false} WorkUpdate(ws: seq<Worker>, w: nat, worker: Worker)
    requires w < |ws|
    ensures WorkAtAll(ws[w := worker]) == WorkAtAll(ws) - WorkAt(ws[w]) + WorkAt(worker)
  {
    var n := |ws| - 1;
    if w < n {
      WorkUpdate(ws[..n], w, worker);
      assert ws[w := worker][..n] == ws[..n][w := worker];
    } else {
      assert ws[w := worker][..n] == ws[..n];
    }
  }

  /** The number of actions that are not mere passing of time. */
  function Moves(actions: seq<Action>): nat {
    if actions == [] then 0 else One(!actions[0].Tick?) + Moves(actions[1..])
  }
}
