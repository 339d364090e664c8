/**
 A rig's command queue: what one command goes through, and how the controller picks the
 next one to hand out. Times are whole seconds.
 */
module CommandQueue {
  import opened Tuning

  datatype Action =
    | Start | Stop | Restart | Reboot | Shutdown | Logs
    | SmartTune | StopSmartTune | DriverUpdate | DriverList | Shell

  datatype Status = Pending | Running | Complete | Failed

  datatype Command = Command(
    id: string,
    action: Action,
    profile: string,
    status: Status,
    attempt: nat,
    leaseUntil: int,
    error: string,
    output: string)

  datatype Result = Result(error: string, output: string, tuned: seq<Setting>)

  function Queued(id: string, action: Action, profile: string): Command {
    Command(id, action, profile, Pending, 0, 0, "", "")
  }

  function LeaseSeconds(action: Action): int {
    match action
    case SmartTune => 3600
    case DriverUpdate => 1800
    case _ => 30
  }

  predicate Terminal(c: Command) {
    c.status.Complete? || c.status.Failed?
  }

  predicate OpenWith(c: Command, action: Action) {
    c.action == action && !Terminal(c)
  }

  predicate Leasable(c: Command, now: int) {
    c.status.Pending? || (c.status.Running? && c.leaseUntil < now)
  }

  function Leased(c: Command, now: int): Command {
    c.(status := Running, attempt := c.attempt + 1, leaseUntil := now + LeaseSeconds(c.action))
  }

  /** The oldest command that may be handed out now, or the length of the queue. */
  function FirstLeasable(queue: seq<Command>, now: int): (i: nat)
    ensures i <= |queue|
    ensures i < |queue| ==> Leasable(queue[i], now)
    ensures forall j :: 0 <= j < i ==> !Leasable(queue[j], now)
  {
    if queue == [] then 0
    else if Leasable(queue[0], now) then 0
    else 1 + FirstLeasable(queue[1..], now)
  }

  /** The position of a command, or the length of the queue. */
  function Find(queue: seq<Command>, id: string): (i: nat)
    ensures i <= |queue|
    ensures i < |queue| ==> queue[i].id == id
    ensures forall j :: 0 <= j < i ==> queue[j].id != id
  {
    if queue == [] then 0
    else if queue[0].id == id then 0
    else 1 + Find(queue[1..], id)
  }

  /** Stands for each of the errors recorded when a successful tune cannot be stored any more. */
  const TUNE_REFUSED := "the tuned settings no longer apply"

  function Finished(c: Command, error: string, output: string): Command {
    if error != "" then c.(status := Failed, error := error, output := output)
    else c.(status := Complete, output := output)
  }

  predicate DistinctIds(queue: seq<Command>) {
    forall i, j :: 0 <= i < j < |queue| ==> queue[i].id != queue[j].id
  }

  /** At most one command of the action is pending or running. */
  predicate OneOpen(queue: seq<Command>, action: Action) {
    forall i, j :: 0 <= i < j < |queue| ==> !(OpenWith(queue[i], action) && OpenWith(queue[j], action))
  }

  predicate HasOpen(queue: seq<Command>, action: Action) {
    exists i :: 0 <= i < |queue| && OpenWith(queue[i], action)
  }
}
