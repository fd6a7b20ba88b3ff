/** Values of the operations-room state: what one instant of the store holds. */
module OpsTypes {

  datatype Option<+T> = None | Some(value: T) {
    function GetOr(default: T): T {
      match this
      case Some(v) => v
      case None => default
    }
  }

  type Id = string

  /** A JavaScript guard `if (text)`: absent and empty text are both false. */
  predicate Truthy(text: Option<string>) {
    text.Some? && text.value != ""
  }

  function OrElse<T>(first: Option<T>, second: Option<T>): Option<T> {
    if first.Some? then first else second
  }

  datatype WorkerState = Idle | Planning | Executing | Blocked | Reviewing | Done | Failed {
    predicate Terminal() {
      Done? || Failed?
    }
  }

  datatype FileOp = Created | Modified | Deleted | Renamed | Read

  datatype Payload =
    | StateChange(next: WorkerState, from: Option<WorkerState>, stateNote: Option<string>)
    | Log(line: string)
    | Progress(percent: int, eta: Option<int>, note: Option<string>)
    | FileActivity(op: FileOp, added: Option<int>, removed: Option<int>)
    | TestResult(suite: string, passed: int, failed: int, skipped: int)
    | Cost(usd: real, input: int, output: int, costModel: Option<string>)
    | Dependency(waitingOn: seq<Id>)
    | Completion(summary: string)
    | Failure(error: string)
    | Unrecognized

  /** One event of a worker's stream. `ts` is the parsed timestamp in milliseconds. */
  datatype Event = Event(workerId: Id, taskId: Option<Id>, seqNo: nat, ts: int, payload: Payload) {
    /** The task the event is attributed to, if the reducer attributes it at all. */
    predicate Tasked() {
      Truthy(taskId)
    }

    predicate Names(task: Id) {
      Tasked() && taskId.value == task
    }
  }

  datatype TimelineEntry = TimelineEntry(at: int, title: string, detail: Option<string>)

  datatype ProgressInfo = ProgressInfo(percent: Option<int>, eta: Option<int>, note: Option<string>)
  datatype FileTotals = FileTotals(added: int, modified: int, deleted: int, linesAdded: int, linesRemoved: int)
  datatype TestTotals = TestTotals(passed: int, failed: int, skipped: int, suite: Option<string>)
  datatype SpendTotals = SpendTotals(usd: real, input: int, output: int)
  datatype MissionTag = MissionTag(scoped: bool, id: Option<Id>, timeline: seq<TimelineEntry>)

  datatype Worker = Worker(
    id: Id,
    vendor: string,
    model: Option<string>,
    state: WorkerState,
    spawnedAt: int,
    currentTaskId: Option<Id>,
    currentTaskTitle: Option<string>,
    progress: ProgressInfo,
    files: FileTotals,
    tests: TestTotals,
    spend: SpendTotals,
    recentLog: Option<string>,
    blockedOn: Option<seq<Id>>,
    failureSummary: Option<string>,
    completionSummary: Option<string>,
    flashUntil: int,
    eventCount: nat,
    mission: MissionTag)

  datatype Task = Task(id: Id, workerId: Id, state: Option<WorkerState>, completedAt: Option<int>)

  datatype AlertKind = CompletionAlert | FailureAlert | BlockedAlert | UnblockedAlert | StartedAlert | SeqGapAlert

  /** The text of an alert, before the numbers in it are rendered. */
  datatype AlertDetail =
    | NoDetail
    | Text(text: string)
    | Regression(seen: int, last: int)
    | Gap(missing: int, after: int, before: int)

  datatype Alert = Alert(kind: AlertKind, workerId: Id, seqNo: nat, detail: AlertDetail, ts: int)

  datatype EdgeState = PendingEdge | BlockedEdge | DoneEdge

  datatype Edge = Edge(source: Id, target: Id, state: EdgeState)

  datatype ReviewStatus = NeedsReview | Accepted | Rejected | Parked

  datatype Squad = Squad(id: Id, name: string, color: string, workerIds: seq<Id>, lead: Option<Id>, createdAt: int)

  /** The hand-made organisation of workers into squads. */
  datatype SquadTables = SquadTables(squads: map<Id, Squad>, order: seq<Id>, squadOf: map<Id, Id>)

  /** What the person at the screen has selected; nothing else depends on it. */
  datatype Ui = Ui(selected: Option<Id>, reviewFocus: Option<Id>)

  datatype Ops = Ops(
    workers: map<Id, Worker>,
    workerOrder: seq<Id>,
    tasks: map<Id, Task>,
    taskOwner: map<Id, Id>,
    workerEvents: map<Id, seq<Event>>,
    alerts: seq<Alert>,
    totalEvents: nat,
    totalSpendUsd: real,
    activeCount: int,
    needsInputCount: int,
    edges: seq<Edge>,
    lastSeq: map<Id, int>,
    org: SquadTables,
    reviewStatus: map<Id, ReviewStatus>,
    ui: Ui)

  const EMPTY := Ops(map[], [], map[], map[], map[], [], 0, 0.0, 0, 0, [], map[],
                     SquadTables(map[], [], map[]), map[], Ui(None, None))

  const MAX_EVENTS_PER_WORKER := 500
  const MAX_ALERTS := 24
  const FLASH_MS := 1800
  const MAX_TIMELINE := 100

  /** The last `n` elements of a sequence, or all of it. */
  function Last<T>(s: seq<T>, n: nat): seq<T> {
    if |s| <= n then s else s[|s| - n..]
  }

  /** The first `n` elements of a sequence, or all of it. */
  function First<T>(s: seq<T>, n: nat): (r: seq<T>)
    ensures |r| <= n && r <= s
  {
    if |s| <= n then s else s[..n]
  }

  ghost predicate NoDuplicates<T>(s: seq<T>) {
    forall i, j :: 0 <= i < j < |s| ==> s[i] != s[j]
  }

  function FreshWorker(id: Id, spawnedAt: int): Worker {
    Worker(id, "mock", None, Idle, spawnedAt, None, None, ProgressInfo(None, None, None),
           FileTotals(0, 0, 0, 0, 0), TestTotals(0, 0, 0, None), SpendTotals(0.0, 0, 0),
           None, None, None, None, 0, 0, MissionTag(false, None, []))
  }

  function Get<V>(m: map<Id, V>, key: Id): Option<V> {
    if key in m then Some(m[key]) else None
  }

  /** A worker whose review status is absent or `NeedsReview` is still to be reviewed. */
  predicate AwaitsReview(status: Option<ReviewStatus>) {
    status == None || status == Some(NeedsReview)
  }
}
