/** The page snapshot cache as a transition system: a disk snapshot per key, invalidation
    times, and at most one refresh task per key, run by an event loop. */
module CacheModel {
  import opened Wrappers

  type Key = string
  type Payload = string
  type TaskId = nat

  // ---- policies ----

  /** A page's refresh policy; the interval is in milliseconds, absent when it is no number. */
  datatype Policy = Policy(mode: string, interval: Option<int>)

  /** `page_cache_ttl_seconds`, kept in milliseconds. */
  function Ttl(policy: Policy): (ttl: nat)
    ensures ttl > 0 ==> policy.mode == "live" || policy.mode == "near_live"
  {
    if policy.mode != "live" && policy.mode != "near_live" then 0
    else if policy.interval.None? then 0
    else if policy.interval.value > 0 then policy.interval.value
    else 0
  }

  datatype Page = Page(key: Key, policy: Policy, interval: int)

  // ---- state ----

  /** Who wrote a snapshot: an earlier process, a refresh task, or a rebuild awaited by a caller. */
  datatype Writer = Earlier | Background(task: TaskId) | Direct(build: nat)

  datatype Snapshot = Snapshot(mtime: int, payload: Payload, writer: Writer)

  datatype Phase = Created | Building | Finished

  datatype Task = Task(key: Key, startedAt: int, phase: Phase, cancelled: bool) {
    predicate Done() {
      phase == Finished
    }

    /** Unfinished, and nobody has asked it to stop. */
    predicate Live() {
      phase != Finished && !cancelled
    }
  }

  datatype Build = Build(key: Key, startedAt: int, done: bool)

  datatype State = State(
    now: int,
    hasDirectory: bool,
    disk: map<Key, Snapshot>,
    invalidatedAt: map<Key, int>,
    allInvalidatedAt: int,
    refreshTasks: map<Key, TaskId>,
    tasks: seq<Task>,
    builds: seq<Build>,
    pages: seq<Page>)

  function InvalidatedAt(s: State, key: Key): (t: int)
    ensures t >= s.allInvalidatedAt && t >= if key in s.invalidatedAt then s.invalidatedAt[key] else 0
  {
    var own := if key in s.invalidatedAt then s.invalidatedAt[key] else 0;
    if s.allInvalidatedAt > own then s.allInvalidatedAt else own
  }

  predicate OnDisk(s: State, key: Key) {
    s.hasDirectory && key in s.disk
  }

  /** A request for the key is answered from the disk. */
  predicate Serves(s: State, key: Key) {
    OnDisk(s, key) && s.disk[key].mtime > InvalidatedAt(s, key)
  }

  // ---- steps ----

  function NeedsRefresh(s: State, key: Key, interval: int): bool {
    if !OnDisk(s, key) then true
    else if s.disk[key].mtime <= InvalidatedAt(s, key) then true
    else if interval <= 0 then false
    else s.disk[key].mtime + interval <= s.now
  }

  /** `refresh_if_due`; without a running loop the task cannot be created. */
  function RefreshIfDue(s: State, key: Key, interval: int, loop: bool): State {
    if !NeedsRefresh(s, key, interval) then s
    else if key in s.refreshTasks && s.refreshTasks[key] < |s.tasks| && !s.tasks[s.refreshTasks[key]].Done() then s
    else if !loop then s
    else s.(tasks := s.tasks + [Task(key, s.now, Created, false)], refreshTasks := s.refreshTasks[key := |s.tasks|])
  }

  function RefreshPages(s: State, pages: seq<Page>, loop: bool): State
    decreases |pages|
  {
    if pages == [] then s
    else RefreshPages(RefreshIfDue(s, pages[0].key, pages[0].interval, loop), pages[1..], loop)
  }

  /** `get_or_build` up to its first await: serve and maybe refresh, or start a rebuild. */
  function Get(s: State, key: Key, policy: Policy): State {
    if Serves(s, key) then RefreshIfDue(s, key, Ttl(policy), true)
    else s.(builds := s.builds + [Build(key, s.now, false)])
  }

  function Write(s: State, key: Key, payload: Payload, writer: Writer, stored: bool): State {
    if s.hasDirectory && stored then s.(disk := s.disk[key := Snapshot(s.now, payload, writer)]) else s
  }

  function CancelAll(tasks: seq<Task>, ids: set<TaskId>): (r: seq<Task>)
    ensures |r| == |tasks|
  {
    seq(|tasks|, i requires 0 <= i < |tasks| => if i in ids then tasks[i].(cancelled := true) else tasks[i])
  }

  /** `invalidate()` */
  function InvalidateAll(s: State, loop: bool): State {
    var cleared := s.(
      tasks := CancelAll(s.tasks, s.refreshTasks.Values), refreshTasks := map[], allInvalidatedAt := s.now);
    RefreshPages(cleared, s.pages, loop)
  }

  function PagesOf(pages: seq<Page>, key: Key): seq<Page> {
    if pages == [] then []
    else if pages[0].key == key then [pages[0]]
    else PagesOf(pages[1..], key)
  }

  /** `invalidate(key)` */
  function InvalidateKey(s: State, key: Key, loop: bool): State {
    var ids := if key in s.refreshTasks then {s.refreshTasks[key]} else {};
    var cleared := s.(
      tasks := CancelAll(s.tasks, ids), refreshTasks := s.refreshTasks - {key},
      invalidatedAt := s.invalidatedAt[key := s.now]);
    RefreshPages(cleared, PagesOf(s.pages, key), loop)
  }

  function RegisterPage(pages: seq<Page>, page: Page): seq<Page> {
    if pages == [] then [page]
    else if pages[0].key == page.key then [page] + pages[1..]
    else [pages[0]] + RegisterPage(pages[1..], page)
  }

  function SetPhase(s: State, id: TaskId, phase: Phase): State
    requires id < |s.tasks|
  {
    s.(tasks := s.tasks[id := s.tasks[id].(phase := phase)])
  }

  /** The `finally` of a refresh task: it removes its own entry and no other. */
  function Leave(s: State, id: TaskId): State
    requires id < |s.tasks|
  {
    var key := s.tasks[id].key;
    if key in s.refreshTasks && s.refreshTasks[key] == id then s.(refreshTasks := s.refreshTasks - {key}) else s
  }

  datatype Outcome = Built(payload: Payload, stored: bool) | Raised

  datatype Event =
    | Request(key: Key, policy: Policy)
    | Register(page: Page)
    | Maintain
    | Invalidate(which: Option<Key>, loop: bool)
    /** The loop runs a task for the first time; a task cancelled before that never enters its body. */
    | Start(id: TaskId)
    /** The builder returns or raises, and the rest of the task runs without a pause. */
    | Finish(id: TaskId, outcome: Outcome)
    /** The loop throws the requested cancellation into the task. */
    | Stop(id: TaskId)
    /** Somebody else, such as a loop shutting down, asks the task to stop. */
    | Cancel(id: TaskId)
    /** A rebuild awaited by a caller returns. */
    | FinishBuild(build: nat, payload: Payload, stored: bool)
    | Tick(elapsed: nat)

  predicate Enabled(s: State, e: Event) {
    match e
    case Start(id) => id < |s.tasks| && s.tasks[id].phase == Created
    case Finish(id, _) => id < |s.tasks| && s.tasks[id].phase == Building && !s.tasks[id].cancelled
    case Stop(id) => id < |s.tasks| && s.tasks[id].phase == Building && s.tasks[id].cancelled
    case Cancel(id) => id < |s.tasks| && !s.tasks[id].Done()
    case FinishBuild(b, _, _) => b < |s.builds| && !s.builds[b].done
    case _ => true
  }

  function FinishTask(s: State, id: TaskId, outcome: Outcome): State
    requires id < |s.tasks|
  {
    var written :=
      if outcome.Built? then Write(s, s.tasks[id].key, outcome.payload, Background(id), outcome.stored) else s;
    SetPhase(Leave(written, id), id, Finished)
  }

  function Step(s: State, e: Event): State
    requires Enabled(s, e)
  {
    match e
    case Request(key, policy) => Get(s, key, policy)
    case Register(page) => s.(pages := RegisterPage(s.pages, page))
    case Maintain => RefreshPages(s, s.pages, true)
    case Invalidate(which, loop) => if which.None? then InvalidateAll(s, loop) else InvalidateKey(s, which.value, loop)
    case Start(id) => SetPhase(s, id, if s.tasks[id].cancelled then Finished else Building)
    case Finish(id, outcome) => FinishTask(s, id, outcome)
    case Stop(id) => SetPhase(Leave(s, id), id, Finished)
    case Cancel(id) => s.(tasks := s.tasks[id := s.tasks[id].(cancelled := true)])
    case FinishBuild(b, payload, stored) =>
      Write(s, s.builds[b].key, payload, Direct(b), stored).(builds := s.builds[b := s.builds[b].(done := true)])
    case Tick(elapsed) => s.(now := s.now + elapsed)
  }

  /** A new cache over snapshots that an earlier process left. */
  predicate Initial(s: State) {
    && s.now >= 0 && s.invalidatedAt == map[] && s.allInvalidatedAt == 0
    && s.refreshTasks == map[] && s.tasks == [] && s.builds == [] && s.pages == []
    && forall k | k in s.disk :: s.disk[k].mtime <= s.now && s.disk[k].writer == Earlier
  }

  /** The events can happen in this order. */
  predicate Possible(s: State, events: seq<Event>)
    decreases |events|
  {
    events == [] || (Enabled(s, events[0]) && Possible(Step(s, events[0]), events[1..]))
  }

  function Run(s: State, events: seq<Event>): State
    requires Possible(s, events)
    decreases |events|
  {
    if events == [] then s else Run(Step(s, events[0]), events[1..])
  }
}
