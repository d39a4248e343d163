/** The cache itself: fields that its methods update in place, each method tied to a step of
    the transition system. An await splits a coroutine into the methods before and after it. */
module PageSnapshotCache {
  import opened CacheModel
  import opened CacheRuns
  import opened Wrappers

  class Cache {
    var wallClock: int
    const hasDirectory: bool
    var disk: map<Key, Snapshot>
    var invalidatedAt: map<Key, int>
    var allInvalidatedAt: int
    var refreshTasks: map<Key, TaskId>
    var tasks: seq<Task>
    var builds: seq<Build>
    var registeredPages: seq<Page>

    function Current(): State
      reads this
    {
      State(wallClock, hasDirectory, disk, invalidatedAt, allInvalidatedAt, refreshTasks, tasks, builds,
        registeredPages)
    }

    ghost predicate Valid()
      reads this
    {
      Inv(Current())
    }

    constructor (clock: nat, hasDirectory: bool, snapshots: map<Key, Snapshot>)
      requires forall k | k in snapshots :: snapshots[k].mtime <= clock && snapshots[k].writer == Earlier
      ensures Initial(Current()) && Valid()
      ensures wallClock == clock && this.hasDirectory == hasDirectory && disk == snapshots
    {
      wallClock, this.hasDirectory, disk := clock, hasDirectory, snapshots;
      invalidatedAt, allInvalidatedAt := map[], 0;
      refreshTasks, tasks, builds, registeredPages := map[], [], [], [];
      new;
      InitialInv(Current());
    }

    method SnapshotTime(key: Key) returns (mtime: Option<int>)
      ensures mtime == if OnDisk(Current(), key) then Some(disk[key].mtime) else None
    {
      return if hasDirectory && key in disk then Some(disk[key].mtime) else None;
    }

    method RefreshNeeded(key: Key, interval: int) returns (needed: bool)
      ensures needed == NeedsRefresh(Current(), key, interval)
    {
      var mtime := SnapshotTime(key);
      if mtime.None? {
        return true;
      }
      if mtime.value <= InvalidatedAt(Current(), key) {
        return true;
      }
      if interval <= 0 {
        return false;
      }
      return mtime.value + interval <= wallClock;
    }

    method Refresh(key: Key, interval: int, loop: bool)
      requires Valid()
      modifies this`tasks, this`refreshTasks
      ensures Current() == RefreshIfDue(old(Current()), key, interval, loop)
      ensures Valid()
    {
      RefreshKeepsInv(Current(), key, interval, loop);
      var needed := RefreshNeeded(key, interval);
      if !needed {
        return;
      }
      assert KeyOk(Current(), key);
      if key in refreshTasks && !tasks[refreshTasks[key]].Done() {
        return;
      }
      if loop {
        refreshTasks := refreshTasks[key := |tasks|];
        tasks := tasks + [Task(key, wallClock, Created, false)];
      }
    }

    method RefreshAll(pages: seq<Page>, loop: bool)
      requires Valid()
      modifies this`tasks, this`refreshTasks
      ensures Current() == RefreshPages(old(Current()), pages, loop)
      ensures Valid()
    {
      for i := 0 to |pages|
        invariant Valid()
        invariant RefreshPages(Current(), pages[i..], loop) == RefreshPages(old(Current()), pages, loop)
      {
        assert pages[i..][1..] == pages[i + 1..];
        Refresh(pages[i].key, pages[i].interval, loop);
      }
    }

    /** One pass of `maintain_registered_pages`. */
    method MaintainRegisteredPages()
      requires Valid()
      modifies this`tasks, this`refreshTasks
      ensures Current() == Step(old(Current()), Event.Maintain) && Valid()
    {
      RefreshAll(registeredPages, true);
    }

    /** `get_or_build` up to its first await; without a payload a rebuild has begun. */
    method GetOrBuild(key: Key, policy: Policy) returns (served: Option<Payload>)
      requires Valid()
      modifies this`tasks, this`refreshTasks, this`builds
      ensures Current() == Step(old(Current()), Request(key, policy)) && Valid()
      ensures Answered(old(Current()), key, policy, Current())
      ensures served.Some? <==> Serves(old(Current()), key)
      ensures served.Some? ==> served.value == old(disk)[key].payload
    {
      StepKeepsInv(Current(), Request(key, policy));
      RequestIsAnswered(Current(), key, policy);
      var mtime := SnapshotTime(key);
      if mtime.Some? && mtime.value > InvalidatedAt(Current(), key) {
        Refresh(key, Ttl(policy), true);
        return Some(disk[key].payload);
      }
      builds := builds + [Build(key, wallClock, false)];
      return None;
    }

    method WriteDisk(key: Key, payload: Payload, writer: Writer, stored: bool)
      modifies this`disk
      ensures Current() == Write(old(Current()), key, payload, writer, stored)
    {
      if hasDirectory && stored {
        disk := disk[key := Snapshot(wallClock, payload, writer)];
      }
    }

    /** The rest of `get_or_build` once its builder has returned. */
    method EndBuild(build: nat, payload: Payload, stored: bool)
      requires Valid() && Enabled(Current(), FinishBuild(build, payload, stored))
      modifies this`disk, this`builds
      ensures Current() == Step(old(Current()), FinishBuild(build, payload, stored)) && Valid()
    {
      StepKeepsInv(Current(), FinishBuild(build, payload, stored));
      WriteDisk(builds[build].key, payload, Direct(build), stored);
      builds := builds[build := builds[build].(done := true)];
    }

    /** The `finally` of `refresh_task`. */
    method LeaveTask(id: TaskId)
      requires id < |tasks|
      modifies this`refreshTasks, this`tasks
      ensures Current() == SetPhase(Leave(old(Current()), id), id, Finished)
    {
      var key := tasks[id].key;
      if key in refreshTasks && refreshTasks[key] == id {
        refreshTasks := refreshTasks - {key};
      }
      tasks := tasks[id := tasks[id].(phase := Finished)];
    }

    /** The rest of `refresh_task` once its builder has returned or raised. */
    method EndTask(id: TaskId, outcome: Outcome)
      requires Valid() && Enabled(Current(), Finish(id, outcome))
      modifies this`disk, this`refreshTasks, this`tasks
      ensures Current() == Step(old(Current()), Finish(id, outcome)) && Valid()
    {
      StepKeepsInv(Current(), Finish(id, outcome));
      if outcome.Built? {
        WriteDisk(tasks[id].key, outcome.payload, Background(id), outcome.stored);
      }
      LeaveTask(id);
    }

    method Register(page: Page)
      requires Valid()
      modifies this`registeredPages
      ensures Current() == Step(old(Current()), Event.Register(page)) && Valid()
    {
      StepKeepsInv(Current(), Event.Register(page));
      registeredPages := RegisterPage(registeredPages, page);
    }

    /** Asks every listed task to stop. */
    method CancelTasks(ids: set<TaskId>)
      modifies this`tasks
      ensures tasks == CancelAll(old(tasks), ids)
    {
      var todo := ids;
      while todo != {}
        invariant todo <= ids
        invariant tasks == CancelAll(old(tasks), ids - todo)
        decreases |todo|
      {
        var id :| id in todo;
        todo := todo - {id};
        if id < |tasks| {
          tasks := tasks[id := tasks[id].(cancelled := true)];
        }
        assert forall i: nat :: i in ids - todo <==> i in ids - (todo + {id}) || i == id;
      }
      assert ids - {} == ids;
    }

    method Invalidate(which: Option<Key>, loop: bool)
      requires Valid()
      modifies this`tasks, this`refreshTasks, this`invalidatedAt, this`allInvalidatedAt
      ensures Current() == Step(old(Current()), Event.Invalidate(which, loop)) && Valid()
    {
      var now := wallClock;
      ClearedInv(Current(), which);
      if which.None? {
        CancelTasks(refreshTasks.Values);
        refreshTasks := map[];
        allInvalidatedAt := now;
        RefreshAll(registeredPages, loop);
        return;
      }
      var key := which.value;
      if key in refreshTasks {
        CancelTasks({refreshTasks[key]});
      } else {
        assert tasks == CancelAll(tasks, {});
      }
      refreshTasks := refreshTasks - {key};
      invalidatedAt := invalidatedAt[key := now];
      RefreshAll(PagesOf(registeredPages, key), loop);
    }
  }
}
