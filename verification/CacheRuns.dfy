/** What every run of the snapshot cache keeps. */
module CacheRuns {
  import opened CacheModel
  import opened Wrappers

  // ---- the invariant ----

  /** A live task is the one stored for its key, and started no earlier than the last
      invalidation of that key. */
  predicate TaskOk(s: State, id: TaskId)
    requires id < |s.tasks|
  {
    var task := s.tasks[id];
    && task.startedAt <= s.now
    && (task.Live() ==>
      && task.key in s.refreshTasks && s.refreshTasks[task.key] == id
      && task.startedAt >= InvalidatedAt(s, task.key))
  }

  /** The stored task belongs to the key; a snapshot newer than the last invalidation was not
      written by a refresh started before it. */
  predicate KeyOk(s: State, key: Key) {
    && InvalidatedAt(s, key) <= s.now
    && (key in s.refreshTasks ==> s.refreshTasks[key] < |s.tasks| && s.tasks[s.refreshTasks[key]].key == key)
    && (key in s.disk ==> s.disk[key].mtime <= s.now)
    && (key in s.disk && s.disk[key].writer.Background? ==>
      var id := s.disk[key].writer.task;
      && id < |s.tasks| && s.tasks[id].key == key
      && (s.disk[key].mtime <= InvalidatedAt(s, key) || s.tasks[id].startedAt >= InvalidatedAt(s, key)))
  }

  predicate DistinctPages(pages: seq<Page>) {
    forall i, j :: 0 <= i < j < |pages| ==> pages[i].key != pages[j].key
  }

  predicate TasksOk(s: State) {
    forall id: nat | id < |s.tasks| :: TaskOk(s, id)
  }

  ghost predicate KeysOk(s: State) {
    forall key: Key :: KeyOk(s, key)
  }

  ghost predicate Inv(s: State) {
    TasksOk(s) && KeysOk(s) && DistinctPages(s.pages)
  }

  lemma InitialInv(s: State)
    requires Initial(s)
    ensures Inv(s)
  {
    forall key: Key ensures KeyOk(s, key) {
    }
  }

  lemma RefreshKeepsInv(s: State, key: Key, interval: int, loop: bool)
    requires Inv(s)
    ensures var t := RefreshIfDue(s, key, interval, loop); Inv(t) && t.pages == s.pages
  {
    var t := RefreshIfDue(s, key, interval, loop);
    if t != s {
      assert KeyOk(s, key);
      forall k: Key ensures KeyOk(t, k) {
        assert KeyOk(s, k);
      }
      forall id: nat | id < |t.tasks| ensures TaskOk(t, id) {
        if id < |s.tasks| {
          assert TaskOk(s, id);
        }
      }
    }
  }

  lemma {:induction false} RefreshPagesKeepsInv(s: State, pages: seq<Page>, loop: bool)
    requires Inv(s)
    ensures var t := RefreshPages(s, pages, loop); Inv(t) && t.pages == s.pages
    decreases |pages|
  {
    if pages != [] {
      RefreshKeepsInv(s, pages[0].key, pages[0].interval, loop);
      RefreshPagesKeepsInv(RefreshIfDue(s, pages[0].key, pages[0].interval, loop), pages[1..], loop);
    }
  }

  /** The state in the middle of an invalidation, before the covered pages are refreshed. */
  function Cleared(s: State, which: Option<Key>): State {
    if which.None? then
      s.(tasks := CancelAll(s.tasks, s.refreshTasks.Values), refreshTasks := map[], allInvalidatedAt := s.now)
    else
      s.(tasks := CancelAll(s.tasks, if which.value in s.refreshTasks then {s.refreshTasks[which.value]} else {}),
         refreshTasks := s.refreshTasks - {which.value}, invalidatedAt := s.invalidatedAt[which.value := s.now])
  }

  predicate Covers(which: Option<Key>, key: Key) {
    which.None? || which.value == key
  }

  lemma ClearedTimes(s: State, which: Option<Key>, key: Key)
    requires KeyOk(s, key)
    ensures InvalidatedAt(Cleared(s, which), key) == if Covers(which, key) then s.now else InvalidatedAt(s, key)
  {
  }

  /** Clearing leaves no live task for a covered key. */
  lemma ClearedTaskOk(s: State, which: Option<Key>, id: TaskId)
    requires Inv(s) && id < |s.tasks|
    ensures TaskOk(Cleared(s, which), id)
    ensures Cleared(s, which).tasks[id].Live() ==> !Covers(which, s.tasks[id].key)
  {
    var t, key := Cleared(s, which), s.tasks[id].key;
    assert TaskOk(s, id) && KeyOk(s, key);
    ClearedTimes(s, which, key);
    if s.tasks[id].Live() && Covers(which, key) {
      assert id in s.refreshTasks.Values;
    }
  }

  lemma ClearedInv(s: State, which: Option<Key>)
    requires Inv(s)
    ensures var t := Cleared(s, which); Inv(t) && t.pages == s.pages && t.now == s.now
    ensures forall k: Key | Covers(which, k) :: k !in Cleared(s, which).refreshTasks
  {
    var t := Cleared(s, which);
    forall id: nat | id < |t.tasks| ensures TaskOk(t, id) {
      ClearedTaskOk(s, which, id);
    }
    forall k: Key ensures KeyOk(t, k) {
      assert KeyOk(s, k);
      ClearedTimes(s, which, k);
    }
  }

  lemma WriteKeepsInv(s: State, key: Key, payload: Payload, writer: Writer, stored: bool)
    requires Inv(s)
    requires writer.Background? ==>
      writer.task < |s.tasks| && s.tasks[writer.task].key == key && s.tasks[writer.task].Live()
    ensures Inv(Write(s, key, payload, writer, stored))
  {
    var t := Write(s, key, payload, writer, stored);
    forall id: nat | id < |t.tasks| ensures TaskOk(t, id) {
      assert TaskOk(s, id);
    }
    forall k: Key ensures KeyOk(t, k) {
      assert KeyOk(s, k);
      if writer.Background? {
        assert TaskOk(s, writer.task);
      }
    }
  }

  lemma SettleKeepsInv(s: State, id: TaskId)
    requires Inv(s) && id < |s.tasks|
    ensures Inv(SetPhase(Leave(s, id), id, Finished))
  {
    var t := SetPhase(Leave(s, id), id, Finished);
    forall i: nat | i < |t.tasks| ensures TaskOk(t, i) {
      assert TaskOk(s, i);
    }
    forall k: Key ensures KeyOk(t, k) {
      assert KeyOk(s, k);
    }
  }

  lemma TaskFieldKeepsInv(s: State, id: TaskId, task: Task)
    requires Inv(s) && id < |s.tasks|
    requires task.key == s.tasks[id].key && task.startedAt == s.tasks[id].startedAt
    requires task.Live() ==> s.tasks[id].Live()
    ensures Inv(s.(tasks := s.tasks[id := task]))
  {
    var t := s.(tasks := s.tasks[id := task]);
    forall i: nat | i < |t.tasks| ensures TaskOk(t, i) {
      assert TaskOk(s, i);
    }
    forall k: Key ensures KeyOk(t, k) {
      assert KeyOk(s, k);
    }
  }

  /** Steps that only add pages or builds, or let time pass. */
  lemma OutsideKeepsInv(s: State, now: int, builds: seq<Build>, pages: seq<Page>)
    requires Inv(s) && s.now <= now && DistinctPages(pages)
    ensures Inv(s.(now := now, builds := builds, pages := pages))
  {
    var t := s.(now := now, builds := builds, pages := pages);
    forall i: nat | i < |t.tasks| ensures TaskOk(t, i) {
      assert TaskOk(s, i);
    }
    forall k: Key ensures KeyOk(t, k) {
      assert KeyOk(s, k);
    }
  }

  lemma {:induction false} RegisterKeepsDistinct(pages: seq<Page>, page: Page)
    requires DistinctPages(pages)
    ensures DistinctPages(RegisterPage(pages, page))
    ensures forall p :: p in RegisterPage(pages, page) <==> p == page || (p in pages && p.key != page.key)
  {
    if pages != [] {
      RegisterKeepsDistinct(pages[1..], page);
      assert forall p | p in pages[1..] :: p.key != pages[0].key;
      var r := RegisterPage(pages, page);
      if pages[0].key != page.key {
        assert r[1..] == RegisterPage(pages[1..], page);
        assert forall j | 1 <= j < |r| :: r[j] in r[1..];
      }
    }
  }

  /** Every step keeps the invariant. */
  lemma StepKeepsInv(s: State, e: Event)
    requires Inv(s) && Enabled(s, e)
    ensures Inv(Step(s, e))
  {
    match e
    case Request(key, policy) =>
      RefreshKeepsInv(s, key, Ttl(policy), true);
      OutsideKeepsInv(s, s.now, s.builds + [Build(key, s.now, false)], s.pages);
    case Register(page) =>
      RegisterKeepsDistinct(s.pages, page);
      OutsideKeepsInv(s, s.now, s.builds, RegisterPage(s.pages, page));
    case Maintain => RefreshPagesKeepsInv(s, s.pages, true);
    case Invalidate(which, loop) =>
      ClearedInv(s, which);
      RefreshPagesKeepsInv(Cleared(s, which), if which.None? then s.pages else PagesOf(s.pages, which.value), loop);
    case Start(id) => TaskFieldKeepsInv(s, id, Step(s, e).tasks[id]);
    case Finish(id, outcome) => FinishKeepsInv(s, id, outcome);
    case Stop(id) => SettleKeepsInv(s, id);
    case Cancel(id) => TaskFieldKeepsInv(s, id, s.tasks[id].(cancelled := true));
    case FinishBuild(b, payload, stored) =>
      var written := Write(s, s.builds[b].key, payload, Direct(b), stored);
      WriteKeepsInv(s, s.builds[b].key, payload, Direct(b), stored);
      OutsideKeepsInv(written, s.now, Step(s, e).builds, s.pages);
    case Tick(elapsed) => OutsideKeepsInv(s, s.now + elapsed, s.builds, s.pages);
  }

  lemma FinishKeepsInv(s: State, id: TaskId, outcome: Outcome)
    requires Inv(s) && Enabled(s, Finish(id, outcome))
    ensures Inv(FinishTask(s, id, outcome))
  {
    if outcome.Built? {
      WriteKeepsInv(s, s.tasks[id].key, outcome.payload, Background(id), outcome.stored);
      SettleKeepsInv(Write(s, s.tasks[id].key, outcome.payload, Background(id), outcome.stored), id);
    } else {
      SettleKeepsInv(s, id);
    }
  }

  lemma {:induction false} RunKeepsInv(s: State, events: seq<Event>)
    requires Inv(s) && Possible(s, events)
    ensures Inv(Run(s, events))
    decreases |events|
  {
    if events != [] {
      StepKeepsInv(s, events[0]);
      RunKeepsInv(Step(s, events[0]), events[1..]);
    }
  }

  // ---- single flight ----

  /** In every run, a key has at most one live refresh, and it is the stored one. */
  lemma {:induction false} SingleFlight(s: State, events: seq<Event>, i: TaskId, j: TaskId)
    requires Initial(s) && Possible(s, events)
    requires i < |Run(s, events).tasks| && j < |Run(s, events).tasks|
    requires Run(s, events).tasks[i].key == Run(s, events).tasks[j].key
    requires Run(s, events).tasks[i].Live() && Run(s, events).tasks[j].Live()
    ensures i == j
    ensures var t := Run(s, events); t.tasks[i].key in t.refreshTasks && t.refreshTasks[t.tasks[i].key] == i
  {
    InitialInv(s);
    RunKeepsInv(s, events);
    assert TaskOk(Run(s, events), i) && TaskOk(Run(s, events), j);
  }

  /** A task that ends, finished or cancelled, leaves the entry of every other live task in place. */
  lemma EndNeverEvicts(s: State, e: Event, id: TaskId, other: TaskId)
    requires Inv(s) && Enabled(s, e) && (e.Start? || e.Finish? || e.Stop?) && e.id == id
    requires other < |s.tasks| && other != id && s.tasks[other].Live()
    ensures var t := Step(s, e);
      && t.tasks[other] == s.tasks[other]
      && s.tasks[other].key in t.refreshTasks && t.refreshTasks[s.tasks[other].key] == other
  {
    assert TaskOk(s, other);
  }

  // ---- freshness ----

  /** The clock at the last event that invalidated the key, or `before` if there was none. */
  function LastInvalidation(s: State, events: seq<Event>, key: Key, before: int): int
    requires Possible(s, events)
    decreases |events|
  {
    if events == [] then before
    else
      LastInvalidation(Step(s, events[0]), events[1..], key,
        if events[0].Invalidate? && Covers(events[0].which, key) then s.now else before)
  }

  lemma RefreshKeepsTimes(s: State, key: Key, interval: int, loop: bool)
    ensures var t := RefreshIfDue(s, key, interval, loop);
      && t.invalidatedAt == s.invalidatedAt && t.allInvalidatedAt == s.allInvalidatedAt && t.now == s.now
      && t.disk == s.disk
  {
  }

  lemma {:induction false} RefreshPagesKeepsTimes(s: State, pages: seq<Page>, loop: bool)
    ensures var t := RefreshPages(s, pages, loop);
      && t.invalidatedAt == s.invalidatedAt && t.allInvalidatedAt == s.allInvalidatedAt
      && t.now == s.now && t.disk == s.disk && t.hasDirectory == s.hasDirectory
    decreases |pages|
  {
    if pages != [] {
      RefreshPagesKeepsTimes(RefreshIfDue(s, pages[0].key, pages[0].interval, loop), pages[1..], loop);
    }
  }

  lemma StepInvalidates(s: State, e: Event, key: Key)
    requires Inv(s) && Enabled(s, e)
    ensures InvalidatedAt(Step(s, e), key) ==
      if e.Invalidate? && Covers(e.which, key) then s.now else InvalidatedAt(s, key)
  {
    match e
    case Invalidate(which, loop) =>
      assert KeyOk(s, key);
      ClearedTimes(s, which, key);
      RefreshPagesKeepsTimes(Cleared(s, which), if which.None? then s.pages else PagesOf(s.pages, which.value), loop);
    case Maintain => RefreshPagesKeepsTimes(s, s.pages, true);
    case _ =>
  }

  /** The two stored times record the last invalidation of the run. */
  lemma {:induction false} TimesRecordHistory(s: State, events: seq<Event>, key: Key)
    requires Inv(s) && Possible(s, events)
    ensures InvalidatedAt(Run(s, events), key) == LastInvalidation(s, events, key, InvalidatedAt(s, key))
    decreases |events|
  {
    if events != [] {
      StepInvalidates(s, events[0], key);
      StepKeepsInv(s, events[0]);
      TimesRecordHistory(Step(s, events[0]), events[1..], key);
    }
  }

  /** In every run, a snapshot served without rebuilding was written strictly after the last
      invalidation of its key, and by no refresh task that started before it. */
  lemma {:induction false} ServedSnapshotsAreFresh(s: State, events: seq<Event>, key: Key)
    requires Initial(s) && Possible(s, events) && Serves(Run(s, events), key)
    ensures
      var t, last := Run(s, events), LastInvalidation(s, events, key, 0);
      && last < t.disk[key].mtime <= t.now
      && (t.disk[key].writer.Background? ==>
        var id := t.disk[key].writer.task;
        id < |t.tasks| && t.tasks[id].key == key && t.tasks[id].startedAt >= last)
  {
    InitialInv(s);
    RunKeepsInv(s, events);
    TimesRecordHistory(s, events, key);
    assert KeyOk(Run(s, events), key);
  }

  /** No refresh task started before an invalidation of its key writes after it. */
  lemma {:induction false} NoStaleRefreshWrites(s: State, events: seq<Event>, id: TaskId, outcome: Outcome)
    requires Initial(s) && Possible(s, events) && Enabled(Run(s, events), Finish(id, outcome))
    ensures var t := Run(s, events);
      t.tasks[id].startedAt >= LastInvalidation(s, events, t.tasks[id].key, 0)
  {
    var t := Run(s, events);
    InitialInv(s);
    RunKeepsInv(s, events);
    TimesRecordHistory(s, events, t.tasks[id].key);
    assert TaskOk(t, id);
  }

  /** A refresh that finishes is served exactly when the clock has moved past the invalidation. */
  lemma FinishedRefreshIsServed(s: State, id: TaskId, payload: Payload)
    requires Inv(s) && s.hasDirectory && Enabled(s, Finish(id, Built(payload, true)))
    ensures
      var t, key := Step(s, Finish(id, Built(payload, true))), s.tasks[id].key;
      && OnDisk(t, key) && t.disk[key].payload == payload
      && (Serves(t, key) <==> s.now > InvalidatedAt(s, key))
  {
  }

  // ---- rebuilds that a caller awaits ----

  /** A snapshot written by an awaited rebuild names one of its key. */
  ghost predicate DirectOk(s: State) {
    forall key: Key | key in s.disk && s.disk[key].writer.Direct? ::
      s.disk[key].writer.build < |s.builds| && s.builds[s.disk[key].writer.build].key == key
  }

  /** A snapshot is served that an awaited rebuild wrote which had started before the last
      invalidation of the key. */
  ghost predicate ServesStale(s: State, key: Key) {
    && Serves(s, key) && s.disk[key].writer.Direct? && s.disk[key].writer.build < |s.builds|
    && s.builds[s.disk[key].writer.build].startedAt < InvalidatedAt(s, key)
  }

  /** The event is the end of an awaited rebuild of the key that is stored. */
  predicate StoresBuild(s: State, e: Event, key: Key)
    requires Enabled(s, e)
  {
    e.FinishBuild? && e.stored && s.hasDirectory && s.builds[e.build].key == key
  }

  /** And that rebuild had started before the last invalidation, which lies in the past by now. */
  predicate StoresLate(s: State, e: Event, key: Key)
    requires Enabled(s, e)
  {
    StoresBuild(s, e, key) && s.builds[e.build].startedAt < InvalidatedAt(s, key) < s.now
  }

  /** The event replaces the snapshot of the key, or makes it older than an invalidation. */
  predicate Supersedes(s: State, e: Event, key: Key)
    requires Enabled(s, e)
  {
    || StoresBuild(s, e, key)
    || (e.Finish? && e.outcome.Built? && e.outcome.stored && s.hasDirectory && s.tasks[e.id].key == key)
    || (e.Invalidate? && Covers(e.which, key))
  }

  lemma {:induction false} RefreshPagesKeepsBuilds(s: State, pages: seq<Page>, loop: bool)
    ensures var t := RefreshPages(s, pages, loop);
      t.builds == s.builds && t.disk == s.disk && t.hasDirectory == s.hasDirectory
    decreases |pages|
  {
    if pages != [] {
      RefreshPagesKeepsBuilds(RefreshIfDue(s, pages[0].key, pages[0].interval, loop), pages[1..], loop);
    }
  }

  /** Builds are only added or marked as done. */
  predicate BuildsKept(s: State, t: State) {
    && |s.builds| <= |t.builds| && t.hasDirectory == s.hasDirectory
    && forall b | 0 <= b < |s.builds| ::
         t.builds[b].key == s.builds[b].key && t.builds[b].startedAt == s.builds[b].startedAt
  }

  lemma {:induction false} PassKeepsBuilds(s: State, e: Event)
    requires Enabled(s, e) && (e.Invalidate? || e.Maintain?)
    ensures Step(s, e).builds == s.builds && Step(s, e).disk == s.disk && Step(s, e).hasDirectory == s.hasDirectory
  {
    match e
    case Invalidate(which, loop) =>
      RefreshPagesKeepsBuilds(Cleared(s, which), if which.None? then s.pages else PagesOf(s.pages, which.value), loop);
    case Maintain => RefreshPagesKeepsBuilds(s, s.pages, true);
  }

  lemma {:induction false} StepKeepsBuilds(s: State, e: Event)
    requires Enabled(s, e)
    ensures BuildsKept(s, Step(s, e))
    ensures !e.Finish? && !e.FinishBuild? ==> Step(s, e).disk == s.disk
  {
    if e.Invalidate? || e.Maintain? {
      PassKeepsBuilds(s, e);
    }
  }

  lemma {:induction false} StepKeepsDirect(s: State, e: Event)
    requires DirectOk(s) && Enabled(s, e)
    ensures DirectOk(Step(s, e))
  {
    StepKeepsBuilds(s, e);
  }

  /** Where the snapshot and the invalidation of the key stay the same, so does its staleness. */
  lemma {:induction false} StaleFrame(s: State, t: State, key: Key)
    requires DirectOk(s) && BuildsKept(s, t) && InvalidatedAt(t, key) == InvalidatedAt(s, key)
    requires (key in t.disk <==> key in s.disk) && (key in s.disk ==> t.disk[key] == s.disk[key])
    ensures ServesStale(t, key) <==> ServesStale(s, key)
  {
  }

  lemma {:induction false} EndServesStale(s: State, e: Event, key: Key)
    requires DirectOk(s) && Enabled(s, e) && (e.Finish? || e.FinishBuild?)
    requires InvalidatedAt(Step(s, e), key) == InvalidatedAt(s, key)
    ensures ServesStale(Step(s, e), key) <==>
      StoresLate(s, e, key) || (ServesStale(s, key) && !Supersedes(s, e, key))
  {
    StepKeepsBuilds(s, e);
    if !Supersedes(s, e, key) {
      StaleFrame(s, Step(s, e), key);
    }
  }

  /** What every step does to a stale snapshot. */
  lemma {:induction false} StepServesStale(s: State, e: Event, key: Key)
    requires Inv(s) && DirectOk(s) && Enabled(s, e)
    ensures ServesStale(Step(s, e), key) <==>
      StoresLate(s, e, key) || (ServesStale(s, key) && !Supersedes(s, e, key))
  {
    StepInvalidates(s, e, key);
    if e.Finish? || e.FinishBuild? {
      EndServesStale(s, e, key);
    } else {
      StepKeepsBuilds(s, e);
      if e.Invalidate? && Covers(e.which, key) {
        assert KeyOk(s, key);
      } else {
        StaleFrame(s, Step(s, e), key);
      }
    }
  }

  /** The last event that replaced the snapshot of the key or made it old stored a late rebuild;
      `before` says so of the events before the run. */
  ghost predicate EndsLate(s: State, events: seq<Event>, key: Key, before: bool)
    requires Possible(s, events)
    decreases |events|
  {
    if events == [] then before
    else
      EndsLate(Step(s, events[0]), events[1..], key,
        StoresLate(s, events[0], key) || (before && !Supersedes(s, events[0], key)))
  }

  lemma {:induction false} RunServesStale(s: State, events: seq<Event>, key: Key)
    requires Inv(s) && DirectOk(s) && Possible(s, events)
    ensures DirectOk(Run(s, events))
    ensures ServesStale(Run(s, events), key) <==> EndsLate(s, events, key, ServesStale(s, key))
    decreases |events|
  {
    if events != [] {
      StepKeepsInv(s, events[0]);
      StepKeepsDirect(s, events[0]);
      StepServesStale(s, events[0], key);
      RunServesStale(Step(s, events[0]), events[1..], key);
    }
  }

  /** In every run a snapshot that is served was built from before the last invalidation of its
      key if and only if the last event that wrote or invalidated it was the end of an awaited
      rebuild that had started before the invalidation and was stored when the clock had passed it. */
  lemma {:induction false} ServedIsStaleExactly(s: State, events: seq<Event>, key: Key)
    requires Initial(s) && Possible(s, events) && Serves(Run(s, events), key)
    ensures
      var t, last := Run(s, events), LastInvalidation(s, events, key, 0);
      var writer := t.disk[key].writer;
      && (writer.Direct? ==> writer.build < |t.builds| && t.builds[writer.build].key == key)
      && (writer.Background? ==> writer.task < |t.tasks|)
      && (((writer.Direct? && t.builds[writer.build].startedAt < last)
           || (writer.Background? && t.tasks[writer.task].startedAt < last)) <==>
          EndsLate(s, events, key, false))
  {
    InitialInv(s);
    TimesRecordHistory(s, events, key);
    RunServesStale(s, events, key);
    ServedSnapshotsAreFresh(s, events, key);
  }

  /** No awaited rebuild of the key is stored that had started before the last invalidation. */
  ghost predicate NeverLate(s: State, events: seq<Event>, key: Key)
    requires Possible(s, events)
    decreases |events|
  {
    events != [] ==> !StoresLate(s, events[0], key) && NeverLate(Step(s, events[0]), events[1..], key)
  }

  lemma {:induction false} NeverLateEnds(s: State, events: seq<Event>, key: Key)
    requires Possible(s, events) && NeverLate(s, events, key)
    ensures !EndsLate(s, events, key, false)
    decreases |events|
  {
    if events != [] {
      NeverLateEnds(Step(s, events[0]), events[1..], key);
    }
  }

  /** Where no late rebuild of the key is stored, every snapshot of it that is served, whoever
      wrote it, was started no earlier than the last invalidation; one that an earlier process left
      was written after it. */
  lemma {:induction false} ServedIsFreshWithoutLateRebuilds(s: State, events: seq<Event>, key: Key)
    requires Initial(s) && Possible(s, events) && Serves(Run(s, events), key) && NeverLate(s, events, key)
    ensures
      var t, last := Run(s, events), LastInvalidation(s, events, key, 0);
      var writer := t.disk[key].writer;
      && (writer.Direct? ==> writer.build < |t.builds| && t.builds[writer.build].startedAt >= last)
      && (writer.Background? ==> writer.task < |t.tasks| && t.tasks[writer.task].startedAt >= last)
      && (writer.Earlier? ==> t.disk[key].mtime > last)
  {
    ServedIsStaleExactly(s, events, key);
    NeverLateEnds(s, events, key);
    ServedSnapshotsAreFresh(s, events, key);
  }

  /** An awaited rebuild that ends is served although it had started before the last invalidation
      if and only if the clock has moved past that invalidation. */
  lemma {:induction false} FinishedRebuildIsStale(s: State, events: seq<Event>, b: nat, payload: Payload)
    requires Initial(s) && Possible(s, events)
    requires var t := Run(s, events); t.hasDirectory && Enabled(t, FinishBuild(b, payload, true))
    ensures
      var t := Run(s, events);
      var build, after := t.builds[b], Step(t, FinishBuild(b, payload, true));
      var last := LastInvalidation(s, events, build.key, 0);
      && OnDisk(after, build.key) && after.disk[build.key].payload == payload
      && (Serves(after, build.key) && build.startedAt < last <==> build.startedAt < last < t.now)
  {
    InitialInv(s);
    TimesRecordHistory(s, events, Run(s, events).builds[b].key);
  }

  /** Such runs exist: a rebuild begun before an invalidation and finished after it. */
  lemma AwaitedRebuildCanBeStale()
    ensures exists s: State, events: seq<Event>, key: Key ::
      && Initial(s) && Possible(s, events) && Serves(Run(s, events), key)
      && var t := Run(s, events);
        && t.disk[key].writer.Direct? && t.disk[key].writer.build < |t.builds|
        && t.builds[t.disk[key].writer.build].startedAt < LastInvalidation(s, events, key, 0)
  {
    var key, policy := "page", Policy("live", None);
    var s0 := State(1, true, map[], map[], 0, map[], [], [], []);
    var s1 := Step(s0, Request(key, policy));
    var s2 := Step(s1, Tick(1));
    var s3 := Step(s2, Invalidate(Some(key), true));
    var s4 := Step(s3, Tick(1));
    var s5 := Step(s4, FinishBuild(0, "old", true));
    var e4 := RunFrom(s4, FinishBuild(0, "old", true), [], key, 2, 2);
    var e3 := RunFrom(s3, Tick(1), e4, key, 2, 2);
    var e2 := RunFrom(s2, Invalidate(Some(key), true), e3, key, 0, 2);
    var e1 := RunFrom(s1, Tick(1), e2, key, 0, 2);
    var e0 := RunFrom(s0, Request(key, policy), e1, key, 0, 2);
    assert Initial(s0) && Serves(s5, key) && Run(s0, e0) == s5;
  }

  /** Puts one event before a run. */
  lemma RunFrom(s: State, e: Event, later: seq<Event>, key: Key, before: int, last: int) returns (events: seq<Event>)
    requires Enabled(s, e) && Possible(Step(s, e), later)
    requires LastInvalidation(Step(s, e), later, key,
      if e.Invalidate? && Covers(e.which, key) then s.now else before) == last
    ensures Possible(s, events) && Run(s, events) == Run(Step(s, e), later)
    ensures LastInvalidation(s, events, key, before) == last
  {
    events := [e] + later;
    assert events[0] == e && events[1..] == later;
  }

  // ---- pending refreshes ----

  /** A refresh of the key is stored and has not ended. */
  predicate Pending(s: State, key: Key) {
    key in s.refreshTasks && s.refreshTasks[key] < |s.tasks| && s.tasks[s.refreshTasks[key]].phase != Finished
  }

  lemma RefreshKeepsPending(s: State, key: Key, interval: int, loop: bool, other: Key)
    requires Pending(s, other)
    ensures var t := RefreshIfDue(s, key, interval, loop);
      Pending(t, other) && t.refreshTasks[other] == s.refreshTasks[other]
      && t.tasks[t.refreshTasks[other]] == s.tasks[s.refreshTasks[other]]
  {
  }

  lemma {:induction false} RefreshPagesKeepsPending(s: State, pages: seq<Page>, loop: bool, other: Key)
    requires Inv(s) && Pending(s, other)
    ensures var t := RefreshPages(s, pages, loop);
      Pending(t, other) && t.tasks[t.refreshTasks[other]] == s.tasks[s.refreshTasks[other]]
    decreases |pages|
  {
    if pages != [] {
      RefreshKeepsPending(s, pages[0].key, pages[0].interval, loop, other);
      RefreshKeepsInv(s, pages[0].key, pages[0].interval, loop);
      RefreshPagesKeepsPending(RefreshIfDue(s, pages[0].key, pages[0].interval, loop), pages[1..], loop, other);
    }
  }

  /** After a pass over the pages, each one that was due has an unfinished refresh. */
  lemma {:induction false} PassCovers(s: State, pages: seq<Page>, page: Page)
    requires Inv(s) && page in pages
    ensures var t := RefreshPages(s, pages, true);
      Pending(t, page.key) || !NeedsRefresh(t, page.key, page.interval)
    decreases |pages|
  {
    var next := RefreshIfDue(s, pages[0].key, pages[0].interval, true);
    RefreshKeepsInv(s, pages[0].key, pages[0].interval, true);
    RefreshPagesKeepsTimes(next, pages[1..], true);
    if pages[0] == page {
      if Pending(next, page.key) {
        RefreshPagesKeepsPending(next, pages[1..], true, page.key);
      }
      assert InvalidatedAt(RefreshPages(s, pages, true), page.key) == InvalidatedAt(next, page.key);
    } else {
      PassCovers(next, pages[1..], page);
    }
  }

  /** One pass of the maintenance loop leaves every registered page either with an unfinished
      refresh or with a snapshot that is neither invalidated nor past its interval. */
  lemma MaintainCovers(s: State, page: Page)
    requires Inv(s) && page in s.pages
    ensures var t := Step(s, Maintain);
      Pending(t, page.key)
      || (Serves(t, page.key) && (page.interval <= 0 || t.now < t.disk[page.key].mtime + page.interval))
  {
    PassCovers(s, s.pages, page);
  }

  lemma {:induction false} NoLoopNoTasks(s: State, pages: seq<Page>)
    ensures RefreshPages(s, pages, false) == s
    decreases |pages|
  {
    if pages != [] {
      NoLoopNoTasks(s, pages[1..]);
    }
  }

  lemma {:induction false} PageOfKey(pages: seq<Page>, page: Page)
    requires page in pages && DistinctPages(pages)
    ensures PagesOf(pages, page.key) == [page]
  {
    if pages[0] != page {
      var i :| 0 <= i < |pages| && pages[i] == page;
      assert pages[1..][i - 1] == page;
      PageOfKey(pages[1..], page);
    }
  }

  /** After an invalidation a covered registered page has a live refresh, started now, exactly
      when there was a loop to run it. */
  lemma InvalidatedPageIsPending(s: State, which: Option<Key>, loop: bool, page: Page)
    requires Inv(s) && page in s.pages && Covers(which, page.key)
    ensures var t := Step(s, Invalidate(which, loop));
      && (Pending(t, page.key) <==> loop)
      && (loop ==> var task := t.tasks[t.refreshTasks[page.key]]; task.Live() && task.startedAt == s.now)
  {
    var cleared, pages := Cleared(s, which), if which.None? then s.pages else PagesOf(s.pages, which.value);
    ClearedInv(s, which);
    assert KeyOk(s, page.key);
    ClearedTimes(s, which, page.key);
    if which.Some? {
      PageOfKey(s.pages, page);
    }
    if loop {
      StalePageStarts(cleared, pages, page);
    } else {
      NoLoopNoTasks(cleared, pages);
    }
  }

  lemma {:induction false} StalePageStarts(s: State, pages: seq<Page>, page: Page)
    requires Inv(s) && page in pages && InvalidatedAt(s, page.key) == s.now
    requires page.key !in s.refreshTasks
      || (Pending(s, page.key) && s.tasks[s.refreshTasks[page.key]].Live()
          && s.tasks[s.refreshTasks[page.key]].startedAt == s.now)
    ensures var t := RefreshPages(s, pages, true);
      && Pending(t, page.key)
      && t.tasks[t.refreshTasks[page.key]].Live() && t.tasks[t.refreshTasks[page.key]].startedAt == s.now
    decreases |pages|
  {
    var next := RefreshIfDue(s, pages[0].key, pages[0].interval, true);
    RefreshKeepsInv(s, pages[0].key, pages[0].interval, true);
    RefreshKeepsTimes(s, pages[0].key, pages[0].interval, true);
    assert InvalidatedAt(next, page.key) == s.now && KeyOk(s, page.key);
    if page.key in s.refreshTasks {
      RefreshKeepsPending(s, pages[0].key, pages[0].interval, true, page.key);
    }
    if pages[0] == page {
      RefreshPagesKeepsPending(next, pages[1..], true, page.key);
    } else {
      StalePageStarts(next, pages[1..], page);
    }
  }

  // ---- requests ----

  /** The interval of a live or nearly live policy, zero or more, has passed since the snapshot. */
  predicate IsDue(policy: Policy, mtime: int, now: int) {
    && (policy.mode == "live" || policy.mode == "near_live")
    && policy.interval.Some? && policy.interval.value > 0 && mtime + policy.interval.value <= now
  }

  /** A request for a snapshot newer than its invalidation starts a refresh when one is due and
      none is running, and otherwise changes nothing at all; any other request begins a rebuild. */
  ghost predicate Answered(s: State, key: Key, policy: Policy, t: State) {
    if s.hasDirectory && key in s.disk && s.disk[key].mtime > s.allInvalidatedAt
       && s.disk[key].mtime > (if key in s.invalidatedAt then s.invalidatedAt[key] else 0)
    then
      if IsDue(policy, s.disk[key].mtime, s.now) && !Pending(s, key) then
        t == s.(
          tasks := s.tasks + [Task(key, s.now, Created, false)],
          refreshTasks := s.refreshTasks[key := |s.tasks|])
      else t == s
    else t == s.(builds := s.builds + [Build(key, s.now, false)])
  }

  lemma RequestIsAnswered(s: State, key: Key, policy: Policy)
    ensures Answered(s, key, policy, Step(s, Request(key, policy)))
  {
    assert Serves(s, key) <==>
      && s.hasDirectory && key in s.disk && s.disk[key].mtime > s.allInvalidatedAt
      && s.disk[key].mtime > (if key in s.invalidatedAt then s.invalidatedAt[key] else 0);
    if Serves(s, key) {
      assert NeedsRefresh(s, key, Ttl(policy)) <==> IsDue(policy, s.disk[key].mtime, s.now);
    }
  }

  /** In every run a served request leaves the key with an unfinished refresh if one is due. It
      adds a task, of this key and started now, exactly when one is due and none was running. */
  lemma {:induction false} ServedRequestRefreshes(s: State, events: seq<Event>, key: Key, policy: Policy)
    requires Initial(s) && Possible(s, events) && Serves(Run(s, events), key)
    ensures
      var t := Run(s, events);
      var after, due := Step(t, Request(key, policy)), IsDue(policy, t.disk[key].mtime, t.now);
      && (due ==> Pending(after, key) && after.tasks[after.refreshTasks[key]].key == key)
      && (after.tasks != t.tasks <==> due && !Pending(t, key))
      && (after.tasks != t.tasks ==> after.tasks == t.tasks + [Task(key, t.now, Created, false)])
      && after.disk == t.disk && after.builds == t.builds
      && (forall other | other != key :: Pending(after, other) <==> Pending(t, other))
  {
    var t := Run(s, events);
    RunKeepsInv(s, events);
    RequestIsAnswered(t, key, policy);
    assert KeyOk(t, key);
    var added := t.tasks + [Task(key, t.now, Created, false)];
    assert |added| != |t.tasks|;
    forall other | other != key ensures Pending(Step(t, Request(key, policy)), other) <==> Pending(t, other) {
      assert KeyOk(t, other);
    }
  }

  // ---- the life of a refresh ----

  /** A refresh that nobody cancels runs: it builds once it is started, what it builds is then on
      the disk, and it is served exactly when the clock has passed the invalidation. */
  lemma {:induction false} RefreshRuns(s: State, id: TaskId, payload: Payload)
    requires Inv(s) && s.hasDirectory && Enabled(s, Start(id)) && !s.tasks[id].cancelled
    ensures
      var started, key := Step(s, Start(id)), s.tasks[id].key;
      && started == s.(tasks := s.tasks[id := s.tasks[id].(phase := Building)])
      && Enabled(started, Finish(id, Built(payload, true)))
      && var t := Step(started, Finish(id, Built(payload, true)));
         && t.tasks == s.tasks[id := s.tasks[id].(phase := Finished)]
         && OnDisk(t, key) && t.disk[key].payload == payload
         && (Serves(t, key) <==> s.now > InvalidatedAt(s, key))
    ensures Step(Step(s, Start(id)), Finish(id, Raised)).disk == s.disk
  {
    var started := Step(s, Start(id));
    StepKeepsInv(s, Start(id));
    FinishedRefreshIsServed(started, id, payload);
    assert InvalidatedAt(started, s.tasks[id].key) == InvalidatedAt(s, s.tasks[id].key);
  }

  /** One that is cancelled before it is started never builds, and one that is cancelled while it
      builds only stops: neither writes anything. */
  lemma {:induction false} CancelledRefreshStops(s: State, id: TaskId, outcome: Outcome)
    requires id < |s.tasks| && s.tasks[id].cancelled && s.tasks[id].phase != Finished
    ensures !Enabled(s, Finish(id, outcome))
    ensures s.tasks[id].phase == Created ==>
      Enabled(s, Start(id)) && Step(s, Start(id)) == s.(tasks := s.tasks[id := s.tasks[id].(phase := Finished)])
    ensures s.tasks[id].phase == Building ==>
      && Enabled(s, Stop(id)) && Step(s, Stop(id)).tasks == s.tasks[id := s.tasks[id].(phase := Finished)]
      && Step(s, Stop(id)).disk == s.disk
  {
  }
}
