/** The todo store (planner/store.go) and the choice of the focused task (planner/focus.go). */
module Planner {

  datatype Status = Pending | InProgress | Done | Cancelled | OtherStatus(name: string)

  datatype Task = Task(id: string, parentID: string, title: string, status: Status, order: int)

  type Plans = map<string, seq<Task>>

  predicate HasID(tasks: seq<Task>, id: string) {
    exists i | 0 <= i < |tasks| :: tasks[i].id == id
  }

  /** tasks with the first task of that identifier done. */
  function Mark(tasks: seq<Task>, id: string): (r: seq<Task>)
    ensures |r| == |tasks|
  {
    if tasks == [] then []
    else if tasks[0].id == id then [tasks[0].(status := Done)] + tasks[1..]
    else [tasks[0]] + Mark(tasks[1..], id)
  }

  class MemoryStore {
    var sessions: map<string, array<Task>>
    ghost var plans: Plans  // what the arrays hold

    ghost function Arrays(): set<object>
      reads this
    {
      set s | s in sessions :: sessions[s]
    }

    /** plans mirrors the arrays, and sessions do not share one. */
    ghost predicate Valid()
      reads this, Arrays()
    {
      plans.Keys == sessions.Keys &&
      (forall s | s in sessions :: sessions[s][..] == plans[s]) &&
      (forall a, b | a in sessions && b in sessions && a != b :: sessions[a] != sessions[b])
    }

    constructor ()
      ensures Valid() && plans == map[]
    {
      sessions, plans := map[], map[];
    }

    /** Stores a copy, so the caller's list and the stored one never meet. */
    method ReplaceTasks(sessionID: string, tasks: array<Task>)
      requires Valid()
      modifies this
      ensures Valid() && plans == old(plans)[sessionID := tasks[..]]
      ensures fresh(Arrays() - old(Arrays()))
    {
      var cp := CopyOf(tasks);
      sessions := sessions[sessionID := cp];
      plans := plans[sessionID := tasks[..]];
    }

    /** Returns a copy; a later change of the store never reaches it. */
    method List(sessionID: string) returns (out: array<Task>)
      requires Valid()
      ensures fresh(out) && out[..] == if sessionID in plans then plans[sessionID] else []
    {
      if sessionID in sessions {
        out := CopyOf(sessions[sessionID]);
      } else {
        out := new Task[0];
      }
    }

    /** Updates the stored array in place: only the session's own array is written. */
    method MarkDone(sessionID: string, id: string) returns (found: bool)
      requires Valid()
      modifies this`plans, if sessionID in sessions then {sessions[sessionID]} else {}
      ensures Valid()
      ensures found <==> sessionID in old(plans) && HasID(old(plans)[sessionID], id)
      ensures plans == if sessionID in old(plans) then old(plans)[sessionID := Mark(old(plans)[sessionID], id)] else old(plans)
    {
      if sessionID !in sessions {
        return false;
      }
      var tasks := sessions[sessionID];
      ghost var before := tasks[..];
      for i := 0 to tasks.Length
        invariant tasks[..] == before
        invariant forall j | 0 <= j < i :: before[j].id != id
      {
        if tasks[i].id == id {
          tasks[i] := tasks[i].(status := Done);
          MarkAt(before, id, i);
          plans := plans[sessionID := tasks[..]];
          return true;
        }
      }
      MarkMissing(before, id);
      assert plans == plans[sessionID := plans[sessionID]];
      return false;
    }
  }

  method CopyOf(src: array<Task>) returns (out: array<Task>)
    ensures fresh(out) && out[..] == src[..]
  {
    out := new Task[src.Length](_ => Task("", "", "", Pending, 0));
    for i := 0 to src.Length
      invariant out[..i] == src[..i]
    {
      out[i] := src[i];
    }
  }

  lemma {:induction false} MarkAt(tasks: seq<Task>, id: string, i: nat)
    requires i < |tasks| && tasks[i].id == id
    requires forall j | 0 <= j < i :: tasks[j].id != id
    ensures Mark(tasks, id) == tasks[i := tasks[i].(status := Done)]
  {
    if i > 0 {
      MarkAt(tasks[1..], id, i - 1);
    }
  }

  lemma {:induction false} MarkMissing(tasks: seq<Task>, id: string)
    requires forall j | 0 <= j < |tasks| :: tasks[j].id != id
    ensures Mark(tasks, id) == tasks
  {
    if tasks != [] {
      MarkMissing(tasks[1..], id);
    }
  }

  // ---- focus ----

  datatype Focus = NoTasks | NothingInProgress | FocusOn(task: Task)

  /** t is in progress and no task in progress comes before it in order; ties are open. */
  predicate IsFocus(tasks: seq<Task>, t: Task) {
    t in tasks && t.status == InProgress &&
    forall u | u in tasks && u.status == InProgress :: t.order <= u.order
  }

  predicate FocusIs(tasks: seq<Task>, f: Focus) {
    match f
    case NoTasks => tasks == []
    case NothingInProgress => tasks != [] && forall t | t in tasks :: t.status != InProgress
    case FocusOn(t) => IsFocus(tasks, t)
  }

  method FocusTask(tasks: seq<Task>) returns (f: Focus)
    ensures FocusIs(tasks, f)
    ensures f.NoTasks? <==> tasks == []
    ensures f.NothingInProgress? <==> tasks != [] && forall t | t in tasks :: t.status != InProgress
    ensures f.FocusOn? ==>
              && f.task in tasks && f.task.status == InProgress
              && forall u | u in tasks && u.status == InProgress :: f.task.order <= u.order
  {
    if |tasks| == 0 {
      return NoTasks;
    }
    var inProgress: seq<Task> := [];
    for i := 0 to |tasks|
      invariant forall t :: t in inProgress <==> t in tasks[..i] && t.status == InProgress
    {
      if tasks[i].status == InProgress {
        inProgress := inProgress + [tasks[i]];
      }
    }
    assert tasks[..|tasks|] == tasks;
    inProgress := SortByOrder(inProgress);
    if |inProgress| > 0 {
      assert inProgress[0] in inProgress;
      return FocusOn(inProgress[0]);
    }
    return NothingInProgress;
  }

  predicate Ordered(s: seq<Task>) {
    forall i, j | 0 <= i < j < |s| :: s[i].order <= s[j].order
  }

  /** sort.Slice by order. */
  method SortByOrder(s: seq<Task>) returns (r: seq<Task>)
    ensures forall t :: t in r <==> t in s
    ensures Ordered(r)
  {
    r := [];
    for n := 0 to |s|
      invariant forall t :: t in r <==> t in s[..n]
      invariant Ordered(r)
    {
      r := InsertByOrder(r, s[n]);
      assert s[..n + 1] == s[..n] + [s[n]];
    }
    assert s[..|s|] == s;
  }

  method InsertByOrder(s: seq<Task>, t: Task) returns (r: seq<Task>)
    requires Ordered(s)
    ensures forall u :: u in r <==> u in s || u == t
    ensures Ordered(r)
  {
    hide Ordered;
    var k := |s|;
    while k > 0 && s[k - 1].order > t.order
      invariant 0 <= k <= |s|
      invariant forall i | k <= i < |s| :: s[i].order > t.order
    {
      k := k - 1;
    }
    r := s[..k] + [t] + s[k..];
    InsertKeepsOrder(s, k, t);
    InsertMembers(s, k, t);
  }

  lemma InsertMembers(s: seq<Task>, k: nat, t: Task)
    requires k <= |s|
    ensures forall u :: u in s[..k] + [t] + s[k..] <==> u in s || u == t
  {
    forall u ensures u in s <==> u in s[..k] || u in s[k..] {
      assert s == s[..k] + s[k..];
    }
  }

  lemma InsertKeepsOrder(s: seq<Task>, k: nat, t: Task)
    requires Ordered(s) && k <= |s|
    requires forall i | k <= i < |s| :: s[i].order > t.order
    requires k > 0 ==> s[k - 1].order <= t.order
    ensures Ordered(s[..k] + [t] + s[k..])
  {
  }

  // ---- draining a plan ----

  function Active(tasks: seq<Task>): nat {
    if tasks == [] then 0 else Active(tasks[..|tasks| - 1]) + if tasks[|tasks| - 1].status == InProgress then 1 else 0
  }

  /** visited are tasks taken by focus and marked done one after the other until nothing is in progress. */
  predicate Drains(tasks: seq<Task>, visited: seq<Task>)
    decreases |visited|
  {
    if visited == [] then forall t | t in tasks :: t.status != InProgress
    else IsFocus(tasks, visited[0]) && Drains(Mark(tasks, visited[0].id), visited[1..])
  }

  /** The plan after those rounds. */
  function MarkAll(tasks: seq<Task>, visited: seq<Task>): seq<Task>
    decreases |visited|
  {
    if visited == [] then tasks else MarkAll(Mark(tasks, visited[0].id), visited[1..])
  }

  /** No task in progress hides behind an earlier task with its identifier. */
  predicate Reachable(tasks: seq<Task>) {
    forall i, j | 0 <= i < j < |tasks| && tasks[j].status == InProgress :: tasks[i].id != tasks[j].id
  }

  lemma {:induction false} ActiveUpdate(tasks: seq<Task>, i: nat)
    requires i < |tasks| && tasks[i].status == InProgress
    ensures Active(tasks[i := tasks[i].(status := Done)]) + 1 == Active(tasks)
  {
    var done := tasks[i := tasks[i].(status := Done)];
    var n := |tasks| - 1;
    if i == n {
      assert done[..n] == tasks[..n];
    } else {
      ActiveUpdate(tasks[..n], i);
      assert done[..n] == tasks[..n][i := tasks[i].(status := Done)];
    }
  }

  lemma {:induction false} ActiveZero(tasks: seq<Task>)
    ensures Active(tasks) == 0 <==> forall t | t in tasks :: t.status != InProgress
  {
    if tasks != [] {
      ActiveZero(tasks[..|tasks| - 1]);
      assert tasks == tasks[..|tasks| - 1] + [tasks[|tasks| - 1]];
    }
  }

  /** In a reachable plan, marking the focus takes exactly that task out of progress. */
  lemma FocusStep(tasks: seq<Task>, t: Task) returns (i: nat)
    requires Reachable(tasks) && IsFocus(tasks, t)
    ensures i < |tasks| && tasks[i] == t && Mark(tasks, t.id) == tasks[i := t.(status := Done)]
    ensures Reachable(Mark(tasks, t.id)) && Active(Mark(tasks, t.id)) + 1 == Active(tasks)
  {
    i :| i < |tasks| && tasks[i] == t;
    MarkAt(tasks, t.id, i);
    ActiveUpdate(tasks, i);
  }

  /** Draining a reachable plan takes exactly as many rounds as tasks were in progress and visits
      them, and no others, in non-decreasing order. */
  lemma {:induction false} DrainRounds(tasks: seq<Task>, visited: seq<Task>)
    requires Reachable(tasks) && Drains(tasks, visited)
    ensures |visited| == Active(tasks)
    ensures Ordered(visited)
    ensures forall i | 0 <= i < |visited| :: visited[i] in tasks && visited[i].status == InProgress
    decreases |visited|
  {
    hide Mark, Active;
    ActiveZero(tasks);
    if visited != [] {
      var k := FocusStep(tasks, visited[0]);
      var next := Mark(tasks, visited[0].id);
      DrainRounds(next, visited[1..]);
      forall i | 1 <= i < |visited| ensures visited[i] in tasks && visited[i].status == InProgress {
        assert visited[i] == visited[1..][i - 1];
        var m :| 0 <= m < |next| && next[m] == visited[i];
        assert tasks[m] in tasks;
      }
      forall i, j | 0 <= i < j < |visited| ensures visited[i].order <= visited[j].order {
        assert visited[j] == visited[1..][j - 1];
        assert i > 0 ==> visited[i] == visited[1..][i - 1];
      }
    }
  }

  /** After draining, exactly the tasks that were in progress are done and nothing else has changed. */
  lemma {:induction false} DrainResult(tasks: seq<Task>, visited: seq<Task>)
    requires Reachable(tasks) && Drains(tasks, visited)
    ensures |MarkAll(tasks, visited)| == |tasks|
    ensures forall i | 0 <= i < |tasks| ::
              MarkAll(tasks, visited)[i] == if tasks[i].status == InProgress then tasks[i].(status := Done) else tasks[i]
    decreases |visited|
  {
    hide Mark, Active;
    if visited == [] {
      forall i | 0 <= i < |tasks| ensures tasks[i].status != InProgress {
        assert tasks[i] in tasks;
      }
    } else {
      var k := FocusStep(tasks, visited[0]);
      DrainResult(Mark(tasks, visited[0].id), visited[1..]);
    }
  }

  /** Focusing always finds a next round while something is in progress. */
  lemma {:induction false} SomeFocus(tasks: seq<Task>) returns (t: Task)
    requires exists u :: u in tasks && u.status == InProgress
    ensures IsFocus(tasks, t)
  {
    var n := |tasks| - 1;
    var init, last := tasks[..n], tasks[n];
    assert tasks == init + [last];
    if exists u :: u in init && u.status == InProgress {
      t := SomeFocus(init);
      if last.status == InProgress && last.order < t.order {
        t := last;
      }
    } else {
      t := last;
    }
  }

  lemma {:induction false} ReachableDrains(tasks: seq<Task>) returns (visited: seq<Task>)
    requires Reachable(tasks)
    ensures Drains(tasks, visited)
    decreases Active(tasks)
  {
    ActiveZero(tasks);
    if Active(tasks) == 0 {
      visited := [];
    } else {
      var t := SomeFocus(tasks);
      var k := FocusStep(tasks, t);
      var rest := ReachableDrains(Mark(tasks, t.id));
      visited := [t] + rest;
      assert visited[1..] == rest;
    }
  }

  /** A task in progress behind a namesake is never marked. */
  lemma {:induction false} HiddenStays(tasks: seq<Task>, visited: seq<Task>, i: nat, j: nat)
    requires i < j < |tasks| && tasks[i].id == tasks[j].id && tasks[j].status == InProgress
    ensures !Drains(tasks, visited)
    decreases |visited|
  {
    assert tasks[j] in tasks;
    if visited != [] && IsFocus(tasks, visited[0]) {
      MarkOnlyFirst(tasks, visited[0].id, i, j);
      HiddenStays(Mark(tasks, visited[0].id), visited[1..], i, j);
    }
  }

  lemma {:induction false} MarkOnlyFirst(tasks: seq<Task>, id: string, i: nat, j: nat)
    requires i < j < |tasks| && tasks[i].id == tasks[j].id
    ensures Mark(tasks, id)[i].id == tasks[i].id
    ensures Mark(tasks, id)[j] == tasks[j]
  {
    if tasks[0].id != id && i > 0 {
      MarkOnlyFirst(tasks[1..], id, i - 1, j - 1);
    } else if tasks[0].id != id {
      MarkKeepsOthers(tasks[1..], id, j - 1);
    }
  }

  lemma {:induction false} MarkKeepsOthers(tasks: seq<Task>, id: string, j: nat)
    requires j < |tasks| && tasks[j].id != id
    ensures Mark(tasks, id)[j] == tasks[j]
  {
    if tasks[0].id != id && j > 0 {
      MarkKeepsOthers(tasks[1..], id, j - 1);
    }
  }

  /** "Take the focused task and mark it done" empties a plan if and only if no task in progress
      has an earlier namesake; distinct identifiers are enough. */
  lemma DrainTerminates(tasks: seq<Task>)
    ensures (exists visited :: Drains(tasks, visited)) <==> Reachable(tasks)
  {
    if Reachable(tasks) {
      var visited := ReachableDrains(tasks);
      assert Drains(tasks, visited);
    } else {
      var i, j :| 0 <= i < j < |tasks| && tasks[j].status == InProgress && tasks[i].id == tasks[j].id;
      forall visited ensures !Drains(tasks, visited) {
        HiddenStays(tasks, visited, i, j);
      }
    }
  }

  /** visited are tasks taken by focus and marked done one after the other, with or without more to do. */
  predicate Rounds(tasks: seq<Task>, visited: seq<Task>)
    decreases |visited|
  {
    visited == [] || (IsFocus(tasks, visited[0]) && Rounds(Mark(tasks, visited[0].id), visited[1..]))
  }

  /** However ties are resolved, every round of a reachable plan takes one task out of progress ... */
  lemma {:induction false} RoundsCount(tasks: seq<Task>, visited: seq<Task>)
    requires Reachable(tasks) && Rounds(tasks, visited)
    ensures Reachable(MarkAll(tasks, visited))
    ensures |visited| + Active(MarkAll(tasks, visited)) == Active(tasks)
    decreases |visited|
  {
    hide Mark, Active, Reachable, IsFocus;
    if visited != [] {
      var k := FocusStep(tasks, visited[0]);
      RoundsCount(Mark(tasks, visited[0].id), visited[1..]);
    }
  }

  lemma {:induction false} RoundsThenDrain(tasks: seq<Task>, visited: seq<Task>, rest: seq<Task>)
    requires Rounds(tasks, visited) && Drains(MarkAll(tasks, visited), rest)
    ensures Drains(tasks, visited + rest)
    decreases |visited|
  {
    hide Mark, IsFocus;
    if visited == [] {
      assert visited + rest == rest;
    } else {
      RoundsThenDrain(Mark(tasks, visited[0].id), visited[1..], rest);
      assert (visited + rest)[1..] == visited[1..] + rest;
    }
  }

  /** ... so no choice leads astray: every run of rounds has at most as many as there were tasks in
      progress, and can be continued to one that finishes the plan. */
  lemma EveryRunFinishes(tasks: seq<Task>, visited: seq<Task>) returns (rest: seq<Task>)
    requires Reachable(tasks) && Rounds(tasks, visited)
    ensures |visited| <= Active(tasks)
    ensures Drains(tasks, visited + rest) && |visited + rest| == Active(tasks)
  {
    hide Reachable, Rounds, Active, Drains, MarkAll;
    RoundsCount(tasks, visited);
    rest := ReachableDrains(MarkAll(tasks, visited));
    RoundsThenDrain(tasks, visited, rest);
    DrainRounds(tasks, visited + rest);
  }

  /** A finished task and a namesake in progress behind it: marking the focus changes nothing, ever. */
  lemma NamesakeBlocks(id: string, title: string, visited: seq<Task>)
    ensures var tasks := [Task(id, "", title, Done, 0), Task(id, "", title, InProgress, 1)];
            && IsFocus(tasks, tasks[1]) && Mark(tasks, id) == tasks && !Drains(tasks, visited)
  {
    var tasks := [Task(id, "", title, Done, 0), Task(id, "", title, InProgress, 1)];
    assert tasks[1] in tasks;
    MarkAt(tasks, id, 0);
    HiddenStays(tasks, visited, 0, 1);
  }

  lemma DistinctIsReachable(tasks: seq<Task>)
    requires forall i, j | 0 <= i < j < |tasks| :: tasks[i].id != tasks[j].id
    ensures Reachable(tasks)
  {
  }
}
