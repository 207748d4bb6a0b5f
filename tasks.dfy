/**
 * The task handlers: PUT toggles a task's completion, POST appends a task, DELETE removes one.
 * Each validates its request, loads the board (404 when there is none), changes the parsed
 * board in place and saves it with a fresh `lastUpdated`.
 */
module TaskHandlers {
  import opened Options
  import opened Calendar
  import opened Lists
  import opened BoardState

  const MISSING_ID: string := "Missing task id"
  const MISSING_TEXT: string := "Missing task text"
  const NOT_INITIALIZED: string := "Board not initialized. Run /api/migrate first."

  /** `getBoard`: a fresh parsed copy of the stored record, or `null` when the key is missing. */
  method GetBoard(kv: Kv) returns (board: Board?)
    ensures board == null <==> kv.stored.None?
    ensures board != null ==> fresh(board) && board.ToDocument() == kv.stored.value
  {
    var raw := kv.Get();
    if raw.None? {
      return null;
    }
    board := new Board.FromDocument(raw.value);
  }

  /** `saveBoard`: stamps `lastUpdated` with the current time and writes the board back. */
  method SaveBoard(kv: Kv, board: Board, now: Timestamp)
    modifies kv, board
    ensures board.ToDocument() == old(board.ToDocument()).(lastUpdated := Some(now))
    ensures kv.stored == Some(board.ToDocument())
  {
    board.lastUpdated := Some(now);
    kv.Put(board.ToDocument());
  }

  // ---------------------------------------------------------------------------------------------
  // Toggle

  /** The completion set after toggling `id`: a completed id loses its entry, any other gains one. */
  function Flip(done: map<TaskId, Timestamp>, id: TaskId, now: Timestamp): (r: map<TaskId, Timestamp>)
    ensures id in r <==> id !in done
    ensures id in r ==> r[id] == now
    ensures forall k :: k != id ==> (k in r <==> k in done)
    ensures forall k :: k != id && k in r ==> r[k] == done[k]
  {
    if id in done then done - {id} else done[id := now]
  }

  /**
   * Toggling the same id twice gives back the same completed ids; the set itself comes back
   * unchanged when the id started incomplete, and with the second toggle's time otherwise.
   */
  lemma FlipTwice(done: map<TaskId, Timestamp>, id: TaskId, t1: Timestamp, t2: Timestamp)
    ensures Flip(Flip(done, id, t1), id, t2).Keys == done.Keys
    ensures id !in done ==> Flip(Flip(done, id, t1), id, t2) == done
    ensures id in done ==> Flip(Flip(done, id, t1), id, t2) == done[id := t2]
  {
    var twice := Flip(Flip(done, id, t1), id, t2);
    if id !in done {
      assert twice.Keys == done.Keys;
    } else {
      assert twice.Keys == done[id := t2].Keys;
    }
  }

  /** PUT /api/tasks: flips the completion of task `id` and reports whether it is now completed. */
  method Toggle(kv: Kv, id: TaskId, now: Timestamp) returns (resp: Response)
    modifies kv
    ensures id == 0 ==> resp == Response(400, Error(MISSING_ID)) && kv.stored == old(kv.stored)
    ensures id != 0 && old(kv.stored).None? ==>
      resp == Response(404, Error(NOT_INITIALIZED)) && kv.stored == old(kv.stored)
    ensures id != 0 && old(kv.stored).Some? ==>
      var d := old(kv.stored).value;
      && kv.stored == Some(d.(tasks := Flip(d.tasks, id, now), lastUpdated := Some(now)))
      && resp == Response(200, Toggled(id, id in kv.stored.value.tasks, now))
  {
    if id == 0 {
      return Response(400, Error(MISSING_ID));
    }
    var board := GetBoard(kv);
    if board == null {
      return Response(404, Error(NOT_INITIALIZED));
    }
    if id in board.tasks {
      board.tasks := board.tasks - {id};
    } else {
      board.tasks := board.tasks[id := now];
    }
    SaveBoard(kv, board, now);
    var completed := id in board.tasks;
    resp := Response(200, Toggled(id, completed, board.lastUpdated.value));
  }

  /** Two toggles of the same id in a row leave the same tasks completed as before. */
  method ToggleTwice(kv: Kv, id: TaskId, t1: Timestamp, t2: Timestamp) returns (first: Response, second: Response)
    requires id != 0 && kv.stored.Some?
    modifies kv
    ensures kv.stored.Some? && kv.stored.value.tasks.Keys == old(kv.stored).value.tasks.Keys
    ensures kv.stored.value == old(kv.stored).value.(tasks := kv.stored.value.tasks, lastUpdated := Some(t2))
    ensures first.payload.Toggled? && second.payload.Toggled?
    ensures first.payload.completed == !second.payload.completed
  {
    first := Toggle(kv, id, t1);
    second := Toggle(kv, id, t2);
    FlipTwice(old(kv.stored).value.tasks, id, t1, t2);
  }

  // ---------------------------------------------------------------------------------------------
  // Add

  /** `Math.max(...xs)` over a non-empty list of ids. */
  function Max(xs: seq<int>): (m: int)
    requires |xs| > 0
    ensures forall i :: 0 <= i < |xs| ==> xs[i] <= m
    ensures exists i :: 0 <= i < |xs| && xs[i] == m
  {
    if |xs| == 1 then xs[0]
    else
      var rest := Max(xs[1..]);
      assert forall i :: 1 <= i < |xs| ==> xs[i] == xs[1..][i - 1];
      if xs[0] >= rest then xs[0] else rest
  }

  /**
   * The id of a new task: one more than the largest id in the list, or 1 for an empty list. It
   * is the least integer above every id, so a gap left by a removal is never filled.
   */
  function NextId(s: seq<Task>): (next: TaskId)
    ensures forall i :: 0 <= i < |s| ==> s[i].id < next
    ensures |s| == 0 ==> next == 1
    ensures |s| > 0 ==> exists i :: 0 <= i < |s| && s[i].id == next - 1
  {
    var existingIds := Ids(s);
    if |existingIds| > 0 then Max(existingIds) + 1 else 1
  }

  /**
   * The new task with its defaults: a missing or empty `detail` becomes "", a missing or zero
   * `xp` becomes 10 (so an explicit 0 is replaced), and only a missing `tier` becomes 0.
   */
  function NewTask(id: TaskId, text: string, detail: Option<string>, xp: Option<int>, tier: Option<int>): (t: Task)
    ensures t.id == id && t.text == text
    ensures t.detail == detail.GetOr("")
    ensures t.xp != 0
    ensures xp.Some? && xp.value != 0 ==> t.xp == xp.value
    ensures xp == None || xp == Some(0) ==> t.xp == 10
    ensures t.tier == tier.GetOr(0)
  {
    Task(id, text,
      if detail.Some? && detail.value != "" then detail.value else "",
      if xp.Some? && xp.value != 0 then xp.value else 10,
      if tier.Some? then tier.value else 0)
  }

  /** Appending a task under `NextId` keeps the ids of a list unique. */
  lemma AddKeepsIdsUnique(s: seq<Task>, t: Task)
    requires UniqueIds(s) && t.id == NextId(s)
    ensures UniqueIds(s + [t])
  {
  }

  /** POST /api/tasks: appends a task numbered after the largest id and returns it (201). */
  method Add(kv: Kv, text: string, detail: Option<string>, xp: Option<int>, tier: Option<int>, now: Timestamp)
    returns (resp: Response)
    modifies kv
    ensures text == "" ==> resp == Response(400, Error(MISSING_TEXT)) && kv.stored == old(kv.stored)
    ensures text != "" && old(kv.stored).None? ==>
      resp == Response(404, Error(NOT_INITIALIZED)) && kv.stored == old(kv.stored)
    ensures text != "" && old(kv.stored).Some? ==>
      var d := old(kv.stored).value;
      var t := NewTask(NextId(d.taskList), text, detail, xp, tier);
      && kv.stored == Some(d.(taskList := d.taskList + [t], lastUpdated := Some(now)))
      && resp == Response(201, Added(t, now))
  {
    if text == "" {
      return Response(400, Error(MISSING_TEXT));
    }
    var board := GetBoard(kv);
    if board == null {
      return Response(404, Error(NOT_INITIALIZED));
    }
    var nextId := NextId(board.taskList);
    var newTask := NewTask(nextId, text, detail, xp, tier);
    board.taskList := board.taskList + [newTask];
    SaveBoard(kv, board, now);
    resp := Response(201, Added(newTask, board.lastUpdated.value));
  }

  // ---------------------------------------------------------------------------------------------
  // Remove

  /** `taskList.filter(t => t.id !== id)`: every task with another id, with its multiplicity and in order. */
  function WithoutId(s: seq<Task>, id: TaskId): (r: seq<Task>)
    ensures forall i :: 0 <= i < |r| ==> r[i].id != id
    ensures forall t :: t in r <==> t in s && t.id != id
    ensures forall t :: multiset(r)[t] == if t.id != id then multiset(s)[t] else 0
    ensures IsSubsequence(r, s)
  {
    KeepIsSubsequence(s, (t: Task) => t.id != id);
    KeepCounts(s, (t: Task) => t.id != id);
    KeepMembers(s, (t: Task) => t.id != id);
    var r := Keep(s, (t: Task) => t.id != id);
    assert forall i :: 0 <= i < |r| ==> r[i] in r;
    r
  }

  /** Removing an id that no task has leaves the list as it was. */
  lemma RemoveAbsentIsNoop(s: seq<Task>, id: TaskId)
    requires forall i :: 0 <= i < |s| ==> s[i].id != id
    ensures WithoutId(s, id) == s
  {
    KeepAll(s, (t: Task) => t.id != id);
  }

  /** In a list with unique ids, no later task shares the first task's id. */
  lemma HeadIdFresh(s: seq<Task>)
    requires UniqueIds(s) && s != []
    ensures forall t :: t in s[1..] ==> t.id != s[0].id
  {
    forall t | t in s[1..] ensures t.id != s[0].id {
      var k :| 0 <= k < |s| - 1 && s[1..][k] == t;
      assert s[k + 1] == t;
    }
  }

  /** Putting a task in front of a list with unique ids, none of them its own, keeps them unique. */
  lemma ConsKeepsIdsUnique(x: Task, r: seq<Task>)
    requires UniqueIds(r) && forall t :: t in r ==> t.id != x.id
    ensures UniqueIds([x] + r)
  {
    var xr := [x] + r;
    forall i, j | 0 <= i < j < |xr| ensures xr[i].id != xr[j].id {
      assert xr[j] == r[j - 1];
      if i == 0 {
        assert r[j - 1] in r;
      } else {
        assert xr[i] == r[i - 1];
      }
    }
  }

  /** Filtering a list with unique ids keeps them unique. */
  lemma {:induction false} KeepKeepsIdsUnique(s: seq<Task>, p: Task -> bool)
    requires UniqueIds(s)
    ensures UniqueIds(Keep(s, p))
  {
    if s != [] {
      var rest := Keep(s[1..], p);
      assert UniqueIds(s[1..]) by {
        forall i, j | 0 <= i < j < |s| - 1 ensures s[1..][i].id != s[1..][j].id {
          assert s[1..][i] == s[i + 1] && s[1..][j] == s[j + 1];
        }
      }
      KeepKeepsIdsUnique(s[1..], p);
      KeepMembers(s[1..], p);
      if p(s[0]) {
        HeadIdFresh(s);
        ConsKeepsIdsUnique(s[0], rest);
        assert Keep(s, p) == [s[0]] + rest;
      } else {
        assert Keep(s, p) == rest;
      }
    }
  }

  /** Removing a task keeps the ids of a list unique. */
  lemma RemoveKeepsIdsUnique(s: seq<Task>, id: TaskId)
    requires UniqueIds(s)
    ensures UniqueIds(WithoutId(s, id))
  {
    KeepKeepsIdsUnique(s, (t: Task) => t.id != id);
  }

  /** DELETE /api/tasks: removes every task with the id and the id's completion entry, also when absent. */
  method Remove(kv: Kv, id: TaskId, now: Timestamp) returns (resp: Response)
    modifies kv
    ensures id == 0 ==> resp == Response(400, Error(MISSING_ID)) && kv.stored == old(kv.stored)
    ensures id != 0 && old(kv.stored).None? ==>
      resp == Response(404, Error(NOT_INITIALIZED)) && kv.stored == old(kv.stored)
    ensures id != 0 && old(kv.stored).Some? ==>
      var d := old(kv.stored).value;
      && kv.stored == Some(d.(taskList := WithoutId(d.taskList, id), tasks := d.tasks - {id},
                             lastUpdated := Some(now)))
      && resp == Response(200, Removed(id, now))
  {
    if id == 0 {
      return Response(400, Error(MISSING_ID));
    }
    var board := GetBoard(kv);
    if board == null {
      return Response(404, Error(NOT_INITIALIZED));
    }
    board.taskList := WithoutId(board.taskList, id);
    board.tasks := board.tasks - {id};
    SaveBoard(kv, board, now);
    resp := Response(200, Removed(id, board.lastUpdated.value));
  }
}
