/**
 * The week rollover (POST /api/week): archives the current week with its completion
 * percentage and rank, carries the uncompleted tasks (or a supplied list) into the new week
 * renumbered from 1, and clears the completion set.
 */
module WeekRollover {
  import opened Options
  import opened Calendar
  import opened Lists
  import opened WeekIdentity
  import opened BoardState
  import opened Ranks
  import opened TaskHandlers

  const NOT_INITIALIZED: string := "Board not initialized"

  /**
   * The completion percentage: `100 * done / total` rounded to the nearest integer, halves
   * upwards, and 0 for an empty task list.
   */
  function Percent(done: nat, total: nat): (p: nat)
    ensures total == 0 ==> p == 0
    ensures total > 0 ==> total * (2 * p - 1) <= 200 * done < total * (2 * p + 1)
  {
    if total > 0 then
      var p := (200 * done + total) / (2 * total);
      assert 2 * total * p <= 200 * done + total < 2 * total * p + 2 * total;
      p
    else 0
  }

  lemma MulCancel(t: int, a: int, b: int)
    requires t > 0 && t * a < t * b
    ensures a < b
  {
  }

  /** With no more completion keys than tasks, the percentage is at most 100, and 100 when all are done. */
  lemma PercentBounds(done: nat, total: nat)
    requires done <= total
    ensures Percent(done, total) <= 100
    ensures 0 < done == total ==> Percent(done, total) == 100
  {
    var p: int := Percent(done, total);
    if total > 0 {
      MulCancel(total, 2 * p - 1, 201);
      if done == total {
        MulCancel(total, 199, 2 * p + 1);
      }
    }
  }

  /** More completion keys never lower the percentage. */
  lemma PercentMonotone(d1: nat, d2: nat, total: nat)
    requires d1 <= d2
    ensures Percent(d1, total) <= Percent(d2, total)
  {
    if total > 0 {
      MulCancel(total, 2 * Percent(d1, total) - 1, 2 * Percent(d2, total) + 1);
    }
  }

  /** `taskList.filter(t => board.tasks[String(t.id)])`: the tasks whose id is in the completion set. */
  function Completed(s: seq<Task>, done: map<TaskId, Timestamp>): seq<Task> {
    Keep(s, (t: Task) => t.id in done)
  }

  /** `taskList.filter(t => !board.tasks[String(t.id)])`: the tasks whose id is not in it. */
  function Uncompleted(s: seq<Task>, done: map<TaskId, Timestamp>): seq<Task> {
    Keep(s, (t: Task) => t.id !in done)
  }

  /**
   * The completed and the uncompleted tasks partition the list: each task lands in exactly one
   * of them, both keep the list's order, and their lengths add up to the list's.
   */
  lemma RolloverPartition(s: seq<Task>, done: map<TaskId, Timestamp>)
    ensures multiset(Completed(s, done)) + multiset(Uncompleted(s, done)) == multiset(s)
    ensures |Completed(s, done)| + |Uncompleted(s, done)| == |s|
    ensures forall t :: t in Completed(s, done) <==> t in s && t.id in done
    ensures forall t :: t in Uncompleted(s, done) <==> t in s && t.id !in done
    ensures IsSubsequence(Completed(s, done), s) && IsSubsequence(Uncompleted(s, done), s)
  {
    KeepPartition(s, (t: Task) => t.id in done, (t: Task) => t.id !in done);
    KeepMembers(s, (t: Task) => t.id in done);
    KeepMembers(s, (t: Task) => t.id !in done);
    KeepIsSubsequence(s, (t: Task) => t.id in done);
    KeepIsSubsequence(s, (t: Task) => t.id !in done);
  }

  /** `tasks.map((t, i) => ({...t, id: i + 1}))`: the tasks in their order, numbered 1 to N. */
  function Renumber(s: seq<Task>): (r: seq<Task>)
    ensures |r| == |s|
    ensures forall i :: 0 <= i < |s| ==> r[i].id == i + 1
    ensures forall i :: 0 <= i < |s| ==>
      r[i].text == s[i].text && r[i].detail == s[i].detail && r[i].xp == s[i].xp && r[i].tier == s[i].tier
  {
    seq(|s|, i requires 0 <= i < |s| => s[i].(id := i + 1))
  }

  /** A renumbered list has unique ids, and the next task added to it gets id N + 1. */
  lemma RenumberedIds(s: seq<Task>)
    ensures UniqueIds(Renumber(s))
    ensures NextId(Renumber(s)) == |s| + 1
  {
    var r := Renumber(s);
    if |s| > 0 {
      assert r[|s| - 1].id == |s|;
      var i :| 0 <= i < |r| && r[i].id == NextId(r) - 1;
    }
  }

  /** Renumbering twice is renumbering once. */
  lemma RenumberIdempotent(s: seq<Task>)
    ensures Renumber(Renumber(s)) == Renumber(s)
  {
    var r, rr := Renumber(s), Renumber(Renumber(s));
    assert forall i :: 0 <= i < |s| ==> rr[i] == r[i];
  }

  /** The archive entry of the week that `d` holds, stamped at `now`. */
  function ArchiveOf(d: Document, now: Timestamp): ArchiveEntry {
    var total := |d.taskList|;
    var done := |d.tasks|;
    var percent := Percent(done, total);
    var rank := RankOf(percent);
    ArchiveEntry(d.weekId, d.weekLabel, d.version, done, total, percent, rank.name, rank.cls,
                 Completed(d.taskList, d.tasks), now)
  }

  /**
   * An archived empty week scores 0 and the rank Ronin; when every completion key names a task
   * of the list, the score is at most 100.
   */
  lemma ArchiveScore(d: Document, now: Timestamp)
    ensures d.taskList == [] ==> ArchiveOf(d, now).percent == 0 && ArchiveOf(d, now).rank == "Ronin"
    ensures |d.tasks| <= |d.taskList| ==> ArchiveOf(d, now).percent <= 100
  {
    RankOfBand(0, 0);
    if |d.tasks| <= |d.taskList| {
      PercentBounds(|d.tasks|, |d.taskList|);
    }
  }

  /** The partition of a list with a head task: the head goes to exactly one side, in front. */
  lemma PartitionCons(x: Task, s: seq<Task>, done: map<TaskId, Timestamp>)
    ensures Completed([x] + s, done) == if x.id in done then [x] + Completed(s, done) else Completed(s, done)
    ensures Uncompleted([x] + s, done) == if x.id in done then Uncompleted(s, done) else [x] + Uncompleted(s, done)
  {
    assert ([x] + s)[1..] == s;
  }

  /** The task with number `id` of the example week: 10 xp, tier 0, no text. */
  function ExampleTask(id: TaskId): Task {
    Task(id, "", "", 10, 0)
  }

  /**
   * A week of four tasks with the first and third completed archives those two at 50 percent
   * (rank Shogun) and carries the other two forward as tasks 1 and 2.
   */
  lemma RolloverExample(d: Document, now: Timestamp)
    requires d.taskList == [ExampleTask(1), ExampleTask(2), ExampleTask(3), ExampleTask(4)]
    requires d.tasks == map[1 := 0, 3 := 0]
    ensures ArchiveOf(d, now).percent == 50 && ArchiveOf(d, now).rank == "Shogun"
    ensures ArchiveOf(d, now).completed == 2 && ArchiveOf(d, now).total == 4
    ensures ArchiveOf(d, now).completedTasks == [ExampleTask(1), ExampleTask(3)]
    ensures Renumber(Uncompleted(d.taskList, d.tasks)) == [ExampleTask(1), ExampleTask(2)]
  {
    ExampleScore(d.tasks);
    ExamplePartition(d.tasks);
    assert Uncompleted(d.taskList, d.tasks)[1] == ExampleTask(4);
  }

  /** The example's score: two keys over four tasks is 50 percent, which ranks Shogun. */
  lemma ExampleScore(done: map<TaskId, Timestamp>)
    requires done == map[1 := 0, 3 := 0]
    ensures |done| == 2 && Percent(2, 4) == 50 && RankOf(50).name == "Shogun"
  {
    assert done.Keys == {1, 3};
    RankExamples();
  }

  /** The example's partition: tasks 1 and 3 completed, tasks 2 and 4 carried. */
  lemma ExamplePartition(done: map<TaskId, Timestamp>)
    requires done == map[1 := 0, 3 := 0]
    ensures Completed([ExampleTask(1), ExampleTask(2), ExampleTask(3), ExampleTask(4)], done) == [ExampleTask(1), ExampleTask(3)]
    ensures Uncompleted([ExampleTask(1), ExampleTask(2), ExampleTask(3), ExampleTask(4)], done) == [ExampleTask(2), ExampleTask(4)]
  {
    var t1, t2, t3, t4 := ExampleTask(1), ExampleTask(2), ExampleTask(3), ExampleTask(4);
    assert 1 in done && 2 !in done && 3 in done && 4 !in done;
    PartitionCons(t4, [], done);
    assert [t4] == [t4] + [];
    PartitionCons(t3, [t4], done);
    assert [t3, t4] == [t3] + [t4];
    PartitionCons(t2, [t3, t4], done);
    assert [t2, t3, t4] == [t2] + [t3, t4];
    PartitionCons(t1, [t2, t3, t4], done);
    assert [t1, t2, t3, t4] == [t1] + [t2, t3, t4];
  }

  /** POST /api/week: archives the week, then starts a new one from the carried or supplied tasks. */
  method Rollover(kv: Kv, bodyTasks: Option<seq<Task>>, now: Timestamp) returns (resp: Response)
    modifies kv
    ensures old(kv.stored).None? ==>
      resp == Response(404, Error(NOT_INITIALIZED)) && kv.stored == old(kv.stored)
    ensures old(kv.stored).Some? ==>
      var d := old(kv.stored).value;
      var entry := ArchiveOf(d, now);
      var carried := Uncompleted(d.taskList, d.tasks);
      var next := Renumber(if bodyTasks.Some? then bodyTasks.value else carried);
      && kv.stored == Some(d.(version := "2.0", weekId := Some(WeekId(now)), weekLabel := WeekRange(now),
                             lastUpdated := Some(now), tasks := map[], taskList := next,
                             history := Some(d.history.GetOr([]) + [entry])))
      && resp == Response(200, RolledOver(entry, NewWeek(WeekId(now), WeekRange(now), |next|, |carried|)))
  {
    var raw := kv.Get();
    if raw.None? {
      return Response(404, Error(NOT_INITIALIZED));
    }
    ghost var d := raw.value;
    var board := new Board.FromDocument(raw.value);

    var totalTasks := |board.taskList|;
    var done := |board.tasks|;
    var percent := Percent(done, totalTasks);
    var rank := RankForPercent(percent);

    var archiveEntry := ArchiveEntry(board.weekId, board.weekLabel, board.version, done, totalTasks,
                                     percent, rank.name, rank.cls, Completed(board.taskList, board.tasks), now);
    assert archiveEntry == ArchiveOf(d, now);
    if board.history.None? {
      board.history := Some([]);
    }
    board.history := Some(board.history.value + [archiveEntry]);

    var uncompleted := Uncompleted(board.taskList, board.tasks);
    var nextTasks := if bodyTasks.Some? then bodyTasks.value else uncompleted;
    var renumbered := Renumber(nextTasks);
    assert board.ToDocument() == d.(history := Some(d.history.GetOr([]) + [archiveEntry]));

    var weekId, weekLabel := WeekId(now), WeekRange(now);
    board.StartWeek(weekId, weekLabel, now, renumbered);
    kv.Put(board.ToDocument());

    resp := Response(200, RolledOver(archiveEntry, NewWeek(weekId, weekLabel, |renumbered|, |uncompleted|)));
  }
}
