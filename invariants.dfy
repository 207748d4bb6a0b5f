/**
 * A board invariant the handlers keep: task ids are unique and every completion key names a
 * task of the list. The seed and every rollover establish it, add and remove keep it, and a
 * toggle keeps it exactly when the toggled id belongs to a task. On such a board the archived
 * percentage never exceeds 100.
 */
module BoardInvariants {
  import opened Options
  import opened BoardState
  import opened TaskHandlers
  import opened WeekIdentity
  import opened WeekRollover
  import opened Migrate
  import opened Ranks

  /** Ids are unique and no completion key is stray. */
  ghost predicate Consistent(d: Document) {
    && UniqueIds(d.taskList)
    && forall k :: k in d.tasks ==> k in Ids(d.taskList)
  }

  /** A set of integers drawn from a sequence has no more elements than the sequence. */
  lemma {:induction false} DrawnSetBound(keys: set<int>, s: seq<int>)
    requires forall k :: k in keys ==> k in s
    ensures |keys| <= |s|
    decreases |s|
  {
    if s == [] {
      assert forall k :: k !in keys;
      assert keys == {};
    } else {
      var rest := keys - {s[0]};
      forall k | k in rest ensures k in s[1..] {
        var i :| 0 <= i < |s| && s[i] == k;
        assert s[1..][i - 1] == k;
      }
      DrawnSetBound(rest, s[1..]);
    }
  }

  /** On a consistent board there are no more completion keys than tasks, so a week scores at most 100. */
  lemma ConsistentScore(d: Document, now: int)
    requires Consistent(d)
    ensures |d.tasks| <= |d.taskList|
    ensures ArchiveOf(d, now).percent <= 100
  {
    DrawnSetBound(d.tasks.Keys, Ids(d.taskList));
    ArchiveScore(d, now);
  }

  /**
   * The percentage counts every completion key, also one that names no task: one task and two
   * keys score 200 and the top rank.
   */
  lemma StrayKeysInflateScore(d: Document, now: int)
    requires d.taskList == [Task(1, "a", "", 10, 0)] && d.tasks == map[1 := 0, 2 := 0]
    ensures !Consistent(d)
    ensures ArchiveOf(d, now).percent == 200 && ArchiveOf(d, now).rank == "Apex Legend"
  {
    assert 2 !in Ids(d.taskList);
    assert d.tasks.Keys == {1, 2};
    RankExamples();
    assert Percent(2, 1) == 200;
  }

  /** A toggle keeps the invariant when the id belongs to a task, and breaks it by completing a stray id. */
  lemma ToggleConsistent(d: Document, id: TaskId, now: int)
    requires Consistent(d)
    ensures id in Ids(d.taskList) ==>
      Consistent(d.(tasks := Flip(d.tasks, id, now), lastUpdated := Some(now)))
    ensures id !in Ids(d.taskList) ==>
      !Consistent(d.(tasks := Flip(d.tasks, id, now), lastUpdated := Some(now)))
  {
  }

  /** Adding a task under the next id keeps the invariant. */
  lemma AddConsistent(d: Document, t: Task, now: int)
    requires Consistent(d) && t.id == NextId(d.taskList)
    ensures Consistent(d.(taskList := d.taskList + [t], lastUpdated := Some(now)))
  {
    var s := d.taskList + [t];
    AddKeepsIdsUnique(d.taskList, t);
    forall k | k in d.tasks ensures k in Ids(s) {
      var i :| 0 <= i < |d.taskList| && Ids(d.taskList)[i] == k;
      assert Ids(s)[i] == k;
    }
  }

  /** Removing a task together with its completion key keeps the invariant. */
  lemma RemoveConsistent(d: Document, id: TaskId, now: int)
    requires Consistent(d)
    ensures Consistent(d.(taskList := WithoutId(d.taskList, id), tasks := d.tasks - {id}, lastUpdated := Some(now)))
  {
    var r := WithoutId(d.taskList, id);
    RemoveKeepsIdsUnique(d.taskList, id);
    forall k | k in d.tasks - {id} ensures k in Ids(r) {
      var i :| 0 <= i < |d.taskList| && Ids(d.taskList)[i] == k;
      assert d.taskList[i] in r;
      var j :| 0 <= j < |r| && r[j] == d.taskList[i];
      assert Ids(r)[j] == k;
    }
  }

  /** A rollover leaves a consistent board whatever it started from, also with a supplied task list. */
  lemma RolloverConsistent(d: Document, bodyTasks: Option<seq<Task>>, now: int)
    ensures
      var next := Renumber(if bodyTasks.Some? then bodyTasks.value else Uncompleted(d.taskList, d.tasks));
      Consistent(d.(version := "2.0", weekId := Some(WeekId(now)), weekLabel := WeekRange(now),
                    lastUpdated := Some(now), tasks := map[], taskList := next,
                    history := Some(d.history.GetOr([]) + [ArchiveOf(d, now)])))
  {
    RenumberedIds(if bodyTasks.Some? then bodyTasks.value else Uncompleted(d.taskList, d.tasks));
  }

  /** A freshly seeded board is consistent. */
  lemma FreshBoardConsistent(now: int)
    ensures Consistent(FreshBoard(now))
  {
    SeedIds();
  }
}
