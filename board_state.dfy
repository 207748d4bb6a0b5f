/**
 * The board document ("board-state") and the one-key store that holds it. Every handler reads
 * the record, parses it into a fresh `Board` object, updates that object's fields and writes
 * the object back as a new record.
 */
module BoardState {
  import opened Options
  import opened Calendar
  import opened WeekIdentity

  type TaskId = int

  /** A task definition; the position in `taskList` is the display order. */
  datatype Task = Task(id: TaskId, text: string, detail: string, xp: int, tier: int)

  /** Static metadata of a difficulty tier. */
  datatype Tier = Tier(index: int, name: string, icon: string, meta: string)

  /** The summary of one archived week, appended to `history` by a rollover. */
  datatype ArchiveEntry = ArchiveEntry(
    weekId: Option<string>,
    weekLabel: WeekLabel,
    version: string,
    completed: nat,
    total: nat,
    percent: nat,
    rank: string,
    rankClass: string,
    completedTasks: seq<Task>,
    archivedAt: Timestamp)

  /**
   * The stored record. `tasks` is the completion set: a key is the id of a completed task and
   * its value the task's `completedAt`. Fields that a record may lack or hold `null` in are
   * `Option`s.
   */
  datatype Document = Document(
    version: string,
    weekId: Option<string>,
    weekLabel: WeekLabel,
    lastUpdated: Option<Timestamp>,
    created: Option<Timestamp>,
    tasks: map<TaskId, Timestamp>,
    taskList: seq<Task>,
    history: Option<seq<ArchiveEntry>>,
    tiers: Option<seq<Tier>>)

  /** The parsed board that a handler changes in place before writing it back. */
  class Board {
    var version: string
    var weekId: Option<string>
    var weekLabel: WeekLabel
    var lastUpdated: Option<Timestamp>
    var created: Option<Timestamp>
    var tasks: map<TaskId, Timestamp>
    var taskList: seq<Task>
    var history: Option<seq<ArchiveEntry>>
    var tiers: Option<seq<Tier>>

    /** `JSON.parse`: a fresh object holding the fields of record `d`. */
    constructor FromDocument(d: Document)
      ensures ToDocument() == d
    {
      version, weekId, weekLabel := d.version, d.weekId, d.weekLabel;
      lastUpdated, created := d.lastUpdated, d.created;
      tasks, taskList, history, tiers := d.tasks, d.taskList, d.history, d.tiers;
    }

    /**
     * The field assignments that start a new week: version 2.0, the new week's identity and
     * label, the update time, no completions and the new task list; nothing else changes.
     */
    method StartWeek(id: string, w: WeekLabel, now: Timestamp, next: seq<Task>)
      modifies this
      ensures ToDocument() == old(ToDocument()).(version := "2.0", weekId := Some(id), weekLabel := w,
                                                 lastUpdated := Some(now), tasks := map[], taskList := next)
    {
      version := "2.0";
      weekId := Some(id);
      weekLabel := w;
      lastUpdated := Some(now);
      tasks := map[];
      taskList := next;
    }

    /** `JSON.stringify`: the record this object is written back as. */
    function ToDocument(): Document
      reads this
    {
      Document(version, weekId, weekLabel, lastUpdated, created, tasks, taskList, history, tiers)
    }
  }

  /** The key-value namespace, reduced to its one key `board-state`; `None` is a missing key. */
  class Kv {
    var stored: Option<Document>

    constructor (initial: Option<Document>)
      ensures stored == initial
    {
      stored := initial;
    }

    method Get() returns (raw: Option<Document>)
      ensures raw == stored
    {
      raw := stored;
    }

    method Put(d: Document)
      modifies this
      ensures stored == Some(d)
    {
      stored := Some(d);
    }
  }

  /** The summary of the new week in a rollover response. */
  datatype NewWeek = NewWeek(weekId: string, weekLabel: WeekLabel, taskCount: nat, carriedForward: nat)

  /** The JSON body of a response. */
  datatype Payload =
    | Error(message: string)
    | Conflict(message: string, currentTasks: nat)
    | Toggled(id: TaskId, completed: bool, lastUpdated: Timestamp)
    | Added(task: Task, lastUpdated: Timestamp)
    | Removed(removed: TaskId, lastUpdated: Timestamp)
    | RolledOver(archived: ArchiveEntry, newWeek: NewWeek)
    | Seeded(message: string, weekLabel: WeekLabel, count: nat)

  datatype Response = Response(status: int, payload: Payload)

  /** The ids of a task list, in order (`taskList.map(t => t.id)`). */
  function Ids(s: seq<Task>): (ids: seq<TaskId>)
    ensures |ids| == |s| && forall i :: 0 <= i < |s| ==> ids[i] == s[i].id
  {
    seq(|s|, i requires 0 <= i < |s| => s[i].id)
  }

  /** No two tasks of the list share an id. */
  ghost predicate UniqueIds(s: seq<Task>) {
    forall i, j :: 0 <= i < j < |s| ==> s[i].id != s[j].id
  }
}
