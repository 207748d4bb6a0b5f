/**
 * The one-time seed (POST /api/migrate): refuses when the stored board already has tasks,
 * otherwise writes a fresh board holding the 23 seed tasks and the tier table.
 */
module Migrate {
  import opened Options
  import opened Calendar
  import opened WeekIdentity
  import opened BoardState
  import opened TaskHandlers
  import opened WeekRollover

  const ALREADY_SEEDED: string := "Board already has data. To force re-migrate, delete the board-state key first."
  const SEEDED: string := "Board seeded with 23 tasks"

  /** The 23 tasks of the seed board, numbered 1 to 23 and grouped by tier. */
  const SEED_TASKS: seq<Task> := [
    Task(1, "Post Marketing Manager response to Justin", "Already drafted in handoff - paste in leadership channel", 10, 0),
    Task(2, "Respond to Josh re: 4 videos", "Facebook ads rotation - quick Slack reply with next steps", 10, 0),
    Task(3, "Send Henry's salary agreement to Josh", "Forward to close out compensation", 10, 0),
    Task(4, "Message Cesar: calculate ROAS", "Needs Precision access fixed - for marketing meeting", 10, 0),
    Task(5, "Nudge Tommy: document phone sales workflow", "Off track - due March 15", 10, 0),
    Task(6, "Post January celebration message", "Celebrate 10 closes on Slack", 10, 0),
    Task(7, "Send Diana's team the videos for ad rotation", "Drive folder with video assets for Facebook ads", 10, 0),
    Task(8, "Schedule Sales & Membership L10", "End of month - create calendar invite", 15, 1),
    Task(9, "Schedule Marketing Manager interview", "1hr block: 30 min Esteban, then Josh + Yesenia if vibe check passes", 15, 1),
    Task(10, "Schedule AI assistant demo for team", "Pick a day next week", 15, 1),
    Task(11, "Resend 4 bounced emails with corrected addresses", "Jacob, Rahul, Frank, Mark - addresses in handoff", 20, 2),
    Task(12, "Update Arash Eskandari's profile", "Quick update in system", 20, 2),
    Task(13, "Plug in February goals in Precision", "Scorecard data entry", 30, 3),
    Task(14, "Fix Launchpad totals in Precision", "Inaccurate - need Henry's closes inputted", 30, 3),
    Task(15, "Set up guest tracking process with Cesar", "Cesar notifies Brett for non-paying invited guest badge prep", 30, 3),
    Task(16, "Add registration step to sales onboarding SOP", "Cesar registers via Accelerate/Elite form, notifies Brett", 30, 3),
    Task(17, "Complete January end-of-month sales report", "Post on Slack for sales team - 10 closed, $12,550 Henry revenue", 50, 4),
    Task(18, "Start February weekly sales reports", "Create template and post first week on Slack", 50, 4),
    Task(19, "Update Marketing Manager role posting", "Add Yesenia's + Josh's requirement lists into description", 50, 4),
    Task(20, "Feed candidate test results back to AI", "Build objective scoring system for Marketing Manager candidates", 50, 4),
    Task(21, "Reach out to Viral Coach", "Content strategy help: only 1,200 views max, no trending sounds, weak CTAs", 50, 4),
    Task(22, "Transfer data to Precision", "Migrate relevant data into Precision platform", 50, 4),
    Task(23, "Map out July/November guest process", "Full process design - due April for Cody's team", 50, 4)
  ]

  /** The five difficulty tiers, in index order. */
  const TIERS: seq<Tier> := [
    Tier(0, "Quick Wins", "\U{26A1}", "Under 5 minutes each - warm up the blade"),
    Tier(1, "Scheduling", "\U{1F4C5}", "5-15 minutes each - set the battlefield"),
    Tier(2, "Quick Tasks", "\U{1F4AB}", "10-20 minutes each - sharpen the edge"),
    Tier(3, "Moderate Effort", "\U{2699}\U{FE0F}", "20-45 minutes each - test your discipline"),
    Tier(4, "Heavy Lifts", "\U{1F525}", "45+ minutes each - prove you are Apex")
  ]

  /**
   * The seed list is numbered 1 to 23 in order, exactly as a rollover would number it, so its
   * ids are unique and the first task added to it gets id 24.
   */
  lemma SeedIds()
    ensures |SEED_TASKS| == 23
    ensures forall i :: 0 <= i < |SEED_TASKS| ==> SEED_TASKS[i].id == i + 1
    ensures Renumber(SEED_TASKS) == SEED_TASKS
    ensures UniqueIds(SEED_TASKS)
    ensures NextId(SEED_TASKS) == 24
  {
    assert forall i :: 0 <= i < |SEED_TASKS| ==> SEED_TASKS[i].id == i + 1;
    assert Renumber(SEED_TASKS) == SEED_TASKS;
    RenumberedIds(SEED_TASKS);
  }

  /** Every tier sits at its own index, and every seed task names one of the tiers. */
  lemma SeedTiers()
    ensures |TIERS| == 5
    ensures forall i :: 0 <= i < |TIERS| ==> TIERS[i].index == i
    ensures forall i :: 0 <= i < |SEED_TASKS| ==> 0 <= SEED_TASKS[i].tier < |TIERS|
    ensures forall i, j :: 0 <= i < j < |SEED_TASKS| ==> SEED_TASKS[i].tier <= SEED_TASKS[j].tier
  {
  }

  /**
   * The board a seed writes at `now`: a version 2.0 board for the week containing `now`, created
   * and updated at `now`, with the seed tasks and tiers, nothing completed and nothing archived.
   */
  function FreshBoard(now: Timestamp): (d: Document)
    ensures d.version == "2.0" && d.created == d.lastUpdated == Some(now)
    ensures d.weekId == Some(WeekId(now)) && d.weekLabel == WeekRange(now)
    ensures d.tasks == map[] && d.history == Some([])
    ensures d.taskList == SEED_TASKS && d.tiers == Some(TIERS)
  {
    Document("2.0", Some(WeekId(now)), WeekRange(now), Some(now), Some(now), map[], SEED_TASKS, Some([]), Some(TIERS))
  }

  /** Seeding only proceeds when there is no board or the stored board has no tasks. */
  predicate MaySeed(stored: Option<Document>) {
    stored.None? || |stored.value.taskList| == 0
  }

  /**
   * POST /api/migrate: a board that already has tasks is left alone (409, with its task count);
   * otherwise the fresh board replaces whatever is stored (201).
   */
  method Seed(kv: Kv, now: Timestamp) returns (resp: Response)
    modifies kv
    ensures !MaySeed(old(kv.stored)) ==>
      resp == Response(409, Conflict(ALREADY_SEEDED, |old(kv.stored).value.taskList|)) && kv.stored == old(kv.stored)
    ensures MaySeed(old(kv.stored)) ==>
      kv.stored == Some(FreshBoard(now)) && resp == Response(201, Seeded(SEEDED, WeekRange(now), |SEED_TASKS|))
  {
    var existing := kv.Get();
    if existing.Some? {
      var parsed := existing.value;
      if |parsed.taskList| > 0 {
        return Response(409, Conflict(ALREADY_SEEDED, |parsed.taskList|));
      }
    }
    var board := FreshBoard(now);
    kv.Put(board);
    resp := Response(201, Seeded(SEEDED, board.weekLabel, |SEED_TASKS|));
  }

  /** A second seed right after a first is refused and leaves the first seed's board in place. */
  method SeedTwice(kv: Kv, t1: Timestamp, t2: Timestamp) returns (first: Response, second: Response)
    modifies kv
    ensures kv.stored.Some? && second == Response(409, Conflict(ALREADY_SEEDED, |kv.stored.value.taskList|))
    ensures MaySeed(old(kv.stored)) ==> first.status == 201 && kv.stored == Some(FreshBoard(t1))
    ensures !MaySeed(old(kv.stored)) ==> first == second && kv.stored == old(kv.stored)
  {
    SeedIds();
    first := Seed(kv, t1);
    second := Seed(kv, t2);
  }
}
