/**
 * The farm game: a catalogue of tasks, the user's points, level and progress
 * towards the next level, the achievements and the leaderboard. Completing a
 * task is the only thing that changes this state.
 *
 * Level progress is a percentage and a task worth `p` points is worth `p / 2`
 * percent, so progress is always a whole or half percentage. It is kept here
 * in half-percent units: `halfProgress == 2 * levelProgress`.
 */
module Game {

  datatype Category = Daily | Crop | Community

  datatype Task = Task(
    id: string,
    title: string,
    description: string,
    points: nat,
    completed: bool,
    category: Category)

  datatype Achievement = Achievement(
    id: string,
    title: string,
    description: string,
    progress: nat,
    maxProgress: nat,
    completed: bool,
    reward: nat)

  /** A leaderboard row as stored; its rank is its position, not a field. */
  datatype Farmer = Farmer(id: string, name: string, points: nat, avatar: string, isCurrentUser: bool)

  /** The user's points, level and level progress (in half-percent units). */
  datatype Progress = Progress(points: int, level: int, halfProgress: int)

  /** The user's standing together with the task list. */
  datatype Ledger = Ledger(progress: Progress, tasks: seq<Task>)

  /** A full level, 100 percent, in half-percent units. */
  const FullLevel: int := 200

  /** The level progress as the page shows it, in percent. */
  function Percent(p: Progress): real
  {
    p.halfProgress as real / 2.0
  }

  // ---------------------------------------------------------------------------
  // Seed data

  // Long texts below are written as sums of short pieces, cut between words:
  // the verifier handles short string literals far more cheaply than long ones.
  function SeedTasks(): seq<Task>
  {
    [ Task("1", "Log crop health data",
        "Record the health " +
        "status of your " +
        "crops today",
        10, false, Daily),
      Task("2", "Upload crop image",
        "Upload an image of " +
        "your crop for AI " +
        "analysis",
        15, false, Daily),
      Task("3", "Update financial records",
        "Log your farm " +
        "income and expenses " +
        "for the day",
        10, false, Daily),
      Task("4", "Identify 5 plant diseases",
        "Successfully " +
        "identify 5 " +
        "different plant " +
        "diseases",
        50, true, Crop),
      Task("5", "Monitor crop health for 7 days",
        "Consecutively log " +
        "crop health data " +
        "for a week",
        30, false, Crop),
      Task("6", "Answer a community question",
        "Help another farmer " +
        "by answering their " +
        "question",
        15, false, Community) ]
  }

  function SeedAchievements(): seq<Achievement>
  {
    [ Achievement("1", "Disease Detective",
        "Identify 10 crop " +
        "diseases using the " +
        "AI detection tool",
        6, 10, false, 100),
      Achievement("2", "Financial Wizard",
        "Track your farm " +
        "finances for 30 " +
        "consecutive days",
        22, 30, false, 150),
      Achievement("3", "Community Pillar",
        "Help 5 farmers by " +
        "answering their " +
        "questions",
        5, 5, true, 75) ]
  }

  function SeedLeaderboard(): seq<Farmer>
  {
    [ Farmer("1", "Maria Garcia", 1240, "\U{1F9D1}\U{200D}\U{1F33E}", false),
      Farmer("2", "John Smith", 980, "\U{1F469}\U{200D}\U{1F33E}", false),
      Farmer("3", "User", 450, "\U{1F9D1}\U{200D}\U{1F33E}", true),
      Farmer("4", "Aisha Khan", 430, "\U{1F469}\U{200D}\U{1F33E}", false),
      Farmer("5", "Carlos Rodriguez", 410, "\U{1F9D1}\U{200D}\U{1F33E}", false),
      Farmer("6", "Sarah Johnson", 390, "\U{1F469}\U{200D}\U{1F33E}", false),
      Farmer("7", "Li Wei", 350, "\U{1F9D1}\U{200D}\U{1F33E}", false),
      Farmer("8", "Raj Patel", 320, "\U{1F469}\U{200D}\U{1F33E}", false) ]
  }

  /** The user starts with 450 points at level 3, 70 percent of the way to level 4. */
  function SeedProgress(): Progress
  {
    Progress(450, 3, 140)
  }

  // ---------------------------------------------------------------------------
  // Level engine

  /**
   * Awards `pts` points: the points are added and the progress grows by
   * `pts / 2` percent; reaching 100 percent raises the level by one and keeps
   * the excess, once, with no further carry.
   */
  function Award(p: Progress, pts: nat): (r: Progress)
    ensures r.points == p.points + pts
    ensures r.level * FullLevel + r.halfProgress == p.level * FullLevel + p.halfProgress + pts
    ensures r.level == p.level || r.level == p.level + 1
    ensures r.level == p.level + 1 <==> p.halfProgress + pts >= FullLevel
  {
    var raised := p.halfProgress + pts;
    if raised >= FullLevel then
      Progress(p.points + pts, p.level + 1, raised - FullLevel)
    else
      Progress(p.points + pts, p.level, raised)
  }

  /** Below 100 percent the level stays and the progress is the sum. */
  lemma AwardBelowFull(p: Progress, pts: nat)
    requires p.halfProgress + pts < FullLevel
    ensures Award(p, pts) == Progress(p.points + pts, p.level, p.halfProgress + pts)
  {
  }

  /** At or past 100 percent the level rises by one and the excess is carried over. */
  lemma AwardReachesFull(p: Progress, pts: nat)
    requires p.halfProgress + pts >= FullLevel
    ensures Award(p, pts) == Progress(p.points + pts, p.level + 1, p.halfProgress + pts - FullLevel)
  {
  }

  /** A task worth less than 200 points keeps the progress within [0, 100) percent. */
  lemma AwardKeepsProgressInRange(p: Progress, pts: nat)
    requires 0 <= p.halfProgress < FullLevel
    requires pts < FullLevel
    ensures 0 <= Award(p, pts).halfProgress < FullLevel
  {
  }

  /**
   * The carry-over is a single step: from 99.5 percent, 400 points leave the
   * progress at 199.5 percent, past a full level.
   */
  lemma AwardCarriesOnce()
    ensures Award(Progress(0, 1, 199), 400) == Progress(400, 2, 399)
  {
  }

  // ---------------------------------------------------------------------------
  // Completing a task

  /** The task is the one asked for and still open, so completing it awards its points. */
  predicate Pending(t: Task, taskId: string)
  {
    t.id == taskId && !t.completed
  }

  /** One step of the `tasks.map` in `completeTask`: the standing after it and the task it yields. */
  function Visit(p: Progress, t: Task, taskId: string): (Progress, Task)
  {
    if Pending(t, taskId) then (Award(p, t.points), t.(completed := true)) else (p, t)
  }

  /** `completeTask(taskId)` as a whole: the tasks are visited in order, threading the standing. */
  function Sweep(p: Progress, ts: seq<Task>, taskId: string): Ledger
    decreases |ts|
  {
    if ts == [] then
      Ledger(p, [])
    else
      var before := Sweep(p, ts[..|ts| - 1], taskId);
      var (p', t') := Visit(before.progress, ts[|ts| - 1], taskId);
      Ledger(p', before.tasks + [t'])
  }

  /** The points that completing `taskId` would award. */
  function PendingPoints(ts: seq<Task>, taskId: string): nat
    decreases |ts|
  {
    if ts == [] then 0
    else PendingPoints(ts[..|ts| - 1], taskId) + (if Pending(ts[|ts| - 1], taskId) then ts[|ts| - 1].points else 0)
  }

  /** The ids in the list are pairwise distinct, as in the catalogue. */
  ghost predicate UniqueIds(ts: seq<Task>)
  {
    forall i, j :: 0 <= i < j < |ts| ==> ts[i].id != ts[j].id
  }

  /**
   * Completing keeps the length and order of the list; a task with the given
   * id comes out completed and every other task comes out unchanged.
   */
  lemma {:induction false} SweepTasks(p: Progress, ts: seq<Task>, taskId: string)
    ensures var r := Sweep(p, ts, taskId).tasks;
      && |r| == |ts|
      && forall k :: 0 <= k < |ts| ==> r[k] == (if ts[k].id == taskId then ts[k].(completed := true) else ts[k])
    decreases |ts|
  {
    if ts != [] {
      SweepTasks(p, ts[..|ts| - 1], taskId);
    }
  }

  /** A completed task stays completed. */
  lemma SweepKeepsCompleted(p: Progress, ts: seq<Task>, taskId: string, k: int)
    requires 0 <= k < |ts| && ts[k].completed
    ensures |Sweep(p, ts, taskId).tasks| == |ts| && Sweep(p, ts, taskId).tasks[k] == ts[k]
  {
    SweepTasks(p, ts, taskId);
  }

  /**
   * The points grow by exactly the pending points, and the total progress
   * (levels and percent together) by the same amount in half-percent units.
   */
  lemma {:induction false} SweepAwards(p: Progress, ts: seq<Task>, taskId: string)
    ensures var q := Sweep(p, ts, taskId).progress;
      && q.points == p.points + PendingPoints(ts, taskId)
      && q.level * FullLevel + q.halfProgress == p.level * FullLevel + p.halfProgress + PendingPoints(ts, taskId)
      && q.level >= p.level
    decreases |ts|
  {
    if ts != [] {
      SweepAwards(p, ts[..|ts| - 1], taskId);
    }
  }

  /**
   * When no task with the id is open (the id is unknown, or its task is
   * already completed) completing it changes nothing at all.
   */
  lemma {:induction false} SweepWithoutPending(p: Progress, ts: seq<Task>, taskId: string)
    requires forall t :: t in ts ==> !Pending(t, taskId)
    ensures Sweep(p, ts, taskId) == Ledger(p, ts)
    decreases |ts|
  {
    if ts != [] {
      assert ts[|ts| - 1] in ts;
      var front := ts[..|ts| - 1];
      assert forall t :: t in front ==> t in ts;
      SweepWithoutPending(p, front, taskId);
      assert front + [ts[|ts| - 1]] == ts;
    }
  }

  /**
   * With distinct ids, completing the open task at index `k` applies the
   * level engine once with that task's points.
   */
  lemma {:induction false} SweepOnePending(p: Progress, ts: seq<Task>, taskId: string, k: int)
    requires UniqueIds(ts)
    requires 0 <= k < |ts| && Pending(ts[k], taskId)
    ensures Sweep(p, ts, taskId).progress == Award(p, ts[k].points)
    decreases |ts|
  {
    var n := |ts| - 1;
    var front := ts[..n];
    if k == n {
      forall t | t in front ensures !Pending(t, taskId) {
        var j :| 0 <= j < n && front[j] == t;
        assert ts[j].id != ts[n].id;
      }
      SweepWithoutPending(p, front, taskId);
    } else {
      assert ts[n].id != ts[k].id;
      assert front[k] == ts[k];
      SweepOnePending(p, front, taskId, k);
    }
  }

  /** Completing the same task a second time changes nothing: points are awarded once. */
  lemma SweepIdempotent(p: Progress, ts: seq<Task>, taskId: string)
    ensures var once := Sweep(p, ts, taskId);
      Sweep(once.progress, once.tasks, taskId) == once
  {
    var once := Sweep(p, ts, taskId);
    SweepTasks(p, ts, taskId);
    forall t | t in once.tasks ensures !Pending(t, taskId) {
      var j :| 0 <= j < |once.tasks| && once.tasks[j] == t;
    }
    SweepWithoutPending(once.progress, once.tasks, taskId);
  }

  /** Completing keeps every task's points, so it keeps every bound on them. */
  lemma {:induction false} SweepKeepsRange(p: Progress, ts: seq<Task>, taskId: string)
    requires 0 <= p.halfProgress < FullLevel
    requires forall t :: t in ts ==> t.points < FullLevel
    ensures 0 <= Sweep(p, ts, taskId).progress.halfProgress < FullLevel
    decreases |ts|
  {
    if ts != [] {
      var front := ts[..|ts| - 1];
      assert forall t :: t in front ==> t in ts;
      SweepKeepsRange(p, front, taskId);
      assert ts[|ts| - 1] in ts;
    }
  }

  /**
   * From the starting state, completing task "1" (10 points) gives 460 points
   * at level 3 with 75 percent progress, and marks that task completed.
   */
  lemma CompleteFirstSeedTask()
    ensures var r := Sweep(SeedProgress(), SeedTasks(), "1");
      && r.progress == Progress(460, 3, 150)
      && Percent(r.progress) == 75.0
      && r.tasks == SeedTasks()[0 := SeedTasks()[0].(completed := true)]
  {
    var ts := SeedTasks();
    SeedTaskIds();
    SweepOnePending(SeedProgress(), ts, "1", 0);
    SweepTasks(SeedProgress(), ts, "1");
    var r := Sweep(SeedProgress(), ts, "1").tasks;
    assert r == ts[0 := ts[0].(completed := true)];
  }

  /** The catalogue's ids are distinct, and task "1" is the first one, open and worth 10 points. */
  lemma SeedTaskIds()
    ensures UniqueIds(SeedTasks())
    ensures SeedTasks()[0].id == "1" && !SeedTasks()[0].completed && SeedTasks()[0].points == 10
    ensures forall k :: 1 <= k < |SeedTasks()| ==> SeedTasks()[k].id != "1"
  {
  }

  // ---------------------------------------------------------------------------
  // Leaderboard

  /** The rank shown beside the row at index `i`. */
  function DisplayedRank(i: nat): nat
  {
    i + 1
  }

  /** Points strictly decrease down the board. */
  ghost predicate StrictlyDescending(board: seq<Farmer>)
  {
    forall i, j :: 0 <= i < j < |board| ==> board[i].points > board[j].points
  }

  /** The number of rows with more than `pts` points. */
  function CountAbove(board: seq<Farmer>, pts: nat): nat
    decreases |board|
  {
    if board == [] then 0
    else (if board[0].points > pts then 1 else 0) + CountAbove(board[1..], pts)
  }

  /** When every row has at most `pts` points, none is above it. */
  lemma {:induction false} NoneAbove(board: seq<Farmer>, pts: nat)
    requires forall f :: f in board ==> f.points <= pts
    ensures CountAbove(board, pts) == 0
    decreases |board|
  {
    if board != [] {
      assert board[0] in board;
      assert forall f :: f in board[1..] ==> f in board;
      NoneAbove(board[1..], pts);
    }
  }

  /**
   * On a board whose points strictly decrease, the displayed rank `i + 1` is
   * one more than the number of farmers with more points.
   */
  lemma {:induction false} RankCountsHigher(board: seq<Farmer>, i: nat)
    requires StrictlyDescending(board)
    requires i < |board|
    ensures DisplayedRank(i) == 1 + CountAbove(board, board[i].points)
    decreases |board|
  {
    var rest := board[1..];
    assert StrictlyDescending(rest) by {
      forall a, b | 0 <= a < b < |rest| ensures rest[a].points > rest[b].points {
        assert rest[a] == board[a + 1] && rest[b] == board[b + 1];
      }
    }
    if i == 0 {
      forall f | f in rest ensures f.points <= board[0].points {
        var j :| 0 <= j < |rest| && rest[j] == f;
        assert board[j + 1] == f;
      }
      NoneAbove(rest, board[0].points);
    } else {
      assert rest[i - 1] == board[i];
      RankCountsHigher(rest, i - 1);
    }
  }

  /** The seeded leaderboard is in strictly decreasing order of points; the user is shown third. */
  lemma SeedLeaderboardRanks()
    ensures StrictlyDescending(SeedLeaderboard())
    ensures SeedLeaderboard()[2].isCurrentUser && DisplayedRank(2) == 3
    ensures forall i :: 0 <= i < |SeedLeaderboard()| && i != 2 ==> !SeedLeaderboard()[i].isCurrentUser
  {
  }

  /** One more task visited: the sweep over `ts[..i + 1]` extends the sweep over `ts[..i]`. */
  lemma SweepStep(p: Progress, ts: seq<Task>, i: nat, taskId: string)
    requires i < |ts|
    ensures var before := Sweep(p, ts[..i], taskId);
      Sweep(p, ts[..i + 1], taskId)
        == Ledger(Visit(before.progress, ts[i], taskId).0, before.tasks + [Visit(before.progress, ts[i], taskId).1])
  {
    assert ts[..i + 1][..i] == ts[..i];
  }

  /** From a valid standing, a sweep over tasks worth less than a level leaves a valid standing and such tasks. */
  lemma SweepKeepsValid(p: Progress, ts: seq<Task>, taskId: string)
    requires 0 <= p.halfProgress < FullLevel && 1 <= p.level && 0 <= p.points
    requires forall t :: t in ts ==> t.points < FullLevel
    ensures var r := Sweep(p, ts, taskId);
      && 0 <= r.progress.halfProgress < FullLevel && 1 <= r.progress.level && 0 <= r.progress.points
      && forall t :: t in r.tasks ==> t.points < FullLevel
  {
    var r := Sweep(p, ts, taskId);
    SweepKeepsRange(p, ts, taskId);
    SweepAwards(p, ts, taskId);
    SweepTasks(p, ts, taskId);
    forall t | t in r.tasks ensures t.points < FullLevel {
      var k :| 0 <= k < |r.tasks| && r.tasks[k] == t;
      assert ts[k] in ts;
    }
  }

  // ---------------------------------------------------------------------------
  // The page's state

  /** The state of the game page: one field per piece of component state. */
  class Session {
    var userPoints: int
    var userLevel: int
    var halfProgress: int
    var tasks: seq<Task>
    var achievements: seq<Achievement>
    var leaderboard: seq<Farmer>

    /** Progress is below a full level, and no task can carry it past one. */
    ghost predicate Valid()
      reads this
    {
      && 0 <= halfProgress < FullLevel
      && 1 <= userLevel
      && 0 <= userPoints
      && forall t :: t in tasks ==> t.points < FullLevel
    }

    /** The standing and the task list, the part `completeTask` changes. */
    function State(): Ledger
      reads this
    {
      Ledger(Progress(userPoints, userLevel, halfProgress), tasks)
    }

    /** The initial state of the page. */
    constructor ()
      ensures Valid()
      ensures State() == Ledger(SeedProgress(), SeedTasks())
      ensures achievements == SeedAchievements() && leaderboard == SeedLeaderboard()
    {
      userPoints, userLevel, halfProgress := 450, 3, 140;
      tasks := SeedTasks();
      achievements := SeedAchievements();
      leaderboard := SeedLeaderboard();
    }

    /**
     * `completeTask(taskId)`: maps over the tasks; each open task with the id
     * is marked completed and its points are awarded. Achievements and the
     * leaderboard are not touched.
     */
    method CompleteTask(taskId: string)
      requires Valid()
      modifies this`userPoints, this`userLevel, this`halfProgress, this`tasks
      ensures Valid()
      ensures State() == Sweep(old(State()).progress, old(tasks), taskId)
      ensures achievements == old(achievements) && leaderboard == old(leaderboard)
    {
      ghost var start := Progress(userPoints, userLevel, halfProgress);
      var ts := tasks;
      var mapped: seq<Task> := [];
      var i := 0;
      while i < |ts|
        invariant 0 <= i <= |ts|
        invariant Sweep(start, ts[..i], taskId) == Ledger(Progress(userPoints, userLevel, halfProgress), mapped)
      {
        var task := ts[i];
        SweepStep(start, ts, i, taskId);
        if task.id == taskId && !task.completed {
          userPoints := userPoints + task.points;
          var newProgress := halfProgress + task.points;
          if newProgress >= FullLevel {
            userLevel := userLevel + 1;
            halfProgress := newProgress - FullLevel;
          } else {
            halfProgress := newProgress;
          }
          mapped := mapped + [task.(completed := true)];
        } else {
          mapped := mapped + [task];
        }
        i := i + 1;
      }
      assert ts[..i] == ts;
      SweepKeepsValid(start, ts, taskId);
      tasks := mapped;
    }
  }
}
