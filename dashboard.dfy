// The dashboard's derived figures (src/app/dashboard/page.tsx): the summary
// statistics recomputed from the store's cattle, tasks and recent productions,
// and the short list of tasks due today. The clock reading is the explicit
// parameter `now`.

module Dashboard {
  import opened Types
  import opened ListOps
  import opened AppStore

  /** Fixed price per liter used for the revenue estimate. */
  const PricePerLiter: int := 22

  /** The dashboard lists at most this many of today's tasks. */
  const TodayTasksLimit: nat := 5

  datatype DashboardStats = DashboardStats(
    totalCattle: nat,
    activeCows: nat,
    todayProduction: int,
    monthlyProduction: int,
    pendingTasks: nat,
    estimatedRevenue: int)

  /** The figures shown before anything has been computed, and for empty lists. */
  const ZeroStats := DashboardStats(0, 0, 0, 0, 0, 0)

  predicate IsActiveCow(c: Cattle) {
    c.gender == Female && c.status == Active
  }

  predicate ProducedOn(p: Production, now: Date) {
    SameDay(p.date, now)
  }

  predicate ProducedInMonthOf(p: Production, now: Date) {
    SameMonth(p.date, now)
  }

  predicate IsPending(t: Task) {
    t.status == Pending
  }

  predicate IsDueOn(t: Task, now: Date) {
    SameDay(t.dueDate, now)
  }

  predicate AllLitersNonNegative(ps: seq<Production>) {
    forall i :: 0 <= i < |ps| ==> ps[i].liters >= 0
  }

  /** The total of the records' liters, 0 for none. */
  function SumLiters(ps: seq<Production>): (r: int)
    ensures ps == [] ==> r == 0
    ensures |ps| == 1 ==> r == ps[0].liters
    ensures AllLitersNonNegative(ps) ==> r >= 0
  {
    if ps == [] then 0 else ps[0].liters + SumLiters(ps[1..])
  }

  function ActiveCows(cattle: seq<Cattle>): (r: nat)
    ensures r <= |cattle|
    ensures cattle == [] ==> r == 0
  {
    |Filter(cattle, IsActiveCow)|
  }

  /** Liters over the records dated on `now`'s calendar day. */
  function TodayProduction(ps: seq<Production>, now: Date): (r: int)
    ensures ps == [] ==> r == 0
    ensures AllLitersNonNegative(ps) ==> r >= 0
  {
    var kept := Filter(ps, (p: Production) => ProducedOn(p, now));
    assert AllLitersNonNegative(ps) ==> AllLitersNonNegative(kept);
    SumLiters(kept)
  }

  /** Liters over the records dated in `now`'s month and year. */
  function MonthlyProduction(ps: seq<Production>, now: Date): (r: int)
    ensures ps == [] ==> r == 0
    ensures AllLitersNonNegative(ps) ==> r >= 0
  {
    var kept := Filter(ps, (p: Production) => ProducedInMonthOf(p, now));
    assert AllLitersNonNegative(ps) ==> AllLitersNonNegative(kept);
    SumLiters(kept)
  }

  function PendingTasks(tasks: seq<Task>): (r: nat)
    ensures r <= |tasks|
    ensures tasks == [] ==> r == 0
  {
    |Filter(tasks, IsPending)|
  }

  /** The number of pending tasks carrying the given id. */
  function PendingWithId(tasks: seq<Task>, id: Id): nat {
    |Filter(tasks, (t: Task) => t.id == id && IsPending(t))|
  }

  function DueOn(tasks: seq<Task>, now: Date): seq<Task> {
    Filter(tasks, (t: Task) => IsDueOn(t, now))
  }

  /** The statistics the dashboard recomputes whenever its lists change. */
  function ComputeStats(cattle: seq<Cattle>, tasks: seq<Task>, ps: seq<Production>, now: Date): (r: DashboardStats)
    ensures r.totalCattle == |cattle|
    ensures r.activeCows == ActiveCows(cattle)
    ensures r.todayProduction == TodayProduction(ps, now)
    ensures r.monthlyProduction == MonthlyProduction(ps, now)
    ensures r.pendingTasks == PendingTasks(tasks)
    ensures r.activeCows <= r.totalCattle
    ensures r.pendingTasks <= |tasks|
    ensures r.estimatedRevenue == r.monthlyProduction * PricePerLiter
    ensures AllLitersNonNegative(ps) ==> 0 <= r.todayProduction <= r.monthlyProduction
    ensures cattle == [] && tasks == [] && ps == [] ==> r == ZeroStats
  {
    var monthly := MonthlyProduction(ps, now);
    TodayAtMostMonthly(ps, now);
    DashboardStats(
      |cattle|,
      ActiveCows(cattle),
      TodayProduction(ps, now),
      monthly,
      PendingTasks(tasks),
      monthly * PricePerLiter)
  }

  /**
   * The first TodayTasksLimit tasks due on `now`'s calendar day, in list
   * order; all of them when fewer are due.
   */
  function TodayTasks(tasks: seq<Task>, now: Date): (r: seq<Task>)
    ensures |r| <= TodayTasksLimit
    ensures IsSubsequence(r, tasks)
    ensures forall i :: 0 <= i < |r| ==> IsDueOn(r[i], now)
    ensures |DueOn(tasks, now)| < TodayTasksLimit ==>
      forall i :: 0 <= i < |tasks| && IsDueOn(tasks[i], now) ==> tasks[i] in r
    ensures |DueOn(tasks, now)| >= TodayTasksLimit ==> |r| == TodayTasksLimit
    ensures r <= DueOn(tasks, now)
    ensures |r| == if |DueOn(tasks, now)| < TodayTasksLimit then |DueOn(tasks, now)| else TodayTasksLimit
  {
    var due := DueOn(tasks, now);
    FilterIsSubsequence(tasks, (t: Task) => IsDueOn(t, now));
    PrefixIsSubsequence(due, tasks, TodayTasksLimit);
    Take(due, TodayTasksLimit)
  }

  /** With no record dated today the day's total is 0; with none in the month, the month's is 0. */
  lemma NoMatchingProductionIsZero(ps: seq<Production>, now: Date)
    ensures (forall i :: 0 <= i < |ps| ==> !ProducedOn(ps[i], now)) ==> TodayProduction(ps, now) == 0
    ensures (forall i :: 0 <= i < |ps| ==> !ProducedInMonthOf(ps[i], now)) ==> MonthlyProduction(ps, now) == 0
  {
    var today := (p: Production) => ProducedOn(p, now);
    var month := (p: Production) => ProducedInMonthOf(p, now);
    if forall i :: 0 <= i < |ps| ==> !today(ps[i]) {
      FilterNoneKept(ps, today);
    }
    if forall i :: 0 <= i < |ps| ==> !month(ps[i]) {
      FilterNoneKept(ps, month);
    }
  }

  /** How one more record at the front contributes to the day's and the month's totals. */
  lemma ProductionCons(p: Production, ps: seq<Production>, now: Date)
    ensures TodayProduction([p] + ps, now) ==
            (if ProducedOn(p, now) then p.liters else 0) + TodayProduction(ps, now)
    ensures MonthlyProduction([p] + ps, now) ==
            (if ProducedInMonthOf(p, now) then p.liters else 0) + MonthlyProduction(ps, now)
  {
    assert ([p] + ps)[1..] == ps;
  }

  /** The total of two lists joined is the sum of their totals. */
  lemma {:induction false} SumLitersAppend(a: seq<Production>, b: seq<Production>)
    ensures SumLiters(a + b) == SumLiters(a) + SumLiters(b)
  {
    if a == [] {
      assert a + b == b;
    } else {
      assert (a + b)[1..] == a[1..] + b;
      SumLitersAppend(a[1..], b);
    }
  }

  /**
   * Everything produced today was produced this month, so with no negative
   * amounts today's total never exceeds the month's.
   */
  lemma {:induction false} TodayAtMostMonthly(ps: seq<Production>, now: Date)
    ensures AllLitersNonNegative(ps) ==> 0 <= TodayProduction(ps, now) <= MonthlyProduction(ps, now)
  {
    if AllLitersNonNegative(ps) && ps != [] {
      var today := (p: Production) => ProducedOn(p, now);
      var month := (p: Production) => ProducedInMonthOf(p, now);
      assert AllLitersNonNegative(ps[1..]);
      TodayAtMostMonthly(ps[1..], now);
      if today(ps[0]) {
        SameDayIsSameMonth(ps[0].date, now);
      }
      assert Filter(ps, today) == (if today(ps[0]) then [ps[0]] else []) + Filter(ps[1..], today);
      assert Filter(ps, month) == (if month(ps[0]) then [ps[0]] else []) + Filter(ps[1..], month);
    }
  }

  /** Replacing one animal changes activeCows by what the old and new records contribute. */
  lemma ActiveCowsAfterReplace(cattle: seq<Cattle>, i: nat, c: Cattle)
    requires i < |cattle|
    ensures ActiveCows(cattle[i := c]) ==
            ActiveCows(cattle) - (if IsActiveCow(cattle[i]) then 1 else 0) + (if IsActiveCow(c) then 1 else 0)
  {
    FilterLengthAfterUpdate(cattle, i, c, IsActiveCow);
  }

  /** Turning an active cow into a male, or giving her another status, removes her from the count. */
  lemma ActiveCowLeavesCount(cattle: seq<Cattle>, i: nat, c: Cattle)
    requires i < |cattle| && IsActiveCow(cattle[i])
    requires c.gender != Female || c.status != Active
    ensures ActiveCows(cattle[i := c]) == ActiveCows(cattle) - 1
  {
    ActiveCowsAfterReplace(cattle, i, c);
  }

  /** addCattle raises activeCows by one exactly when the new animal is an active female. */
  lemma ActiveCowsAfterAdd(cattle: seq<Cattle>, c: Cattle)
    ensures ActiveCows(cattle + [c]) == ActiveCows(cattle) + (if IsActiveCow(c) then 1 else 0)
  {
    FilterAppend(cattle, [c], IsActiveCow);
  }

  /** addTask raises pendingTasks by one exactly when the new task is pending. */
  lemma PendingTasksAfterAdd(tasks: seq<Task>, t: Task)
    ensures PendingTasks(tasks + [t]) == PendingTasks(tasks) + (if IsPending(t) then 1 else 0)
  {
    FilterAppend(tasks, [t], IsPending);
  }

  /**
   * completeTask lowers pendingTasks by the number of pending tasks carrying
   * the id; tasks with the id that were not pending (completed or cancelled)
   * do not change the count.
   */
  lemma {:induction false} PendingTasksAfterComplete(tasks: seq<Task>, id: Id, at: Date)
    ensures PendingTasks(CompletedTasks(tasks, id, at)) == PendingTasks(tasks) - PendingWithId(tasks, id)
  {
    if tasks != [] {
      var c, cr := CompletedTasks(tasks, id, at), CompletedTasks(tasks[1..], id, at);
      assert c[1..] == cr;
      PendingTasksAfterComplete(tasks[1..], id, at);
    }
  }

  /** Starting from the empty list, totalCattle counts the addCattle calls. */
  lemma TotalCattleCountsAdditions(added: seq<Cattle>, tasks: seq<Task>, ps: seq<Production>, now: Date)
    ensures ComputeStats(AfterAddingCattle([], added), tasks, ps, now).totalCattle == |added|
  {
    CattleAfterAdds([], added);
  }

  /**
   * addProduction puts the new record in front of the first nine old ones:
   * today's total gains the new record's liters when it is dated today and
   * loses whatever the dropped older records contributed. Below capacity
   * nothing is dropped: the old total plus the new record's share.
   */
  lemma TodayAfterAddProduction(ps: seq<Production>, p: Production, now: Date)
    ensures TodayProduction(PushRecent(ps, p), now) ==
            (if ProducedOn(p, now) then p.liters else 0) + TodayProduction(Take(ps, RecentCapacity - 1), now)
    ensures |ps| < RecentCapacity ==>
            TodayProduction(PushRecent(ps, p), now) ==
            TodayProduction(ps, now) + (if ProducedOn(p, now) then p.liters else 0)
  {
    var kept := Take(ps, RecentCapacity - 1);
    assert PushRecent(ps, p) == [p] + kept;
    ProductionCons(p, kept, now);
  }

  /** The same for the month's total. */
  lemma MonthlyAfterAddProduction(ps: seq<Production>, p: Production, now: Date)
    ensures MonthlyProduction(PushRecent(ps, p), now) ==
            (if ProducedInMonthOf(p, now) then p.liters else 0) + MonthlyProduction(Take(ps, RecentCapacity - 1), now)
    ensures |ps| < RecentCapacity ==>
            MonthlyProduction(PushRecent(ps, p), now) ==
            MonthlyProduction(ps, now) + (if ProducedInMonthOf(p, now) then p.liters else 0)
  {
    var kept := Take(ps, RecentCapacity - 1);
    assert PushRecent(ps, p) == [p] + kept;
    ProductionCons(p, kept, now);
  }

  /** Of a female active, a male active and a female sold animal, one is an active cow. */
  lemma ActiveCowsExample(cattle: seq<Cattle>, now: Date)
    requires |cattle| == 3
    requires cattle[0].gender == Female && cattle[0].status == Active
    requires cattle[1].gender == Male && cattle[1].status == Active
    requires cattle[2].gender == Female && cattle[2].status == Sold
    ensures ComputeStats(cattle, [], [], now).totalCattle == 3
    ensures ComputeStats(cattle, [], [], now).activeCows == 1
  {
    FilterCons(cattle[2], [], IsActiveCow);
    assert [cattle[2]] + [] == cattle[2..];
    FilterCons(cattle[1], cattle[2..], IsActiveCow);
    assert [cattle[1]] + cattle[2..] == cattle[1..];
    FilterCons(cattle[0], cattle[1..], IsActiveCow);
    assert [cattle[0]] + cattle[1..] == cattle;
  }

  /**
   * Two records of 5 and 7 liters today and one of 10 liters the day before:
   * 12 today, and 22 this month unless the day before is in another month.
   */
  lemma ProductionExample(ps: seq<Production>, now: Date)
    requires |ps| == 3 && ps[0].liters == 5 && ps[1].liters == 7 && ps[2].liters == 10
    requires SameDay(ps[0].date, now) && SameDay(ps[1].date, now) && !SameDay(ps[2].date, now)
    ensures TodayProduction(ps, now) == 12
    ensures MonthlyProduction(ps, now) == if SameMonth(ps[2].date, now) then 22 else 12
  {
    ProductionCons(ps[2], [], now);
    assert [ps[2]] + [] == ps[2..];
    ProductionCons(ps[1], ps[2..], now);
    assert [ps[1]] + ps[2..] == ps[1..];
    ProductionCons(ps[0], ps[1..], now);
    assert [ps[0]] + ps[1..] == ps;
  }

  /** A month of 100 liters gives an estimated revenue of 2200. */
  lemma RevenueExample(cattle: seq<Cattle>, tasks: seq<Task>, ps: seq<Production>, now: Date)
    requires MonthlyProduction(ps, now) == 100
    ensures ComputeStats(cattle, tasks, ps, now).estimatedRevenue == 2200
  {
  }

  /**
   * The month's total is taken over the recent list only: after eleven
   * one-liter records all dated today, it is 10, not 11.
   */
  lemma MonthlyCountsOnlyRecent(p: Production, now: Date)
    requires p.liters == 1 && SameDay(p.date, now)
    ensures MonthlyProduction(AfterAddingProductions([], seq(11, _ => p)), now) == 10
  {
    var added := seq(11, _ => p);
    RecentHoldsLatestAdds([], added);
    var recent := AfterAddingProductions([], added);
    MonthlyOfCopies(recent, p, now);
  }

  lemma {:induction false} MonthlyOfCopies(ps: seq<Production>, p: Production, now: Date)
    requires forall i :: 0 <= i < |ps| ==> ps[i] == p
    requires ProducedInMonthOf(p, now) && p.liters == 1
    ensures MonthlyProduction(ps, now) == |ps|
  {
    if ps != [] {
      MonthlyOfCopies(ps[1..], p, now);
      assert ps == [p] + ps[1..];
      ProductionCons(p, ps[1..], now);
    }
  }
}
