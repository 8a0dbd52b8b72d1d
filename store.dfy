// The application state container (src/store/index.ts): one object holding
// the session's user, ranch, cattle, tasks, recent productions and UI flags.
// Each operation reassigns exactly one field, building the new value from the
// old one by appending, by replacing the records whose id matches, or by
// prepending and truncating. The list updates are pure functions below; the
// class applies them.

module AppStore {
  import opened Types
  import opened ListOps

  /** addProduction keeps at most this many records. */
  const RecentCapacity: nat := 10

  /** updateCattle's list update: every record with the given id gets the patch merged in. */
  function UpdatedCattle(s: seq<Cattle>, id: Id, p: CattlePatch): (r: seq<Cattle>)
    ensures |r| == |s|
    ensures forall i :: 0 <= i < |s| ==> r[i] == if s[i].id == id then MergeCattle(s[i], p) else s[i]
  {
    ReplaceWhere(s, (c: Cattle) => c.id == id, (c: Cattle) => MergeCattle(c, p))
  }

  /** updateTask's list update: every task with the given id gets the patch merged in. */
  function UpdatedTasks(s: seq<Task>, id: Id, p: TaskPatch): (r: seq<Task>)
    ensures |r| == |s|
    ensures forall i :: 0 <= i < |s| ==> r[i] == if s[i].id == id then MergeTask(s[i], p) else s[i]
  {
    ReplaceWhere(s, (t: Task) => t.id == id, (t: Task) => MergeTask(t, p))
  }

  /** The patch completeTask spreads over each matching task. */
  function CompletionPatch(at: Date): TaskPatch {
    TaskPatch(None, None, None, Some(Completed), Some(at))
  }

  /**
   * completeTask's list update: every task with the given id becomes Completed
   * with completion stamp `at`, whatever its status was; nothing else changes.
   */
  function CompletedTasks(s: seq<Task>, id: Id, at: Date): (r: seq<Task>)
    ensures |r| == |s|
    ensures forall i :: 0 <= i < |s| ==>
      r[i] == if s[i].id == id then s[i].(status := Completed, completedAt := Some(at)) else s[i]
  {
    UpdatedTasks(s, id, CompletionPatch(at))
  }

  /**
   * addProduction's list update: the new record first, then the old ones in
   * their order, cut to RecentCapacity. The old list may already be longer
   * than the capacity (setRecentProductions does not truncate).
   */
  function PushRecent(s: seq<Production>, p: Production): (r: seq<Production>)
    ensures |r| == if |s| + 1 <= RecentCapacity then |s| + 1 else RecentCapacity
    ensures r[0] == p
    ensures forall i :: 0 <= i < |r| - 1 ==> r[i + 1] == s[i]
  {
    Take([p] + s, RecentCapacity)
  }

  lemma UpdateCattleUnknownIdIsNoop(s: seq<Cattle>, id: Id, p: CattlePatch)
    requires forall i :: 0 <= i < |s| ==> s[i].id != id
    ensures UpdatedCattle(s, id, p) == s
  {
  }

  lemma UpdateTaskUnknownIdIsNoop(s: seq<Task>, id: Id, p: TaskPatch)
    requires forall i :: 0 <= i < |s| ==> s[i].id != id
    ensures UpdatedTasks(s, id, p) == s
  {
  }

  lemma CompleteTaskUnknownIdIsNoop(s: seq<Task>, id: Id, at: Date)
    requires forall i :: 0 <= i < |s| ==> s[i].id != id
    ensures CompletedTasks(s, id, at) == s
  {
  }

  /** A patch that does not set the id keeps every record's id at its position. */
  lemma UpdateCattleKeepsIds(s: seq<Cattle>, id: Id, p: CattlePatch)
    requires p.id.None?
    ensures forall i :: 0 <= i < |s| ==> UpdatedCattle(s, id, p)[i].id == s[i].id
  {
  }

  lemma UpdateTaskKeepsIds(s: seq<Task>, id: Id, p: TaskPatch)
    requires p.id.None?
    ensures forall i :: 0 <= i < |s| ==> UpdatedTasks(s, id, p)[i].id == s[i].id
  {
  }

  /** A patch that sets only the weight changes only the weight of the matching records. */
  lemma UpdateWeightOnly(s: seq<Cattle>, id: Id, w: int)
    ensures forall i :: 0 <= i < |s| ==>
      UpdatedCattle(s, id, CattlePatch(None, None, None, None, Some(w), None))[i] ==
        if s[i].id == id then s[i].(weight := Some(w)) else s[i]
  {
  }

  /**
   * Applying the same update twice gives the list a single update gives, even
   * when the patch renames the matching records.
   */
  lemma UpdateCattleIdempotent(s: seq<Cattle>, id: Id, p: CattlePatch)
    ensures UpdatedCattle(UpdatedCattle(s, id, p), id, p) == UpdatedCattle(s, id, p)
  {
    var once := UpdatedCattle(s, id, p);
    forall i | 0 <= i < |s| && s[i].id == id
      ensures MergeCattle(once[i], p) == once[i]
    {
      MergeCattleIdempotent(s[i], p);
    }
  }

  /**
   * Completing twice is completing once with the later stamp: the statuses
   * after the second call are those after the first.
   */
  lemma CompleteTaskTwice(s: seq<Task>, id: Id, first: Date, second: Date)
    ensures CompletedTasks(CompletedTasks(s, id, first), id, second) == CompletedTasks(s, id, second)
    ensures forall i :: 0 <= i < |s| ==>
      CompletedTasks(CompletedTasks(s, id, first), id, second)[i].status == CompletedTasks(s, id, first)[i].status
  {
  }

  /** The recent list after a series of addProduction calls, oldest call first. */
  function AfterAddingProductions(s: seq<Production>, added: seq<Production>): seq<Production>
    decreases |added|
  {
    if added == [] then s else AfterAddingProductions(PushRecent(s, added[0]), added[1..])
  }

  /**
   * After a non-empty series of additions the recent list is the additions
   * newest first, followed by what was there before, cut to RecentCapacity.
   * (With no addition the list is whatever setRecentProductions left, which
   * may be longer than RecentCapacity.)
   */
  lemma {:induction false} RecentAfterAdds(s: seq<Production>, added: seq<Production>)
    requires added != []
    ensures AfterAddingProductions(s, added) == Take(Reversed(added) + s, RecentCapacity)
    decreases |added|
  {
    var x, rest := added[0], added[1..];
    assert added == [x] + rest;
    ReversedOfCons(x, rest);
    if rest == [] {
      assert Reversed(added) + s == [x] + s;
    } else {
      RecentAfterAdds(PushRecent(s, x), rest);
      TakeOfTakeSuffix(Reversed(rest), [x] + s, RecentCapacity);
      assert Reversed(rest) + ([x] + s) == Reversed(added) + s;
    }
  }

  /**
   * Once at least RecentCapacity records have been added, the recent list
   * holds exactly the last RecentCapacity of them, newest first.
   */
  lemma RecentHoldsLatestAdds(s: seq<Production>, added: seq<Production>)
    requires |added| >= RecentCapacity
    ensures |AfterAddingProductions(s, added)| == RecentCapacity
    ensures forall i :: 0 <= i < RecentCapacity ==>
      AfterAddingProductions(s, added)[i] == added[|added| - 1 - i]
  {
    RecentAfterAdds(s, added);
    var all := Reversed(added) + s;
    assert forall i :: 0 <= i < RecentCapacity ==> all[i] == Reversed(added)[i];
  }

  /** The cattle list after a series of addCattle calls. */
  function AfterAddingCattle(s: seq<Cattle>, added: seq<Cattle>): seq<Cattle>
    decreases |added|
  {
    if added == [] then s else AfterAddingCattle(s + [added[0]], added[1..])
  }

  lemma {:induction false} CattleAfterAdds(s: seq<Cattle>, added: seq<Cattle>)
    ensures AfterAddingCattle(s, added) == s + added
    decreases |added|
  {
    if added != [] {
      CattleAfterAdds(s + [added[0]], added[1..]);
      assert s + [added[0]] + added[1..] == s + added;
    }
  }

  /** The whole state of the container, field by field. */
  datatype StoreState = StoreState(
    user: Option<User>,
    currentRanch: Option<Ranch>,
    ranches: seq<Ranch>,
    cattle: seq<Cattle>,
    tasks: seq<Task>,
    recentProductions: seq<Production>,
    isLoading: bool,
    onboardingStep: int,
    isOnboardingComplete: bool)

  class Store {
    var user: Option<User>
    var currentRanch: Option<Ranch>
    var ranches: seq<Ranch>
    var cattle: seq<Cattle>
    var tasks: seq<Task>
    var recentProductions: seq<Production>
    var isLoading: bool
    var onboardingStep: int
    var isOnboardingComplete: bool

    function Snapshot(): StoreState
      reads this
    {
      StoreState(user, currentRanch, ranches, cattle, tasks, recentProductions,
                 isLoading, onboardingStep, isOnboardingComplete)
    }

    /** The initial state: no user or ranch, empty lists, flags off, step 0. */
    constructor ()
      ensures user == None && currentRanch == None
      ensures ranches == [] && cattle == [] && tasks == [] && recentProductions == []
      ensures !isLoading && onboardingStep == 0 && !isOnboardingComplete
    {
      user, currentRanch, ranches := None, None, [];
      cattle, tasks, recentProductions := [], [], [];
      isLoading, onboardingStep, isOnboardingComplete := false, 0, false;
    }

    method SetUser(u: Option<User>)
      modifies this
      ensures Snapshot() == old(Snapshot()).(user := u)
    {
      user := u;
    }

    method SetCurrentRanch(r: Ranch)
      modifies this
      ensures Snapshot() == old(Snapshot()).(currentRanch := Some(r))
    {
      currentRanch := Some(r);
    }

    method SetRanches(rs: seq<Ranch>)
      modifies this
      ensures Snapshot() == old(Snapshot()).(ranches := rs)
    {
      ranches := rs;
    }

    method SetCattle(cs: seq<Cattle>)
      modifies this
      ensures Snapshot() == old(Snapshot()).(cattle := cs)
    {
      cattle := cs;
    }

    /** Appends: one more record, the new one last, the earlier ones untouched. */
    method AddCattle(c: Cattle)
      modifies this
      ensures cattle == old(cattle) + [c]
      ensures Snapshot() == old(Snapshot()).(cattle := cattle)
    {
      cattle := cattle + [c];
    }

    method UpdateCattle(id: Id, p: CattlePatch)
      modifies this
      ensures cattle == UpdatedCattle(old(cattle), id, p)
      ensures Snapshot() == old(Snapshot()).(cattle := cattle)
    {
      cattle := UpdatedCattle(cattle, id, p);
    }

    method SetTasks(ts: seq<Task>)
      modifies this
      ensures Snapshot() == old(Snapshot()).(tasks := ts)
    {
      tasks := ts;
    }

    /** Appends: one more task, the new one last, the earlier ones untouched. */
    method AddTask(t: Task)
      modifies this
      ensures tasks == old(tasks) + [t]
      ensures Snapshot() == old(Snapshot()).(tasks := tasks)
    {
      tasks := tasks + [t];
    }

    method UpdateTask(id: Id, p: TaskPatch)
      modifies this
      ensures tasks == UpdatedTasks(old(tasks), id, p)
      ensures Snapshot() == old(Snapshot()).(tasks := tasks)
    {
      tasks := UpdatedTasks(tasks, id, p);
    }

    /** `now` is the clock reading the source takes with `new Date()`. */
    method CompleteTask(id: Id, now: Date)
      modifies this
      ensures tasks == CompletedTasks(old(tasks), id, now)
      ensures Snapshot() == old(Snapshot()).(tasks := tasks)
    {
      tasks := CompletedTasks(tasks, id, now);
    }

    /** Replaces the list as given: no truncation to RecentCapacity. */
    method SetRecentProductions(ps: seq<Production>)
      modifies this
      ensures Snapshot() == old(Snapshot()).(recentProductions := ps)
    {
      recentProductions := ps;
    }

    method AddProduction(p: Production)
      modifies this
      ensures recentProductions == PushRecent(old(recentProductions), p)
      ensures |recentProductions| <= RecentCapacity
      ensures Snapshot() == old(Snapshot()).(recentProductions := recentProductions)
    {
      recentProductions := PushRecent(recentProductions, p);
    }

    method SetIsLoading(b: bool)
      modifies this
      ensures Snapshot() == old(Snapshot()).(isLoading := b)
    {
      isLoading := b;
    }

    method SetOnboardingStep(step: int)
      modifies this
      ensures Snapshot() == old(Snapshot()).(onboardingStep := step)
    {
      onboardingStep := step;
    }

    method SetIsOnboardingComplete(b: bool)
      modifies this
      ensures Snapshot() == old(Snapshot()).(isOnboardingComplete := b)
    {
      isOnboardingComplete := b;
    }
  }
}
