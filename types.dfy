// Record shapes of the ranch domain (src/types/index.ts), cut down to the
// fields that the store and the dashboard statistics read or write, plus the
// partial-update ("patch") records that updateCattle / updateTask merge.

module Types {

  datatype Option<T> = None | Some(value: T)

  /** A calendar date: the only granularity the dashboard compares at. */
  datatype Date = Date(year: int, month: int, day: int)

  /** Same calendar day: year, month and day all agree. */
  predicate SameDay(a: Date, b: Date) {
    a.year == b.year && a.month == b.month && a.day == b.day
  }

  /** Same calendar month: month and year agree, the day may differ. */
  predicate SameMonth(a: Date, b: Date) {
    a.year == b.year && a.month == b.month
  }

  lemma SameDayIsSameMonth(a: Date, b: Date)
    requires SameDay(a, b)
    ensures SameMonth(a, b)
  {
  }

  type Id = string

  datatype User = User(id: Id, email: string)

  datatype Ranch = Ranch(id: Id, name: string, userId: Id)

  datatype Gender = Male | Female

  datatype CattleStatus = Active | Sold | Deceased | Retired

  datatype Cattle = Cattle(
    id: Id,
    internalId: string,
    breed: string,
    gender: Gender,
    weight: Option<int>,
    status: CattleStatus)

  datatype Production = Production(id: Id, liters: int, date: Date)

  datatype TaskStatus = Pending | Completed | Cancelled

  datatype Task = Task(
    id: Id,
    title: string,
    dueDate: Date,
    status: TaskStatus,
    completedAt: Option<Date>)

  /** A Partial<Cattle>: each field that is Some overrides the record's own. */
  datatype CattlePatch = CattlePatch(
    id: Option<Id>,
    internalId: Option<string>,
    breed: Option<string>,
    gender: Option<Gender>,
    weight: Option<int>,
    status: Option<CattleStatus>)

  /** A Partial<Task>: each field that is Some overrides the record's own. */
  datatype TaskPatch = TaskPatch(
    id: Option<Id>,
    title: Option<string>,
    dueDate: Option<Date>,
    status: Option<TaskStatus>,
    completedAt: Option<Date>)

  function Override<T>(current: T, patch: Option<T>): T {
    if patch.Some? then patch.value else current
  }

  /** The object spread `{ ...c, ...patch }` on a cattle record. */
  function MergeCattle(c: Cattle, p: CattlePatch): (r: Cattle)
    ensures p == CattlePatch(None, None, None, None, None, None) ==> r == c
    // a field the patch sets takes the patch's value
    ensures p.id.Some? ==> r.id == p.id.value
    ensures p.internalId.Some? ==> r.internalId == p.internalId.value
    ensures p.breed.Some? ==> r.breed == p.breed.value
    ensures p.gender.Some? ==> r.gender == p.gender.value
    ensures p.weight.Some? ==> r.weight == p.weight
    ensures p.status.Some? ==> r.status == p.status.value
    // a field the patch leaves unset keeps the record's value
    ensures p.id.None? ==> r.id == c.id
    ensures p.internalId.None? ==> r.internalId == c.internalId
    ensures p.breed.None? ==> r.breed == c.breed
    ensures p.gender.None? ==> r.gender == c.gender
    ensures p.weight.None? ==> r.weight == c.weight
    ensures p.status.None? ==> r.status == c.status
  {
    Cattle(
      Override(c.id, p.id),
      Override(c.internalId, p.internalId),
      Override(c.breed, p.breed),
      Override(c.gender, p.gender),
      if p.weight.Some? then p.weight else c.weight,
      Override(c.status, p.status))
  }

  /** The object spread `{ ...t, ...patch }` on a task record. */
  function MergeTask(t: Task, p: TaskPatch): (r: Task)
    ensures p == TaskPatch(None, None, None, None, None) ==> r == t
    // a field the patch sets takes the patch's value
    ensures p.id.Some? ==> r.id == p.id.value
    ensures p.title.Some? ==> r.title == p.title.value
    ensures p.dueDate.Some? ==> r.dueDate == p.dueDate.value
    ensures p.status.Some? ==> r.status == p.status.value
    ensures p.completedAt.Some? ==> r.completedAt == p.completedAt
    // a field the patch leaves unset keeps the task's value
    ensures p.id.None? ==> r.id == t.id
    ensures p.title.None? ==> r.title == t.title
    ensures p.dueDate.None? ==> r.dueDate == t.dueDate
    ensures p.status.None? ==> r.status == t.status
    ensures p.completedAt.None? ==> r.completedAt == t.completedAt
  {
    Task(
      Override(t.id, p.id),
      Override(t.title, p.title),
      Override(t.dueDate, p.dueDate),
      Override(t.status, p.status),
      if p.completedAt.Some? then p.completedAt else t.completedAt)
  }

  /** Merging the same patch a second time changes nothing more. */
  lemma MergeCattleIdempotent(c: Cattle, p: CattlePatch)
    ensures MergeCattle(MergeCattle(c, p), p) == MergeCattle(c, p)
  {
  }
}
