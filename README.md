# Ranch dashboard: state container and dashboard statistics

A model of the logic of a small dairy-ranch dashboard: the client-side state
container (`useStore`) that holds the session's user, ranch, cattle, tasks,
recent milk productions and UI flags, and the statistics the dashboard page
derives from those lists (herd counts, today's and this month's production,
pending tasks, estimated revenue, and the list of tasks due today).

- `types.dfy` (module `Types`): the records the logic reads and writes
  (cattle, tasks, productions, user, ranch), cut down to the fields the store
  and the statistics touch; calendar dates as (year, month, day) triples with
  "same day" and "same month"; `Partial<T>` updates as patch records with one
  `Option` per field, merged as the object spread `{ ...record, ...patch }` does.
- `listops.dfy` (module `ListOps`): the array operations the code is built
  from (`filter`, `slice(0, n)`, the replace-matching form of `map`) as pure
  functions, with the lemmas about them (order-preserving subsequence,
  distribution over concatenation, effect of replacing one element).
- `store.dfy` (module `AppStore`): class `Store` with one field per piece of
  state and one method per operation. Each method reassigns exactly one field
  and states, through `Snapshot()`, that the whole state is the old state with
  only that field replaced. The list updates are pure functions
  (`UpdatedCattle`, `UpdatedTasks`, `CompletedTasks`, `PushRecent`) with
  element-by-element contracts, and lemmas cover unknown ids, id order,
  repeated completion and series of additions.
- `dashboard.dfy` (module `Dashboard`): the statistics as pure functions of
  the three lists and an explicit `now`, and the "today's tasks" view.

Behaviour of the code that the model keeps as it is:

- `setRecentProductions` stores whatever list it is given. Only
  `addProduction` truncates to 10 records, and its result has at most 10
  records even when the old list was longer (`PushRecent`,
  `Store.AddProduction`). The recent list is therefore bounded only after an
  addition.
- `completeTask` has no guard on the task's current status: a cancelled or
  already completed task becomes completed again with a fresh stamp
  (`CompletedTasks`). `updateTask` can set any status.
- `Partial<Cattle>` and `Partial<Task>` include `id`, so an update can rename
  every matching record. Ids keep their positions exactly when the patch
  leaves `id` unset (`UpdateCattleKeepsIds`, `UpdateTaskKeepsIds`).
- The monthly production is summed over the recent list only, which holds at
  most 10 records after any `addProduction`, not over the month's whole
  history (`MonthlyCountsOnlyRecent`).

## Model

| member | source | states |
|---|---|---|
| `Types.MergeCattle` | src/store/index.ts:65 | for every field: a field the patch sets takes the patch's value, a field it leaves unset keeps the record's value; the empty patch gives the record back |
| `Types.MergeTask` | src/store/index.ts:77 | for every field: a field the patch sets takes the patch's value, a field it leaves unset keeps the task's value; the empty patch gives the task back |
| `Types.MergeCattleIdempotent` | src/store/index.ts:65 | merging the same patch twice equals merging it once |
| `AppStore.UpdateCattleIdempotent` | src/store/index.ts:63-67 | updateCattle applied twice with the same id and patch leaves the list a single call leaves, for every patch, including one that renames the id |
| `Types.SameDayIsSameMonth` | src/app/dashboard/page.tsx:53-64 | a production dated on `now`'s day is dated in `now`'s month and year |
| `ListOps.Filter` | src/app/dashboard/page.tsx:49-51 | the result is no longer than the input; every kept element satisfies the predicate and comes from the input; every input element satisfying it is kept (`FilterNoneKept`: nothing is kept when no element satisfies it) |
| `ListOps.Take` | src/app/dashboard/page.tsx:84 | `slice(0, n)`: length is min(length, n) and element i is input element i |
| `ListOps.ReplaceWhere` | src/store/index.ts:64-66 | same length; element i is the image of input element i when that element matches, and input element i otherwise |
| `ListOps.FilterNoneKept` | src/app/dashboard/page.tsx:49-51 | when no element satisfies the predicate, the filtered list is empty |
| `ListOps.FilterIsSubsequence` | src/app/dashboard/page.tsx:78-83 | a filtered list is an order-preserving subsequence of its input |
| `ListOps.PrefixIsSubsequence` | src/app/dashboard/page.tsx:84 | a prefix of a subsequence is still a subsequence |
| `ListOps.FilterLengthAfterUpdate` | src/app/dashboard/page.tsx:49-51 | replacing one element changes the filtered length by exactly minus the old element's and plus the new element's membership |
| `AppStore.UpdatedCattle` | src/store/index.ts:63-67 | same length; every record whose id equals the argument gets the patch merged, every other record is unchanged |
| `AppStore.UpdatedTasks` | src/store/index.ts:75-79 | same length; every task whose id equals the argument gets the patch merged, every other task is unchanged |
| `AppStore.CompletedTasks` | src/store/index.ts:80-86 | same length; every task with the id becomes Completed with completedAt set to the stamp, whatever its prior status, other fields kept; other tasks unchanged |
| `AppStore.PushRecent` | src/store/index.ts:91-93 | length is min(old length + 1, 10) for any old length; element 0 is the new record; element i+1 is old element i |
| `AppStore.UpdateCattleUnknownIdIsNoop` | src/store/index.ts:63-67 | an id that no record has leaves the cattle list exactly as it was |
| `AppStore.UpdateTaskUnknownIdIsNoop` | src/store/index.ts:75-79 | an id that no task has leaves the task list exactly as it was |
| `AppStore.CompleteTaskUnknownIdIsNoop` | src/store/index.ts:80-86 | completing an id that no task has leaves the task list exactly as it was |
| `AppStore.UpdateCattleKeepsIds` | src/store/index.ts:63-67 | with a patch that does not set the id, every position keeps its id |
| `AppStore.UpdateTaskKeepsIds` | src/store/index.ts:75-79 | with a patch that does not set the id, every position keeps its id |
| `AppStore.UpdateWeightOnly` | src/store/index.ts:63-67 | a weight-only patch changes only the weight of matching records and nothing in other records |
| `AppStore.CompleteTaskTwice` | src/store/index.ts:80-86 | completing twice equals completing once with the later stamp; statuses after the second call equal those after the first |
| `AppStore.RecentAfterAdds` | src/store/index.ts:91-93 | after a non-empty series of additions the recent list is the additions newest first followed by the earlier list, cut to 10 |
| `AppStore.RecentHoldsLatestAdds` | src/store/index.ts:91-93 | after at least 10 additions the recent list has exactly 10 records, the last 10 added, newest first |
| `AppStore.CattleAfterAdds` | src/store/index.ts:60-62 | a series of addCattle calls appends the added records in call order |
| `AppStore.Store.constructor` | src/store/index.ts:47-102 | initial state: no user, no current ranch, all lists empty, not loading, onboarding step 0, onboarding not complete |
| `AppStore.Store.SetUser` | src/store/index.ts:49 | replaces the user; every other field unchanged |
| `AppStore.Store.SetCurrentRanch` | src/store/index.ts:54 | replaces the current ranch; every other field unchanged |
| `AppStore.Store.SetRanches` | src/store/index.ts:55 | replaces the ranch list; every other field unchanged |
| `AppStore.Store.SetCattle` | src/store/index.ts:59 | replaces the cattle list; every other field unchanged |
| `AppStore.Store.AddCattle` | src/store/index.ts:60-62 | the cattle list becomes the old list plus the new record at the end; every other field unchanged |
| `AppStore.Store.UpdateCattle` | src/store/index.ts:63-67 | the cattle list becomes `UpdatedCattle` of the old list; every other field unchanged |
| `AppStore.Store.SetTasks` | src/store/index.ts:71 | replaces the task list; every other field unchanged |
| `AppStore.Store.AddTask` | src/store/index.ts:72-74 | the task list becomes the old list plus the new task at the end; every other field unchanged |
| `AppStore.Store.UpdateTask` | src/store/index.ts:75-79 | the task list becomes `UpdatedTasks` of the old list; every other field unchanged |
| `AppStore.Store.CompleteTask` | src/store/index.ts:80-86 | the task list becomes `CompletedTasks` of the old list with the given clock reading; every other field unchanged |
| `AppStore.Store.SetRecentProductions` | src/store/index.ts:90 | replaces the recent list as given, without truncation; every other field unchanged |
| `AppStore.Store.AddProduction` | src/store/index.ts:91-93 | the recent list becomes `PushRecent` of the old one and has at most 10 records; every other field unchanged |
| `AppStore.Store.SetIsLoading` | src/store/index.ts:97 | replaces the loading flag; every other field unchanged |
| `AppStore.Store.SetOnboardingStep` | src/store/index.ts:101 | replaces the onboarding step; every other field unchanged |
| `AppStore.Store.SetIsOnboardingComplete` | src/store/index.ts:103 | replaces the onboarding-complete flag; every other field unchanged |
| `Dashboard.ActiveCows` | src/app/dashboard/page.tsx:49-51 | at most the number of cattle; 0 for an empty list |
| `Dashboard.PendingTasks` | src/app/dashboard/page.tsx:66 | at most the number of tasks; 0 for an empty list (the exact count follows from this and `PendingTasksAfterAdd`) |
| `Dashboard.SumLiters` | src/app/dashboard/page.tsx:55 | 0 for the empty list; the record's liters for a single record; non-negative when every record's liters are |
| `Dashboard.SumLitersAppend` | src/app/dashboard/page.tsx:55 | the total of two joined lists is the sum of their totals |
| `Dashboard.TodayProduction` | src/app/dashboard/page.tsx:53-55 | 0 for an empty list; non-negative when every record's liters are; `ProductionCons` fixes its value record by record and `NoMatchingProductionIsZero` gives 0 when no record is dated today |
| `Dashboard.MonthlyProduction` | src/app/dashboard/page.tsx:57-64 | 0 for an empty list; non-negative when every record's liters are; `ProductionCons` fixes its value record by record and `NoMatchingProductionIsZero` gives 0 when no record is dated in `now`'s month and year |
| `Dashboard.ComputeStats` | src/app/dashboard/page.tsx:48-75 | totalCattle is the list length; activeCows, todayProduction, monthlyProduction and pendingTasks are `ActiveCows`, `TodayProduction`, `MonthlyProduction` and `PendingTasks` of the lists; activeCows is at most totalCattle; pendingTasks is at most the task count; revenue is monthly production times 22; with non-negative liters 0 <= today <= monthly; empty lists give all-zero stats |
| `Dashboard.TodayTasks` | src/app/dashboard/page.tsx:78-84 | at most 5 tasks; an order-preserving subsequence of the tasks; each is due on `now`'s day; it is a prefix of the due tasks in list order, of length min(number due, 5), so the first five due tasks with duplicates kept |
| `Dashboard.TodayAtMostMonthly` | src/app/dashboard/page.tsx:53-64 | with non-negative liters, today's total is non-negative and at most the month's total |
| `Dashboard.NoMatchingProductionIsZero` | src/app/dashboard/page.tsx:53-64 | with no record dated on `now`'s day, today's total is 0; with no record dated in `now`'s month and year, the month's total is 0 |
| `Dashboard.ProductionCons` | src/app/dashboard/page.tsx:53-64 | a record in front adds its liters to today's total exactly when dated today, and to the month's exactly when dated this month |
| `Dashboard.ActiveCowsAfterReplace` | src/app/dashboard/page.tsx:49-51 | replacing one animal changes activeCows by minus the old record's and plus the new record's active-cow membership |
| `Dashboard.ActiveCowLeavesCount` | src/app/dashboard/page.tsx:49-51 | changing an active cow's gender or status lowers activeCows by one |
| `Dashboard.ActiveCowsAfterAdd` | src/app/dashboard/page.tsx:49-51 | appending an animal raises activeCows by one exactly when it is an active female |
| `Dashboard.TotalCattleCountsAdditions` | src/app/dashboard/page.tsx:69 | from an empty list, totalCattle after a series of addCattle calls equals the number of calls, whatever the tasks, productions and clock |
| `Dashboard.PendingTasksAfterAdd` | src/app/dashboard/page.tsx:66 | appending a task raises pendingTasks by one exactly when it is pending |
| `Dashboard.PendingTasksAfterComplete` | src/app/dashboard/page.tsx:66 | completeTask lowers pendingTasks by the number of pending tasks with the id; completed or cancelled tasks with the id leave the count alone |
| `Dashboard.TodayAfterAddProduction` | src/store/index.ts:91-93 | for any recent list, today's total after addProduction is the new record's liters when it is dated today plus today's total over the first nine old records (any older ones are dropped); below capacity that is the old total plus the new record's share |
| `Dashboard.MonthlyAfterAddProduction` | src/store/index.ts:91-93 | for any recent list, the month's total after addProduction is the new record's liters when it is dated this month plus the month's total over the first nine old records (any older ones are dropped); below capacity that is the old total plus the new record's share |
| `Dashboard.ActiveCowsExample` | src/app/dashboard/page.tsx:49-51 | female-active, male-active and female-sold animals give totalCattle 3 and activeCows 1 |
| `Dashboard.ProductionExample` | src/app/dashboard/page.tsx:53-64 | three records of 5 and 7 liters dated today and 10 liters dated another day give 12 today, and 22 this month when the third is in `now`'s month, 12 otherwise |
| `Dashboard.RevenueExample` | src/app/dashboard/page.tsx:74 | a month's total of 100 liters gives an estimated revenue of 2200, whatever the other lists |
| `Dashboard.MonthlyCountsOnlyRecent` | src/app/dashboard/page.tsx:57-64 | eleven one-liter records added today give a monthly total of 10, because only the recent list is summed |

## Left out

- All JSX, styling and component rendering of the dashboard page, the root
  layout, the landing page and the toaster: presentation with no statable
  logic.
- The add-cattle form: its validation is a schema run by a form library
  that is not part of this model. Its records get random ids and wall-clock
  timestamps. It creates animals with status `ACTIVE`, and the store does not
  require that of `addCattle` inputs, so the model does not either.
- The onboarding wizard: button handlers ending in a page redirect.
- Build and theme configuration.
- Wall-clock time: `now` and the completion stamp are parameters. Dates are
  calendar triples. Time of day, time zones and the locale-specific formatting
  of dates and numbers are not modelled. Only "same day" and "same month and
  year" are compared.
- Floating-point arithmetic on liters, weights and revenue: liters and
  weights are integers and revenue is exact.
- The subscription and notification machinery of the state library, the
  effect's re-run on dependency change and the `setStats` state hook. Each
  store operation is modelled as the assignment of the field it names.
- Record fields that neither the store operations nor the statistics read
  (birth date, ranch id, parents, lactation data, frequency, shift, etc.),
  and all fields of users and ranches beyond an id, email or name.
- `Types.MergeCattle`, `Types.MergeTask`: a patch key present with the value
  `undefined` overwrites that field, whatever the field, with `undefined` in
  the source (so a status or gender set that way takes an animal out of the
  active-cow count). Here a patch sets a field to a value or leaves it as it
  is; it cannot clear it.
- `Dashboard.TodayAtMostMonthly`, `AppStore.CompletedTasks`: the source
  reads the clock afresh in each callback, once per record in the today
  filter, once per record in the month filter, once per task in the due-today
  filter, and once per matching task in completeTask. The model uses one
  reading (`now`, `at`) for all of them. If a day or month ends between two
  readings, a record can count as today but not as this month, so today's
  total can exceed the month's, and two tasks completed by one call can get
  different stamps. The model does not capture this.
- The automatic recomputation of the statistics whenever the store's lists
  change: the statistics are a function of the lists and clock reading given.
