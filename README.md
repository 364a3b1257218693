# Project tracking: critical path, notifications and bookkeeping

A Dafny model of `Projet.py`, a small project-tracking module. A `Projet`
owns a team (`Equipe`), tasks (`Tache`) that depend on other tasks,
risks, milestones, a change log with a version counter, and an optional
notification context. The context broadcasts a message to every team
member through one of three strategies (e-mail, SMS, push). The module's
one algorithm is `calculer_chemin_critique`, a memoised longest-path
recursion over the task dependency graph.

Layout, one module per component:

- `domain.dfy` (`Domain`): the value records `Member`, `Task`,
  `Milestone`, `Risk` and `Change`. Dates are integer timestamps in
  seconds. `Span` is `timedelta.days`: the floor of the difference divided
  by 86400.
- `task_graph.dfy` (`TaskGraph`): `TaskPool`, a class holding every task
  that exists. A task is its index in the pool, which stands in for Python
  object identity. `ajouter_dependance` updates the pool entry, so every
  holder of the index sees the new dependency, as with a shared Python
  object. The pool plays the part of the Python heap: it is shared by every
  project and every task, so a `Project` does not own it, and the
  operations that look tasks up take it as a parameter: `AddTask` requires
  the task it adds to be in the pool, and `ComputeCriticalPath` requires a
  ranking of the pool that holds every task of the project.
- `critical_path.dfy` (`CriticalPath`):
  - `Longest`/`BestDeps` are the recurrence as a pure definition.
  - `FindLongestPath` is the recursive method. It fills the memo (a
    `map<nat, Entry>`) and loops over the dependencies.
  - `AllPaths` runs it over the project's task list with one shared memo.
  - `FirstMax` is Python's `max` with a key: it picks the first maximum.
  - An independent reference: a dependency chain is a sequence of tasks
    where each task is a dependency of the next. A chain's weight is the
    sum of the spans of its tasks that have dependencies. The lemmas prove
    that each memoised path is such a chain, that its length equals the
    chain's weight, and that no chain ending at the same task weighs more.
  - Acyclicity of the part of the graph the recursion visits is a
    precondition. It is witnessed by a `rank`, a map from tasks to numbers
    that strictly decrease along every dependency edge. The map needs to hold
    only the project's tasks and everything they depend on, so a cycle among
    other tasks of the pool does not stand in the way.
- `notification.dfy` (`Notification`): `Channel = Email | SMS | Push` for
  the three strategies, and `NotificationContext`. Each `print` becomes an
  appended `Delivery(recipient, channel, message)` in a `Console` object's
  log. `Line` gives the text the strategy would print, and
  `BroadcastLines` states the line printed for each delivery.
- `decimal.dfy` (`DecimalText`): `str(n)` for the version number in the
  change message, with its inverse.
- `project.dfy` (`Projects`): the classes `Team` and `Project`. Every
  mutator states its whole new state through `Snapshot()`, the record of
  every field it could change, as the old record with the fields it sets
  replaced:
  - `AddMember`, `AddTeamMember`, `AddTask`, `AddRisk` and `AddMilestone`
    append one element at the end of one list;
  - `RecordChange` appends one change and raises the version by one;
  - `SetNotificationStrategy` replaces the channel with a fresh context;
  - `ComputeCriticalPath` overwrites the stored path, or leaves it when the
    task list is empty.
  All of them except `SetNotificationStrategy` also keep the very context
  object attached, so a context held elsewhere stays the project's. Each
  mutator also states the deliveries it adds to the console.
- `driver.dfy` (`Driver`): the module's own demo driver, replayed against
  the contracts alone. The change is recorded as version 1 and announced as
  version 2. The stored critical path is the second task alone.

## Behaviour of the code

The model follows the code, including behaviour a reader might not
expect:

- A task without dependencies scores 0, not its own span
  (`Projet.py:167-168`).
- The running maximum starts at 0 and adopts a dependency only when its
  length is strictly greater (`Projet.py:170-175`). As a result, a
  dependency that scores 0 is never part of a path. In the driver the
  critical path is `[tache2]` with length 150, not `[tache1, tache2]`
  (`DriverCriticalPath`). In a diamond A→{B,C}→D with spans 10, 5, 20 and 1
  days, D scores 21 with path `[C, D]`, not 31 with `[A, C, D]`
  (`DiamondCriticalPath`).
- There is no cycle detection and no check that a dependency belongs to
  the project. A cyclic graph makes the Python recursion run until the
  interpreter's recursion limit. The model takes acyclicity of the visited
  tasks as a precondition, and `SelfDependencyIsUnranked` shows that a task
  depending on itself can be in no ranking. A cycle among tasks the
  project never reaches is harmless, as in Python
  (`UnvisitedCycleCriticalPath`).
- An empty task list makes `max` raise `ValueError`. The stored path is
  then left as it was; `Project.ComputeCriticalPath` returns `false`.
- `enregistrer_changement` stores the version from before the increment
  and announces the version after it.
- Deliveries never fail, and no notification context means no deliveries.

## Model

| member | source | states |
|---|---|---|
| Domain.Span | Projet.py:176 | a task's span is the whole number of days in `date_fin - date_debut`, rounded towards minus infinity like `timedelta.days` |
| CriticalPath.BestDepsWitness | Projet.py:170-175 | after k dependencies the running maximum is either `(0, [])` when no dependency so far scores above 0, or the entry of the first dependency with the largest length, which is positive and strictly longer than every earlier one |
| CriticalPath.LongestRecurrence | Projet.py:167-177 | a task without dependencies is memoised as `(0, [task])`; otherwise its length is at least its span and at least every dependency's length plus its span; it extends its first longest positive dependency's entry, or stands alone with its own span when no dependency is positive |
| CriticalPath.LongestRankIrrelevant | Projet.py:164-178 | the memoised entry depends only on the graph: any two rankings give the same entries |
| CriticalPath.BestDepsRankIrrelevant | Projet.py:170-175 | the running maximum depends only on the graph, not on the ranking used to show termination |
| CriticalPath.LongestIsChain | Projet.py:167-177 | every memoised path is a dependency chain ending with the task itself, and its length is the chain's weight (the spans of the tasks on it that have dependencies) |
| CriticalPath.LongestIsHeaviest | Projet.py:170-176 | no dependency chain ending at a task weighs more than the task's memoised length |
| CriticalPath.FindLongestPath | Projet.py:164-178 | returns the recurrence's value whatever the memo holds; the task is then stored, no earlier entry is overwritten, and every entry equals the recurrence's value, so shared ancestors get one value |
| CriticalPath.AllPaths | Projet.py:180-181 | with one memo shared across the task list, the k-th result is the recurrence's value for the k-th task, whatever the visiting order |
| CriticalPath.FirstMax | Projet.py:182 | `max` by length picks an entry no shorter than any other and strictly longer than every earlier one |
| CriticalPath.ComputeCriticalPath | Projet.py:180-182 | no result exactly when the task list is empty; otherwise the path of the first task whose memoised length is the largest |
| CriticalPath.CriticalPathIsHeaviest | Projet.py:181-182 | the chosen path is a chain ending at the chosen task whose weight is the chosen length, and no chain ending at any project task weighs more |
| CriticalPath.DriverCriticalPath | Projet.py:232-251 | on the driver's two tasks the first scores 0 and the second 150 with path `[tache2]`, which is the only first maximum |
| CriticalPath.DiamondCriticalPath | Projet.py:167-177 | in the diamond A→{B,C}→D the zero score of A makes D's entry `(21, [C, D])` |
| CriticalPath.UnvisitedCycleCriticalPath | Projet.py:163-182 | a task of the pool that depends on itself but is not reached from the project's tasks is outside every ranking, yet the critical path of the project's tasks A and B is still computed: `[B]` with length 7 |
| TaskGraph.WithDependency | Projet.py:31-32 | adding a dependency appends it to that task's list and leaves every other task and every other field unchanged |
| TaskGraph.AddDependencyKeepsRanked | Projet.py:31-32 | a dependency on a ranked task of lower rank, or added to an unranked task, keeps the same ranking valid |
| TaskGraph.SelfDependencyIsUnranked | Projet.py:164-172 | once a task depends on itself no ranking holds it, so the recursion from it has no base case |
| TaskGraph.TaskPool.NewTask | Projet.py:13-29 | creating a task whose dependencies are existing tasks adds exactly one task with the given fields at the next identity |
| TaskGraph.TaskPool.AddDependency | Projet.py:31-32 | `ajouter_dependance` with an existing task appends one dependency to that task and changes nothing else |
| TaskGraph.TaskPool.UpdateStatus | Projet.py:34-35 | `mettre_a_jour_statut` overwrites that task's status and changes nothing else |
| Notification.Broadcast | Projet.py:97-99 | a broadcast yields exactly one delivery per recipient, in list order, each with the same message and the same strategy |
| Notification.BroadcastLines | Projet.py:75-87 | each delivery of a broadcast prints `Notification envoyée à <name> par <word>: <message>`, with the strategy's word |
| Notification.TagNamesChannel | Projet.py:77-87 | the three strategies print three different words, so the printed word identifies the strategy |
| Notification.Send | Projet.py:75-87 | each strategy's `envoyer_message` adds one delivery naming the recipient, that strategy and the message |
| Notification.NotificationContext.constructor | Projet.py:91-92 | a context holds the strategy it is built with |
| Notification.NotificationContext.SetStrategy | Projet.py:94-95 | the context's strategy is replaced |
| Notification.NotificationContext.Notify | Projet.py:97-99 | the console gains exactly the broadcast of the message to the recipients through the current strategy |
| DecimalText.Decimal | Projet.py:161 | the rendered version is a non-empty string of digits without a leading zero |
| DecimalText.ParseDecimalInverts | Projet.py:161 | reading back a rendered number gives the number |
| Projects.ChangeMessageNamesVersion | Projet.py:161 | a change message is the fixed prefix, the description and `(version N)`, and N reads back as the announced version |
| Projects.Team.constructor | Projet.py:39-40 | a new team is empty |
| Projects.Team.AddMember | Projet.py:42-43 | one member is appended at the end |
| Projects.Project.constructor | Projet.py:103-118 | a new project has empty lists, version 1, no critical path and no notification context |
| Projects.Project.Notify | Projet.py:184-186 | no deliveries without a context; otherwise the broadcast of the message to the whole current team |
| Projects.Project.SetNotificationStrategy | Projet.py:132-133 | a fresh context holding the strategy is installed and nothing else changes |
| Projects.Project.AddMember | Projet.py:120-122 | the member is appended to the team and nothing else changes; the announcement reaches the team including the newcomer |
| Projects.Project.AddTeamMember | Projet.py:139-141 | the same as `ajouter_membre` |
| Projects.Project.AddTask | Projet.py:135-137 | the task is appended and nothing else changes, the attached context object included; its name is announced |
| Projects.Project.AddRisk | Projet.py:149-151 | the risk is appended and nothing else changes, the attached context object included; its description is announced |
| Projects.Project.AddMilestone | Projet.py:153-155 | the milestone is appended and nothing else changes, the attached context object included; its name is announced |
| Projects.Project.RecordChange | Projet.py:157-161 | one change carrying the pre-call version is appended and the version goes up by exactly 1, so recorded versions run 1, 2, 3, …; the message names the new version; nothing else changes, the attached context object included |
| Projects.Project.ComputeCriticalPath | Projet.py:163-182 | when the project's tasks and everything they depend on are acyclic (other tasks of the pool are unconstrained): on a non-empty task list the stored path is the first longest task's memoised path; on an empty one nothing changes; nothing else changes in either case, the attached context object included |
| Driver.CreateDriverTasks | Projet.py:232-248 | the driver's two tasks, the second depending on the first |
| Driver.StartDriverProject | Projet.py:216-229 | after the e-mail strategy and two members the console holds three deliveries: one for the first member, then two for the second |
| Driver.AddDriverRecords | Projet.py:250-265 | two tasks, a risk, a milestone and a change bring the console to 13 deliveries (the source's console would hold 15 here, the 2 extra coming from the skipped `definir_budget`); the change is stored as version 1 and announced as version 2 |
| Driver.ComputeDriverCriticalPath | Projet.py:268 | the driver's critical path is the second task alone; the tasks, version and changes stay as they were |
| Driver.DriverRun | Projet.py:211-268 | the whole driver (budget step aside) ends with tasks `[tache1, tache2]`, one change stored as version 1, version 2, 13 deliveries of which the last announces version 2, and critical path `[tache2]` |

## Left out

- `definir_budget` (`Projet.py:143-147`): its message renders a Python float. The budget is a `real` set by the constructor and never changed. The driver replay skips that step.
- Driver.AddDriverRecords: states 13 deliveries where the source's console would hold 15 after `Projet.py:265`, because the `definir_budget` call at `Projet.py:254` and its two deliveries are skipped.
- Driver.DriverRun: likewise ends with 13 deliveries instead of 15, and with the constructor's budget instead of 50000, because it skips `definir_budget`.
- `generer_rapport` and `generer_rapport_performance` (`Projet.py:124-127`, `188-208`): text formatting of datetimes and floats.
- The timestamp `datetime.now()` of a `Changement` (`Projet.py:66`): a clock.
- Console output: the `print` of each strategy becomes a structured `Delivery` in a log; the printed text is `Line` of each delivery (`BroadcastLines`), but the log holds deliveries, not strings.
- Floats: `probabilite` and the budget are exact reals, with no floating-point rounding.
- Sub-second parts of datetimes: timestamps are whole seconds.
- The list passed as `dependances` to `Tache(...)`: when it is not empty, Python keeps that very list, so a later `ajouter_dependance` also changes the caller's list and any other task built with it. `NewTask` copies the list.
- `Equipe.obtenir_membres` (`Projet.py:45-46`): a getter that returns the list itself. The model reads `members` directly.
- Python's recursion limit: a deep but acyclic graph can make `find_longest_path` raise `RecursionError`. The model has unbounded recursion.
- The `NotificationStrategy` base class and `abstractmethod` machinery (`Projet.py:69-72`): the `Channel` datatype replaces it.
- The `unittest` classes (`Projet.py:275-376`). Their membership assertions are the `m in team.members` and `t in tasks` postconditions of `AddMember`, `AddTeamMember` and `AddTask`. The assertion at `Projet.py:372` looks for a name that is never added, so it is not modelled.
