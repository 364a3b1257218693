/**
  The value records of the project-tracking model: members, tasks, milestones,
  risks and recorded changes. Dates are integer timestamps in seconds; a task
  refers to its dependencies and the project to its tasks by their index in a
  `TaskGraph.TaskPool`, which stands for Python object identity.
 */
module Domain {

  /** An optional value: `None` where the source raises or holds `None`. */
  datatype Option<T> = None | Some(value: T)

  /** `Membre`: a team member, identified for notifications by its name. */
  datatype Member = Member(name: string, role: string)

  /** `Tache`: one task. `deps` lists the indices of its dependencies, in the order they were declared. */
  datatype Task = Task(
    name: string,
    description: string,
    start: int,
    end: int,
    responsible: Member,
    status: string,
    deps: seq<nat>)

  /** `Jalon`: a named date. */
  datatype Milestone = Milestone(name: string, date: int)

  /** `Risque`: the probability is a Python float, kept here as an exact real. */
  datatype Risk = Risk(description: string, probability: real, impact: string)

  /** `Changement`: the creation timestamp is not modelled. */
  datatype Change = Change(description: string, version: int)

  /** Seconds in a day: `timedelta.days` is the floor of a difference of seconds by this. */
  const SecondsPerDay: int := 86400

  /**
    `(date_fin - date_debut).days`: the whole number of days, rounded towards minus
    infinity, as Python's `timedelta.days` does for a negative difference too.
   */
  function Span(t: Task): (days: int)
    ensures days * SecondsPerDay <= t.end - t.start < (days + 1) * SecondsPerDay
  {
    (t.end - t.start) / SecondsPerDay
  }
}
