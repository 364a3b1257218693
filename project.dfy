/**
  `Equipe` and `Projet`: the project's bookkeeping. Every mutator appends to
  one list (or bumps the version) and then broadcasts a fixed message to the
  whole current team through the notification context, when one is set.
 */
module Projects {
  import opened Domain
  import opened DecimalText
  import opened Notification
  import opened CriticalPath
  import opened TaskGraph

  /** `Equipe`: the members, in the order they were added, duplicates kept. */
  class Team {
    var members: seq<Member>

    constructor()
      ensures members == []
    {
      members := [];
    }

    /** `ajouter_membre`: appends one member at the end. */
    method AddMember(m: Member)
      modifies this
      ensures members == old(members) + [m]
    {
      members := members + [m];
    }
  }

  // The messages the mutators broadcast.

  function MemberAddedMessage(name: string): string { name + " a été ajouté à l'équipe" }
  function TaskAddedMessage(name: string): string { "Nouvelle tâche ajoutée: " + name }
  function RiskAddedMessage(description: string): string { "Nouveau risque ajouté: " + description }
  function MilestoneAddedMessage(name: string): string { "Nouveau jalon ajouté: " + name }

  const ChangePrefix: string := "Changement enregistré: "
  const VersionPrefix: string := " (version "

  function ChangeRecordedMessage(description: string, version: nat): string
  {
    ChangePrefix + description + VersionPrefix + Decimal(version) + ")"
  }

  /** The version a change message announces can be read back from its text. */
  lemma ChangeMessageNamesVersion(description: string, version: nat)
    ensures var m := ChangeRecordedMessage(description, version);
      var p := |ChangePrefix| + |description| + |VersionPrefix|;
      p < |m| && m[|m| - 1] == ')' && m[..p] == ChangePrefix + description + VersionPrefix &&
      (forall k :: p <= k < |m| - 1 ==> IsDigit(m[k])) &&
      ParseDecimal(m[p..|m| - 1]) == version
  {
    var m := ChangeRecordedMessage(description, version);
    var p := |ChangePrefix| + |description| + |VersionPrefix|;
    assert m[p..|m| - 1] == Decimal(version);
    ParseDecimalInverts(version);
  }

  /** Everything a project holds that its operations can change. */
  datatype State = State(
    budget: real,
    tasks: seq<nat>,
    members: seq<Member>,
    risks: seq<Risk>,
    milestones: seq<Milestone>,
    version: nat,
    changes: seq<Change>,
    criticalPath: seq<nat>,
    channel: Option<Channel>)

  /** The deliveries a project broadcast produces: none without a channel, else one per member. */
  function Announcement(channel: Option<Channel>, message: string, members: seq<Member>): seq<Delivery>
  {
    match channel
    case None => []
    case Some(c) => Broadcast(c, message, members)
  }

  /** `Projet`. */
  class Project {
    const name: string
    const description: string
    const start: int
    const end: int
    var budget: real
    var tasks: seq<nat>
    const team: Team
    var risks: seq<Risk>
    var milestones: seq<Milestone>
    var version: nat
    var changes: seq<Change>
    var criticalPath: seq<nat>
    var context: NotificationContext?

    /** The version counter is one past the number of recorded changes, which carry 1, 2, 3, ... */
    predicate Valid()
      reads this
    {
      version == |changes| + 1 &&
      forall k :: 0 <= k < |changes| ==> changes[k].version == k + 1
    }

    function ActiveChannel(): Option<Channel>
      reads this, context
    {
      if context == null then None else Some(context.strategy)
    }

    function Snapshot(): State
      reads this, team, context
    {
      State(budget, tasks, team.members, risks, milestones, version, changes, criticalPath, ActiveChannel())
    }

    constructor(name: string, description: string, start: int, end: int, budget: real)
      ensures Valid() && fresh(team)
      ensures this.name == name && this.description == description
      ensures this.start == start && this.end == end
      ensures Snapshot() == State(budget, [], [], [], [], 1, [], [], None)
    {
      this.name := name;
      this.description := description;
      this.start := start;
      this.end := end;
      this.budget := budget;
      tasks := [];
      team := new Team();
      risks := [];
      milestones := [];
      version := 1;
      changes := [];
      criticalPath := [];
      context := null;
    }

    /** `notifier`: nothing without a context; otherwise a broadcast to the current team. */
    method Notify(message: string, console: Console)
      modifies console
      ensures console.log == old(console.log) + Announcement(ActiveChannel(), message, team.members)
    {
      if context != null {
        context.Notify(message, team.members, console);
      }
    }

    /** `set_notification_strategy`: installs a new context holding `c`; nothing else changes. */
    method SetNotificationStrategy(c: Channel)
      modifies this
      ensures fresh(context)
      ensures Snapshot() == old(Snapshot()).(channel := Some(c))
      ensures Valid() == old(Valid())
    {
      context := new NotificationContext(c);
    }

    /** `ajouter_membre`: appends one member to the team, then announces it to the team including the newcomer. */
    method AddMember(m: Member, console: Console)
      requires Valid()
      modifies team, console
      ensures Valid()
      ensures Snapshot() == old(Snapshot()).(members := old(team.members) + [m])
      ensures m in team.members
      ensures console.log == old(console.log) + Announcement(ActiveChannel(), MemberAddedMessage(m.name), team.members)
    {
      team.AddMember(m);
      Notify(MemberAddedMessage(m.name), console);
    }

    /** `ajouter_membre_equipe`: the same operation as `ajouter_membre` under another name. */
    method AddTeamMember(m: Member, console: Console)
      requires Valid()
      modifies team, console
      ensures Valid()
      ensures Snapshot() == old(Snapshot()).(members := old(team.members) + [m])
      ensures m in team.members
      ensures console.log == old(console.log) + Announcement(ActiveChannel(), MemberAddedMessage(m.name), team.members)
    {
      AddMember(m, console);
    }

    /** `ajouter_tache`: appends one task (a task of `pool`), then announces it by name. */
    method AddTask(pool: TaskPool, t: nat, console: Console)
      requires Valid() && t < |pool.tasks|
      modifies this, console
      ensures Valid()
      ensures Snapshot() == old(Snapshot()).(tasks := old(tasks) + [t])
      ensures context == old(context)
      ensures t in tasks
      ensures console.log == old(console.log) + Announcement(ActiveChannel(), TaskAddedMessage(pool.tasks[t].name), team.members)
    {
      tasks := tasks + [t];
      Notify(TaskAddedMessage(pool.tasks[t].name), console);
    }

    /** `ajouter_risque`: appends one risk, then announces it. */
    method AddRisk(r: Risk, console: Console)
      requires Valid()
      modifies this, console
      ensures Valid()
      ensures Snapshot() == old(Snapshot()).(risks := old(risks) + [r])
      ensures context == old(context)
      ensures console.log == old(console.log) + Announcement(ActiveChannel(), RiskAddedMessage(r.description), team.members)
    {
      risks := risks + [r];
      Notify(RiskAddedMessage(r.description), console);
    }

    /** `ajouter_jalon`: appends one milestone, then announces it. */
    method AddMilestone(j: Milestone, console: Console)
      requires Valid()
      modifies this, console
      ensures Valid()
      ensures Snapshot() == old(Snapshot()).(milestones := old(milestones) + [j])
      ensures context == old(context)
      ensures console.log == old(console.log) + Announcement(ActiveChannel(), MilestoneAddedMessage(j.name), team.members)
    {
      milestones := milestones + [j];
      Notify(MilestoneAddedMessage(j.name), console);
    }

    /**
      `enregistrer_changement`: records a change carrying the version before the
      call, increments the version, then announces the incremented version.
     */
    method RecordChange(description: string, console: Console)
      requires Valid()
      modifies this, console
      ensures Valid()
      ensures changes == old(changes) + [Change(description, old(version))]
      ensures version == old(version) + 1
      ensures Snapshot() == old(Snapshot()).(version := version, changes := changes)
      ensures context == old(context)
      ensures console.log == old(console.log) + Announcement(ActiveChannel(), ChangeRecordedMessage(description, version), team.members)
    {
      changes := changes + [Change(description, version)];
      version := version + 1;
      Notify(ChangeRecordedMessage(description, version), console);
    }

    /**
      `calculer_chemin_critique`: stores the path of the first project task
      with the longest memoised length. On an empty task list `max` raises, the
      method reports failure and nothing changes. Only the project's tasks and
      what they depend on need a rank; other tasks of the pool may form cycles.
     */
    method ComputeCriticalPath(pool: TaskPool, ghost rank: map<nat, nat>) returns (ok: bool)
      requires Valid() && Ranked(pool.tasks, rank) && Covered(rank, tasks)
      modifies this
      ensures Valid()
      ensures Snapshot() == old(Snapshot()).(criticalPath := criticalPath)
      ensures context == old(context)
      ensures ok <==> tasks != []
      ensures ok ==> exists k: nat ::
        FirstMaximal(pool.tasks, rank, tasks, k) && criticalPath == Longest(pool.tasks, rank, tasks[k]).path
      ensures !ok ==> criticalPath == old(criticalPath)
    {
      var r := CriticalPath.ComputeCriticalPath(pool.tasks, rank, tasks);
      ok := r.Some?;
      if ok {
        criticalPath := r.value;
      }
    }
  }
}
