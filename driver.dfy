/**
  The module's own driver, replayed against the contracts alone: what it
  prints and the critical path it stores follow from them.
 */
module Driver {
  import opened Domain
  import opened Notification
  import opened CriticalPath
  import opened TaskGraph
  import opened Projects

  /** The driver's two tasks, the second depending on the first. */
  method CreateDriverTasks() returns (pool: TaskPool)
    ensures fresh(pool) && pool.tasks == DriverTasks()
  {
    pool := new TaskPool();
    var t1 := pool.NewTask("Analyse des besoins", "Description de l'analyse des besoins",
                           Day(19723), Day(19753), Member("Modou", "Chef de projet"), "Terminée", []);
    var t2 := pool.NewTask("Développement", "Description du développement",
                           Day(19754), Day(19904), Member("Christian", "Développeur"), "Non démarrée", [t1]);
  }

  /** The driver's first steps: the project, the e-mail strategy and two members, each announced. */
  method StartDriverProject() returns (projet: Project, console: Console)
    ensures fresh(projet) && fresh(projet.team) && fresh(console)
    ensures projet.Valid() && projet.version == 1 && projet.tasks == []
    ensures projet.team.members == [Member("Modou", "Chef de projet"), Member("Christian", "Développeur")]
    ensures projet.ActiveChannel() == Some(Email)
    ensures console.log == [Delivery("Modou", Email, MemberAddedMessage("Modou")),
                            Delivery("Modou", Email, MemberAddedMessage("Christian")),
                            Delivery("Christian", Email, MemberAddedMessage("Christian"))]
  {
    console := new Console();
    projet := new Project("Nouveau Produit", "Développement d'un nouveau produit", Day(19723), Day(20088), 0.0);
    projet.SetNotificationStrategy(Email);
    projet.AddTeamMember(Member("Modou", "Chef de projet"), console);
    projet.AddTeamMember(Member("Christian", "Développeur"), console);
  }

  /** The driver's records: two tasks, a risk, a milestone and a change, each announced to both members. */
  method AddDriverRecords(projet: Project, pool: TaskPool, console: Console)
    requires projet.Valid() && projet.version == 1 && projet.tasks == [] && pool.tasks == DriverTasks()
    requires |projet.team.members| == 2 && projet.team.members[1].name == "Christian"
    requires projet.ActiveChannel() == Some(Email) && |console.log| == 3
    modifies projet, console
    ensures projet.Valid() && projet.tasks == [0, 1]
    ensures projet.changes == [Change("Changement de la portée du projet", 1)] && projet.version == 2
    ensures |console.log| == 13
    ensures console.log[12] == Delivery("Christian", Email, ChangeRecordedMessage("Changement de la portée du projet", 2))
  {
    projet.AddTask(pool, 0, console);
    projet.AddTask(pool, 1, console);
    projet.AddRisk(Risk("Retard de livraison", 0.3, "Élevé"), console);
    projet.AddMilestone(Milestone("Phase 1 terminée", Day(19753)), console);
    projet.RecordChange("Changement de la portée du projet", console);
  }

  /** The whole driver: the change is recorded as version 1 and announced as version 2, and the critical path is the second task alone. */
  method DriverRun() returns (projet: Project, console: Console)
    ensures projet.Valid() && projet.tasks == [0, 1] && projet.version == 2
    ensures projet.changes == [Change("Changement de la portée du projet", 1)]
    ensures |console.log| == 13
    ensures console.log[12].message == ChangeRecordedMessage("Changement de la portée du projet", 2)
    ensures projet.criticalPath == [1]
  {
    projet, console := StartDriverProject();
    var pool := CreateDriverTasks();
    AddDriverRecords(projet, pool, console);
    var ok := ComputeDriverCriticalPath(projet, pool);
  }

  /** `calculer_chemin_critique` on the driver's project stores the second task alone. */
  method ComputeDriverCriticalPath(projet: Project, pool: TaskPool) returns (ok: bool)
    requires projet.Valid() && projet.tasks == [0, 1] && pool.tasks == DriverTasks()
    modifies projet
    ensures ok && projet.criticalPath == [1]
    ensures projet.Valid() && projet.tasks == [0, 1]
    ensures projet.version == old(projet.version) && projet.changes == old(projet.changes)
  {
    DriverCriticalPath();
    ok := projet.ComputeCriticalPath(pool, map[0 := 0, 1 := 1]);
  }
}
