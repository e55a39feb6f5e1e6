// A run of the job reconciler whose error handler fails: the CronJob of a job
// that is no longer Ready goes on running.

module HandlerFailure {
  import opened Objects
  import opened ApiServer
  import opened Inventory
  import opened KnownHosts
  import opened JobFiles
  import opened JobController
  import opened OperatorJobs

  const JOB := "job"
  const BOOK := "book"

  function NewJob(): ReconcileJob { ReconcileJob(JOB, 1, "@daily", BOOK, map[]) }

  /** A namespace with one inline playbook and one new job that runs it. */
  function Fresh(): State {
    State(map[], [], map[], [], map[BOOK := Playbook(Some(Inline("", "")), None)],
          map[JOB := NewJob()], [], map[], map[], map[], {}, {JOB})
  }

  lemma FreshIsFine()
    ensures WellFormed(Fresh()) && FilesProblem(Fresh(), NewJob()).None?
  {
    var s := Fresh();
    assert AllResolve(s.hosts, s.groups) && Privileged(s.hosts);
    assert Blocks(Listed(s.hosts, s.hostOrder), s.secrets) == Some([]);
  }

  /** Every call goes well but two: the first one after the job was read, and the
      Get of the CronJob by the error handler that follows. */
  function TwoFailures(i: nat): Option<Error> {
    if i == 1 || i == 2 then Some(ApiFailure("timeout")) else None
  }

  /** A first reconcile without faults settles the job. */
  method Settle() returns (settled: State)
    ensures WellFormed(settled) && JobSettled(settled, JOB) && settled.jobs[JOB].name == JOB
    ensures ReadyJob(settled, JOB) && SuspendSound(settled, JOB)
  {
    hide FilesProblem, JobFrame, FilesDone, NewestRun, Handled, CronJobIn;
    FreshIsFine();
    var c := new Cluster(_ => None, Fresh());
    var r := new JobReconciler(c, NewJob());
    var err, ending, handler := r.Reconcile(JOB);
    settled := c.store;
    OutcomeWellFormed(Fresh(), JOB, settled, ending);
    DoneMeans(Fresh(), JOB, settled);
  }

  /** A second one, in which two successive calls fail, breaks the protocol: the
      job's CronJob runs while Ready is False. */
  method LoseTheCronJob() returns (settled: State, after: State)
    ensures WellFormed(settled) && JobSettled(settled, JOB) && SuspendSound(settled, JOB)
    ensures UnreadyJob(after, JOB) && Running(after, JOB) && !SuspendSound(after, JOB)
  {
    hide FilesProblem, WellFormed, JobOutcome, JobSettled, Handled, Initialised, JobInPlace, JobDecidedByNeeds;
    settled := Settle();
    SettledIsPossible(settled, JOB);
    var c := new Cluster(TwoFailures, settled);
    var r := new JobReconciler(c, NewJob());
    var err, ending, handler := r.Reconcile(JOB);
    after := c.store;
    HandlerEntry(settled, JOB, after, ending.handling);
    LostMeans(JOB, ending.handling);
  }

  lemma LostMeans(name: string, h: Handling)
    requires name in h.entry.jobs && h.recorded && !h.suspended && Running(h.entry, name)
    requires ReadyJob(h.entry, name) && h.copy == h.entry.jobs[name].conds
    ensures UnreadyJob(Handled(name, h), name) && Running(Handled(name, h), name)
  {
  }
}
