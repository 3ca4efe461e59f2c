/** A run of the job table in which a claim without a launch token overbooks the limit. */
module JobExamples {
  import opened Prelude
  import opened JobTable
  import opened JobTheorems

  /** Two jobs under a limit of one: the first is reserved, the second claimed without a token. */
  function Untokened(): seq<JobStep> { [Submit(None), ReserveStep, Submit(None), ClaimStep(1, 7, None, 0)] }

  const FirstReserved: Job := NewJob(None).(token := Some(0), launched := Some(0), version := 2)

  lemma ReserveFirst()
    ensures Step(Table(0, 0, [NewJob(None)]), 1, ReserveStep) == Table(0, 1, [FirstReserved])
  {
    var one := Table(0, 0, [NewJob(None)]);
    assert Sweep(one.jobs, 0) == one.jobs && one.jobs[..0] == [];
    assert Count(one.jobs, Active) == 0 && Count(one.jobs, Reserved) == 0;
    assert Available(one.jobs, 1) == 1 && Tokens(one, 0, 1) == (one, []);
    assert one.jobs[0 := FirstReserved] == [FirstReserved];
  }

  lemma BeforeUntokened()
    ensures RunJobs(1, Untokened()[..3]) == Table(0, 1, [FirstReserved, NewJob(None)])
  {
    var steps := Untokened();
    RunStep(1, steps, 0);
    assert RunJobs(1, steps[..1]).jobs == [] + [NewJob(None)] == [NewJob(None)];
    RunStep(1, steps, 1);
    ReserveFirst();
    RunStep(1, steps, 2);
    assert [FirstReserved] + [NewJob(None)] == [FirstReserved, NewJob(None)];
  }

  /** A run that overbooks: one job runs and one is reserved under a limit of one. */
  lemma OverbookedRun()
    ensures !NeverOverbooks(1, Untokened()) && Count(RunJobs(1, Untokened()).jobs, Active) == 1
    ensures Count(RunJobs(1, Untokened()).jobs, Occupies) == 2
  {
    var steps := Untokened();
    BeforeUntokened();
    RunStep(1, steps, 3);
    assert steps[..4] == steps;
    var jobs := [FirstReserved, NewJob(None)];
    assert jobs[..1] == [FirstReserved] && [FirstReserved][..0] == [];
    assert Count([FirstReserved], Active) == 0 && Count(jobs, Active) == 0;
    assert Count([FirstReserved], Occupies) == 1 && Count(jobs, Occupies) == 1;
    var after := RunJobs(1, steps).jobs;
    assert after == jobs[1 := after[1]] && after[1].status == Running;
    CountUpdate(jobs, 1, after[1], Active);
    CountUpdate(jobs, 1, after[1], Occupies);
    assert Overbooks(RunJobs(1, steps[..3]), 1, steps[3]);
  }
}
