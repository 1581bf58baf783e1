/**
 * main of proj2 as far as it is sequential: validate the command line, then
 * create the worker processes. The workers themselves, the shared memory and
 * the final wait are not part of this model.
 */
module Proj2 {
  import opened Args
  import opened Spawn

  /**
   * Run main on `argv` with every `fork` succeeding. A usage error ends the
   * process with exit code 1 before any process is created; otherwise main
   * forks Santa, the elves and the reindeer, and returns 0 once it has
   * collected them all, which this model takes for granted.
   */
  method Run(argv: seq<seq<char>>) returns (exitCode: int, forks: seq<Event>)
    requires ArgsAreCStrings(argv)
    requires ConversionDefined(argv)
    ensures Validation(argv).UsageError? ==> exitCode == 1 && forks == []
    ensures Validation(argv).Ok? ==>
      exitCode == 0 && forks == [Santa] + Schedule(Validation(argv).config.ne, Validation(argv).config.nr)
  {
    var outcome := Validate(argv);
    if outcome.UsageError? {
      return 1, [];
    }
    var iterations;
    forks, iterations := SpawnWorkers(outcome.config.ne, outcome.config.nr);
    return 0, forks;
  }

  /**
   * An accepted command line leads to exactly 1 + NE + NR processes: Santa,
   * each elf once and each reindeer once.
   */
  lemma AcceptedRunSpawnsAllWorkers(argv: seq<seq<char>>, k: int)
    requires Validation(argv).Ok?
    ensures var c := Validation(argv).config;
      var forks := [Santa] + Schedule(c.ne, c.nr);
      && |forks| == 1 + c.ne + c.nr
      && (Elf(k) in forks <==> 1 <= k <= c.ne)
      && (Reindeer(k) in forks <==> 1 <= k <= c.nr)
      && forall p, q :: 0 <= p < q < |forks| ==> forks[p] != forks[q]
  {
    var c := Validation(argv).config;
    ScheduleSpawnsEachOnce(c.ne, c.nr, k);
  }
}
