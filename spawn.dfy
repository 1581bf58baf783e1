/**
 * The order in which main creates the worker processes: first Santa, then a
 * loop whose iteration k forks elf k (while k <= NE) and then reindeer k
 * (while k <= NR). Each `fork` is modelled as the event naming the child.
 */
module Spawn {

  datatype Event = Santa | Elf(id: int) | Reindeer(id: int)

  /** `more` in main: the larger of the two counts. */
  function Max(a: int, b: int): (m: int)
    ensures m >= a && m >= b && (m == a || m == b)
  {
    if a > b then a else b
  }

  /** The forks of the loop iteration in which the counters i, j and l all equal `k`. */
  function Round(ne: int, nr: int, k: int): seq<Event> {
    (if k < ne + 1 then [Elf(k)] else []) + (if k < nr + 1 then [Reindeer(k)] else [])
  }

  /** The forks of the first `n` loop iterations. */
  function Rounds(ne: int, nr: int, n: nat): seq<Event> {
    if n == 0 then [] else Rounds(ne, nr, n - 1) + Round(ne, nr, n)
  }

  /** The forks of the whole loop, which runs while `l <= more + 1`. */
  function Schedule(ne: nat, nr: nat): seq<Event> {
    Rounds(ne, nr, Max(ne, nr) + 1)
  }

  /** A position in the intended spawn order: elf k, then reindeer k, then elf k + 1. */
  function Rank(e: Event): int {
    match e
    case Santa => 0
    case Elf(k) => 2 * k
    case Reindeer(k) => 2 * k + 1
  }

  function Min(a: int, b: int): int {
    if a < b then a else b
  }

  /**
   * main from the fork of Santa to the end of the spawn loop (every fork
   * succeeding): it returns the forks in order and the number of iterations.
   */
  method SpawnWorkers(ne: int, nr: int) returns (forks: seq<Event>, iterations: nat)
    requires 0 <= ne && 0 <= nr
    ensures forks == [Santa] + Schedule(ne, nr)
    ensures iterations == Max(ne, nr) + 1
  {
    forks := [Santa];
    var more;
    if ne > nr {
      more := ne;
    } else {
      more := nr;
    }
    var i, j, l := 1, 1, 1;
    iterations := 0;
    while l <= more + 1
      invariant 1 <= l <= more + 2
      invariant i == l && j == l
      invariant iterations == l - 1
      invariant forks == [Santa] + Rounds(ne, nr, l - 1)
    {
      if i < ne + 1 {
        forks := forks + [Elf(i)];
      }
      if j < nr + 1 {
        forks := forks + [Reindeer(j)];
      }
      i, j, l := i + 1, j + 1, l + 1;
      iterations := iterations + 1;
    }
  }

  /** The last iteration of the loop forks nothing. */
  lemma FinalRoundEmpty(ne: nat, nr: nat)
    ensures Round(ne, nr, Max(ne, nr) + 1) == []
  {
  }

  /** The first `n` iterations fork only elves and reindeer numbered 1 to `n`. */
  lemma {:induction false} RoundsIds(ne: int, nr: int, n: nat)
    ensures forall p :: 0 <= p < |Rounds(ne, nr, n)| ==>
      !Rounds(ne, nr, n)[p].Santa? && 1 <= Rounds(ne, nr, n)[p].id <= n
  {
    if n > 0 {
      RoundsIds(ne, nr, n - 1);
    }
  }

  /** The forks come in strictly increasing rank: by number, each elf before its reindeer. */
  lemma {:induction false} RoundsSorted(ne: int, nr: int, n: nat)
    ensures forall p, q :: 0 <= p < q < |Rounds(ne, nr, n)| ==>
      Rank(Rounds(ne, nr, n)[p]) < Rank(Rounds(ne, nr, n)[q])
  {
    if n > 0 {
      var before := Rounds(ne, nr, n - 1);
      RoundsSorted(ne, nr, n - 1);
      RoundsIds(ne, nr, n - 1);
      assert forall p :: 0 <= p < |before| ==> Rank(before[p]) <= 2 * n - 1;
    }
  }

  /** The first `n` iterations fork elf k exactly when 1 <= k <= min(n, NE), and likewise reindeer k. */
  lemma {:induction false} RoundsMembers(ne: int, nr: int, n: nat, k: int)
    ensures Elf(k) in Rounds(ne, nr, n) <==> 1 <= k <= n && k <= ne
    ensures Reindeer(k) in Rounds(ne, nr, n) <==> 1 <= k <= n && k <= nr
    ensures Santa !in Rounds(ne, nr, n)
  {
    if n > 0 {
      RoundsMembers(ne, nr, n - 1, k);
      assert Rounds(ne, nr, n) == Rounds(ne, nr, n - 1) + Round(ne, nr, n);
    }
  }

  /** The first `n` iterations fork min(n, NE) elves and min(n, NR) reindeer. */
  lemma {:induction false} RoundsLength(ne: nat, nr: nat, n: nat)
    ensures |Rounds(ne, nr, n)| == Min(n, ne) + Min(n, nr)
  {
    if n > 0 {
      RoundsLength(ne, nr, n - 1);
    }
  }

  /**
   * The loop forks each elf 1..NE and each reindeer 1..NR, nothing else, and
   * no process twice: NE + NR processes in all.
   */
  lemma ScheduleSpawnsEachOnce(ne: nat, nr: nat, k: int)
    ensures Elf(k) in Schedule(ne, nr) <==> 1 <= k <= ne
    ensures Reindeer(k) in Schedule(ne, nr) <==> 1 <= k <= nr
    ensures Santa !in Schedule(ne, nr)
    ensures forall p, q :: 0 <= p < q < |Schedule(ne, nr)| ==> Schedule(ne, nr)[p] != Schedule(ne, nr)[q]
    ensures |Schedule(ne, nr)| == ne + nr
  {
    var n := Max(ne, nr) + 1;
    RoundsMembers(ne, nr, n, k);
    RoundsSorted(ne, nr, n);
    RoundsLength(ne, nr, n);
  }

  /** Wherever elf k and reindeer k both occur, the elf is forked first. */
  lemma ElfBeforeReindeer(ne: nat, nr: nat, k: int, p: nat, q: nat)
    requires p < |Schedule(ne, nr)| && q < |Schedule(ne, nr)|
    requires Schedule(ne, nr)[p] == Elf(k) && Schedule(ne, nr)[q] == Reindeer(k)
    ensures p < q
  {
    RoundsSorted(ne, nr, Max(ne, nr) + 1);
  }
}
