# proj2: command-line validation and worker spawning

proj2 is a Santa Claus problem exercise: one Santa process, NE elf processes
and NR reindeer processes. It is started as `./proj2 NE NR TE TR`. This
project models the sequential part of `proj2.c`:

- **`argsCheck`** requires exactly four arguments after the program name.
  `strtol` with base 10 must read each one to its end.
- **`argsLoad`** converts each argument with `atof` and stores it in the
  global `int`s NE, NR, TE and TR. It then checks the ranges
  0 < NE < 1000, 0 < NR < 20, 0 <= TE <= 1000 and 0 <= TR <= 1000.
- Every failure in either function prints the help text and exits with
  code 1. The model represents that as the outcome `UsageError`.
- **The spawn loop in `main`** forks Santa first. Then iteration k forks
  elf k (while k <= NE) and reindeer k (while k <= NR), for
  k = 1 .. max(NE, NR) + 1. Each `fork` is modelled as an event naming the
  child.

Files:

- `clib.dfy` (module `CLib`): the C library behaviour that the validation
  relies on.
  - `strtol` with base 10, as in section 7.22.1.4 of ISO C11. The end
    pointer is an index into the string.
  - C strings, modelled as `seq<char>` values that hold no NUL.
  - The grammar of the strings that `strtol` reads completely: white space,
    an optional sign, then digits.
- `args.dfy` (module `Args`): `argsCheck`, `argsLoad` and the globals.
  - `argsCheck` is a loop with an early exit.
  - `argsLoad` is a method of the class `Globals`. It assigns NE, NR, TE
    and TR.
  - The pure function `Validation` states what the two functions decide
    together.
- `spawn.dfy` (module `Spawn`): the spawn loop, keeping the source's three
  counters `i`, `j` and `l`. Its pure specification is `Schedule`.
- `proj2.dfy` (module `Proj2`): `main` up to the end of the spawn loop.

Facts about the code that the model reflects:

- The shared-memory struct declares three semaphores (proj2.c:48-50). They
  are never initialised or used. The workers only print, sleep and update
  shared counters without synchronisation.
- The help text is printed with `printf`, so it goes to standard output.
  The program still exits with 1 (proj2.c:68-69, 74-75, 90-91).
- A failed fork of Santa only prints a message, and `main` carries on
  (proj2.c:141-142).

## Model

| member | source | states |
|---|---|---|
| `CLib.Strtol` | proj2.c:72 | strtol's end pointer stays inside the string. An end pointer at the start of the string comes with the value 0. Otherwise the end pointer sits just after a digit and in front of a non-digit or the terminator. |
| `CLib.StrtolReadsDecimalPrefix` | proj2.c:72 | When strtol converts something, the text before its end pointer is a decimal integer and the value is the integer that text denotes ("12a" gives 12). When it converts nothing (end pointer at the start), no non-empty prefix of the string is a decimal integer ("a12", "+", "  "). |
| `CLib.StrtolComplete` | proj2.c:72-73 | strtol converts something and stops on the terminator exactly when the token is white space, an optional sign and one or more digits. Its value is then the integer the token denotes. |
| `Args.TokenRejectedIff` | proj2.c:73 | For a C string, argsCheck's test on one argument rejects it exactly when the argument is not a decimal integer. So "3.5", "12a", "" and trailing characters fail, and leading spaces and signs pass. |
| `Args.RemainderTestIsDead` | proj2.c:73 | The `val % 1 != 0` part of the test never holds. Only the two end-pointer tests decide. |
| `Args.ArgsCheck` | proj2.c:64-78 | argsCheck accepts exactly when there are five entries in argv (the program name and four arguments) and argv[1..4] are all decimal integers. |
| `Args.Globals.constructor` | proj2.c:55-58 | NE, NR, TE and TR all start at 0. |
| `Args.Globals.ArgsLoad` | proj2.c:80-93 | NE, NR, TE and TR become the values of argv[1..4] in that order. The method succeeds exactly when those values are in range. |
| `Args.Validation` | proj2.c:85-92 | Any accepted command line gives settings within the four ranges. |
| `Args.Validate` | proj2.c:127-128 | argsCheck followed by argsLoad gives exactly the outcome of `Validation`: the settings, or a usage error (help text and exit code 1). |
| `Args.WrongCountRejected` | proj2.c:67-70 | Any argument count other than four after the program name is a usage error. |
| `Args.MalformedTokenRejected` | proj2.c:71-76 | A single argument that is not a decimal integer makes the whole command line a usage error. |
| `Args.AcceptedSettings` | proj2.c:81-84 | On acceptance, the command line is well formed. The settings are the values of argv[1..4] in order, and they are in range. |
| `Args.ExactBoundaries` | proj2.c:85-92 | For the decimal texts of any four `int` values, the command line is accepted exactly when the values are in range. It then yields those same values. |
| `Args.BoundariesAccepted` | proj2.c:85-88 | The command lines `1 1 0 0` and `999 19 1000 1000` are accepted with exactly those settings. |
| `Args.BoundariesRejected` | proj2.c:85-92 | Each of NE=0, NE=1000, NR=0, NR=20, TE=-1, TE=1001, TR=-1 and TR=1001 is a usage error when the other values are valid. |
| `Args.TokenExamples` | proj2.c:72-73 | "3.5", "12a" and "" are not decimal integers. " +7" denotes 7 and "-2" denotes -2. |
| `Args.NegativeCountRejectedByRange` | proj2.c:72-92 | NE = "-3" passes argsCheck because strtol accepts the sign. The range check then turns it into a usage error. |
| `Spawn.Max` | proj2.c:147-152 | `more` is the larger of NE and NR. |
| `Spawn.SpawnWorkers` | proj2.c:140-173 | The forks are Santa followed by `Schedule(NE, NR)`. The loop runs max(NE, NR) + 1 times. |
| `Spawn.FinalRoundEmpty` | proj2.c:154-173 | The last iteration, k = max(NE, NR) + 1, forks nothing. |
| `Spawn.RoundsIds` | proj2.c:154-173 | The first n iterations fork only elves and reindeer numbered 1 to n, and never Santa. |
| `Spawn.RoundsSorted` | proj2.c:154-173 | The forks come in strictly increasing order: elf k, then reindeer k, then elf k + 1. |
| `Spawn.RoundsMembers` | proj2.c:155-171 | The first n iterations fork elf k exactly when 1 <= k <= min(n, NE), and likewise for reindeer k and NR. |
| `Spawn.RoundsLength` | proj2.c:154-173 | The first n iterations fork min(n, NE) + min(n, NR) processes. |
| `Spawn.ScheduleSpawnsEachOnce` | proj2.c:154-173 | The loop forks elf k exactly when 1 <= k <= NE and reindeer k exactly when 1 <= k <= NR. It never forks Santa and never forks the same process twice: NE + NR forks in all. |
| `Spawn.ElfBeforeReindeer` | proj2.c:155-171 | Wherever elf k and reindeer k both occur, elf k is forked first. |
| `Proj2.Run` | proj2.c:127-173 | A usage error gives exit code 1 and creates no process. An accepted command line forks Santa and then the loop's schedule for the validated NE and NR. |
| `Proj2.AcceptedRunSpawnsAllWorkers` | proj2.c:140-173 | An accepted command line leads to exactly 1 + NE + NR processes: Santa once, each elf 1..NE once and each reindeer 1..NR once. |

## Left out

- `santaFunc`, `elfFunc` and `reindeerFunc` (proj2.c:95-118) are left out. They are concurrent worker bodies built on busy-waiting, random sleeps and unsynchronised increments of shared counters.
- Shared memory (`shmget`, `shmat`, `shmdt`, `shmctl`) and `fopen` of `proj2.out` (proj2.c:130-137, 178-179) are operating-system I/O and are left out.
- The final `wait` loop and the closing `printf` (proj2.c:181-186) are left out. The wait loop ends only when every child process has ended.
- The text of the help message is left out, including its line that gives the NR range under the label "NE". Printing it is modelled only as the outcome `UsageError`.
- A failing `fork` is not modelled (proj2.c:141-142, 157-159, 166-168): in the model every fork succeeds.
- CLib.Strtol: does not model strtol's clamp to LONG_MIN or LONG_MAX on overflow. The value it returns feeds only the `val % 1` test, which never rejects.
- Args.Globals.ArgsLoad: `atof` is modelled only on arguments that argsCheck has accepted. For those, it yields exactly the integer they denote.
- Args.Globals.ArgsLoad: requires each value to fit in a 32-bit `int`, because C leaves the conversion from `double` to `int` undefined otherwise. `Args.Validate` and `Proj2.Run` require the same (`ConversionDefined`), but only for command lines that argsCheck accepts.
- Arguments are C strings: the model requires them to hold no NUL character. This is what lets `*next != '\0'` mean "characters are left after the number".
- Proj2.Run: exit code 0 on an accepted command line assumes that every child process ends, so that the wait loop at proj2.c:181 finishes. The source does not guarantee this. Santa spins (proj2.c:97-101) until it reads `reindeersReady == NR`, and the reindeer increment that counter without synchronisation (proj2.c:116). A lost update leaves Santa spinning, and `main` never returns.
