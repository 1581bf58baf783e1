/**
 * Command-line validation of proj2: `argsCheck` (every argument is a whole
 * decimal integer) and `argsLoad` (the globals NE, NR, TE, TR and their
 * ranges). Every failure prints the help text and ends the process with
 * exit code 1; here that is the outcome `UsageError`.
 *
 * `argv` is the sequence of the C strings `argv[0..argc-1]`, so `argc` is `|argv|`.
 */
module Args {
  import opened CLib

  /** The range of the C `int` the globals are stored in. */
  const IntMin: int := -0x8000_0000
  const IntMax: int := 0x7FFF_FFFF

  predicate FitsInt(v: int) {
    IntMin <= v <= IntMax
  }

  /** The four settings: number of elves, number of reindeer, and the two times in milliseconds. */
  datatype Config = Config(ne: int, nr: int, te: int, tr: int)

  datatype Outcome = Ok(config: Config) | UsageError

  /** The ranges argsLoad demands: 0 < NE < 1000, 0 < NR < 20, 0 <= TE <= 1000, 0 <= TR <= 1000. */
  predicate InRange(c: Config) {
    && 0 < c.ne < 1000
    && 0 < c.nr < 20
    && 0 <= c.te <= 1000
    && 0 <= c.tr <= 1000
  }

  predicate ArgsAreCStrings(argv: seq<seq<char>>) {
    forall i :: 0 <= i < |argv| ==> IsCString(argv[i])
  }

  /** Exactly four arguments after the program name, each a decimal integer. */
  predicate WellFormed(argv: seq<seq<char>>) {
    |argv| == 5 && forall i :: 1 <= i < 5 ==> IsDecimalInteger(argv[i])
  }

  /**
   * Converting a decimal token with `atof` and storing it in an `int` is
   * defined only when its value fits in an `int`; argsLoad converts the four
   * arguments only once argsCheck has found them well formed.
   */
  predicate ConversionDefined(argv: seq<seq<char>>) {
    WellFormed(argv) ==> forall i :: 1 <= i < 5 ==> FitsInt(TokenValue(argv[i]))
  }

  /** The test argsCheck applies to one argument after `strtol`: true when it rejects. */
  predicate TokenRejected(s: seq<char>) {
    var r := Strtol(s);
    r.value % 1 != 0 || r.end == 0 || Deref(s, r.end) != '\0'
  }

  /** argsCheck rejects an argument exactly when it is not a decimal integer. */
  lemma TokenRejectedIff(s: seq<char>)
    requires IsCString(s)
    ensures TokenRejected(s) <==> !IsDecimalInteger(s)
  {
    StrtolComplete(s);
  }

  /** The `val % 1 != 0` part of the test never rejects: only the end pointer decides. */
  lemma RemainderTestIsDead(s: seq<char>)
    ensures TokenRejected(s) <==> (Strtol(s).end == 0 || Deref(s, Strtol(s).end) != '\0')
  {
  }

  /**
   * argsCheck: exactly four arguments after the program name, each one read
   * completely by `strtol`; the loop stops at the first argument that fails.
   */
  method ArgsCheck(argv: seq<seq<char>>) returns (ok: bool)
    requires ArgsAreCStrings(argv)
    ensures ok <==> WellFormed(argv)
  {
    if |argv| != 5 {
      return false;
    }
    var i := 1;
    while i < |argv|
      invariant 1 <= i <= |argv|
      invariant forall k :: 1 <= k < i ==> IsDecimalInteger(argv[k])
    {
      TokenRejectedIff(argv[i]);
      if TokenRejected(argv[i]) {
        return false;
      }
      i := i + 1;
    }
    return true;
  }

  /** The globals NE, NR, TE, TR of proj2, all 0 before argsLoad runs. */
  class Globals {
    var ne: int
    var nr: int
    var te: int
    var tr: int

    constructor ()
      ensures ne == 0 && nr == 0 && te == 0 && tr == 0
    {
      ne, nr, te, tr := 0, 0, 0, 0;
    }

    function Settings(): Config
      reads this
    {
      Config(ne, nr, te, tr)
    }

    /**
     * argsLoad: store the values of argv[1..4] in NE, NR, TE, TR, then check
     * their ranges. It runs only after argsCheck has accepted `argv`, and for
     * such a token `atof` yields exactly the integer it denotes.
     */
    method ArgsLoad(argv: seq<seq<char>>) returns (ok: bool)
      requires |argv| == 5
      requires forall i :: 1 <= i < 5 ==> IsDecimalInteger(argv[i]) && FitsInt(TokenValue(argv[i]))
      modifies this
      ensures Settings() == Config(TokenValue(argv[1]), TokenValue(argv[2]), TokenValue(argv[3]), TokenValue(argv[4]))
      ensures ok <==> InRange(Settings())
    {
      ne := TokenValue(argv[1]);
      nr := TokenValue(argv[2]);
      te := TokenValue(argv[3]);
      tr := TokenValue(argv[4]);
      if (ne <= 0 || ne >= 1000) || (nr <= 0 || nr >= 20) || (te < 0 || te > 1000) || (tr < 0 || tr > 1000) {
        return false;
      }
      return true;
    }
  }

  /** What argsCheck followed by argsLoad decide about `argv`. */
  function Validation(argv: seq<seq<char>>): (r: Outcome)
    ensures r.Ok? ==> InRange(r.config)
  {
    if WellFormed(argv) then
      var c := Config(TokenValue(argv[1]), TokenValue(argv[2]), TokenValue(argv[3]), TokenValue(argv[4]));
      if InRange(c) then Ok(c) else UsageError
    else
      UsageError
  }

  /** The start of main: argsCheck, then argsLoad into fresh globals. */
  method Validate(argv: seq<seq<char>>) returns (r: Outcome)
    requires ArgsAreCStrings(argv)
    requires ConversionDefined(argv)
    ensures r == Validation(argv)
  {
    var ok := ArgsCheck(argv);
    if !ok {
      return UsageError;
    }
    var globals := new Globals();
    ok := globals.ArgsLoad(argv);
    if !ok {
      return UsageError;
    }
    return Ok(globals.Settings());
  }

  /** Any argument count other than four (plus the program name) is a usage error. */
  lemma WrongCountRejected(argv: seq<seq<char>>)
    requires |argv| != 5
    ensures Validation(argv) == UsageError
  {
  }

  /** An argument that is not a decimal integer is a usage error, whatever the others are. */
  lemma MalformedTokenRejected(argv: seq<seq<char>>, i: nat)
    requires 1 <= i < |argv|
    requires !IsDecimalInteger(argv[i])
    ensures Validation(argv) == UsageError
  {
  }

  /**
   * On acceptance the settings are the values argv[1..4] denote, in order,
   * and they lie in range.
   */
  lemma AcceptedSettings(argv: seq<seq<char>>)
    requires Validation(argv).Ok?
    ensures |argv| == 5
    ensures forall i :: 1 <= i < 5 ==> IsDecimalInteger(argv[i])
    ensures Validation(argv).config == Config(TokenValue(argv[1]), TokenValue(argv[2]), TokenValue(argv[3]), TokenValue(argv[4]))
    ensures InRange(Validation(argv).config)
  {
  }

  /**
   * For the decimal texts of any four `int` values, validation accepts exactly
   * when the values are in range, and then yields those very values.
   */
  lemma ExactBoundaries(prog: seq<char>, ne: int, nr: int, te: int, tr: int)
    requires IsCString(prog)
    requires FitsInt(ne) && FitsInt(nr) && FitsInt(te) && FitsInt(tr)
    ensures var argv := [prog, Decimal(ne), Decimal(nr), Decimal(te), Decimal(tr)];
      && ArgsAreCStrings(argv)
      && ConversionDefined(argv)
      && Validation(argv) == if InRange(Config(ne, nr, te, tr)) then Ok(Config(ne, nr, te, tr)) else UsageError
  {
    var argv := [prog, Decimal(ne), Decimal(nr), Decimal(te), Decimal(tr)];
    DecimalRoundTrip(ne);
    DecimalRoundTrip(nr);
    DecimalRoundTrip(te);
    DecimalRoundTrip(tr);
    assert forall i :: 1 <= i < 5 ==> argv[i] in [Decimal(ne), Decimal(nr), Decimal(te), Decimal(tr)];
  }

  /** The extreme settings are accepted, as texts on the command line. */
  lemma BoundariesAccepted(prog: seq<char>)
    ensures Validation([prog, "1", "1", "0", "0"]) == Ok(Config(1, 1, 0, 0))
    ensures Validation([prog, "999", "19", "1000", "1000"]) == Ok(Config(999, 19, 1000, 1000))
  {
    assert Validation([prog, "1", "1", "0", "0"]) == Ok(Config(1, 1, 0, 0)) by {
      assert "1"[..0] == "" && "0"[..0] == "";
    }
    assert Validation([prog, "999", "19", "1000", "1000"]) == Ok(Config(999, 19, 1000, 1000)) by {
      assert "999"[..2] == "99" && "99"[..1] == "9" && "9"[..0] == "";
      assert "19"[..1] == "1" && "1"[..0] == "";
      assert "1000"[..3] == "100" && "100"[..2] == "10" && "10"[..1] == "1";
    }
  }

  /** Each setting one step beyond its range is rejected, the others being valid. */
  lemma BoundariesRejected(prog: seq<char>)
    ensures Validation([prog, "0", "1", "0", "0"]) == UsageError
    ensures Validation([prog, "1000", "1", "0", "0"]) == UsageError
    ensures Validation([prog, "1", "0", "0", "0"]) == UsageError
    ensures Validation([prog, "1", "20", "0", "0"]) == UsageError
    ensures Validation([prog, "1", "1", "-1", "0"]) == UsageError
    ensures Validation([prog, "1", "1", "1001", "0"]) == UsageError
    ensures Validation([prog, "1", "1", "0", "-1"]) == UsageError
    ensures Validation([prog, "1", "1", "0", "1001"]) == UsageError
  {
    assert "1"[..0] == "" && "0"[..0] == "";
    assert "-1"[1..] == "1";
    assert "1000"[..3] == "100" && "100"[..2] == "10" && "10"[..1] == "1";
    assert "1001"[..3] == "100";
    assert "20"[..1] == "2" && "2"[..0] == "";
  }

  /** "3.5", "12a" and "" are not decimal integers; " +7" and "-2" are. */
  lemma TokenExamples()
    ensures !IsDecimalInteger("3.5") && !IsDecimalInteger("12a") && !IsDecimalInteger("")
    ensures IsDecimalInteger(" +7") && TokenValue(" +7") == 7
    ensures IsDecimalInteger("-2") && TokenValue("-2") == -2
  {
    assert !IsDigit("3.5"[1]);
    assert !IsDigit("12a"[2]);
    assert " +7"[1..] == "+7" && "+7"[1..] == "7" && "7"[..0] == "";
    assert "-2"[1..] == "2" && "2"[..0] == "";
  }

  /**
   * A negative count passes argsCheck, because `strtol` takes a sign; it is
   * the range check that turns it away.
   */
  lemma NegativeCountRejectedByRange(prog: seq<char>)
    ensures var argv := [prog, "-3", "5", "0", "0"];
      && WellFormed(argv) && TokenValue(argv[1]) == -3
      && Validation(argv) == UsageError
  {
    assert "-3"[1..] == "3" && "3"[..0] == "";
    assert "5"[..0] == "" && "0"[..0] == "";
  }
}
