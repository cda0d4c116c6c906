/** An independent, declarative description of `Validate`: the four checks as
    data, in the order the validator runs them, and "the first check that
    fails decides the error". */
module CheckOrder {
  import opened Wrappers
  import opened ConfigErrors
  import opened Config

  /** One requirement on a configuration. */
  datatype Check = ModeKnown | ServerListens | ClientHasPaths | HasPsk

  /** Whether a configuration meets one requirement. A mode-specific
      requirement holds vacuously in the other mode. */
  predicate Passes(k: Check, c: Config) {
    match k
    case ModeKnown => c.mode in {ServerMode, ClientMode}
    case ServerListens => c.mode == ServerMode ==> |c.listen| > 0
    case ClientHasPaths => c.mode == ClientMode ==> |c.paths| > 0
    case HasPsk => |c.encryption.psk| > 0
  }

  /** The sentinel reported when a requirement is not met. */
  function ErrorOf(k: Check): (e: ConfigError)
    ensures e in ValidationErrors
  {
    match k
    case ModeKnown => ErrInvalidMode
    case ServerListens => ErrMissingListen
    case ClientHasPaths => ErrMissingPaths
    case HasPsk => ErrMissingPSK
  }

  /** The order in which the validator runs the checks. */
  const Order: seq<Check> := [ModeKnown, ServerListens, ClientHasPaths, HasPsk]

  /** The index of the first check in `checks` that `c` fails, if any. */
  function FirstFailure(checks: seq<Check>, c: Config): (r: Option<nat>)
    ensures r.None? <==> forall i :: 0 <= i < |checks| ==> Passes(checks[i], c)
    ensures r.Some? ==> r.value < |checks| && !Passes(checks[r.value], c)
    ensures r.Some? ==> forall j :: 0 <= j < r.value ==> Passes(checks[j], c)
  {
    if |checks| == 0 then None
    else if !Passes(checks[0], c) then Some(0)
    else match FirstFailure(checks[1..], c)
      case None => None
      case Some(i) => Some(i + 1)
  }

  /** The verdict of running `checks` in order: the error of the first failing
      check, or `None` when all pass. */
  function RunChecks(checks: seq<Check>, c: Config): Option<ConfigError> {
    match FirstFailure(checks, c)
    case None => None
    case Some(i) => Some(ErrorOf(checks[i]))
  }

  /** Checks placed after a list can never override the verdict of that list:
      once an earlier check fails, later ones are not consulted, and they only
      speak when every earlier check passes. */
  lemma {:induction false} LaterChecksCannotOverride(a: seq<Check>, b: seq<Check>, c: Config)
    ensures FirstFailure(a, c).Some? ==> FirstFailure(a + b, c) == FirstFailure(a, c)
    ensures FirstFailure(a, c).None? ==>
      FirstFailure(a + b, c) ==
        (match FirstFailure(b, c)
         case None => None
         case Some(i) => Some(|a| + i))
  {
    if |a| == 0 {
      assert a + b == b;
    } else {
      assert (a + b)[0] == a[0];
      assert (a + b)[1..] == a[1..] + b;
      LaterChecksCannotOverride(a[1..], b, c);
    }
  }

  /** `Validate` is exactly "run the four checks in order and report the first
      failure". */
  lemma ValidateFollowsCheckOrder(c: Config)
    ensures Validate(c) == RunChecks(Order, c)
  {
    var r := FirstFailure(Order, c);
    assert Order[0] == ModeKnown && Order[1] == ServerListens;
    assert Order[2] == ClientHasPaths && Order[3] == HasPsk;
    if r.Some? {
      var i := r.value;
      if i == 0 {
        assert Validate(c) == Some(ErrInvalidMode);
      } else if i == 1 {
        assert Passes(Order[0], c);
      } else if i == 2 {
        assert Passes(Order[0], c) && Passes(Order[1], c);
      } else {
        assert Passes(Order[0], c) && Passes(Order[1], c) && Passes(Order[2], c);
      }
    } else {
      assert Passes(Order[0], c) && Passes(Order[1], c);
      assert Passes(Order[2], c) && Passes(Order[3], c);
      assert WellFormed(c);
    }
  }
}
