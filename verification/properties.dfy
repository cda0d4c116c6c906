/** Properties of configuration validation: which error each kind of
    configuration gets, the precedence between the checks, that each mode
    checks only its own requirement, and that no other field matters. */
module ValidateProperties {
  import opened Wrappers
  import opened ConfigErrors
  import opened Config
  import opened CheckOrder

  /** An unknown mode is rejected as such, whatever else the configuration
      holds: the mode check runs before all others. */
  lemma InvalidModeWins(c: Config)
    ensures Validate(c) == Some(ErrInvalidMode) <==> c.mode != ServerMode && c.mode != ClientMode
    ensures Validate(c) == Some(ErrInvalidMode) ==>
      forall l: string, p: seq<ConnectionPath>, e: EncryptionConfig ::
        Validate(c.(listen := l, paths := p, encryption := e)) == Some(ErrInvalidMode)
  {
  }

  /** A server without a listen address is reported as missing its listen
      address, even when its pre-shared key is missing too. */
  lemma ServerNeedsListen(c: Config)
    ensures Validate(c) == Some(ErrMissingListen) <==> IsServer(c) && c.listen == ""
  {
  }

  /** A client without paths is reported as missing its paths, even when its
      pre-shared key is missing too. */
  lemma ClientNeedsPaths(c: Config)
    ensures Validate(c) == Some(ErrMissingPaths) <==> IsClient(c) && |c.paths| == 0
  {
  }

  /** Each mode checks only its own requirement: a server is never refused
      for lacking paths and a client never for lacking a listen address, and
      emptying the other mode's field changes nothing. */
  lemma ModeSpecificRequirementsOnly(c: Config)
    ensures IsServer(c) ==> Validate(c) != Some(ErrMissingPaths)
    ensures IsServer(c) ==> Validate(c.(paths := [])) == Validate(c)
    ensures IsClient(c) ==> Validate(c) != Some(ErrMissingListen)
    ensures IsClient(c) ==> Validate(c.(listen := "")) == Validate(c)
  {
  }

  /** A missing pre-shared key is reported only once the mode is known and
      that mode's own requirement is met. */
  lemma PskCheckedLast(c: Config)
    ensures Validate(c) == Some(ErrMissingPSK) <==>
      && (IsServer(c) || IsClient(c))
      && (IsServer(c) ==> c.listen != "")
      && (IsClient(c) ==> |c.paths| > 0)
      && c.encryption.psk == ""
  {
  }

  /** The exact success condition, spelled out on the raw fields. */
  lemma ExactSuccessCondition(c: Config)
    ensures Validate(c) == None <==>
      && c.mode in {"server", "client"}
      && (c.mode == "server" ==> c.listen != "")
      && (c.mode == "client" ==> |c.paths| != 0)
      && c.encryption.psk != ""
  {
  }

  /** Precedence: when a check fails, the reported error comes from the
      earliest failing check, which is that check or one that runs before it
      and is preceded only by passing checks. */
  lemma EarliestFailingCheckDecides(c: Config, k: nat)
    requires k < |Order|
    requires !Passes(Order[k], c)
    ensures exists j :: && 0 <= j <= k
                        && !Passes(Order[j], c)
                        && (forall i :: 0 <= i < j ==> Passes(Order[i], c))
                        && Validate(c) == Some(ErrorOf(Order[j]))
  {
    ValidateFollowsCheckOrder(c);
    var j := FirstFailure(Order, c).value;
    assert Validate(c) == Some(ErrorOf(Order[j]));
  }

  /** Validation depends on nothing but the mode, the listen address, the
      number of paths and the pre-shared key: two configurations that agree
      on these get the same verdict, whatever their port maps, transport,
      obfuscation, performance or other settings, and whatever the paths
      themselves hold. */
  lemma ValidateReadsOnlyKeyFields(c1: Config, c2: Config)
    requires c1.mode == c2.mode && c1.listen == c2.listen
    requires |c1.paths| == |c2.paths| && c1.encryption.psk == c2.encryption.psk
    ensures Validate(c1) == Validate(c2)
  {
  }

  /** The mode predicates never hold together, and an accepted configuration
      satisfies exactly one of them. */
  lemma ModePredicatesExclusive(c: Config)
    ensures !(IsServer(c) && IsClient(c))
    ensures Validate(c) == None ==> IsServer(c) != IsClient(c)
  {
  }
}
