/** The sentinel errors of the configuration package
    (internal/config/errors.go). Go compares sentinel errors by identity, so
    each one is a distinct constructor here; `Message` is the text each was
    created with. */
module ConfigErrors {

  datatype ConfigError =
    | ErrInvalidMode
    | ErrMissingListen
    | ErrMissingPaths
    | ErrMissingPSK
    | ErrInvalidConfig
    | ErrLoadConfig

  /** The error text of each sentinel. */
  function Message(e: ConfigError): (r: string)
    ensures |r| > 0
  {
    match e
    case ErrInvalidMode => "invalid mode: must be 'server' or 'client'"
    case ErrMissingListen => "missing listen address for server mode"
    case ErrMissingPaths => "missing connection paths for client mode"
    case ErrMissingPSK => "missing pre-shared key (PSK)"
    case ErrInvalidConfig => "invalid configuration"
    case ErrLoadConfig => "failed to load configuration"
  }

  /** The four sentinels that `Validate` can return. */
  const ValidationErrors: set<ConfigError> :=
    {ErrInvalidMode, ErrMissingListen, ErrMissingPaths, ErrMissingPSK}

  /** Distinct sentinels carry distinct messages, so the text of an error
      identifies which check rejected a configuration. */
  lemma MessagesDistinct(e1: ConfigError, e2: ConfigError)
    ensures Message(e1) == Message(e2) <==> e1 == e2
  {
  }
}
