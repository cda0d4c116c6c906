# ShadowLink configuration validation, in Dafny

ShadowLink is a reverse tunnel: a client behind a firewall keeps outbound
connections to a public server, which exposes the client's services. Apart
from a few command-line argument checks, the only logic in the repository's
code is the validation of its configuration record,
`Config.Validate`, together with the mode predicates `IsServer` and
`IsClient` (internal/config/config.go). This project models that record and
that validation and proves what it guarantees.

- `wrappers.dfy` — `Option`; `None` stands for Go's `nil` error.
- `errors.dfy` (module `ConfigErrors`) — the sentinel errors of
  internal/config/errors.go, one constructor each, with their messages.
- `config.dfy` (module `Config`) — the `Config` record and its nested records
  as immutable datatypes, `IsServer`, `IsClient`, the declarative acceptance
  condition `WellFormed`, and `Validate` written as the same chain of four
  checks as the Go code.
- `checks.dfy` (module `CheckOrder`) — an independent description of the
  validator: its four checks as data in their fixed order, "first failing
  check decides", and the proof that `Validate` is exactly that.
- `properties.dfy` (module `ValidateProperties`) — per-error
  characterisations, precedence, mode-specific requirements, field
  independence and the mode predicates.

Go strings are byte strings; here they are `seq<char>`. Only equality with the
ASCII literals `"server"`, `"client"` and `""` is used, and that is the same in
both readings. `Validate` has a pointer receiver in Go and only reads through
it; here it is a pure function of a (non-nil) record.

## Model

| member | source | states |
|---|---|---|
| ConfigErrors.Message | internal/config/errors.go:7-12 | each sentinel has a non-empty message |
| ConfigErrors.MessagesDistinct | internal/config/errors.go:7-12 | two sentinels have the same message exactly when they are the same sentinel |
| Config.IsServer | internal/config/config.go:161-164 | a configuration in server mode is never in client mode |
| Config.IsClient | internal/config/config.go:166-169 | a configuration in client mode is not in server mode |
| Config.Validate | internal/config/config.go:140-159 | the result is nil exactly when the mode is server or client, a server has a listen address, a client has at least one path and the pre-shared key is non-empty; any error returned is one of the four validation sentinels, never ErrInvalidConfig or ErrLoadConfig |
| CheckOrder.ErrorOf | internal/config/config.go:142-156 | every check reports one of the four validation sentinels, never ErrInvalidConfig or ErrLoadConfig |
| CheckOrder.FirstFailure | internal/config/config.go:141-158 | running checks in order stops at the first failing check: it returns none exactly when every check passes, otherwise the index of a failing check all of whose predecessors pass |
| CheckOrder.LaterChecksCannotOverride | internal/config/config.go:141-158 | appending checks never changes an earlier failure, and the appended checks decide only when all earlier ones pass |
| CheckOrder.ValidateFollowsCheckOrder | internal/config/config.go:141-158 | Validate returns the error of the first failing check among mode, server listen address, client paths, pre-shared key, in that order, and nil when none fails |
| ValidateProperties.InvalidModeWins | internal/config/config.go:142-144 | ErrInvalidMode is returned exactly when the mode is neither "server" nor "client", and then no change to listen address, paths or encryption settings alters the result |
| ValidateProperties.ServerNeedsListen | internal/config/config.go:146-148 | ErrMissingListen is returned exactly for a server with an empty listen address, whatever its pre-shared key |
| ValidateProperties.ClientNeedsPaths | internal/config/config.go:150-152 | ErrMissingPaths is returned exactly for a client with no paths, whatever its pre-shared key |
| ValidateProperties.ModeSpecificRequirementsOnly | internal/config/config.go:146-152 | a server is never refused for missing paths and a client never for a missing listen address; clearing the other mode's field leaves the result unchanged |
| ValidateProperties.PskCheckedLast | internal/config/config.go:154-156 | ErrMissingPSK is returned exactly when the mode is valid, that mode's requirement is met and the pre-shared key is empty |
| ValidateProperties.ExactSuccessCondition | internal/config/config.go:141-158 | nil is returned exactly when mode is "server" or "client", server implies a listen address, client implies a path, and the pre-shared key is non-empty |
| ValidateProperties.EarliestFailingCheckDecides | internal/config/config.go:141-158 | when any check fails, the error returned is that of a failing check at or before it all of whose predecessors pass, i.e. the earliest failing check |
| ValidateProperties.ValidateReadsOnlyKeyFields | internal/config/config.go:141-159 | configurations agreeing on mode, listen address, number of paths and pre-shared key get the same result, whatever all other fields hold |
| ValidateProperties.ModePredicatesExclusive | internal/config/config.go:162-169 | IsServer and IsClient never both hold, and exactly one holds for an accepted configuration |

## Left out

- internal/cli/root.go: command-line wiring and printing, the refusal of an empty `--config` flag (root.go:55, 70, 115) and the refusal of a non-root user by `optimize` (root.go:184-186); apart from `version`, which prints its build information and succeeds, its subcommands are placeholders that return "not implemented".
- internal/session/client.go and internal/session/server.go: placeholders that print and return "not implemented"; there is no behaviour to model.
- internal/transport/transport.go: an interface over Go network types with no implementation, and a constant default record.
- cmd/shadowlink/main.go: process entry point and exit code.
- The tunnel data plane (framing, authenticated encryption, padding, multiplexing, connection pool, UDP flow table): the repository contains no code for it, so there is nothing to model.
- `BurstChance` in the obfuscation settings: a float64 never read by validation, omitted from `ObfuscationConfig`.
- Integer widths: Go `int` and `time.Duration` (int64 nanoseconds) fields are unbounded `int`s; validation never reads them.
- The default values, profile names, transport names and algorithm names declared in internal/config/errors.go: constants that validation does not read.
- Loading the configuration from YAML is outside this model; `ErrInvalidConfig` and `ErrLoadConfig` appear only as sentinels.
- Nil configurations: `Validate`, `IsServer` and `IsClient` take a `*Config` receiver in Go and panic on a nil pointer; the model covers only non-nil configurations.
