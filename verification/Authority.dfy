/**
 * Scope identities and the epoch fence shared by both persistence lanes
 * (src/sync/blobAuthorityScopeGuard.ts).
 */
module Authority {
  import opened Wrappers

  /** A canonical host/vault/device tuple; incomplete tuples share the null identity. */
  datatype Scope = Scope(host: string, vaultId: string, localDeviceId: string)

  predicate IsComplete(scope: Scope) {
    scope.host != "" && scope.vaultId != "" && scope.localDeviceId != ""
  }

  function Identity(scope: Scope): Option<Scope> {
    if IsComplete(scope) then Some(scope) else None
  }

  datatype Token = Token(identity: Option<Scope>, epoch: nat)

  datatype Guard = Guard(identity: Option<Scope>, epoch: nat)

  function Capture(g: Guard): Token {
    Token(g.identity, g.epoch)
  }

  predicate ActivationChanges(g: Guard, scope: Scope) {
    Identity(scope) != g.identity
  }

  /** The epoch advances before any authority is touched. */
  function Activate(g: Guard, scope: Scope): Guard {
    if ActivationChanges(g, scope) then Guard(Identity(scope), g.epoch + 1) else g
  }

  /** `isCurrent(token, scope)`: the token is the guard's, and the settings still name its scope. */
  predicate IsCurrent(g: Guard, token: Token, settings: Scope) {
    token == Capture(g) && Identity(settings) == g.identity
  }
}
