/** The runtime policy values that the session and logout protocol reads, in seconds or counts.
    `Policy` is the type of accepted policies: `PolicyRevision` proves that the validator only
    ever accepts values of this type. */
module RuntimePolicy {
  datatype PolicyValues = PolicyValues(
    ssoTtl: int,             // session.sso_absolute_ttl
    idleTimeout: int,        // session.app_idle_timeout
    leaseTtl: int,           // session.validation.lease_ttl
    codeTtl: int,            // oidc.authorization_code_ttl
    idTokenTtl: int,         // oidc.id_token_ttl
    accessTtl: int,          // oidc.access_token.ttl
    loginTtl: int,           // oidc.login.transaction_ttl
    ceremonyTtl: int,        // authentication.ceremony_ttl
    maxFailures: int,        // authentication.ceremony_max_failures
    assertionTtl: int,       // oidc.client_authentication.assertion_ttl
    skew: int,               // oidc.validation.clock_skew
    grace: int,              // retention.gc_grace
    auditTtl: int,           // retention.audit_ttl
    resultTtl: int,          // retention.delivery_result_ttl
    rateKeyTtl: int,         // retention.rate_key_ttl
    gcBatch: int,            // retention.gc_batch_size
    retryDeadline: int,      // logout_delivery.retry_deadline
    baseDelay: int,          // logout_delivery.base_delay
    maxDelay: int,           // logout_delivery.max_delay
    deliveryLease: int,      // logout_delivery.lease_ttl
    maxAttempts: int,        // logout_delivery.max_attempts
    fanoutBatch: int,        // logout_delivery.fanout_batch_size
    claimBatch: int,         // logout_delivery.claim_batch_size
    maxInflight: int,        // logout_delivery.max_inflight_per_client
    ssoCap: int,             // limits.active_sso_per_account
    clientSessionCap: int)   // limits.active_client_sessions_per_sso_client
  {
    /** Every value is positive and the cross-field inequalities used below hold. */
    predicate Accepted() {
      && ssoTtl > 0 && idleTimeout > 0 && leaseTtl > 0 && codeTtl > 0 && idTokenTtl > 0 && accessTtl > 0
      && loginTtl > 0 && ceremonyTtl > 0 && maxFailures > 0 && assertionTtl > 0
      && skew > 0 && grace > 0 && auditTtl > 0 && resultTtl > 0 && rateKeyTtl > 0 && gcBatch > 0
      && retryDeadline > 0 && baseDelay > 0 && maxDelay > 0 && deliveryLease > 0
      && maxAttempts > 0 && fanoutBatch > 0 && claimBatch > 0 && maxInflight > 0
      && ssoCap > 0 && clientSessionCap > 0
      && idleTimeout <= ssoTtl
      && leaseTtl <= idleTimeout
      && codeTtl <= ssoTtl
      && accessTtl <= ssoTtl
      && baseDelay <= maxDelay <= retryDeadline
      && deliveryLease <= retryDeadline
    }

    /** When a record that expires at `expiry` may be collected: after clock skew and the grace period. */
    function Retained(expiry: int): int {
      expiry + skew + grace
    }
  }

  /** The values of the example configuration. */
  const EXAMPLE := PolicyValues(2592000, 604800, 300, 60, 300, 300, 600, 300, 5, 60, 30, 86400, 2592000, 604800,
                                600, 500, 86400, 5, 3600, 30, 48, 100, 10, 4, 32, 64)

  type Policy = v: PolicyValues | v.Accepted() witness EXAMPLE

  function Max(a: int, b: int): int { if a < b then b else a }

  function Min(a: int, b: int): int { if a < b then a else b }
}
