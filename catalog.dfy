/** The fixed reference data the generators draw from (main.py:10-88). Every table is a constant;
    nothing changes it after start-up. */
module Catalog {

  const CLUSTER_NAME: string := "production-cluster-01"

  /** The services of the cluster, in the order every handler walks them. */
  const SERVICES: seq<string> := [
    "auth-service",
    "user-service",
    "payment-service",
    "notification-service",
    "analytics-service",
    "api-gateway"
  ]

  const LOG_LEVELS: seq<string> := ["INFO", "DEBUG", "WARN", "ERROR"]

  const LOG_MESSAGES: seq<string> := [
    "Request processed successfully",
    "Database connection established",
    "Cache hit for key: {}",
    "Processing batch job",
    "HTTP request received: GET /api/v1/{}",
    "Response sent with status code: {}",
    "Authentication successful for user: {}",
    "Rate limit check passed",
    "Circuit breaker closed",
    "Health check completed",
    "Memory usage: {} MB",
    "Connection timeout, retrying...",
    "Invalid request parameter: {}",
    "Service discovery updated",
    "Background task scheduled"
  ]

  const COMMIT_TYPES: seq<string> := ["feat", "fix", "refactor", "perf", "docs", "test", "chore"]

  const COMMIT_MESSAGES: seq<string> := [
    "add authentication middleware",
    "fix memory leak in connection pool",
    "update dependencies to latest versions",
    "optimize database query performance",
    "implement rate limiting",
    "add unit tests for API endpoints",
    "refactor error handling logic",
    "improve logging format",
    "fix race condition in cache invalidation",
    "add health check endpoint",
    "update API documentation",
    "implement circuit breaker pattern",
    "optimize memory usage",
    "fix null pointer exception",
    "add integration tests",
    "refactor service discovery logic",
    "improve error messages",
    "add metrics collection",
    "fix timeout handling",
    "implement retry mechanism",
    "update configuration management",
    "add request validation",
    "optimize response time",
    "fix connection leak",
    "add monitoring dashboards",
    "refactor database access layer",
    "implement graceful shutdown",
    "add feature flags support",
    "fix concurrent access issues",
    "improve security headers"
  ]

  const DEVELOPERS: seq<string> := [
    "alice.chen",
    "bob.smith",
    "carol.jones",
    "david.kim",
    "emma.wilson",
    "frank.garcia",
    "grace.lee",
    "henry.brown"
  ]

  /** The alphabet commit hashes are drawn from. */
  const HEX_DIGITS: string := "0123456789abcdef"

  /** Indices into the tables: what a uniform choice from each of them draws. */
  type ServiceIndex = i: nat | i < |SERVICES|
  type TemplateIndex = i: nat | i < |LOG_MESSAGES|
  type CommitTypeIndex = i: nat | i < |COMMIT_TYPES|
  type CommitTextIndex = i: nat | i < |COMMIT_MESSAGES|
  type DeveloperIndex = i: nat | i < |DEVELOPERS|
  type HexIndex = i: nat | i < |HEX_DIGITS|

  predicate IsLowerHex(c: char) {
    '0' <= c <= '9' || 'a' <= c <= 'f'
  }

  lemma HexDigitsAreLowerHex(d: HexIndex)
    ensures IsLowerHex(HEX_DIGITS[d])
  {
  }

  lemma ServiceNamesArePlain(i: ServiceIndex)
    ensures '\n' !in SERVICES[i] && ']' !in SERVICES[i]
  {
  }

  lemma CommitTypesArePlain(t: CommitTypeIndex)
    ensures ':' !in COMMIT_TYPES[t] && '\n' !in COMMIT_TYPES[t]
  {
  }
}
