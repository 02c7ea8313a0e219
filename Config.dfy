/** The service's configuration defaults, as literals (environment overrides
    are not modelled). */
module Config {

  /** Minutes a cache entry stays valid. */
  const CACHE_TIME: nat := 5
  /** Page size requested from the upstream API. */
  const PAGE_SIZE: nat := 51
  /** Character budget for a challenge's requirements text. */
  const DESC_TRUNC_LENGTH: nat := 500
  const API_HOST: string := "http://api.topcoder.com"

  /** Query parameters the endpoint accepts; all others are dropped. */
  const queryParamsSupported: seq<string> :=
    ["type", "track", "contestType", "list", "challengeType", "platforms", "technologies"]
  /** Allowed values of `type` ("all" is deliberately not among them). */
  const validTracks: seq<string> := ["design", "develop", "data"]
  /** Allowed values of `list`. */
  const validLists: seq<string> := ["open", "active", "past", "upcoming"]
}
