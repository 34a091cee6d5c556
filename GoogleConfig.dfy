/**
 * The Google sign-in client id: the build-time value when one is set, the
 * placeholder otherwise, and the test for whether a real id is configured.
 */
module GoogleConfig {
  import opened Options

  const Placeholder := "YOUR_GOOGLE_CLIENT_ID"

  /** The configured client id; `env` is the build-time setting, absent when not set. */
  function ClientId(env: Option<string>): (id: string)
    ensures env.None? ==> id == Placeholder
    ensures env.Some? ==> id == env.value
  {
    env.GetOr(Placeholder)
  }

  /** A real client id: not the placeholder and longer than 20 characters. */
  predicate IsConfigured(id: string) {
    id != Placeholder && |id| > 20
  }

  /** Without a build-time id the app reports Google sign-in as not configured. */
  lemma DefaultNotConfigured()
    ensures !IsConfigured(ClientId(None))
  {
  }

  /**
   * The placeholder is 21 characters long, so the length test alone would
   * accept it: only the inequality excludes it.
   */
  lemma PlaceholderPassesLengthTest()
    ensures |Placeholder| == 21 && |Placeholder| > 20
    ensures !IsConfigured(Placeholder)
  {
  }

  /** An id of at most 20 characters is never taken as configured. */
  lemma ShortIdNotConfigured(id: string)
    requires |id| <= 20
    ensures !IsConfigured(id)
  {
  }

  /** Any id other than the placeholder is configured exactly when it is longer than 20 characters. */
  lemma ConfiguredIff(env: Option<string>)
    ensures IsConfigured(ClientId(env)) <==> env.Some? && env.value != Placeholder && |env.value| > 20
  {
  }
}
