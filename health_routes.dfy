/** The decision rules of the HTTP layer in `src/routes/health.js`: the status
    code of the detailed and readiness endpoints, the `app_health_status`
    gauge, and the webhook-configuration endpoint. */
module HealthRoutes {
  import opened Wrappers
  import opened Health

  const DiscordWebhookPrefix := "https://discord.com/api/webhooks/"

  /** `GET /health/detailed`: 200 for "healthy" and "degraded", 503 otherwise. */
  function DetailedStatusCode(status: string): (code: int)
    ensures code == 200 || code == 503
    ensures code == 200 <==> status == "healthy" || status == "degraded"
  {
    if status == "healthy" then 200 else if status == "degraded" then 200 else 503
  }

  /** `GET /ready`: 200 iff ready, 503 otherwise. */
  function ReadinessStatusCode(status: string): (code: int)
    ensures code == 200 || code == 503
    ensures code == 200 <==> status == "ready"
  {
    if status == "ready" then 200 else 503
  }

  /** The value of the `app_health_status` gauge of `GET /metrics`. */
  function HealthGauge(status: string): (value: int)
    ensures value == 0 || value == 1
    ensures value == 1 <==> status == "healthy"
  {
    if status == "healthy" then 1 else 0
  }

  /** The detailed endpoint answers 503 exactly when some critical check is
      unhealthy; non-critical failures alone still give 200. */
  lemma DetailedCodeTracksCriticalFailures(reports: seq<Report>, system: Fields)
    ensures DetailedStatusCode(Summarize(reports, true, system).status) == 503 <==>
            Summarize(reports, true, system).checks.criticalFailures > 0
    ensures DetailedStatusCode(Summarize(reports, true, system).status) == 503 <==> HasCriticalFailure(reports)
  {
    OverallStatus(reports);
    CriticalFailuresExist(reports);
  }

  /** The gauge is 1 exactly when no report at all is unhealthy, so a degraded
      system reports 0. */
  lemma GaugeTracksAnyFailure(reports: seq<Report>, system: Fields)
    ensures HealthGauge(Summarize(reports, false, system).status) == 1 <==>
            forall i :: 0 <= i < |reports| ==> !Unhealthy(reports[i])
    ensures Summarize(reports, false, system).status == "degraded" ==> HealthGauge(Summarize(reports, false, system).status) == 0
  {
    OverallStatus(reports);
  }

  /** The readiness endpoint answers 503 exactly when some critical check is
      unhealthy, that is exactly when the detailed endpoint does. */
  lemma ReadinessCodeAgreesWithDetailed(defs: seq<CheckDefinition>, outcomes: string -> RaceOutcome, system: Fields)
    ensures ReadinessStatusCode(ReadinessOf(defs, outcomes).status) ==
            DetailedStatusCode(Summarize(RunChecks(defs, outcomes), true, system).status)
  {
    ReadinessAgreesWithHealth(defs, outcomes);
    OverallStatus(RunChecks(defs, outcomes));
  }

  /** `POST /config/webhook` accepts a present, non-empty URL that starts with
      the Discord webhook prefix. */
  predicate AcceptsWebhookUrl(url: Option<string>)
    ensures AcceptsWebhookUrl(url) ==> url.Some? && |url.value| >= |DiscordWebhookPrefix|
                                       && url.value[..|DiscordWebhookPrefix|] == DiscordWebhookPrefix
    ensures url.Some? && DiscordWebhookPrefix <= url.value ==> AcceptsWebhookUrl(url)
  {
    url.Some? && url.value != "" && DiscordWebhookPrefix <= url.value
  }

  /** A URL the endpoint accepts is one `sendAlert` posts to; a missing URL is
      neither accepted nor posted to. */
  lemma AcceptedWebhookIsPosted(url: Option<string>)
    ensures AcceptsWebhookUrl(url) ==> PostsAlert(url)
    ensures url.None? ==> !AcceptsWebhookUrl(url) && !PostsAlert(url)
  {
  }

  /** The process environment that holds the alert webhook. */
  class Environment {
    var discordWebhookUrl: Option<string>

    constructor (discordWebhookUrl: Option<string>)
      ensures this.discordWebhookUrl == discordWebhookUrl
    {
      this.discordWebhookUrl := discordWebhookUrl;
    }

    /** Validates `url`; an accepted URL replaces the stored webhook and is
        answered 200, a rejected one leaves it unchanged and is answered 400. */
    method ConfigureWebhook(url: Option<string>) returns (code: int)
      modifies this
      ensures code == (if AcceptsWebhookUrl(url) then 200 else 400)
      ensures discordWebhookUrl == (if AcceptsWebhookUrl(url) then url else old(discordWebhookUrl))
      ensures code == 200 ==> PostsAlert(discordWebhookUrl)
    {
      if url.None? || url.value == "" || !(DiscordWebhookPrefix <= url.value) {
        return 400;
      }
      discordWebhookUrl := url;
      code := 200;
    }
  }
}
