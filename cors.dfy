/** The CORS origin policy of the API: the list of allowed origins built at
    start-up from `FRONTEND_URL` and `NODE_ENV`, and the per-request origin
    check. Environment variables are inputs (`None` when unset). */
module Cors {
  import opened Js
  import opened JsString

  const LocalOrigins: seq<string> := ["http://localhost:3000", "http://localhost:3001"]
  const DeployedOrigin: string := "https://edu-verse-frontend-silk.vercel.app"
  const Production: string := "production"

  /** Each piece trimmed, in order. */
  function TrimAll(pieces: seq<string>): (r: seq<string>)
    ensures |r| == |pieces|
    ensures forall i :: 0 <= i < |pieces| ==> r[i] == Trim(pieces[i])
  {
    if pieces == [] then [] else [Trim(pieces[0])] + TrimAll(pieces[1..])
  }

  /** The origins named by `FRONTEND_URL` (a comma-separated list, each entry
      trimmed), or the two local development origins when it is unset or
      empty. */
  function ConfiguredOrigins(frontendUrl: Option<string>): (r: seq<string>)
    ensures !Truthy(frontendUrl) ==> r == LocalOrigins
    ensures Truthy(frontendUrl) ==> r == TrimAll(Split(frontendUrl.value, ','))
    ensures |r| >= 1
  {
    if Truthy(frontendUrl) then TrimAll(Split(frontendUrl.value, ',')) else LocalOrigins
  }

  /** An origin as it can be written in the list: no comma, nothing to trim. */
  predicate ListableOrigin(o: string)
  {
    ',' !in o && Trim(o) == o
  }

  lemma TrimAllListable(origins: seq<string>)
    requires forall i :: 0 <= i < |origins| ==> Trim(origins[i]) == origins[i]
    ensures TrimAll(origins) == origins
  {
  }

  /** Configuring a text that splits into already-trimmed pieces gives
      those pieces. */
  lemma ConfiguredOfSplit(text: string, origins: seq<string>)
    requires text != "" && Split(text, ',') == origins
    requires forall i :: 0 <= i < |origins| ==> Trim(origins[i]) == origins[i]
    ensures ConfiguredOrigins(Some(text)) == origins
  {
    TrimAllListable(origins);
  }

  /** Writing a list of origins into `FRONTEND_URL`, comma-joined, configures
      exactly that list. */
  lemma ConfiguredFromJoined(origins: seq<string>, text: string)
    requires |origins| >= 1
    requires forall i :: 0 <= i < |origins| ==> ListableOrigin(origins[i])
    requires text == Join(origins, ',') && text != ""
    ensures ConfiguredOrigins(Some(text)) == origins
  {
    SplitJoin(origins, ',');
    ConfiguredOfSplit(text, origins);
  }

  /** The start-up list: the configured origins, and in production the
      deployed front end appended when it is not already there. */
  method AllowedOrigins(frontendUrl: Option<string>, nodeEnv: Option<string>) returns (allowed: seq<string>)
    ensures ConfiguredOrigins(frontendUrl) <= allowed
    ensures nodeEnv != Some(Production) ==> allowed == ConfiguredOrigins(frontendUrl)
    ensures nodeEnv == Some(Production) ==> DeployedOrigin in allowed
    ensures DeployedOrigin in ConfiguredOrigins(frontendUrl) ==> allowed == ConfiguredOrigins(frontendUrl)
    ensures multiset(allowed)[DeployedOrigin] ==
              if nodeEnv == Some(Production) && DeployedOrigin !in ConfiguredOrigins(frontendUrl) then 1
              else multiset(ConfiguredOrigins(frontendUrl))[DeployedOrigin]
    ensures forall o :: o != DeployedOrigin ==> multiset(allowed)[o] == multiset(ConfiguredOrigins(frontendUrl))[o]
  {
    allowed := ConfiguredOrigins(frontendUrl);
    if nodeEnv == Some(Production) && DeployedOrigin !in allowed {
      allowed := allowed + [DeployedOrigin];
    }
  }

  /** The `origin` callback: requests without an origin, from an allowed
      origin, or outside production are let through. */
  function OriginAllowed(origin: Option<string>, allowed: seq<string>, nodeEnv: Option<string>): (ok: bool)
    ensures nodeEnv != Some(Production) ==> ok
    ensures !Truthy(origin) ==> ok
    ensures nodeEnv == Some(Production) && Truthy(origin) ==> (ok <==> origin.value in allowed)
  {
    !Truthy(origin) || origin.value in allowed || nodeEnv != Some(Production)
  }
}
