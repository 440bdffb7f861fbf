/**
 * The scoring-provider decision of `scoreWithProvider`, up to the network
 * call: either an immediate reply, or the request that would be posted.
 */
module Provider {
  import opened Wrappers
  import opened Strings
  import opened Settings
  import opened Percent
  import Sorting

  /**
   * `inferProviderHint(s)`: Azure when both its key and region are set,
   * otherwise Speechace when its key is set, otherwise "auto".
   */
  function InferProviderHint(s: Settings): (hint: string)
    ensures hint == "azure" <==> s.azureKey != "" && s.azureRegion != ""
    ensures hint == "speechace" <==> !(s.azureKey != "" && s.azureRegion != "") && s.speechaceKey != ""
    ensures hint == "auto" <==> !(s.azureKey != "" && s.azureRegion != "") && s.speechaceKey == ""
  {
    if s.azureKey != "" && s.azureRegion != "" then "azure"
    else if s.speechaceKey != "" then "speechace"
    else "auto"
  }

  /** After the "clear keys" button no provider is preferred. */
  lemma HintAfterClearKeys(s: Settings)
    ensures InferProviderHint(ClearCredentials(s)) == "auto"
  {
  }

  /** `url.replace(/\/$/, "")`: one trailing slash is removed, if present. */
  function StripTrailingSlash(url: string): (r: string)
    ensures StartsWith(url, r)
    ensures |url| - 1 <= |r| <= |url|
    ensures |r| < |url| <==> EndsWith(url, "/")
  {
    if url != [] && url[|url| - 1] == '/' then url[..|url| - 1] else url
  }

  /** The scoring endpoint: the proxy URL without one trailing slash, then `/score`. */
  function ScoreEndpoint(proxyUrl: string): (url: string)
    ensures EndsWith(url, "/score")
    ensures EndsWith(proxyUrl, "/") ==> url == proxyUrl[..|proxyUrl| - 1] + "/score"
    ensures !EndsWith(proxyUrl, "/") ==> url == proxyUrl + "/score"
  {
    StripTrailingSlash(proxyUrl) + "/score"
  }

  /** A base with or without its trailing slash gives the same endpoint, and only one slash is removed. */
  lemma EndpointTrailingSlash(base: string)
    requires !EndsWith(base, "/")
    ensures ScoreEndpoint(base + "/") == ScoreEndpoint(base) == base + "/score"
    ensures ScoreEndpoint(base + "//") == base + "//score"
  {
    assert (base + "/")[..|base|] == base;
    assert (base + "//")[..|base| + 1] == base + "/";
    assert base + "/" + "/score" == base + "//score";
  }

  /** A field of the multipart body. */
  datatype FormField = Text(name: string, value: string) | AudioFile(filename: string)

  /** What the scoring screens receive back. */
  datatype ScoreResult =
    | Scored(provider: string, overallScore: Option<JsNumber>, note: string)
    | Error(message: string)

  /** The outcome before any network traffic: a reply at once, or a POST to make. */
  datatype ScoreStep = Reply(result: ScoreResult) | Post(url: string, form: seq<FormField>)

  const NoProviderNote: string := "Aucun provider de scoring configur\U{E9}. Utilise la r\U{E9}\U{E9}coute + conseils."
  const MissingProxyError: string := "Proxy URL manquante (Param\U{E8}tres \U{2192} Proxy URL)."
  const UnknownProviderError: string := "Provider inconnu."

  /** `x || fallback` on strings: the empty string is falsy. */
  function Or(x: string, fallback: string): string {
    if x != "" then x else fallback
  }

  /** The three credentials `scoreWithProvider` may forward, in the order it appends them. */
  function Credentials(s: Settings): seq<FormField> {
    [Text("azureKey", s.azureKey), Text("azureRegion", s.azureRegion), Text("speechaceKey", s.speechaceKey)]
  }

  /** A text field with a non-empty (truthy) value. */
  function IsSet(): FormField -> bool {
    (f: FormField) => f.Text? && f.value != ""
  }

  /** The credentials forwarded to the proxy: only those that are set, in this order. */
  function ForwardedKeys(s: Settings): (fields: seq<FormField>)
    ensures forall f :: f in fields ==> f in Credentials(s)
    ensures forall f :: f in fields ==> f.Text? && f.value != ""
    ensures Text("azureKey", s.azureKey) in fields <==> s.azureKey != ""
    ensures Text("azureRegion", s.azureRegion) in fields <==> s.azureRegion != ""
    ensures Text("speechaceKey", s.speechaceKey) in fields <==> s.speechaceKey != ""
    ensures |fields| <= 3
  {
    (if s.azureKey != "" then [Text("azureKey", s.azureKey)] else [])
    + (if s.azureRegion != "" then [Text("azureRegion", s.azureRegion)] else [])
    + (if s.speechaceKey != "" then [Text("speechaceKey", s.speechaceKey)] else [])
  }

  /** The forwarded fields are exactly the set credentials, in the order they are appended. */
  lemma ForwardedKeysInOrder(s: Settings)
    ensures ForwardedKeys(s) == Sorting.Filter(Credentials(s), IsSet())
  {
    var c, p := Credentials(s), IsSet();
    assert c[1..][1..][1..] == [];
    assert Sorting.Filter(c[1..][1..], p) == (if p(c[2]) then [c[2]] else []) + Sorting.Filter(c[1..][1..][1..], p);
    assert Sorting.Filter(c[1..], p) == (if p(c[1]) then [c[1]] else []) + Sorting.Filter(c[1..][1..], p);
  }

  /**
   * `scoreWithProvider({audioBlob, referenceText, mode, soundId})` with the
   * settings `s` it loads: provider "none" replies at once with no score and
   * makes no request; "proxy" without a URL is an error before any request;
   * "proxy" with a URL posts to the scoring endpoint; any other provider is
   * an error. Missing arguments are passed as `""`.
   */
  function ScoreWithProvider(s: Settings, referenceText: string, mode: string, soundId: string): (step: ScoreStep)
    ensures s.provider == "none" ==> step == Reply(Scored("none", None, NoProviderNote))
    ensures step.Post? <==> s.provider == "proxy" && s.proxyUrl != ""
    ensures s.provider == "proxy" && s.proxyUrl == "" ==> step == Reply(Error(MissingProxyError))
    ensures s.provider != "none" && s.provider != "proxy" ==> step == Reply(Error(UnknownProviderError))
    ensures step.Post? ==>
              && step.url == ScoreEndpoint(s.proxyUrl)
              && |step.form| >= 5
              && step.form[..5] == [Text("mode", Or(mode, "practice")), Text("referenceText", referenceText),
                                     Text("soundId", soundId), Text("providerHint", InferProviderHint(s)),
                                     AudioFile("audio.webm")]
              && step.form[5..] == ForwardedKeys(s)
  {
    if s.provider == "none" then
      Reply(Scored("none", None, NoProviderNote))
    else if s.provider == "proxy" then
      if s.proxyUrl == "" then Reply(Error(MissingProxyError))
      else
        var form := [Text("mode", Or(mode, "practice")), Text("referenceText", Or(referenceText, "")),
                     Text("soundId", Or(soundId, "")), Text("providerHint", InferProviderHint(s)),
                     AudioFile("audio.webm")] + ForwardedKeys(s);
        Post(ScoreEndpoint(s.proxyUrl), form)
    else
      Reply(Error(UnknownProviderError))
  }

  /** With the stored defaults nothing is requested and no score is given. */
  lemma DefaultsMakeNoRequest(item: StoredItem, referenceText: string, mode: string, soundId: string)
    requires !item.Parsed?
    ensures var step := ScoreWithProvider(LoadSettings(item), referenceText, mode, soundId);
            step.Reply? && step.result.Scored? && step.result.overallScore.None?
  {
  }
}
