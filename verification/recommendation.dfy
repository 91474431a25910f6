/**
 * The texts of the recommendation stage: the feature sentence banded on the
 * support rate, the upgrade sentence banded on the engine version, and the
 * family-specific advice to switch browsers.
 */
module Recommendation {
  import opened Text
  import opened Browser

  /** The feature sentence for a support rate, in five tiers: the lead, the rate, then the outlook. */
  function FeatureSentence(rate: nat): string
  {
    FeatureLead(rate) + (Decimal(rate) + "%") + (" 的现代 Web 特性，" + FeatureOutlook(rate))
  }

  function FeatureLead(rate: nat): string
  {
    if rate <= 50 then "你的浏览器仅支持 " else "你的浏览器支持 "
  }

  function FeatureOutlook(rate: nat): string
  {
    if rate <= 50 then "大多数现代网站可能无法正常工作。"
    else if rate <= 70 then "许多新型网站可能会出现兼容性问题。"
    else if rate <= 85 then "大部分网站能正常使用，但可能缺少一些新功能。"
    else if rate < 95 then "能够流畅使用大多数网站。"
    else "能够流畅使用绝大多数网站。"
  }

  /** Every tier of the feature sentence names the rate as a percentage. */
  lemma FeatureSentenceNamesRate(rate: nat)
    ensures Contains(FeatureSentence(rate), Decimal(rate) + "%")
  {
    Occurs(FeatureLead(rate), Decimal(rate) + "%", " 的现代 Web 特性，" + FeatureOutlook(rate));
  }

  /** The upgrade sentence given for a distrusted version, naming the assumed 103. */
  const DisguisedAdvice: string :=
    "你的浏览器正在恶意伪装更高版本，实际使用的是严重过时的 Chromium 内核（估计为103），存在重大安全风险，强烈建议切换到原生 Chrome、Iridium 或 Firefox 浏览器。"

  /** The upgrade sentence given when no Chromium engine was found. */
  const NoChromiumAdvice: string := "你的浏览器未使用 Chromium 内核，建议保持更新以获得最佳性能和安全性。"

  /** The upgrade sentence for a version recorded as a number, in five tiers, naming `Chromium <v>`. */
  function VersionAdvice(v: nat): string
  {
    VersionLead(v) + ("Chromium " + Decimal(v)) + VersionTail(v)
  }

  function VersionLead(v: nat): string
  {
    if v <= 115 then "你的浏览器内核版本已严重过时（"
    else if v <= 122 then "你的浏览器内核版本有些落后（"
    else "你的浏览器内核版本（"
  }

  function VersionTail(v: nat): string
  {
    if v <= 115 then "），存在重大安全风险，强烈建议立即升级浏览器。"
    else if v <= 122 then "），建议升级到最新版本以获得更好的性能和安全保障。"
    else if v <= 130 then "）略有落后，建议适时更新。"
    else if v <= 132 then "）较新，但仍可更新以获得最佳的性能和安全保障。"
    else "）非常新，可以体验最前沿的网络技术。"
  }

  /** Every tier of the version advice names the version as `Chromium <v>`. */
  lemma VersionAdviceNamesVersion(v: nat)
    ensures Contains(VersionAdvice(v), "Chromium " + Decimal(v))
  {
    Occurs(VersionLead(v), "Chromium " + Decimal(v), VersionTail(v));
  }

  /** A text occurs in any string built around it. */
  lemma Occurs(pre: string, mid: string, post: string)
    ensures Contains(pre + mid + post, mid)
  {
    assert OccursAt(pre + mid + post, |pre|, mid);
  }

  /**
   * `upgradeSuggestion`: the fixed warning for a disguised version, the
   * banded advice for a numeric one, the generic advice without a Chromium
   * engine.
   */
  function UpgradeSentence(isChromeEngine: bool, chromeVersion: ChromeVersion): (s: string)
    ensures |s| > 0
  {
    if isChromeEngine then
      if chromeVersion.IsDisguisedText() then DisguisedAdvice
      else (DisguisedTextCarriesMarker(chromeVersion); VersionAdvice(chromeVersion.n))
    else NoChromiumAdvice
  }

  /** Which upgrade sentence is chosen, by what the version stage recorded. */
  lemma UpgradeSentenceCases(isChromeEngine: bool, chromeVersion: ChromeVersion)
    ensures !isChromeEngine ==> UpgradeSentence(isChromeEngine, chromeVersion) == NoChromiumAdvice
    ensures isChromeEngine && chromeVersion.Disguised? ==> UpgradeSentence(isChromeEngine, chromeVersion) == DisguisedAdvice
    ensures isChromeEngine && chromeVersion.Numeric? ==>
      UpgradeSentence(isChromeEngine, chromeVersion) == VersionAdvice(chromeVersion.n)
  {
    DisguisedTextCarriesMarker(chromeVersion);
  }

  /** Advice to leave a regional custom browser. */
  const RegionalSwitchAdvice: string :=
    "你正在使用国产定制浏览器，它们基于主流浏览器二次开发，往往充斥着各类广告和骚扰内容，且存在较大的隐私和安全风险。梨建议你切换到原生 Chrome、Iridium 或 Firefox 浏览器以获得更清爽、稳定和安全的体验。"

  /** Advice to leave an in-app browser. */
  const WebviewSwitchAdvice: string :=
    "你正在使用 App 内置浏览器，它们通常更新不及时、受到功能上的限制，且存在较大的隐私和安全风险。梨建议你使用原生 Chrome、Iridium 或 Firefox 浏览器以获得更稳定和安全的体验。"

  /** The new value of `switchSuggestion`, given the stored `browserType` and the value it had. */
  function SwitchSuggestion(browserType: string, previous: string): (s: string)
  {
    if browserType == Label(Regional) then RegionalSwitchAdvice
    else if browserType == Label(Webview) then WebviewSwitchAdvice
    else previous
  }

  /** Only the two penalised families get switch advice, each its own; every other family keeps the previous value. */
  lemma SwitchSuggestionByFamily(f: Family, previous: string)
    ensures f == Regional ==> SwitchSuggestion(Label(f), previous) == RegionalSwitchAdvice
    ensures f == Webview ==> SwitchSuggestion(Label(f), previous) == WebviewSwitchAdvice
    ensures f != Regional && f != Webview ==> SwitchSuggestion(Label(f), previous) == previous
  {
    LabelInjective(f, Regional);
    LabelInjective(f, Webview);
  }

  /** `recommendation`: the feature sentence, then a space and the upgrade sentence when that is not empty. */
  function Combine(featureSentence: string, upgradeSentence: string): string
  {
    if |upgradeSentence| > 0 then featureSentence + " " + upgradeSentence else featureSentence
  }

  /** The recommendation is the feature sentence, a space, then the upgrade sentence, which is never empty. */
  lemma CombineParts(rate: nat, isChromeEngine: bool, chromeVersion: ChromeVersion)
    ensures Combine(FeatureSentence(rate), UpgradeSentence(isChromeEngine, chromeVersion))
      == FeatureSentence(rate) + " " + UpgradeSentence(isChromeEngine, chromeVersion)
  {
  }
}
