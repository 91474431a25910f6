/**
 * The detector's reactive state and the three stages that update it in
 * place, in the order the page runs them, with the fallback taken when a
 * probe throws.
 */
module Detector {
  import opened Text
  import opened Features
  import opened Browser
  import opened Recommendation

  /** The score every run starts from. */
  const InitialScore: int := 100

  /** The score shown when detection fails. */
  const FallbackScore: int := 50

  /** The recommendation shown when detection fails. */
  const ErrorRecommendation: string := "检测过程中发生错误，请刷新页面重试。"

  /** What the page shows once detection has finished. */
  datatype Report = Report(
    userAgent: string,
    score: int,
    browserType: string,
    isChromeEngine: bool,
    chromeVersion: ChromeVersion,
    results: seq<FeatureResult>,
    recommendation: string,
    switchSuggestion: string)

  /** The `ref`s of the page's setup, one field each. */
  class Detector {
    var userAgent: string
    var browserType: string
    var isChromeEngine: bool
    var chromeVersion: ChromeVersion
    var totalScore: int
    var detectionResults: array<FeatureResult>
    var recommendation: string
    var switchSuggestion: string

    /** The initial values of the `ref`s. */
    constructor ()
      ensures userAgent == "" && browserType == "" && !isChromeEngine && chromeVersion == Numeric(0)
      ensures totalScore == InitialScore && fresh(detectionResults) && detectionResults.Length == 0
      ensures recommendation == "" && switchSuggestion == ""
    {
      userAgent := "";
      browserType := "";
      isChromeEngine := false;
      chromeVersion := Numeric(0);
      totalScore := InitialScore;
      detectionResults := new FeatureResult[0];
      recommendation := "";
      switchSuggestion := "";
    }

    /**
     * `checkModernFeatures`: runs every probe in order, taking 3 points off
     * for each one that is not supported, then stores the records and sorts
     * them in place. A probe that throws aborts the stage: the points already
     * taken stay taken and `detectionResults` is not replaced.
     */
    method CheckModernFeatures(features: seq<Feature>, collate: (string, string) -> int) returns (threw: bool)
      requires ConsistentCollation(collate)
      modifies this
      ensures threw <==> !AllReturn(features)
      ensures !threw ==> fresh(detectionResults) && detectionResults.Length == |features|
      ensures !threw ==> multiset(detectionResults[..]) == multiset(Results(features))
      ensures !threw ==> SortedBy(detectionResults[..], collate)
      ensures !threw ==> totalScore == old(totalScore) - ProbePenalty(Results(features))
      ensures threw ==> detectionResults == old(detectionResults)
      ensures threw ==>
        totalScore == old(totalScore) - ProbePenalty(Results(features[..FirstThrow(features)]))
      ensures userAgent == old(userAgent) && browserType == old(browserType)
      ensures isChromeEngine == old(isChromeEngine) && chromeVersion == old(chromeVersion)
      ensures recommendation == old(recommendation) && switchSuggestion == old(switchSuggestion)
    {
      var mapped;
      mapped, threw := RunProbes(features);
      if !threw {
        detectionResults := mapped;
        SortResults(detectionResults, collate);
      }
    }

    /**
     * The `map` of `checkModernFeatures`: runs the probes in order into a new
     * array, taking 3 points off for each unsupported one, and stops at the
     * first probe that throws.
     */
    method RunProbes(features: seq<Feature>) returns (mapped: array<FeatureResult>, threw: bool)
      modifies this`totalScore
      ensures fresh(mapped) && mapped.Length == |features|
      ensures threw <==> !AllReturn(features)
      ensures !threw ==> mapped[..] == Results(features)
      ensures !threw ==> totalScore == old(totalScore) - ProbePenalty(Results(features))
      ensures threw ==>
        totalScore == old(totalScore) - ProbePenalty(Results(features[..FirstThrow(features)]))
    {
      mapped := new FeatureResult[|features|];
      var i := 0;
      while i < |features|
        invariant 0 <= i <= |features|
        invariant AllReturn(features[..i])
        invariant mapped[..i] == Results(features[..i])
        invariant totalScore == old(totalScore) - ProbePenalty(mapped[..i])
      {
        var feature := features[i];
        if feature.probe.Throws? {
          assert FirstThrow(features) == i by {
            assert features[..i + 1] == features[..i] + [feature];
          }
          return mapped, true;
        }
        var supported := feature.probe.value;
        if !supported {
          totalScore := totalScore - MissingFeaturePenalty;
        }
        ProbePenaltyAppend(mapped[..i], FeatureResult(feature.name, supported));
        mapped[i] := FeatureResult(feature.name, supported);
        assert mapped[..i + 1] == mapped[..i] + [mapped[i]];
        assert features[..i + 1] == features[..i] + [feature];
        i := i + 1;
      }
      assert features[..i] == features && mapped[..i] == mapped[..];
      return mapped, false;
    }

    /**
     * `detectBrowserInfo`: stores the user agent, classifies it and takes off
     * the family penalty, reads the `chrome/<digits>` token and takes off the
     * version penalty, clamps the score at 0, then generates the recommendation.
     */
    method DetectBrowserInfo(ua: string)
      modifies this
      ensures userAgent == ua
      ensures browserType == Label(Classify(ua))
      ensures isChromeEngine == (ReportedVersion(ua).Some? || old(isChromeEngine))
      ensures chromeVersion == match ReportedVersion(ua)
        case None => old(chromeVersion)
        case Some(reported) => RecordedVersion(ua, reported)
      ensures totalScore == ClampAtZero(old(totalScore) - BrowserPenalty(ua))
      ensures detectionResults == old(detectionResults)
      ensures recommendation ==
        Combine(FeatureSentence(SupportRate(detectionResults[..])), UpgradeSentence(isChromeEngine, chromeVersion))
      ensures switchSuggestion == SwitchSuggestion(browserType, old(switchSuggestion))
    {
      userAgent := ua;
      ApplyBrowserPenalties(ua);
      GenerateRecommendation();
    }

    /** The scoring rows of `detectBrowserInfo`: family, then version, then the clamp at 0. */
    method ApplyBrowserPenalties(ua: string)
      modifies this`browserType, this`isChromeEngine, this`chromeVersion, this`totalScore
      ensures browserType == Label(Classify(ua))
      ensures isChromeEngine == (ReportedVersion(ua).Some? || old(isChromeEngine))
      ensures chromeVersion == match ReportedVersion(ua)
        case None => old(chromeVersion)
        case Some(reported) => RecordedVersion(ua, reported)
      ensures totalScore == ClampAtZero(old(totalScore) - BrowserPenalty(ua))
    {
      var isChinaBrowser := IsRegional(ua);
      var isWebView := IsWebview(ua);
      ApplyFamily(ua, isChinaBrowser, isWebView);
      ApplyChromeVersion(ua, isChinaBrowser, isWebView);
      if totalScore < 0 {
        totalScore := 0;
      }
    }

    /** The family rows of `detectBrowserInfo`: sets `browserType`, takes off 30 or 15 points for the two penalised families. */
    method ApplyFamily(ua: string, isChinaBrowser: bool, isWebView: bool)
      requires isChinaBrowser == IsRegional(ua) && isWebView == IsWebview(ua)
      modifies this`browserType, this`totalScore
      ensures browserType == Label(Classify(ua))
      ensures totalScore == old(totalScore) - FamilyPenalty(Classify(ua))
      ensures detectionResults == old(detectionResults)
    {
      if isChinaBrowser {
        browserType := Label(Regional);
        totalScore := totalScore - 30;
      } else if isWebView {
        browserType := Label(Webview);
        totalScore := totalScore - 15;
      } else if ContainsCI(ua, "firefox") {
        browserType := Label(Firefox);
      } else if ContainsCI(ua, "safari") && !ContainsCI(ua, "chrome") {
        browserType := Label(Safari);
      } else if ContainsCI(ua, "edge") {
        browserType := Label(Edge);
      } else if ContainsCI(ua, "chrome") {
        browserType := Label(Chromium);
      } else if ContainsCI(ua, "opera") || ContainsCI(ua, "opr") {
        browserType := Label(Opera);
      } else {
        browserType := Label(Unknown);
      }
    }

    /**
     * The version rows of `detectBrowserInfo`: when the token is present, marks
     * the engine, records the reported or the disguised version and takes off
     * the banded penalty of the effective version; otherwise changes nothing.
     */
    method ApplyChromeVersion(ua: string, isChinaBrowser: bool, isWebView: bool)
      requires isChinaBrowser == IsRegional(ua) && isWebView == IsWebview(ua)
      modifies this`isChromeEngine, this`chromeVersion, this`totalScore
      ensures ReportedVersion(ua).None? ==>
        isChromeEngine == old(isChromeEngine) && chromeVersion == old(chromeVersion) && totalScore == old(totalScore)
      ensures ReportedVersion(ua).Some? ==>
        && isChromeEngine
        && chromeVersion == RecordedVersion(ua, ReportedVersion(ua).value)
        && totalScore == old(totalScore) - VersionPenalty(EffectiveVersion(ua, ReportedVersion(ua).value))
      ensures detectionResults == old(detectionResults)
    {
      var chromeMatch := ChromeMatch(ua);
      if chromeMatch.Some? {
        isChromeEngine := true;
        var m := chromeMatch.value;
        var reportedVersion := DigitsValue(ua[m.start + |TokenPrefix|..m.digitsEnd]);
        var isUnreliableVersion := (isChinaBrowser || isWebView) && reportedVersion > TrustedVersionLimit;
        var realVersion := if isUnreliableVersion then AssumedVersion else reportedVersion;
        if isUnreliableVersion {
          chromeVersion := Disguised(reportedVersion, realVersion);
        } else {
          chromeVersion := Numeric(realVersion);
        }
        var version := if isUnreliableVersion then AssumedVersion else reportedVersion;
        if 131 <= version <= 132 {
          totalScore := totalScore - 10;
        } else if 126 <= version <= 130 {
          totalScore := totalScore - 15;
        } else if 121 <= version <= 125 {
          totalScore := totalScore - 20;
        } else if 111 <= version <= 120 {
          totalScore := totalScore - 30;
        } else if 101 <= version <= 110 {
          totalScore := totalScore - 40;
        } else if version <= 100 {
          totalScore := totalScore - 50;
        }
      }
    }

    /**
     * `generateRecommendation`: the feature sentence from the support rate,
     * a space and the upgrade sentence; the switch advice is set only for the
     * two penalised families and otherwise left as it was.
     */
    method GenerateRecommendation()
      modifies this`recommendation, this`switchSuggestion
      ensures recommendation ==
        Combine(FeatureSentence(SupportRate(detectionResults[..])), UpgradeSentence(isChromeEngine, chromeVersion))
      ensures switchSuggestion == SwitchSuggestion(browserType, old(switchSuggestion))
      ensures detectionResults == old(detectionResults)
    {
      var upgradeSuggestion := "";
      var featureSuggestion := "";

      if isChromeEngine {
        if chromeVersion.IsDisguisedText() {
          upgradeSuggestion := DisguisedAdvice;
        } else {
          DisguisedTextCarriesMarker(chromeVersion);
          upgradeSuggestion := VersionAdvice(chromeVersion.n);
        }
      } else {
        upgradeSuggestion := NoChromiumAdvice;
      }

      if browserType == Label(Regional) {
        switchSuggestion := RegionalSwitchAdvice;
      } else if browserType == Label(Webview) {
        switchSuggestion := WebviewSwitchAdvice;
      }

      var supportRate := SupportRate(detectionResults[..]);
      featureSuggestion := FeatureSentence(supportRate);

      recommendation := featureSuggestion;
      if |upgradeSuggestion| > 0 {
        recommendation := recommendation + " " + upgradeSuggestion;
      }
    }

    /**
     * The detection run of `onMounted`: the feature stage, then the browser
     * stage; when a probe throws, the score becomes 50 and the
     * recommendation the error text, and nothing else is updated.
     */
    method Mount(features: seq<Feature>, ua: string, collate: (string, string) -> int)
      requires ConsistentCollation(collate)
      modifies this
      ensures AllReturn(features) ==> fresh(detectionResults) && detectionResults.Length == |features|
      ensures AllReturn(features) ==>
        && multiset(detectionResults[..]) == multiset(Results(features))
        && SortedBy(detectionResults[..], collate)
      ensures AllReturn(features) ==>
        totalScore == ClampAtZero(old(totalScore) - ProbePenalty(Results(features)) - BrowserPenalty(ua))
      ensures AllReturn(features) ==>
        && userAgent == ua
        && browserType == Label(Classify(ua))
        && isChromeEngine == (ReportedVersion(ua).Some? || old(isChromeEngine))
        && chromeVersion == (match ReportedVersion(ua)
                             case None => old(chromeVersion)
                             case Some(reported) => RecordedVersion(ua, reported))
        && recommendation ==
             Combine(FeatureSentence(SupportRate(Results(features))), UpgradeSentence(isChromeEngine, chromeVersion))
        && switchSuggestion == SwitchSuggestion(browserType, old(switchSuggestion))
      ensures !AllReturn(features) ==>
        && totalScore == FallbackScore
        && recommendation == ErrorRecommendation
        && detectionResults == old(detectionResults)
        && userAgent == old(userAgent) && browserType == old(browserType)
        && isChromeEngine == old(isChromeEngine) && chromeVersion == old(chromeVersion)
        && switchSuggestion == old(switchSuggestion)
    {
      var threw := CheckModernFeatures(features, collate);
      if !threw {
        DetectBrowserInfo(ua);
        CountsPermutation(detectionResults[..], Results(features));
      } else {
        totalScore := FallbackScore;
        recommendation := ErrorRecommendation;
      }
    }
  }

  /**
   * A whole page visit: fresh state, one detection run, and what the page
   * then shows.
   */
  method Run(features: seq<Feature>, ua: string, collate: (string, string) -> int) returns (report: Report)
    requires ConsistentCollation(collate)
    ensures 0 <= report.score <= InitialScore
    ensures AllReturn(features) ==>
      report.score == ClampAtZero(InitialScore - ProbePenalty(Results(features)) - BrowserPenalty(ua))
    ensures AllReturn(features) ==>
      && |report.results| == |features|
      && multiset(report.results) == multiset(Results(features))
      && SortedBy(report.results, collate)
    ensures AllReturn(features) ==>
      && report.userAgent == ua
      && report.browserType == Label(Classify(ua))
      && report.isChromeEngine == ReportedVersion(ua).Some?
      && report.chromeVersion == (match ReportedVersion(ua)
                                  case None => Numeric(0)
                                  case Some(reported) => RecordedVersion(ua, reported))
    ensures AllReturn(features) ==>
      report.recommendation ==
        FeatureSentence(SupportRate(Results(features))) + " " + UpgradeSentence(report.isChromeEngine, report.chromeVersion)
    ensures AllReturn(features) ==>
      report.switchSuggestion ==
        match Classify(ua)
        case Regional => RegionalSwitchAdvice
        case Webview => WebviewSwitchAdvice
        case _ => ""
    ensures !AllReturn(features) ==>
      && report.score == FallbackScore
      && report.recommendation == ErrorRecommendation
      && report.userAgent == "" && report.results == [] && report.browserType == ""
      && !report.isChromeEngine && report.chromeVersion == Numeric(0) && report.switchSuggestion == ""
  {
    var d := new Detector();
    d.Mount(features, ua, collate);
    if AllReturn(features) {
      SwitchSuggestionByFamily(Classify(ua), "");
    }
    report := Report(d.userAgent, d.totalScore, d.browserType, d.isChromeEngine, d.chromeVersion,
                     d.detectionResults[..], d.recommendation, d.switchSuggestion);
  }
}
