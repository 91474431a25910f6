/**
 * The browser-information stage of the detector, as functions of the user
 * agent: the first-match family table and its penalty, the
 * `chrome/<digits>` token, the rule that distrusts high versions reported
 * by regional browsers and in-app webviews, and the version bands.
 */
module Browser {
  import opened Text

  datatype Option<T> = None | Some(value: T)

  /** The value `browserType` receives; `Label` gives the text `app.js` stores. */
  datatype Family = Regional | Webview | Firefox | Safari | Edge | Chromium | Opera | Unknown

  function Label(f: Family): string
  {
    match f
    case Regional => "国产浏览器"
    case Webview => "套壳浏览器"
    case Firefox => "Firefox"
    case Safari => "Safari"
    case Edge => "Edge"
    case Chromium => "Chromium"
    case Opera => "Opera"
    case Unknown => "未知浏览器"
  }

  /** Different families are stored as different texts, so comparing `browserType` with a label identifies the family. */
  lemma LabelInjective(f: Family, g: Family)
    ensures Label(f) == Label(g) <==> f == g
  {
  }

  /** Vendor markers of regional custom browsers. */
  const RegionalMarkers: seq<string> := ["HeyTap", "Quark", "baidu", "xweb", "miuibrowser", "mibrowser"]

  /** Markers of browsers embedded in another application. */
  const WebviewMarkers: seq<string> := ["WeChat", "MicroMessenger", "QQ", "xweb"]

  predicate IsRegional(ua: string)
  {
    ContainsAnyCI(ua, RegionalMarkers)
  }

  predicate IsWebview(ua: string)
  {
    ContainsAnyCI(ua, WebviewMarkers)
  }

  /** The family decision table, first match wins. */
  function Classify(ua: string): Family
  {
    if IsRegional(ua) then Regional
    else if IsWebview(ua) then Webview
    else if ContainsCI(ua, "firefox") then Firefox
    else if ContainsCI(ua, "safari") && !ContainsCI(ua, "chrome") then Safari
    else if ContainsCI(ua, "edge") then Edge
    else if ContainsCI(ua, "chrome") then Chromium
    else if ContainsCI(ua, "opera") || ContainsCI(ua, "opr") then Opera
    else Unknown
  }

  /**
   * Each family is chosen exactly when its own test passes and the tests of
   * every row above it fail.
   */
  lemma ClassificationTable(ua: string)
    ensures Classify(ua) == Regional <==> IsRegional(ua)
    ensures Classify(ua) == Webview <==> !IsRegional(ua) && IsWebview(ua)
    ensures Classify(ua) == Firefox <==> !IsRegional(ua) && !IsWebview(ua) && ContainsCI(ua, "firefox")
    ensures Classify(ua) == Safari <==>
      !IsRegional(ua) && !IsWebview(ua) && !ContainsCI(ua, "firefox") && ContainsCI(ua, "safari") && !ContainsCI(ua, "chrome")
    ensures Classify(ua) == Edge <==>
      !IsRegional(ua) && !IsWebview(ua) && !ContainsCI(ua, "firefox") && !(ContainsCI(ua, "safari") && !ContainsCI(ua, "chrome"))
      && ContainsCI(ua, "edge")
    ensures Classify(ua) == Chromium <==>
      !IsRegional(ua) && !IsWebview(ua) && !ContainsCI(ua, "firefox") && !ContainsCI(ua, "edge") && ContainsCI(ua, "chrome")
    ensures Classify(ua) == Opera <==>
      !IsRegional(ua) && !IsWebview(ua) && !ContainsCI(ua, "firefox") && !ContainsCI(ua, "safari") && !ContainsCI(ua, "edge")
      && !ContainsCI(ua, "chrome") && (ContainsCI(ua, "opera") || ContainsCI(ua, "opr"))
    ensures Classify(ua) == Unknown <==>
      !IsRegional(ua) && !IsWebview(ua) && !ContainsCI(ua, "firefox") && !ContainsCI(ua, "safari") && !ContainsCI(ua, "edge")
      && !ContainsCI(ua, "chrome") && !ContainsCI(ua, "opera") && !ContainsCI(ua, "opr")
  {
  }

  /** "xweb" is both a regional and a webview marker; the regional row wins. */
  lemma XwebIsRegional(ua: string)
    requires ContainsCI(ua, "xweb")
    ensures IsRegional(ua) && IsWebview(ua) && Classify(ua) == Regional
  {
    assert RegionalMarkers[3] == "xweb" && WebviewMarkers[3] == "xweb";
  }

  /** Points taken off for the family: only the two penalised families lose any. */
  function FamilyPenalty(f: Family): (p: nat)
    ensures p > 0 <==> f == Regional || f == Webview
  {
    match f
    case Regional => 30
    case Webview => 15
    case _ => 0
  }

  /** The literal part of `/chrome\/(\d+)/i`. */
  const TokenPrefix: string := "chrome/"

  /** `/chrome\/(\d+)/i` can start matching at `i`: the prefix, ignoring case, then at least one digit. */
  predicate TokenAt(ua: string, i: nat)
  {
    MatchesAtCI(ua, i, TokenPrefix) && i + |TokenPrefix| < |ua| && IsDigit(ua[i + |TokenPrefix|])
  }

  /** The leftmost index at or after `from` where the token starts. */
  function FindToken(ua: string, from: nat): (r: Option<nat>)
    requires from <= |ua|
    ensures r.Some? ==> from <= r.value && TokenAt(ua, r.value)
    ensures r.Some? ==> forall k :: from <= k < r.value ==> !TokenAt(ua, k)
    ensures r.None? ==> forall k :: from <= k ==> !TokenAt(ua, k)
    decreases |ua| - from
  {
    if from == |ua| then None
    else if TokenAt(ua, from) then Some(from)
    else FindToken(ua, from + 1)
  }

  /** Where `ua.match(/chrome\/(\d+)/i)` matched: the token's start and the end of its digit group. */
  datatype TokenMatch = TokenMatch(start: nat, digitsEnd: nat)

  /** `ua.match(/chrome\/(\d+)/i)`: the leftmost token, with the greedy digit run after it. */
  function ChromeMatch(ua: string): (m: Option<TokenMatch>)
    ensures m.None? <==> forall k :: 0 <= k ==> !TokenAt(ua, k)
    ensures m.Some? ==> LeftmostToken(ua, m.value.start)
    ensures m.Some? ==> MaximalDigitRun(ua, m.value.start + |TokenPrefix|, m.value.digitsEnd)
  {
    match FindToken(ua, 0)
    case None => None
    case Some(i) => Some(TokenMatch(i, DigitRunEnd(ua, i + |TokenPrefix|)))
  }

  /** `parseInt(chromeMatch[1], 10)`: the number the matched digit group writes. */
  function ReportedVersion(ua: string): (r: Option<nat>)
    ensures r.None? <==> forall k :: 0 <= k ==> !TokenAt(ua, k)
  {
    match ChromeMatch(ua)
    case None => None
    case Some(m) => Some(DigitsValue(ua[m.start + |TokenPrefix|..m.digitsEnd]))
  }

  /** The token starts at `i` and nowhere before. */
  ghost predicate LeftmostToken(ua: string, i: nat)
  {
    TokenAt(ua, i) && forall k :: 0 <= k < i ==> !TokenAt(ua, k)
  }

  /** `ua[b..e]` is a non-empty run of digits that a greedy `\d+` starting at `b` takes whole. */
  ghost predicate MaximalDigitRun(ua: string, b: nat, e: nat)
  {
    b < e <= |ua| && AllDigits(ua[b..e]) && (e < |ua| ==> !IsDigit(ua[e]))
  }

  /**
   * A user agent that carries `Chrome/<n>` written in decimal, with no token
   * before it and no digit right after it, reports exactly `n`.
   */
  lemma {:induction false} ReportedVersionOfToken(pre: string, n: nat, post: string)
    requires ChromeMatch(pre).None?
    requires post == [] || !IsDigit(post[0])
    ensures ReportedVersion(pre + "Chrome/" + Decimal(n) + post) == Some(n)
  {
    var d := Decimal(n);
    var ua := pre + "Chrome/" + d + post;
    var p := |pre|;
    var b := p + |TokenPrefix|;
    assert ua[p..b] == "Chrome/";
    assert ua[b..b + |d|] == d;
    assert MatchesAtCI(ua, p, TokenPrefix) by {
      forall k | 0 <= k < |TokenPrefix| ensures Lower(ua[p + k]) == Lower(TokenPrefix[k]) {
        assert ua[p + k] == "Chrome/"[k];
      }
    }
    assert ua[b] == d[0];
    assert TokenAt(ua, p);
    forall k | 0 <= k < p ensures !TokenAt(ua, k) {
      NoTokenBefore(pre, ua, k);
    }
    assert LeftmostToken(ua, p);
    var m := ChromeMatch(ua).value;
    assert m.start == p;
    var e := m.digitsEnd;
    assert MaximalDigitRun(ua, b, e);
    assert forall j :: b <= j < b + |d| ==> ua[j] == d[j - b];
    assert b + |d| < |ua| ==> ua[b + |d|] == post[0];
    assert e == b + |d|;
    assert ua[b..e] == d;
    DecimalRoundTrip(n);
  }

  /** A token cannot start inside `pre` when `pre` holds none and `Chrome/` follows it. */
  lemma NoTokenBefore(pre: string, ua: string, k: nat)
    requires ChromeMatch(pre).None?
    requires |ua| > |pre| && ua[..|pre|] == pre && ua[|pre|] == 'C'
    requires k < |pre|
    ensures !TokenAt(ua, k)
  {
    var p := |pre|;
    if k + |TokenPrefix| < p {
      forall j | k <= j <= k + |TokenPrefix| ensures ua[j] == pre[j] {
        assert ua[..p][j] == ua[j];
      }
      assert MatchesAtCI(ua, k, TokenPrefix) == MatchesAtCI(pre, k, TokenPrefix);
      assert !TokenAt(pre, k);
    } else if k + |TokenPrefix| > p {
      assert Lower(ua[p]) == 'c';
      assert Lower(TokenPrefix[p - k]) != 'c';
    } else {
      assert !IsDigit(ua[p]);
    }
  }

  /** The text `chromeVersion` holds after the stage: a number, or a string naming the reported and the assumed version. */
  datatype ChromeVersion = Numeric(n: nat) | Disguised(reported: nat, assumed: nat)
  {
    function Display(): string
    {
      match this
      case Numeric(n) => Decimal(n)
      case Disguised(reported, assumed) => "伪装成 " + Decimal(reported) + " 的 " + Decimal(assumed)
    }

    /** `typeof chromeVersion === 'string' && chromeVersion.includes('伪装')` */
    predicate IsDisguisedText()
    {
      Disguised? && Contains(Display(), "伪装")
    }
  }

  /** The string form always carries the marker the recommendation stage looks for. */
  lemma DisguisedTextCarriesMarker(cv: ChromeVersion)
    ensures cv.IsDisguisedText() <==> cv.Disguised?
  {
    if cv.Disguised? {
      assert OccursAt(cv.Display(), 0, "伪装");
    }
  }

  /** Versions above this one, reported by a regional browser or a webview, are distrusted. */
  const TrustedVersionLimit: nat := 110

  /** The version assumed for a distrusted report. */
  const AssumedVersion: nat := 103

  predicate IsUnreliable(ua: string, reported: nat)
  {
    (IsRegional(ua) || IsWebview(ua)) && reported > TrustedVersionLimit
  }

  /** The version the penalty is banded on. */
  function EffectiveVersion(ua: string, reported: nat): (v: nat)
    ensures v <= reported
  {
    if IsUnreliable(ua, reported) then AssumedVersion else reported
  }

  /** The value stored in `chromeVersion` once a token has been found. */
  function RecordedVersion(ua: string, reported: nat): (cv: ChromeVersion)
    ensures cv == Numeric(reported) || cv == Disguised(reported, AssumedVersion)
  {
    if IsUnreliable(ua, reported) then Disguised(reported, AssumedVersion) else Numeric(reported)
  }

  /**
   * The spoofing rule: a distrusted report is recorded as text naming both
   * numbers and banded as 103; any other report is recorded and banded as it is.
   */
  lemma SpoofRule(ua: string, reported: nat)
    ensures RecordedVersion(ua, reported).Disguised? <==> (IsRegional(ua) || IsWebview(ua)) && reported > 110
    ensures RecordedVersion(ua, reported).Disguised? ==>
      && RecordedVersion(ua, reported) == Disguised(reported, 103)
      && EffectiveVersion(ua, reported) == 103
      && VersionPenalty(EffectiveVersion(ua, reported)) == 40
    ensures RecordedVersion(ua, reported).Numeric? ==>
      RecordedVersion(ua, reported) == Numeric(reported) && EffectiveVersion(ua, reported) == reported
    ensures !(IsRegional(ua) || IsWebview(ua)) ==> RecordedVersion(ua, reported) == Numeric(reported)
  {
  }

  /** Points taken off for the engine version, tried in the order of `app.js`. */
  function VersionPenalty(v: nat): (p: nat)
    ensures p <= 50
  {
    if 131 <= v <= 132 then 10
    else if 126 <= v <= 130 then 15
    else if 121 <= v <= 125 then 20
    else if 111 <= v <= 120 then 30
    else if 101 <= v <= 110 then 40
    else if v <= 100 then 50
    else 0
  }

  /** The bands cover every version and a newer engine never loses more points. */
  lemma VersionPenaltyAntitone(v: nat, w: nat)
    requires v <= w
    ensures VersionPenalty(w) <= VersionPenalty(v)
    ensures VersionPenalty(v) in {0, 10, 15, 20, 30, 40, 50}
    ensures VersionPenalty(v) == 0 <==> v > 132
  {
  }

  /** Everything the browser stage takes off the score before clamping. */
  function BrowserPenalty(ua: string): (p: nat)
    ensures p <= 80
    ensures ReportedVersion(ua).None? ==> p == FamilyPenalty(Classify(ua))
  {
    FamilyPenalty(Classify(ua)) +
      match ReportedVersion(ua)
      case None => 0
      case Some(reported) => VersionPenalty(EffectiveVersion(ua, reported))
  }

  /**
   * A distrusted report is banded as 103 whatever number it carries, so the
   * browser stage takes off 30 + 40 points from a regional browser and
   * 15 + 40 from a webview.
   */
  lemma DistrustedPenalty(ua: string)
    requires ReportedVersion(ua).Some? && IsUnreliable(ua, ReportedVersion(ua).value)
    ensures BrowserPenalty(ua) == (if IsRegional(ua) then 70 else 55)
  {
  }

  /** The score never goes below 0. */
  function ClampAtZero(score: int): (r: int)
    ensures r >= 0 && r >= score
    ensures score >= 0 ==> r == score
  {
    if score < 0 then 0 else score
  }
}
