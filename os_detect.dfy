/** Operating-system detection from the browser's navigator, and the store
    links that depend on it. Pattern tests are substring tests; `/…/i`
    patterns fold ASCII case. */
module OsDetect {
  import opened JsCore

  datatype Os = IOS | Android | Mac | Windows | Linux | Unknown

  datatype Navigator = Navigator(userAgent: string, platform: string)

  /** Which navigator string a rule looks at. */
  datatype Field = UserAgentField | PlatformField

  /** One classification rule: the OS it yields, its alternatives, the string
      it tests and whether the test ignores case. */
  datatype Rule = Rule(os: Os, tokens: seq<string>, field: Field, ignoreCase: bool)

  /** The detection rules in priority order. */
  const Rules: seq<Rule> := [
    Rule(IOS, ["iPad", "iPhone", "iPod"], UserAgentField, false),
    Rule(Android, ["android"], UserAgentField, true),
    Rule(Mac, ["Mac"], PlatformField, false),
    Rule(Windows, ["Win"], PlatformField, false),
    Rule(Linux, ["Linux"], PlatformField, false)
  ]

  function FieldOf(nav: Navigator, f: Field): string {
    match f
    case UserAgentField => nav.userAgent
    case PlatformField => nav.platform
  }

  /** Some alternative of the pattern occurs in s. */
  predicate AnyToken(s: string, tokens: seq<string>, ignoreCase: bool)
    decreases |tokens|
  {
    tokens != [] &&
    ((if ignoreCase then IncludesIgnoreCase(s, tokens[0]) else Includes(s, tokens[0])) ||
     AnyToken(s, tokens[1..], ignoreCase))
  }

  predicate RuleMatches(r: Rule, nav: Navigator) {
    AnyToken(FieldOf(nav, r.field), r.tokens, r.ignoreCase)
  }

  /** The reference classifier: the first rule that matches decides. */
  function FirstMatch(rules: seq<Rule>, nav: Navigator): Os
    decreases |rules|
  {
    if rules == [] then Unknown
    else if RuleMatches(rules[0], nav) then rules[0].os
    else FirstMatch(rules[1..], nav)
  }

  /** `detectOS()`; `nav` is None when there is no `window`. The source's chain
      of tests is the rule table read top to bottom. */
  function DetectOS(nav: Option<Navigator>): (os: Os)
    ensures nav.None? ==> os == Unknown
    ensures nav.Some? ==> os == FirstMatch(Rules, nav.value)
  {
    if nav.None? then Unknown
    else
      var ua := nav.value.userAgent;
      var platform := nav.value.platform;
      if Includes(ua, "iPad") || Includes(ua, "iPhone") || Includes(ua, "iPod") then IOS
      else if IncludesIgnoreCase(ua, "android") then Android
      else if Includes(platform, "Mac") then Mac
      else if Includes(platform, "Win") then Windows
      else if Includes(platform, "Linux") then Linux
      else Unknown
  }

  /** iOS and Android are decided by the user agent alone: the platform
      string cannot change either answer. */
  lemma MobileDecidedByUserAgent(ua: string, p1: string, p2: string)
    requires DetectOS(Some(Navigator(ua, p1))) in {IOS, Android}
    ensures DetectOS(Some(Navigator(ua, p2))) == DetectOS(Some(Navigator(ua, p1)))
  {
  }

  /** Once the user agent names no mobile OS, only the platform decides. */
  lemma DesktopDecidedByPlatform(ua1: string, ua2: string, platform: string)
    requires DetectOS(Some(Navigator(ua1, platform))) !in {IOS, Android}
    requires DetectOS(Some(Navigator(ua2, platform))) !in {IOS, Android}
    ensures DetectOS(Some(Navigator(ua1, platform))) == DetectOS(Some(Navigator(ua2, platform)))
  {
  }

  /** A pattern alternative found at position i of the list makes the list match. */
  lemma {:induction false} AnyTokenAt(s: string, tokens: seq<string>, ignoreCase: bool, i: nat)
    requires i < |tokens|
    requires if ignoreCase then IncludesIgnoreCase(s, tokens[i]) else Includes(s, tokens[i])
    ensures AnyToken(s, tokens, ignoreCase)
    decreases i
  {
    if i > 0 {
      AnyTokenAt(s, tokens[1..], ignoreCase, i - 1);
    }
  }

  lemma LowerAndroid()
    ensures Lower("ANDROID") == "android" && Lower("Android") == "android" && Lower("android") == "android"
  {
  }

  /** The Android test ignores case. */
  lemma ExampleUpperCaseAndroid()
    ensures DetectOS(Some(Navigator("ANDROID", ""))) == Android
  {
    var ua := "ANDROID";
    IncludesNoFirstChar(ua, "iPad");
    IncludesNoFirstChar(ua, "iPhone");
    IncludesNoFirstChar(ua, "iPod");
    LowerAndroid();
    IncludesPrefix("android", "android");
  }

  /** The iPhone test does not ignore case; with an empty platform the result is Unknown. */
  lemma ExampleUpperCaseIPhone()
    ensures DetectOS(Some(Navigator("IPHONE", ""))) == Unknown
  {
    var ua := "IPHONE";
    IncludesNoFirstChar(ua, "iPad");
    IncludesNoFirstChar(ua, "iPhone");
    IncludesNoFirstChar(ua, "iPod");
    assert Lower(ua) == "iphone";
    IncludesNoFirstChar("iphone", "android");
    IncludesNoFirstChar("", "Mac");
    IncludesNoFirstChar("", "Win");
    IncludesNoFirstChar("", "Linux");
  }

  /** The platform tests do not ignore case. */
  lemma ExampleLowerCaseMac()
    ensures DetectOS(Some(Navigator("", "mac"))) == Unknown
  {
    IncludesNoFirstChar("", "iPad");
    IncludesNoFirstChar("", "iPhone");
    IncludesNoFirstChar("", "iPod");
    IncludesNoFirstChar("", Lower("android"));
    IncludesNoFirstChar("mac", "Mac");
    IncludesNoFirstChar("mac", "Win");
    IncludesNoFirstChar("mac", "Linux");
  }

  /** A platform naming both Mac and Win is Mac: the Mac test comes first. */
  lemma ExampleMacBeforeWindows()
    ensures DetectOS(Some(Navigator("", "MacWin"))) == Mac
  {
    IncludesNoFirstChar("", "iPad");
    IncludesNoFirstChar("", "iPhone");
    IncludesNoFirstChar("", "iPod");
    IncludesNoFirstChar("", Lower("android"));
    IncludesPrefix("MacWin", "Mac");
  }

  /** The user agent outranks the platform. */
  lemma ExampleIPhoneOnWindows()
    ensures DetectOS(Some(Navigator("iPhone", "Win32"))) == IOS
  {
    IncludesPrefix("iPhone", "iPhone");
  }

  /** The user-agent alternatives `isMobile` looks for, case-insensitively. */
  const MobileTokens: seq<string> :=
    ["Android", "webOS", "iPhone", "iPad", "iPod", "BlackBerry", "IEMobile", "Opera Mini"]

  /** `isMobile()`: one case-insensitive test of the alternatives against the
      user agent; always false without a `window`. */
  predicate IsMobile(nav: Option<Navigator>) {
    nav.Some? && AnyToken(nav.value.userAgent, MobileTokens, true)
  }

  /** A pattern of alternatives matches exactly when one of its alternatives occurs. */
  lemma {:induction false} AnyTokenExists(s: string, tokens: seq<string>, ignoreCase: bool)
    ensures AnyToken(s, tokens, ignoreCase) <==>
              exists i :: 0 <= i < |tokens| &&
                (if ignoreCase then IncludesIgnoreCase(s, tokens[i]) else Includes(s, tokens[i]))
    decreases |tokens|
  {
    if tokens != [] {
      AnyTokenExists(s, tokens[1..], ignoreCase);
      if AnyToken(s, tokens[1..], ignoreCase) {
        var i :| 0 <= i < |tokens[1..]| &&
          (if ignoreCase then IncludesIgnoreCase(s, tokens[1..][i]) else Includes(s, tokens[1..][i]));
        assert tokens[1..][i] == tokens[i + 1];
      }
      if exists i :: 0 <= i < |tokens| &&
           (if ignoreCase then IncludesIgnoreCase(s, tokens[i]) else Includes(s, tokens[i])) {
        var i :| 0 <= i < |tokens| &&
          (if ignoreCase then IncludesIgnoreCase(s, tokens[i]) else Includes(s, tokens[i]));
        if i > 0 {
          assert tokens[1..][i - 1] == tokens[i];
        }
      }
    }
  }

  /** isMobile is true exactly when there is a window and its user agent
      contains one of the listed tokens, ignoring case. */
  lemma IsMobileIff(nav: Option<Navigator>)
    ensures IsMobile(nav) <==>
              nav.Some? && exists i :: 0 <= i < |MobileTokens| && IncludesIgnoreCase(nav.value.userAgent, MobileTokens[i])
  {
    if nav.Some? {
      AnyTokenExists(nav.value.userAgent, MobileTokens, true);
    }
  }

  /** Whatever detectOS reports as iOS or Android, isMobile reports as mobile. */
  lemma {:induction false} DetectedMobileIsMobile(nav: Navigator)
    requires DetectOS(Some(nav)) == IOS || DetectOS(Some(nav)) == Android
    ensures IsMobile(Some(nav))
  {
    var ua := nav.userAgent;
    assert Includes(ua, "iPad") || Includes(ua, "iPhone") || Includes(ua, "iPod") ||
           IncludesIgnoreCase(ua, "android");
    MobileFromTokens(ua);
  }

  lemma MobileFromTokens(ua: string)
    requires Includes(ua, "iPad") || Includes(ua, "iPhone") || Includes(ua, "iPod") ||
             IncludesIgnoreCase(ua, "android")
    ensures AnyToken(ua, MobileTokens, true)
  {
    var i: nat;
    if Includes(ua, "iPad") {
      IgnoreCaseOfExact(ua, "iPad");
      i := 3;
    } else if Includes(ua, "iPhone") {
      IgnoreCaseOfExact(ua, "iPhone");
      i := 2;
    } else if Includes(ua, "iPod") {
      IgnoreCaseOfExact(ua, "iPod");
      i := 4;
    } else {
      LowerAndroid();
      i := 0;
    }
    assert IncludesIgnoreCase(ua, MobileTokens[i]);
    AnyTokenAt(ua, MobileTokens, true, i);
  }

  const AppStoreUrl := "https://apps.apple.com/app/idXXXXXXXXX"
  const PlayStoreUrl := "https://play.google.com/store/apps/details?id=com.buli.app"

  /** The store-link table, keyed by OS name, with its `default` entry. */
  const Links: map<string, string> := map["iOS" := AppStoreUrl, "Android" := PlayStoreUrl, "default" := AppStoreUrl]

  function OsName(os: Os): string {
    match os
    case IOS => "iOS"
    case Android => "Android"
    case Mac => "Mac"
    case Windows => "Windows"
    case Linux => "Linux"
    case Unknown => "Unknown"
  }

  /** `getAppStoreLink(os)`: Android gets the Play Store, every other OS the
      App Store (the default entry is the App Store link). */
  function GetAppStoreLink(os: Os): (url: string)
    ensures os == Android ==> url == PlayStoreUrl
    ensures os != Android ==> url == AppStoreUrl
    ensures url == AppStoreUrl || url == PlayStoreUrl
  {
    assert "iOS"[0] != "Android"[0] && "iOS"[0] != "default"[0] && "Android"[0] != "default"[0];
    if os == IOS || os == Android then Links[OsName(os)] else Links["default"]
  }

  const DeepLink := "buli://"

  /** `getDeepLink()`: the app's URL scheme, whatever the device. */
  function GetDeepLink(): (url: string)
    ensures url == "buli://"
  {
    DeepLink
  }
}
