/** The request classifier: device, browser and operating system from the User-Agent,
    the traffic-source category from the referrer, and the click disposition from the
    User-Agent and the rate count. All of it is pure. */
module Classifier {
  import opened Wrappers
  import opened Signatures

  const MobileSignatures: seq<string> := ["Mobile", "Tablet", "iPad", "iPhone", "Android"]
  const TabletSignatures: seq<string> := ["Tablet", "iPad"]
  const BrowserSignatures: seq<string> := ["Chrome", "Safari", "Firefox", "Edge", "Opera", "MSIE"]
  const OsSignatures: seq<string> := ["Windows", "Mac OS", "Linux", "Android", "iOS"]
  const BotSignatures: seq<string> := ["bot", "crawl", "spider"]
  const SearchSignatures: seq<string> := ["google", "bing", "yahoo"]
  const SocialSignatures: seq<string> := ["facebook", "twitter", "instagram", "linkedin"]

  /** Above this pre-increment rate count a non-bot click is suspicious. */
  const SuspiciousAbove := 50

  datatype Device = Desktop | Mobile | Tablet

  datatype Agent = Agent(device: Device, browser: string, os: string)

  /** Traffic-source categories: "direct", "search", "social", "other". */
  datatype Source = Direct | Search | Social | Other

  /** Click dispositions: "good", "bad", "suspicious". */
  datatype ClickType = Good | Bad | Suspicious

  lemma OccursAnyOfTwo(s: string, alts: seq<string>)
    requires |alts| == 2
    ensures OccursAny(s, alts) <==> Occurs(s, alts[0]) || Occurs(s, alts[1])
  {
  }

  lemma {:induction false} OccursAnyOfMore(s: string, alts: seq<string>)
    requires |alts| >= 1
    ensures OccursAny(s, alts) <==> Occurs(s, alts[0]) || OccursAny(s, alts[1..])
  {
    if OccursAny(s, alts[1..]) {
      var j :| 0 <= j < |alts[1..]| && Occurs(s, alts[1..][j]);
      assert Occurs(s, alts[j + 1]);
    }
    if OccursAny(s, alts) && !Occurs(s, alts[0]) {
      var j :| 0 <= j < |alts| && Occurs(s, alts[j]);
      assert Occurs(s, alts[1..][j - 1]);
    }
  }

  /** The device line of `parseUserAgent`: any mobile signature makes it a phone or a
      tablet, and a tablet signature makes it a tablet. */
  function DeviceOf(ua: string): (d: Device)
    ensures d == Tablet <==> Occurs(ua, "Tablet") || Occurs(ua, "iPad")
    ensures d == Mobile <==>
      && (Occurs(ua, "Mobile") || Occurs(ua, "iPhone") || Occurs(ua, "Android"))
      && !Occurs(ua, "Tablet") && !Occurs(ua, "iPad")
    ensures d == Desktop <==>
      && !Occurs(ua, "Mobile") && !Occurs(ua, "Tablet") && !Occurs(ua, "iPad")
      && !Occurs(ua, "iPhone") && !Occurs(ua, "Android")
  {
    OccursAnyOfTwo(ua, TabletSignatures);
    var m := MobileSignatures;
    OccursAnyOfMore(ua, m);
    OccursAnyOfMore(ua, m[1..]);
    OccursAnyOfMore(ua, m[2..]);
    OccursAnyOfMore(ua, m[3..]);
    assert m[1..][1..][1..][1..] == ["Android"];
    OccursAnyOfMore(ua, m[4..]);
    assert m[4..][1..] == [];
    if Test(ua, MobileSignatures) then
      if Test(ua, TabletSignatures) then Tablet else Mobile
    else
      Desktop
  }

  /** `re.exec(ua)?.[0] || "Unknown"` for one of the signature lists, none of which starts
      with the letter u: the leftmost signature, as it is written in `ua`. */
  function SignatureOrUnknown(ua: string, alts: seq<string>): (r: string)
    requires forall j :: 0 <= j < |alts| ==> alts[j] != [] && Lower(alts[j][0]) != 'u'
    ensures r == "Unknown" <==> !OccursAny(ua, alts)
    ensures r != "Unknown" ==> LeftmostText(ua, alts, r)
  {
    match MatchedText(ua, alts)
    case None => "Unknown"
    case Some(t) =>
      // the match starts with its signature's first letter, which is not a u
      assert t != "Unknown" by {
        var i: nat, j: nat :| Leftmost(ua, alts, i, j) && t == ua[i..i + |alts[j]|];
        assert MatchesAt(ua, i, alts[j]) && t[0] == ua[i + 0];
      }
      t
  }

  /** The browser line of `parseUserAgent`: the browser signature that starts leftmost in
      the User-Agent (a tie at one position goes to the earlier-listed signature), as it
      is written there, or "Unknown". */
  function BrowserOf(ua: string): (r: string)
    ensures r == "Unknown" <==> !OccursAny(ua, BrowserSignatures)
    ensures r != "Unknown" ==> LeftmostText(ua, BrowserSignatures, r)
  {
    NoSignatureStartsWithU();
    SignatureOrUnknown(ua, BrowserSignatures)
  }

  /** The operating-system line of `parseUserAgent`, by the same rule. */
  function OsOf(ua: string): (r: string)
    ensures r == "Unknown" <==> !OccursAny(ua, OsSignatures)
    ensures r != "Unknown" ==> LeftmostText(ua, OsSignatures, r)
  {
    NoSignatureStartsWithU();
    SignatureOrUnknown(ua, OsSignatures)
  }

  /** `parseUserAgent`: the three lines above. */
  function ParseUserAgent(ua: string): Agent {
    Agent(DeviceOf(ua), BrowserOf(ua), OsOf(ua))
  }

  /** So the text "Unknown" never comes out of a match. */
  lemma NoSignatureStartsWithU()
    ensures forall j :: 0 <= j < |BrowserSignatures| ==>
      BrowserSignatures[j] != [] && Lower(BrowserSignatures[j][0]) != 'u'
    ensures forall j :: 0 <= j < |OsSignatures| ==>
      OsSignatures[j] != [] && Lower(OsSignatures[j][0]) != 'u'
  {
    var b, o := BrowserSignatures, OsSignatures;
    assert b[0][0] == 'C' && b[1][0] == 'S' && b[2][0] == 'F' && b[3][0] == 'E' && b[4][0] == 'O' && b[5][0] == 'M';
    assert o[0][0] == 'W' && o[1][0] == 'M' && o[2][0] == 'L' && o[3][0] == 'A' && o[4][0] == 'i';
  }

  /** `/bot|crawl|spider/i.test(ua)`. */
  function IsBot(ua: string): (b: bool)
    ensures b <==> Occurs(ua, "bot") || Occurs(ua, "crawl") || Occurs(ua, "spider")
  {
    var m := BotSignatures;
    OccursAnyOfMore(ua, m);
    OccursAnyOfTwo(ua, m[1..]);
    Test(ua, BotSignatures)
  }

  /** The disposition: bot detection wins over the rate count. */
  function ClickTypeOf(ua: string, rateCount: int): (t: ClickType)
    ensures (Occurs(ua, "bot") || Occurs(ua, "crawl") || Occurs(ua, "spider")) ==> t == Bad
    ensures !(Occurs(ua, "bot") || Occurs(ua, "crawl") || Occurs(ua, "spider")) ==>
      t == (if rateCount > SuspiciousAbove then Suspicious else Good)
  {
    if IsBot(ua) then Bad else if rateCount > SuspiciousAbove then Suspicious else Good
  }

  ghost predicate SearchHost(host: string) {
    Occurs(host, "google") || Occurs(host, "bing") || Occurs(host, "yahoo")
  }

  ghost predicate SocialHost(host: string) {
    Occurs(host, "facebook") || Occurs(host, "twitter") || Occurs(host, "instagram")
    || Occurs(host, "linkedin")
  }

  /** `detectSource`. `hostname` is the host name the URL parser gives a referrer, `None`
      when `new URL` throws: the source then has no category, it fails. */
  function DetectSource(referrer: string, hostname: string -> Option<string>): (r: Option<Source>)
    ensures r == Some(Direct) <==> referrer == "" || referrer == "Direct"
    ensures r.None? <==> referrer != "" && referrer != "Direct" && hostname(referrer).None?
    ensures r == Some(Search) <==>
      referrer != "" && referrer != "Direct" && hostname(referrer).Some?
      && SearchHost(hostname(referrer).value)
    ensures r == Some(Social) <==>
      referrer != "" && referrer != "Direct" && hostname(referrer).Some?
      && !SearchHost(hostname(referrer).value) && SocialHost(hostname(referrer).value)
    ensures r == Some(Other) <==>
      referrer != "" && referrer != "Direct" && hostname(referrer).Some?
      && !SearchHost(hostname(referrer).value) && !SocialHost(hostname(referrer).value)
  {
    if referrer == "" || referrer == "Direct" then Some(Direct)
    else
      match hostname(referrer)
      case None => None
      case Some(host) =>
        var se := SearchSignatures;
        OccursAnyOfMore(host, se);
        OccursAnyOfTwo(host, se[1..]);
        var so := SocialSignatures;
        OccursAnyOfMore(host, so);
        OccursAnyOfMore(host, so[1..]);
        OccursAnyOfTwo(host, so[2..]);
        if Test(host, SearchSignatures) then Some(Search)
        else if Test(host, SocialSignatures) then Some(Social)
        else Some(Other)
  }
}
