/**
 * The pure decisions of the page: which platform a URL belongs to, the label
 * and badge shown for it, and how a service status string is classified.
 */
module Platforms {
  import opened Wrappers
  import opened Strings

  datatype Platform = YouTube | TikTok | Facebook | Instagram | Twitter | Spotify | Other

  /**
   * `detectPlatform`. `host` is the hostname `new URL(url)` yields, or `None`
   * when that constructor throws. The lower-cased hostname is tested against
   * each row in order and the first match wins.
   */
  function Detect(host: Option<string>): (p: Platform)
    ensures host == None ==> p == Other
  {
    match host
    case None => Other
    case Some(hostname) =>
      var h := Lower(hostname);
      if Contains(h, "youtube.com") || Contains(h, "youtu.be") then YouTube
      else if Contains(h, "tiktok.com") then TikTok
      else if Contains(h, "facebook.com") || Contains(h, "fb.watch") then Facebook
      else if Contains(h, "x.com") || Contains(h, "twitter.com") then Twitter
      else if Contains(h, "instagram.com") then Instagram
      else if Contains(h, "open.spotify.com") then Spotify
      else Other
  }

  /** One row of the classification table: a platform and the fragments that select it. */
  datatype Rule = Rule(platform: Platform, fragments: seq<string>)

  /** The classification table in the order the tests are made. */
  const Rules: seq<Rule> := [
    Rule(YouTube, ["youtube.com", "youtu.be"]),
    Rule(TikTok, ["tiktok.com"]),
    Rule(Facebook, ["facebook.com", "fb.watch"]),
    Rule(Twitter, ["x.com", "twitter.com"]),
    Rule(Instagram, ["instagram.com"]),
    Rule(Spotify, ["open.spotify.com"])
  ]

  /** Some fragment of the list occurs in `h`. */
  function AnyFragment(h: string, fragments: seq<string>): bool
    decreases |fragments|
  {
    fragments != [] && (Contains(h, fragments[0]) || AnyFragment(h, fragments[1..]))
  }

  /** A table read first-match-wins, with `Other` when no row matches. */
  function FirstMatch(rules: seq<Rule>, h: string): Platform
    decreases |rules|
  {
    if rules == [] then Other
    else if AnyFragment(h, rules[0].fragments) then rules[0].platform
    else FirstMatch(rules[1..], h)
  }

  /** The first row that matches decides the platform. */
  lemma {:induction false} FirstMatchWins(rules: seq<Rule>, h: string, k: nat)
    requires k < |rules|
    requires AnyFragment(h, rules[k].fragments)
    requires forall j :: 0 <= j < k ==> !AnyFragment(h, rules[j].fragments)
    ensures FirstMatch(rules, h) == rules[k].platform
    decreases k
  {
    if k > 0 {
      assert !AnyFragment(h, rules[0].fragments);
      FirstMatchWins(rules[1..], h, k - 1);
    }
  }

  /** With no matching row the platform is `Other`. */
  lemma {:induction false} NoMatchIsOther(rules: seq<Rule>, h: string)
    requires forall j :: 0 <= j < |rules| ==> !AnyFragment(h, rules[j].fragments)
    ensures FirstMatch(rules, h) == Other
    decreases |rules|
  {
    if rules != [] {
      assert !AnyFragment(h, rules[0].fragments);
      NoMatchIsOther(rules[1..], h);
    }
  }

  /** `detectPlatform` is the first-match reading of the table on the lower-cased hostname. */
  lemma DetectIsFirstMatch(host: string)
    ensures Detect(Some(host)) == FirstMatch(Rules, Lower(host))
  {
    var h := Lower(host);
    assert AnyFragment(h, ["youtube.com", "youtu.be"]) == (Contains(h, "youtube.com") || Contains(h, "youtu.be"));
    assert AnyFragment(h, ["facebook.com", "fb.watch"]) == (Contains(h, "facebook.com") || Contains(h, "fb.watch"));
    assert AnyFragment(h, ["x.com", "twitter.com"]) == (Contains(h, "x.com") || Contains(h, "twitter.com"));
    assert Rules[1..][1..][1..][1..][1..][1..] == [];
  }

  /** A host that contains `tiktok.com` in any letter case, and no YouTube fragment, is TikTok. */
  lemma TikTokInAnyCase(host: string, w: string)
    requires Contains(host, w) && Lower(w) == "tiktok.com"
    requires !Contains(Lower(host), "youtube.com") && !Contains(Lower(host), "youtu.be")
    ensures Detect(Some(host)) == TikTok
  {
    ContainsLower(host, w);
  }

  /** A host holding both a YouTube and a TikTok fragment is YouTube: the earlier row wins. */
  lemma YouTubeBeforeTikTok(host: string)
    requires Contains(Lower(host), "youtube.com") && Contains(Lower(host), "tiktok.com")
    ensures Detect(Some(host)) == YouTube
  {
  }

  /**
   * The Twitter row matches on the bare fragment `x.com`, so any hostname
   * ending in `x.com` (`www.netflix.com`, `dropbox.com`) is classified as
   * Twitter unless an earlier row matched.
   */
  lemma NetflixIsTwitter(h: string)
    requires h == "www.netflix.com"
    ensures Detect(Some(h)) == Twitter
  {
    NetflixIsLowerCase(h);
    NetflixLacksEarlierFragments(h);
    NetflixHasX(h);
    TwitterAfterEarlierRows(h);
  }

  lemma NetflixIsLowerCase(h: string)
    requires h == "www.netflix.com"
    ensures Lower(h) == h
  {
    LowerOfLowerCase(h);
  }

  lemma NetflixLacksEarlierFragments(h: string)
    requires h == "www.netflix.com"
    ensures !Contains(h, "youtube.com") && !Contains(h, "youtu.be") && !Contains(h, "tiktok.com")
    ensures !Contains(h, "facebook.com") && !Contains(h, "fb.watch")
  {
    MissingCharNotContained(h, "youtube.com", 'y');
    MissingCharNotContained(h, "youtu.be", 'y');
    MissingCharNotContained(h, "tiktok.com", 'k');
    MissingCharNotContained(h, "facebook.com", 'a');
    MissingCharNotContained(h, "fb.watch", 'a');
  }

  lemma NetflixHasX(h: string)
    requires h == "www.netflix.com"
    ensures Contains(h, "x.com")
  {
    assert h[10..15] == "x.com";
    OccursAtContains(h, "x.com", 10);
  }

  /** The Twitter row decides when it matches and no earlier row does. */
  lemma TwitterAfterEarlierRows(host: string)
    requires var h := Lower(host);
      && !Contains(h, "youtube.com") && !Contains(h, "youtu.be") && !Contains(h, "tiktok.com")
      && !Contains(h, "facebook.com") && !Contains(h, "fb.watch") && Contains(h, "x.com")
    ensures Detect(Some(host)) == Twitter
  {
  }

  /** `prettyPlatform`. */
  function Pretty(p: Platform): string {
    match p
    case YouTube => "YouTube"
    case TikTok => "TikTok"
    case Facebook => "Facebook"
    case Instagram => "Instagram"
    case Twitter => "X/Twitter"
    case Spotify => "Spotify"
    case Other => "Other"
  }

  /** Every platform has its own label. */
  lemma PrettyInjective(p: Platform, q: Platform)
    requires Pretty(p) == Pretty(q)
    ensures p == q
  {
  }

  /** The platform badge: shown, with the platform's label, for every platform but `Other`. */
  function Badge(p: Platform): (b: Option<string>)
    ensures b.Some? <==> p != Other
    ensures b.Some? ==> b.value == Pretty(p)
  {
    if p != Other then Some(Pretty(p)) else None
  }

  datatype ServiceState = Online | Maintenance | Offline

  /** The three flags the status list computes from a status string. */
  datatype StatusFlags = StatusFlags(isOnline: bool, isMaintenance: bool, isOffline: bool)

  function Flags(status: string): StatusFlags {
    var st := Lower(status);
    var isOnline := st in ["run", "online", "up"];
    var isMaintenance := Contains(st, "maintenance");
    StatusFlags(isOnline, isMaintenance, !isOnline && !isMaintenance)
  }

  /** The state the list renders: red when offline, amber when in maintenance, the brand colour otherwise. */
  function Classify(status: string): ServiceState {
    var f := Flags(status);
    if f.isOffline then Offline else if f.isMaintenance then Maintenance else Online
  }

  /** Exactly one flag holds, and the rendered state is the one whose flag holds. */
  lemma ExactlyOneFlag(status: string)
    ensures var f := Flags(status);
      && (f.isOnline || f.isMaintenance || f.isOffline)
      && !(f.isOnline && f.isMaintenance)
      && !(f.isOnline && f.isOffline)
      && !(f.isMaintenance && f.isOffline)
    ensures Classify(status) == Online <==> Flags(status).isOnline
    ensures Classify(status) == Maintenance <==> Flags(status).isMaintenance
    ensures Classify(status) == Offline <==> Flags(status).isOffline
  {
    var st := Lower(status);
    if st in ["run", "online", "up"] {
      ShorterNeverContains(st, "maintenance");
    }
  }

  /** One entry of the status list. */
  datatype Service = Service(key: Platform, name: string, status: string)

  /** The status list as the page declares it. */
  const Services: seq<Service> := [
    Service(Facebook, "Facebook Reels", "online"),
    Service(TikTok, "TikTok Video", "online"),
    Service(Instagram, "Instagram Reels", "online"),
    Service(Twitter, "X/Twitter Video/Photo", "under maintenance"),
    Service(Spotify, "Spotify Music", "online"),
    Service(YouTube, "YouTube Video", "online")
  ]

  /** The declared status `online` is classified online. */
  lemma OnlineIsOnline(st: string)
    requires st == "online"
    ensures Classify(st) == Online
  {
    assert Lower(st) == st by { LowerOfLowerCase(st); }
  }

  /** The declared status `under maintenance` is classified in maintenance. */
  lemma UnderMaintenance(st: string)
    requires st == "under maintenance"
    ensures Classify(st) == Maintenance
  {
    assert Lower(st) == st by { LowerOfLowerCase(st); }
    assert st[6..17] == "maintenance";
    OccursAtContains(st, "maintenance", 6);
  }

  /** As declared, the list shows X/Twitter in maintenance and every other service online. */
  lemma ServiceBoard()
    ensures forall i :: 0 <= i < |Services| ==>
      Classify(Services[i].status) == (if Services[i].key == Twitter then Maintenance else Online)
  {
    OnlineIsOnline("online");
    UnderMaintenance("under maintenance");
  }
}
