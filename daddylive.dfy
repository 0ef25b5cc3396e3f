/** The scraping IPTV server (daddylive_secure_server.py): two scrapers
    that turn page elements into channel records, the `generate_m3u`
    playlist writer, and one cycle of the refresh loop that feeds the
    first into the second. The pages themselves are abstract inputs: the
    elements the HTML selectors would return, or the fact that fetching
    the page raised. */
module DaddyLive {
  import opened Text
  import M3u

  datatype Option<T> = None | Some(value: T) {
    function GetOr(default: T): T {
      match this
      case Some(v) => v
      case None => default
    }
  }

  /** The outcome of `requests.get` followed by the page's selector: the
      exception raised before any element was seen, or the selected
      elements in document order. */
  datatype Download<T> = Unreachable | Page(elements: seq<T>)

  datatype Channel = Channel(name: string, url: string, group: string, logo: string)

  // ---------------------------------------------------------------------
  // DaddyLive (USA) scraper

  /** An `a.stream-link` element: its text and its `href`, if it has one. */
  datatype StreamLink = StreamLink(text: string, href: Option<string>)

  const DaddyLiveGroup := "USA (DaddyLive)"

  /** The keep/drop rule for one link. */
  function LinkChannel(link: StreamLink): Option<Channel> {
    var name := Strip(link.text);
    match link.href
    case Some(url) => if url != "" && name != "" then Some(Channel(name, url, DaddyLiveGroup, "")) else None
    case None => None
  }

  /** A link is dropped exactly when its text is blank or its href is
      missing or empty; a kept link gives its stripped text as name and
      its href as url, in the DaddyLive group with no logo. */
  lemma LinkChannelRule(link: StreamLink)
    ensures LinkChannel(link).None? <==> AllSpace(link.text) || link.href == None || link.href == Some("")
    ensures var r := LinkChannel(link);
      r.Some? ==> r.value == Channel(Strip(link.text), link.href.value, DaddyLiveGroup, "")
                  && r.value.name != "" && r.value.url != ""
  {
    StripEnds(link.text);
  }

  /** The channels the links yield, in link order. */
  function KeptChannels(links: seq<StreamLink>): (chs: seq<Channel>)
    ensures |chs| <= |links|
  {
    if links == [] then []
    else
      match LinkChannel(links[0])
      case Some(c) => [c] + KeptChannels(links[1..])
      case None => KeptChannels(links[1..])
  }

  lemma {:induction false} KeptChannelsAppend(a: seq<StreamLink>, b: seq<StreamLink>)
    ensures KeptChannels(a + b) == KeptChannels(a) + KeptChannels(b)
  {
    if a == [] {
      assert a + b == b;
    } else {
      assert (a + b)[1..] == a[1..] + b;
      KeptChannelsAppend(a[1..], b);
    }
  }

  /** A channel is in the result exactly when some link yields it: no
      kept link is lost and nothing else appears. */
  lemma {:induction false} KeptChannelsMembers(links: seq<StreamLink>, c: Channel)
    ensures c in KeptChannels(links) <==> exists k :: 0 <= k < |links| && LinkChannel(links[k]) == Some(c)
  {
    if links != [] {
      KeptChannelsMembers(links[1..], c);
      if c in KeptChannels(links[1..]) {
        var k :| 0 <= k < |links[1..]| && LinkChannel(links[1..][k]) == Some(c);
        assert LinkChannel(links[k + 1]) == Some(c);
      }
      if exists k :: 0 <= k < |links| && LinkChannel(links[k]) == Some(c) {
        var k :| 0 <= k < |links| && LinkChannel(links[k]) == Some(c);
        if k > 0 {
          assert LinkChannel(links[1..][k - 1]) == Some(c);
        }
      }
    }
  }

  /** Every kept channel has a non-empty name and url, the DaddyLive
      group and no logo. */
  lemma KeptChannelsFields(links: seq<StreamLink>)
    ensures forall c :: c in KeptChannels(links) ==>
      c.name != "" && c.url != "" && c.group == DaddyLiveGroup && c.logo == ""
  {
    forall c | c in KeptChannels(links)
      ensures c.name != "" && c.url != "" && c.group == DaddyLiveGroup && c.logo == ""
    {
      KeptChannelsMembers(links, c);
      var k :| 0 <= k < |links| && LinkChannel(links[k]) == Some(c);
      LinkChannelRule(links[k]);
    }
  }

  /** One step of the walk: the link at i contributes its channel, if
      any, ahead of the rest. */
  lemma KeptChannelsFrom(links: seq<StreamLink>, i: nat)
    requires i < |links|
    ensures KeptChannels(links[i..]) == match LinkChannel(links[i])
      case Some(c) => [c] + KeptChannels(links[i + 1..])
      case None => KeptChannels(links[i + 1..])
  {
    assert links[i..][0] == links[i] && links[i..][1..] == links[i + 1..];
  }

  function DaddyLiveChannels(page: Download<StreamLink>): seq<Channel> {
    match page
    case Unreachable => []
    case Page(links) => KeptChannels(links)
  }

  /** scrape_daddylive: walk the links, appending each one the rule keeps. */
  method ScrapeDaddyLive(page: Download<StreamLink>) returns (channels: seq<Channel>)
    ensures channels == DaddyLiveChannels(page)
  {
    channels := [];
    if page.Unreachable? {
      return;
    }
    var links := page.elements;
    for i := 0 to |links|
      invariant channels + KeptChannels(links[i..]) == KeptChannels(links)
    {
      KeptChannelsFrom(links, i);
      var name := Strip(links[i].text);
      var url := links[i].href;
      if url.Some? && url.value != "" && name != "" {
        assert LinkChannel(links[i]) == Some(Channel(name, url.value, DaddyLiveGroup, ""));
        channels := channels + [Channel(name, url.value, DaddyLiveGroup, "")];
      } else {
        assert LinkChannel(links[i]) == None;
      }
    }
    assert links[|links|..] == [];
  }

  // ---------------------------------------------------------------------
  // UK scraper

  /** A child element found by `select_one`: absent, or present with the
      attribute the scraper indexes (`href` of `a.play`, `src` of `img`),
      which it may lack. */
  datatype Child = Absent | Present(attr: Option<string>)

  /** A `div.channel-card` element: the text of its `h4.name` child (None
      when there is none), its `a.play` and `img` children, and its
      `data-category` attribute. */
  datatype Card = Card(nameText: Option<string>, play: Child, category: Option<string>, img: Child)

  const CategoryMap: map<string, string> :=
    map["Sports" := "UK Sports", "News" := "UK News", "Entertainment" := "UK Entertainment"]

  const UkGroups: set<string> := {"UK Sports", "UK News", "UK Entertainment", "UK Other"}

  /** `category_map.get(category_raw, "UK Other")`. */
  function UkGroup(categoryRaw: string): string {
    if categoryRaw in CategoryMap then CategoryMap[categoryRaw] else "UK Other"
  }

  /** The group lookup is total: three named categories, and every other
      value (the default "Other" among them) in "UK Other". */
  lemma UkGroupMapping(categoryRaw: string)
    ensures UkGroup(categoryRaw) in UkGroups
    ensures UkGroup(categoryRaw) == "UK Sports" <==> categoryRaw == "Sports"
    ensures UkGroup(categoryRaw) == "UK News" <==> categoryRaw == "News"
    ensures UkGroup(categoryRaw) == "UK Entertainment" <==> categoryRaw == "Entertainment"
    ensures UkGroup(categoryRaw) == "UK Other" <==> categoryRaw !in {"Sports", "News", "Entertainment"}
  {
  }

  /** Processing one card: None when the loop body raises. */
  function CardChannel(card: Card): Option<Channel> {
    match card.nameText
    case None => None
    case Some(text) =>
      match card.play
      case Absent => None
      case Present(href) =>
        match href
        case None => None
        case Some(url) =>
          var group := UkGroup(card.category.GetOr("Other"));
          match card.img
          case Absent => Some(Channel(Strip(text), url, group, ""))
          case Present(src) =>
            match src
            case None => None
            case Some(logo) => Some(Channel(Strip(text), url, group, logo))
  }

  /** A card raises exactly when it has no name element, no play link, a
      play link without href, or an image without src. Otherwise its
      channel has the stripped name text, the href as url, the mapped
      group (a missing category counting as "Other", hence "UK Other"),
      and the image's src as logo, or "" without an image. */
  lemma CardChannelRule(card: Card)
    ensures CardChannel(card).None? <==>
      card.nameText.None? || card.play.Absent? || card.play.attr.None? || (card.img.Present? && card.img.attr.None?)
    ensures var r := CardChannel(card);
      r.Some? ==> r.value.name == Strip(card.nameText.value) && r.value.url == card.play.attr.value
                  && r.value.group == UkGroup(card.category.GetOr("Other"))
                  && r.value.logo == (if card.img.Present? then card.img.attr.value else "")
    ensures var r := CardChannel(card);
      r.Some? ==> r.value.group in UkGroups && (card.category.None? ==> r.value.group == "UK Other")
  {
    UkGroupMapping(card.category.GetOr("Other"));
  }

  /** The channels the cards yield until the first card whose processing
      raises: exactly the converted prefix before that card. */
  function ChannelsUntilFault(cards: seq<Card>): (chs: seq<Channel>)
    ensures |chs| <= |cards|
  {
    if cards == [] then []
    else
      match CardChannel(cards[0])
      case None => []
      case Some(c) => [c] + ChannelsUntilFault(cards[1..])
  }

  /** Channel k comes from card k, and the card after the last channel,
      if there is one, is the card that raised. */
  lemma {:induction false} ChannelsUntilFaultPrefix(cards: seq<Card>)
    ensures var chs := ChannelsUntilFault(cards);
      (forall k :: 0 <= k < |chs| ==> CardChannel(cards[k]) == Some(chs[k]))
      && (|chs| < |cards| ==> CardChannel(cards[|chs|]).None?)
  {
    if cards != [] && CardChannel(cards[0]).Some? {
      var rest := ChannelsUntilFault(cards[1..]);
      ChannelsUntilFaultPrefix(cards[1..]);
      assert ChannelsUntilFault(cards) == [CardChannel(cards[0]).value] + rest;
      forall k | 1 <= k < 1 + |rest| ensures CardChannel(cards[k]) == Some(rest[k - 1]) {
        assert cards[1..][k - 1] == cards[k];
      }
      if 1 + |rest| < |cards| {
        assert cards[1..][|rest|] == cards[1 + |rest|];
      }
    }
  }

  /** One step of the walk: the card at i either ends it or contributes
      its channel ahead of the rest. */
  lemma ChannelsUntilFaultFrom(cards: seq<Card>, i: nat)
    requires i < |cards|
    ensures ChannelsUntilFault(cards[i..]) == match CardChannel(cards[i])
      case Some(c) => [c] + ChannelsUntilFault(cards[i + 1..])
      case None => []
  {
    assert cards[i..][0] == cards[i] && cards[i..][1..] == cards[i + 1..];
  }

  function UkChannels(page: Download<Card>): seq<Channel> {
    match page
    case Unreachable => []
    case Page(cards) => ChannelsUntilFault(cards)
  }

  /** The body of scrape_uk_source's loop for one card: read its name,
      link, category and image in the order the loop body reads them; None
      is the read that raises. */
  method ReadCard(card: Card) returns (r: Option<Channel>)
    ensures r == CardChannel(card)
  {
    if card.nameText.None? {
      return None;  // `.text` of a missing h4.name
    }
    var name := Strip(card.nameText.value);
    if card.play.Absent? || card.play.attr.None? {
      return None;  // indexing a missing a.play, or one without href
    }
    var url := card.play.attr.value;
    var categoryRaw := card.category.GetOr("Other");
    var group := UkGroup(categoryRaw);
    var logo := "";
    if card.img.Present? {
      if card.img.attr.None? {
        return None;  // an img without src
      }
      logo := card.img.attr.value;
    }
    r := Some(Channel(name, url, group, logo));
  }

  /** scrape_uk_source: walk the cards, appending each card's channel;
      the first card whose reads raise ends the walk, and the channels
      appended so far are the result. */
  method ScrapeUkSource(page: Download<Card>) returns (channels: seq<Channel>)
    ensures channels == UkChannels(page)
  {
    channels := [];
    if page.Unreachable? {
      return;
    }
    var cards := page.elements;
    var i := 0;
    while i < |cards|
      invariant 0 <= i <= |cards|
      invariant channels + ChannelsUntilFault(cards[i..]) == ChannelsUntilFault(cards)
    {
      ChannelsUntilFaultFrom(cards, i);
      var r := ReadCard(cards[i]);
      if r.None? {
        return;
      }
      channels := channels + [r.value];
      i := i + 1;
    }
    assert cards[i..] == [];
  }

  // ---------------------------------------------------------------------
  // Playlist writer

  /** The guide URL of the header, written segment by segment. */
  const EpgUrl := "https://" + "raw.githubusercontent.com" + "/yourusername" + "/automatic-chainsaw" + "/main" + "/epg.xml"

  const Header := "#EXTM3U url-tvg=\"" + EpgUrl + "\""

  /** The `#EXTINF` line of one channel: the name serves as tvg-id too. */
  function ExtinfLine(ch: Channel): string {
    "#EXTINF:-1" + (" tvg-id=\"" + ch.name + "\"") + (" tvg-name=\"" + ch.name + "\"")
      + (" tvg-logo=\"" + ch.logo + "\"") + (" group-title=\"" + ch.group + "\"") + "," + ch.name
  }

  function Url(ch: Channel): string {
    ch.url
  }

  /** For each channel, in order, its `#EXTINF` line and then its URL. */
  function EntryLines(chs: seq<Channel>): seq<string> {
    M3u.Entries(chs, ExtinfLine, Url)
  }

  lemma EntryLinesAt(chs: seq<Channel>, k: nat)
    requires k < |chs|
    ensures |EntryLines(chs)| == 2 * |chs|
    ensures EntryLines(chs)[2 * k] == ExtinfLine(chs[k]) && EntryLines(chs)[2 * k + 1] == chs[k].url
  {
    M3u.EntriesAt(chs, ExtinfLine, Url, k);
  }

  /** The text generate_m3u writes to the playlist file. */
  function M3uText(chs: seq<Channel>): string {
    Playlist(Header, EntryLines(chs))
  }

  lemma EntryLinesAppend(a: seq<Channel>, b: seq<Channel>)
    ensures EntryLines(a + b) == EntryLines(a) + EntryLines(b)
  {
    M3u.EntriesAppend(a, b, ExtinfLine, Url);
  }

  /** The text starts with the single `#EXTM3U url-tvg=...` header line,
      and an empty list (the file written at start-up) is that line alone. */
  lemma M3uTextHeader(chs: seq<Channel>)
    ensures |M3uText(chs)| > |Header| && M3uText(chs)[..|Header| + 1] == Header + "\n"
    ensures chs == [] <==> M3uText(chs) == Header + "\n"
  {
    PlaylistHeader(Header, EntryLines(chs));
  }

  /** Channels are written in list order. */
  lemma M3uTextAppend(a: seq<Channel>, b: seq<Channel>)
    ensures M3uText(a + b) == M3uText(a) + M3uText(b)[|Header| + 1..]
  {
    EntryLinesAppend(a, b);
    PlaylistAppend(Header, EntryLines(a), EntryLines(b));
  }

  lemma M3uTextSnoc(chs: seq<Channel>, ch: Channel)
    ensures M3uText(chs + [ch]) == M3uText(chs) + ExtinfLine(ch) + "\n" + ch.url + "\n"
  {
    EntryLinesAppend(chs, [ch]);
    M3u.EntriesOfOne(ch, ExtinfLine, Url);
    PlaylistSnoc(Header, EntryLines(chs), ExtinfLine(ch), ch.url);
  }

  /** The `#EXTINF` line is duration -1, then tvg-id and tvg-name (both
      the channel name), tvg-logo and group-title, and the name as
      display title. */
  lemma ExtinfAttributes(ch: Channel)
    ensures ExtinfLine(ch) == M3u.ExtInf("-1",
      [M3u.Attr("tvg-id", ch.name), M3u.Attr("tvg-name", ch.name),
       M3u.Attr("tvg-logo", ch.logo), M3u.Attr("group-title", ch.group)], ch.name)
  {
    var a0, a1 := M3u.Attr("tvg-id", ch.name), M3u.Attr("tvg-name", ch.name);
    var a2, a3 := M3u.Attr("tvg-logo", ch.logo), M3u.Attr("group-title", ch.group);
    M3u.ExtInfOfFour(a0, a1, a2, a3, ch.name);
    assert " " + "tvg-id" + "=\"" == " tvg-id=\"";
    assert " " + "tvg-name" + "=\"" == " tvg-name=\"";
    assert " " + "tvg-logo" + "=\"" == " tvg-logo=\"";
    assert " " + "group-title" + "=\"" == " group-title=\"";
  }

  lemma HeaderIsOneLine()
    ensures NoNewline(Header)
  {
    EpgUrlIsOneLine();
    NoNewlineConcat("#EXTM3U url-tvg=\"", EpgUrl);
    NoNewlineConcat("#EXTM3U url-tvg=\"" + EpgUrl, "\"");
  }

  lemma EpgUrlIsOneLine()
    ensures NoNewline(EpgUrl)
  {
    var u0 := "https://" + "raw.githubusercontent.com";
    NoNewlineConcat("https://", "raw.githubusercontent.com");
    NoNewlineConcat(u0, "/yourusername");
    NoNewlineConcat(u0 + "/yourusername", "/automatic-chainsaw");
    NoNewlineConcat(u0 + "/yourusername" + "/automatic-chainsaw", "/main");
    NoNewlineConcat(u0 + "/yourusername" + "/automatic-chainsaw" + "/main", "/epg.xml");
  }

  lemma ExtinfLineSafe(ch: Channel)
    requires NoNewline(ch.name) && NoNewline(ch.logo) && NoNewline(ch.group)
    ensures NoNewline(ExtinfLine(ch))
  {
    ExtinfAttributes(ch);
    var attrs := [M3u.Attr("tvg-id", ch.name), M3u.Attr("tvg-name", ch.name),
                  M3u.Attr("tvg-logo", ch.logo), M3u.Attr("group-title", ch.group)];
    assert NoNewline("tvg-id") && NoNewline("tvg-name") && NoNewline("tvg-logo") && NoNewline("group-title");
    M3u.ExtInfOneLine("-1", attrs, ch.name);
  }

  ghost predicate LineSafe(chs: seq<Channel>) {
    forall k :: 0 <= k < |chs| ==>
      NoNewline(chs[k].name) && NoNewline(chs[k].url) && NoNewline(chs[k].logo) && NoNewline(chs[k].group)
  }

  /** Read back line by line, the text of line-safe channels has 1 + 2N
      lines: the header, then per channel its `#EXTINF` line and its URL
      verbatim, in list order. */
  lemma M3uTextLines(chs: seq<Channel>)
    requires LineSafe(chs)
    ensures SplitLines(M3uText(chs)) == [Header] + EntryLines(chs)
    ensures |SplitLines(M3uText(chs))| == 1 + 2 * |chs|
    ensures forall k :: 0 <= k < |chs| ==>
      SplitLines(M3uText(chs))[1 + 2 * k] == ExtinfLine(chs[k]) && SplitLines(M3uText(chs))[2 + 2 * k] == chs[k].url
  {
    HeaderIsOneLine();
    forall k | 0 <= k < |chs| ensures NoNewline(ExtinfLine(chs[k])) && NoNewline(Url(chs[k])) {
      ExtinfLineSafe(chs[k]);
    }
    M3u.EntriesReadBack(Header, chs, ExtinfLine, Url);
  }

  /** generate_m3u: write the header, then each channel's two lines. */
  method GenerateM3u(channels: seq<Channel>) returns (text: string)
    ensures text == M3uText(channels)
  {
    text := Header + "\n";
    M3uTextHeader([]);
    assert channels[..0] == [];
    for i := 0 to |channels|
      invariant text == M3uText(channels[..i])
    {
      var ch := channels[i];
      text := text + ExtinfLine(ch) + "\n";
      text := text + ch.url + "\n";
      assert channels[..i + 1] == channels[..i] + [ch];
      M3uTextSnoc(channels[..i], ch);
    }
    assert channels[..|channels|] == channels;
  }

  // ---------------------------------------------------------------------
  // One refresh cycle

  /** The channel list of one cycle: all DaddyLive channels, then all UK
      channels. */
  function CycleChannels(daddyPage: Download<StreamLink>, ukPage: Download<Card>): seq<Channel> {
    DaddyLiveChannels(daddyPage) + UkChannels(ukPage)
  }

  /** One pass of refresh_loop's body: gather both sources, in that
      order, and produce the playlist text for the result. */
  method RefreshCycle(daddyPage: Download<StreamLink>, ukPage: Download<Card>)
    returns (allChannels: seq<Channel>, playlist: string)
    ensures allChannels == CycleChannels(daddyPage, ukPage)
    ensures playlist == M3uText(allChannels)
  {
    allChannels := [];
    var daddy := ScrapeDaddyLive(daddyPage);
    allChannels := allChannels + daddy;
    var uk := ScrapeUkSource(ukPage);
    allChannels := allChannels + uk;
    playlist := GenerateM3u(allChannels);
  }

  /** The DaddyLive channels come first, each in the DaddyLive group, then
      the UK channels, each in a UK group; the playlist lists them in that
      order. */
  lemma CycleOrder(daddyPage: Download<StreamLink>, ukPage: Download<Card>)
    ensures var all, n := CycleChannels(daddyPage, ukPage), |DaddyLiveChannels(daddyPage)|;
      (forall k :: 0 <= k < n ==> all[k].group == DaddyLiveGroup)
      && (forall k :: n <= k < |all| ==> all[k].group in UkGroups)
    ensures M3uText(CycleChannels(daddyPage, ukPage))
         == M3uText(DaddyLiveChannels(daddyPage)) + M3uText(UkChannels(ukPage))[|Header| + 1..]
  {
    var d, u := DaddyLiveChannels(daddyPage), UkChannels(ukPage);
    var all := d + u;
    forall k | 0 <= k < |all| ensures k < |d| ==> all[k].group == DaddyLiveGroup
      ensures k >= |d| ==> all[k].group in UkGroups
    {
      if k >= |d| {
        var cards := ukPage.elements;
        ChannelsUntilFaultPrefix(cards);
        assert CardChannel(cards[k - |d|]) == Some(u[k - |d|]);
        CardChannelRule(cards[k - |d|]);
      } else if daddyPage.Page? {
        KeptChannelsFields(daddyPage.elements);
        assert all[k] in d;
      }
    }
    M3uTextAppend(d, u);
  }

  /** An unreachable source adds nothing: the cycle's channels are then
      exactly the other source's. */
  lemma CycleSourceUnreachable(daddyPage: Download<StreamLink>, ukPage: Download<Card>)
    ensures daddyPage.Unreachable? ==> CycleChannels(daddyPage, ukPage) == UkChannels(ukPage)
    ensures ukPage.Unreachable? ==> CycleChannels(daddyPage, ukPage) == DaddyLiveChannels(daddyPage)
  {
    var d, u := DaddyLiveChannels(daddyPage), UkChannels(ukPage);
    if daddyPage.Unreachable? {
      assert d == [];
      assert d + u == u;
    }
    if ukPage.Unreachable? {
      assert u == [];
      assert d + u == d;
    }
  }

  /** A UK card that raises cuts only the UK part: the DaddyLive channels
      stay in front, and after them come the channels of the UK cards
      before the one that raised, card by card. */
  lemma CycleUkFault(daddyPage: Download<StreamLink>, cards: seq<Card>)
    ensures var all, n := CycleChannels(daddyPage, Page(cards)), |DaddyLiveChannels(daddyPage)|;
      all[..n] == DaddyLiveChannels(daddyPage)
      && |all| - n <= |cards|
      && (forall k :: n <= k < |all| ==> CardChannel(cards[k - n]) == Some(all[k]))
      && (|all| - n < |cards| ==> CardChannel(cards[|all| - n]).None?)
  {
    var d, u := DaddyLiveChannels(daddyPage), ChannelsUntilFault(cards);
    var all := d + u;
    assert all == CycleChannels(daddyPage, Page(cards));
    assert all[..|d|] == d;
    ChannelsUntilFaultPrefix(cards);
    forall k | |d| <= k < |all| ensures CardChannel(cards[k - |d|]) == Some(all[k]) {
      assert all[k] == u[k - |d|];
    }
  }
}
