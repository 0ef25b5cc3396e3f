/** The channel table of the IPTV server (server.py): a table that a
    refresh replaces as a whole, the `/daddylive.m3u` playlist rendered
    from it, and the placeholder `/epg.xml` guide. */
module Server {
  import opened Text
  import M3u

  datatype Channel = Channel(id: int, name: string, url: string, logo: string, group: string)

  /** Ids are 1..N in table order. */
  ghost predicate DenseIds(chs: seq<Channel>) {
    forall k :: 0 <= k < |chs| ==> chs[k].id == k + 1
  }

  /** No field can break a playlist line. */
  ghost predicate LineSafe(chs: seq<Channel>) {
    forall k :: 0 <= k < |chs| ==>
      NoNewline(chs[k].name) && NoNewline(chs[k].url) && NoNewline(chs[k].logo) && NoNewline(chs[k].group)
  }

  // The literals below are server.py's URLs, written segment by segment.
  const StreamBase := "https://" + "xyzdddd.videohls.ru" + "/lb/"
  const LogoBase := "https://" + "upload.wikimedia.org" + "/wikipedia/en/"

  /** The table a refresh installs (the scrape is simulated by a literal). */
  const FixedTable: seq<Channel> := [
    Channel(1, "BBC One", StreamBase + "premium51" + "/index.m3u8",
            LogoBase + "1/1a/" + "BBC_One_logo_2021.svg", "UK"),
    Channel(2, "Sky Sports", StreamBase + "premium302" + "/index.m3u8",
            LogoBase + "c/cf/" + "Sky_Sports_logo_2020.svg", "Sports")
  ]

  lemma FixedTableIsWellFormed()
    ensures |FixedTable| == 2 && DenseIds(FixedTable) && LineSafe(FixedTable)
  {
    FixedChannelIsLineSafe(0);
    FixedChannelIsLineSafe(1);
  }

  lemma FixedChannelIsLineSafe(k: nat)
    requires k < |FixedTable|
    ensures NoNewline(FixedTable[k].name) && NoNewline(FixedTable[k].url)
    ensures NoNewline(FixedTable[k].logo) && NoNewline(FixedTable[k].group)
  {
    BasesAreOneLine();
    if k == 0 {
      assert NoNewline("premium51" + "/index.m3u8") && NoNewline("1/1a/" + "BBC_One_logo_2021.svg");
    } else {
      assert NoNewline("premium302" + "/index.m3u8") && NoNewline("c/cf/" + "Sky_Sports_logo_2020.svg");
    }
  }

  lemma BasesAreOneLine()
    ensures NoNewline(StreamBase) && NoNewline(LogoBase)
  {
  }

  // ---------------------------------------------------------------------
  // Playlist rendering

  const Header := "#EXTM3U"

  /** The `#EXTINF` line of one channel, as the f-string writes it. */
  function ExtinfLine(ch: Channel): string {
    "#EXTINF:-1" + (" tvg-id=\"" + IntToDecimal(ch.id) + "\"") + (" tvg-name=\"" + ch.name + "\"")
      + (" tvg-logo=\"" + ch.logo + "\"") + (" group-title=\"" + ch.group + "\"") + "," + ch.name
  }

  function Url(ch: Channel): string {
    ch.url
  }

  /** The lines the channels contribute: for each channel, in order, its
      `#EXTINF` line and then its URL. */
  function EntryLines(chs: seq<Channel>): seq<string> {
    M3u.Entries(chs, ExtinfLine, Url)
  }

  lemma EntryLinesAt(chs: seq<Channel>, k: nat)
    requires k < |chs|
    ensures |EntryLines(chs)| == 2 * |chs|
    ensures EntryLines(chs)[2 * k] == ExtinfLine(chs[k]) && EntryLines(chs)[2 * k + 1] == chs[k].url
  {
    M3u.EntriesAt(chs, ExtinfLine, Url, k);
  }

  /** The playlist text for a table: the header line, then the entries,
      every line terminated by "\n". */
  function Render(chs: seq<Channel>): string {
    Playlist(Header, EntryLines(chs))
  }

  lemma EntryLinesAppend(a: seq<Channel>, b: seq<Channel>)
    ensures EntryLines(a + b) == EntryLines(a) + EntryLines(b)
  {
    M3u.EntriesAppend(a, b, ExtinfLine, Url);
  }

  /** The playlist starts with exactly "#EXTM3U\n", and an empty table
      renders to nothing else. */
  lemma RenderHeader(chs: seq<Channel>)
    ensures |Render(chs)| >= 8 && Render(chs)[..8] == "#EXTM3U\n"
    ensures chs == [] <==> Render(chs) == "#EXTM3U\n"
  {
    PlaylistHeader(Header, EntryLines(chs));
  }

  /** Channels are written in table order: rendering a + b is rendering
      a followed by the body (all but the header line) of rendering b. */
  lemma RenderAppend(a: seq<Channel>, b: seq<Channel>)
    ensures Render(a + b) == Render(a) + Render(b)[|Header| + 1..]
  {
    EntryLinesAppend(a, b);
    PlaylistAppend(Header, EntryLines(a), EntryLines(b));
  }

  /** Appending one channel appends its two lines. */
  lemma RenderSnoc(chs: seq<Channel>, ch: Channel)
    ensures Render(chs + [ch]) == Render(chs) + ExtinfLine(ch) + "\n" + ch.url + "\n"
  {
    EntryLinesAppend(chs, [ch]);
    M3u.EntriesOfOne(ch, ExtinfLine, Url);
    PlaylistSnoc(Header, EntryLines(chs), ExtinfLine(ch), ch.url);
  }

  lemma ExtinfLineSafe(ch: Channel)
    requires NoNewline(ch.name) && NoNewline(ch.logo) && NoNewline(ch.group)
    ensures NoNewline(ExtinfLine(ch))
  {
    ExtinfAttributes(ch);
    var attrs := [M3u.Attr("tvg-id", IntToDecimal(ch.id)), M3u.Attr("tvg-name", ch.name),
                  M3u.Attr("tvg-logo", ch.logo), M3u.Attr("group-title", ch.group)];
    assert NoNewline("tvg-id") && NoNewline("tvg-name") && NoNewline("tvg-logo") && NoNewline("group-title");
    M3u.ExtInfOneLine("-1", attrs, ch.name);
  }

  /** The `#EXTINF` line is duration -1, the attributes tvg-id (the id in
      decimal), tvg-name, tvg-logo and group-title in that order, and the
      channel name as display title. */
  lemma ExtinfAttributes(ch: Channel)
    ensures ExtinfLine(ch) == M3u.ExtInf("-1",
      [M3u.Attr("tvg-id", IntToDecimal(ch.id)), M3u.Attr("tvg-name", ch.name),
       M3u.Attr("tvg-logo", ch.logo), M3u.Attr("group-title", ch.group)], ch.name)
  {
    var a0, a1 := M3u.Attr("tvg-id", IntToDecimal(ch.id)), M3u.Attr("tvg-name", ch.name);
    var a2, a3 := M3u.Attr("tvg-logo", ch.logo), M3u.Attr("group-title", ch.group);
    M3u.ExtInfOfFour(a0, a1, a2, a3, ch.name);
    assert " " + "tvg-id" + "=\"" == " tvg-id=\"";
    assert " " + "tvg-name" + "=\"" == " tvg-name=\"";
    assert " " + "tvg-logo" + "=\"" == " tvg-logo=\"";
    assert " " + "group-title" + "=\"" == " group-title=\"";
  }

  /** Read back line by line, a playlist of line-safe channels has
      1 + 2N lines: the header, then per channel its `#EXTINF` line and
      its URL verbatim, in table order. */
  lemma RenderLines(chs: seq<Channel>)
    requires LineSafe(chs)
    ensures SplitLines(Render(chs)) == [Header] + EntryLines(chs)
    ensures |SplitLines(Render(chs))| == 1 + 2 * |chs|
    ensures forall k :: 0 <= k < |chs| ==>
      SplitLines(Render(chs))[1 + 2 * k] == ExtinfLine(chs[k]) && SplitLines(Render(chs))[2 + 2 * k] == chs[k].url
  {
    forall k | 0 <= k < |chs| ensures NoNewline(ExtinfLine(chs[k])) && NoNewline(Url(chs[k])) {
      ExtinfLineSafe(chs[k]);
    }
    M3u.EntriesReadBack(Header, chs, ExtinfLine, Url);
  }

  // ---------------------------------------------------------------------
  // The guide

  const XmlDeclaration := "<?xml version=\"1.0\" encoding=\"UTF-8\" ?>"

  /** `/epg.xml`: the XML declaration and an empty `tv` element, whatever
      the channel table holds (it reads none of it). */
  function Epg(): (xml: string)
    ensures |xml| == |XmlDeclaration| + 9
    ensures xml[..|XmlDeclaration|] == XmlDeclaration
    ensures xml[|XmlDeclaration|..] == "<tv></tv>"
  {
    "<?xml version=\"1.0\" encoding=\"UTF-8\" ?><tv></tv>"
  }

  // ---------------------------------------------------------------------
  // The table and its refresh

  /** How one run of fetch_channels' try block goes: it completes and the
      clock reads `now`; building the table raises before anything is
      assigned; or reading the clock raises after the table is assigned. */
  datatype FetchRun = Completes(now: real) | SourceRaises | ClockRaises

  /** The module-level state `channels` and `last_refresh`. */
  class ChannelTable {
    var channels: seq<Channel>
    var lastRefresh: real

    ghost predicate Valid()
      reads this
    {
      DenseIds(channels) && LineSafe(channels)
    }

    constructor ()
      ensures Valid() && channels == [] && lastRefresh == 0.0
    {
      channels := [];
      lastRefresh := 0.0;
    }

    /** fetch_channels: install the fixed table and stamp the time. */
    method FetchChannels(run: FetchRun)
      requires Valid()
      modifies this
      ensures Valid()
      ensures run.Completes? ==> channels == FixedTable && lastRefresh == run.now
      ensures run.SourceRaises? ==> channels == old(channels) && lastRefresh == old(lastRefresh)
      ensures run.ClockRaises? ==> channels == FixedTable && lastRefresh == old(lastRefresh)
    {
      if run.SourceRaises? {
        return;
      }
      channels := FixedTable;
      FixedTableIsWellFormed();
      if run.ClockRaises? {
        return;
      }
      lastRefresh := run.now;
    }

    /** playlist(): the `/daddylive.m3u` text for the current table. */
    method Playlist() returns (m3u: string)
      requires Valid()
      ensures m3u == Render(channels)
      ensures SplitLines(m3u) == [Header] + EntryLines(channels)
    {
      m3u := "#EXTM3U\n";
      RenderHeader([]);
      assert channels[..0] == [];
      for i := 0 to |channels|
        invariant m3u == Render(channels[..i])
      {
        var ch := channels[i];
        m3u := m3u + ExtinfLine(ch) + "\n";
        m3u := m3u + ch.url + "\n";
        assert channels[..i + 1] == channels[..i] + [ch];
        RenderSnoc(channels[..i], ch);
      }
      assert channels[..|channels|] == channels;
      RenderLines(channels);
    }
  }
}
