# IPTV playlist servers, modelled in Dafny

The repository has two small IPTV servers. This project models the part of each that produces channel lists and playlists.

* **server.py** keeps a module-level channel table (`channels`, `last_refresh`). `fetch_channels` replaces that table with a fixed two-channel list and stamps the time. `/daddylive.m3u` renders the table as an extended M3U playlist: an `#EXTM3U` header, then for each channel an `#EXTINF:-1` line carrying `tvg-id`, `tvg-name`, `tvg-logo` and `group-title` attributes, followed by the channel's URL line. `/epg.xml` is a constant, empty guide.
* **daddylive_secure_server.py** has two scrapers and one playlist writer:
  * `scrape_daddylive` keeps every `a.stream-link` that has a non-empty stripped text and a non-empty `href`.
  * `scrape_uk_source` turns `div.channel-card` elements into channels. It maps `data-category` through a three-entry table, with "UK Other" as the default.
  * `generate_m3u` writes the playlist for a channel list.
  * One pass of `refresh_loop` concatenates the two scrapes, DaddyLive first, and writes the playlist.

The modules are:

* `Text`: newline-terminated lines and reading text back into lines, Python's `str(int)`, and Python's `str.strip()`.
* `M3u`: a reference form of an `#EXTINF` line as a list of attributes, and the two-lines-per-channel entry layout.
* `Server`: server.py. The table is a class with server.py's two module-level fields. `playlist()` is a loop method proved against the `Render` function.
* `DaddyLive`: daddylive_secure_server.py. Each scraper and the playlist writer is a loop method proved against a function on the page elements. The keep/drop rule and the category map are pure functions.

Each page is an abstract input of type `Download`. It is either `Unreachable`, meaning `requests.get` raised, or `Page` with the elements the CSS selector returns, in document order.

In server.py, a failure inside `fetch_channels` is one of three `FetchRun` cases. A raise before the assignment keeps both fields. Completing sets both. A raise in `time.time()` comes after `channels` is assigned, so it leaves the new table with the old `lastRefresh`; the model states that torn state as the code has it.

The UK scraper has a try block around the whole loop. A card with no `h4.name`, no `a.play`, an `a.play` without `href`, or an `img` without `src` therefore ends the walk, and the channels gathered before that card are still returned. One bad card ends the UK scrape; it is not skipped while the loop goes on.

## Model

| member | source | states |
|---|---|---|
| Server.FixedTableIsWellFormed | server.py:20-35 | The table fetch_channels installs has two channels. Their ids are 1 and 2 in order, and no field of either contains a newline. |
| Server.ChannelTable.constructor | server.py:13-14 | The initial state has an empty table and `last_refresh` 0, and it satisfies the table invariant (dense ids 1..N, newline-free fields). |
| Server.ChannelTable.FetchChannels | server.py:16-39 | It preserves the table invariant. A completed run installs the fixed table and stamps the given time. A raise before the assignment changes nothing. A clock raise leaves the new table with the old timestamp. |
| Server.ChannelTable.Playlist | server.py:50-56 | The loop builds exactly `Render(channels)`. Read back line by line, it is the `#EXTM3U` header followed by each channel's `#EXTINF` line and URL, in table order. |
| Server.RenderHeader | server.py:52 | The playlist starts with exactly "#EXTM3U\n". It is nothing more exactly when the table is empty. |
| Server.RenderAppend | server.py:53-55 | Channels are written in table order: the playlist of a + b is the playlist of a followed by the body of the playlist of b. |
| Server.RenderSnoc | server.py:53-55 | One more channel appends its `#EXTINF` line and its URL line, each ending in "\n". |
| Server.EntryLinesAt | server.py:53-55 | Channel k owns entry lines 2k and 2k+1, its `#EXTINF` line and its URL, and there are 2N entry lines. |
| Server.EntryLinesAppend | server.py:53-55 | The entry lines of a + b are those of a followed by those of b. |
| Server.ExtinfAttributes | server.py:54 | The f-string line equals the reference `#EXTINF` form: duration -1, then tvg-id (the id in decimal), tvg-name, tvg-logo and group-title in that order, then the name as display title. |
| Server.ExtinfLineSafe | server.py:54 | If the name, logo and group contain no newline, the `#EXTINF` line is a single line. |
| Server.RenderLines | server.py:52-55 | For newline-free channels, the playlist reads back as exactly 1 + 2N lines: line 0 is the header, line 2k+1 is channel k's `#EXTINF` line, and line 2k+2 is its URL. |
| Server.Epg | server.py:58-61 | The guide is the XML declaration followed by an empty `tv` element. It reads no state. |
| Text.IntToDecimalSign | server.py:54 | The decimal text of the id starts with '-' exactly when the id is negative. |
| Text.NatToDecimalDigits | server.py:54 | `str(n)` for n >= 0 is digits only: "0" for zero, with no leading zero otherwise. |
| Text.IntToDecimalValue | server.py:54 | The decimal text of the id reads back as the id (round trip). |
| Text.SplitJoinLines | server.py:52-55 | Newline-free lines joined with "\n" terminators read back as the same lines. |
| Text.StripEnds | daddylive_secure_server.py:21 | `strip()` leaves no whitespace at either end. The result is empty exactly when the text is all whitespace. |
| Text.StripIsSlice | daddylive_secure_server.py:46 | `strip()` is a contiguous slice of its input, and everything cut off at either end is whitespace. |
| DaddyLive.LinkChannelRule | daddylive_secure_server.py:21-29 | A link is dropped exactly when its text is blank or its href is missing or empty. A kept link yields (stripped text, href, "USA (DaddyLive)", no logo). |
| DaddyLive.KeptChannelsMembers | daddylive_secure_server.py:20-29 | A channel is in the scrape result exactly when some link on the page yields it. |
| DaddyLive.KeptChannelsFields | daddylive_secure_server.py:23-29 | Every DaddyLive channel has a non-empty name and url, the DaddyLive group and an empty logo. |
| DaddyLive.KeptChannelsAppend | daddylive_secure_server.py:20-29 | Scraping a + b gives the channels of a followed by those of b, so link order is kept. |
| DaddyLive.ScrapeDaddyLive | daddylive_secure_server.py:14-32 | The loop returns exactly the channels of the kept links, in order. An unreachable page gives none. |
| DaddyLive.UkGroupMapping | daddylive_secure_server.py:37-49 | The group is always one of the four UK groups. "Sports", "News" and "Entertainment" map to their UK groups, each in both directions. Every other value, including the default "Other", maps to "UK Other". |
| DaddyLive.CardChannelRule | daddylive_secure_server.py:46-56 | A card raises exactly when it has no name element, no play link, a play link without href, or an image without src. Otherwise its channel has the stripped name, the href, the mapped group (a missing category reads as "Other") and the image src or "". |
| DaddyLive.ReadCard | daddylive_secure_server.py:46-56 | Reading a card's elements in the order the loop body reads them yields exactly that card's channel, or None at the read that raises. |
| DaddyLive.ChannelsUntilFaultPrefix | daddylive_secure_server.py:42-59 | UK channel k comes from card k. If any card is left over, the first one is the card that raised. |
| DaddyLive.ScrapeUkSource | daddylive_secure_server.py:34-59 | The loop returns exactly the channels of the cards before the first card that raises. An unreachable page gives none. |
| DaddyLive.M3uTextHeader | daddylive_secure_server.py:64 | The file starts with the `#EXTM3U url-tvg="…"` line. For an empty list, as written at start-up on line 100, it is that line alone. |
| DaddyLive.HeaderIsOneLine | daddylive_secure_server.py:64 | The header, with its guide URL, is a single line. |
| DaddyLive.EntryLinesAt | daddylive_secure_server.py:65-70 | Channel k owns entry lines 2k and 2k+1, its `#EXTINF` line and its URL, and there are 2N entry lines. |
| DaddyLive.EntryLinesAppend | daddylive_secure_server.py:65-70 | The entry lines of a + b are those of a followed by those of b. |
| DaddyLive.M3uTextAppend | daddylive_secure_server.py:65-70 | Channels are written in list order: the text for a + b is the text for a followed by the body of the text for b. |
| DaddyLive.M3uTextSnoc | daddylive_secure_server.py:65-70 | One more channel appends its `#EXTINF` line and its URL line. |
| DaddyLive.ExtinfAttributes | daddylive_secure_server.py:66-69 | The two adjacent f-strings equal the reference `#EXTINF` form: duration -1, then tvg-id and tvg-name both set to the name, then tvg-logo and group-title, then the name as display title. |
| DaddyLive.ExtinfLineSafe | daddylive_secure_server.py:66-69 | If the name, logo and group contain no newline, the `#EXTINF` line is a single line. |
| DaddyLive.M3uTextLines | daddylive_secure_server.py:64-70 | For newline-free channels, the file reads back as 1 + 2N lines: the header, then each channel's `#EXTINF` line and URL, in list order. |
| DaddyLive.GenerateM3u | daddylive_secure_server.py:62-71 | The text built by the writes is exactly the `M3uText` of the list. |
| DaddyLive.RefreshCycle | daddylive_secure_server.py:74-79 | One cycle's list is the DaddyLive channels followed by the UK channels, and the playlist written is that list's text. |
| DaddyLive.CycleOrder | daddylive_secure_server.py:76-79 | The first channels of the cycle are all DaddyLive channels, the rest are all in UK groups, and the playlist is the DaddyLive text followed by the UK body. |
| DaddyLive.CycleSourceUnreachable | daddylive_secure_server.py:76-78 | A source whose fetch raises (caught on lines 30-32 or 57-59) contributes nothing. The cycle's list is then exactly the other source's. |
| DaddyLive.CycleUkFault | daddylive_secure_server.py:76-78 | A UK card that raises cuts only the UK part. The DaddyLive channels stay in front, and after them come, card by card, the channels of the cards before the faulty one. |
| M3u.EntriesAt | daddylive_secure_server.py:65-70 | In the shared layout, item k owns lines 2k and 2k+1. |
| M3u.EntriesAppend | daddylive_secure_server.py:65-70 | The layout of a + b is the layout of a followed by that of b. |
| M3u.EntriesReadBack | server.py:52-55 | A playlist whose header and entry lines are newline-free reads back as exactly the header followed by each item's `#EXTINF` line and URL, 1 + 2N lines in order. |
| M3u.ExtInfOneLine | daddylive_secure_server.py:66-69 | An `#EXTINF` line built from newline-free parts is a single line. |

## Left out

- Network and HTML parsing. `requests.get` and BeautifulSoup's selectors are not modelled. Each page is a `Download` input: either the fetch raised, or the elements the selector returns. `requests.get` has no status check, so an error page is parsed like any other page; the model has no separate case for one.
- Failures inside the HTML library while the DaddyLive loop runs. Only the fetch can fail for that source, so a page either yields all of its links or none. The UK card faults are modelled because they depend on the page data.
- File I/O. `generate_m3u` returns its text rather than writing `daddylive.m3u`. The start-up check for an existing file (lines 98-100) is covered only as the empty-list case of the text. `send_file` and the Flask `Response` wrappers are left out.
- Flask routing, the index pages, the `/ui` page of server.py, `app.run`, and the environment lookup for the port.
- Threads and scheduling. `auto_refresh` and `refresh_loop` are infinite loops that sleep. The model covers one `fetch_channels` call and one pass of the `refresh_loop` body.
- The clock. `time.time()` is the `now` value of `FetchRun.Completes`, held as a `real`.
- The `print` calls and the exception messages they log.
- Escaping. Neither writer escapes quotes, commas or newlines in names or URLs. The model states its line-structure results only for newline-free fields, through `LineSafe` as a precondition.
- Server.FixedTableIsWellFormed: the URL literals are written as concatenations of shorter literals. The text is the same; the split only keeps each literal small for the proofs.
- DaddyLive.ScrapeDaddyLive: BeautifulSoup could in principle return a list for a multi-valued attribute. `href` is not one, so `href` is modelled as an optional string.
