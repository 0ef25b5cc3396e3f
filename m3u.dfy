/** The extended M3U convention both servers write: a header line, then
    per channel an `#EXTINF:<duration>` line whose attributes are
    ` key="value"` pairs and whose display title follows the last comma,
    then the channel's URL line. This module is the reference form the
    two hand-written f-string lines are proved equal to. */
module M3u {
  import opened Text

  datatype Attr = Attr(key: string, value: string)

  /** One attribute as written on an `#EXTINF` line: ` key="value"`. */
  function AttrField(a: Attr): string {
    " " + a.key + "=\"" + a.value + "\""
  }

  /** The attribute list as written on an `#EXTINF` line, in order. */
  function AttrText(attrs: seq<Attr>): (text: string)
    ensures attrs == [] <==> text == ""
  {
    if attrs == [] then "" else AttrField(attrs[0]) + AttrText(attrs[1..])
  }

  /** Newline-free keys and values give a newline-free attribute list. */
  lemma {:induction false} AttrTextOneLine(attrs: seq<Attr>)
    requires forall k :: 0 <= k < |attrs| ==> NoNewline(attrs[k].key) && NoNewline(attrs[k].value)
    ensures NoNewline(AttrText(attrs))
  {
    if attrs != [] {
      var a := attrs[0];
      NoNewlineConcat(" " + a.key, "=\"");
      NoNewlineConcat(" ", a.key);
      NoNewlineConcat(" " + a.key + "=\"", a.value);
      NoNewlineConcat(" " + a.key + "=\"" + a.value, "\"");
      AttrTextOneLine(attrs[1..]);
      NoNewlineConcat(AttrField(a), AttrText(attrs[1..]));
    }
  }

  lemma AttrTextOfFour(a0: Attr, a1: Attr, a2: Attr, a3: Attr)
    ensures AttrText([a0, a1, a2, a3]) == AttrField(a0) + AttrField(a1) + AttrField(a2) + AttrField(a3)
  {
    assert [a3][1..] == [];
    assert AttrText([a3]) == AttrField(a3) + "";
    assert [a2, a3][1..] == [a3];
    assert AttrText([a2, a3]) == AttrField(a2) + AttrText([a3]);
    assert [a1, a2, a3][1..] == [a2, a3];
    assert AttrText([a1, a2, a3]) == AttrField(a1) + AttrText([a2, a3]);
    assert [a0, a1, a2, a3][1..] == [a1, a2, a3];
    assert AttrText([a0, a1, a2, a3]) == AttrField(a0) + AttrText([a1, a2, a3]);
    Regroup4(AttrField(a0), AttrField(a1), AttrField(a2), AttrField(a3));
  }

  // Proof helper: reassociation of four concatenated pieces.
  lemma Regroup4(f0: string, f1: string, f2: string, f3: string)
    ensures f0 + (f1 + (f2 + (f3 + ""))) == f0 + f1 + f2 + f3
  {
  }

  /** An `#EXTINF` line: duration, attributes, then the display title after
      the comma. */
  function ExtInf(duration: string, attrs: seq<Attr>, title: string): string {
    "#EXTINF:" + duration + AttrText(attrs) + "," + title
  }

  /** An `#EXTINF` line of newline-free parts is one line. */
  lemma ExtInfOneLine(duration: string, attrs: seq<Attr>, title: string)
    requires NoNewline(duration) && NoNewline(title)
    requires forall k :: 0 <= k < |attrs| ==> NoNewline(attrs[k].key) && NoNewline(attrs[k].value)
    ensures NoNewline(ExtInf(duration, attrs, title))
  {
    AttrTextOneLine(attrs);
    NoNewlineConcat("#EXTINF:", duration);
    NoNewlineConcat("#EXTINF:" + duration, AttrText(attrs));
    NoNewlineConcat("#EXTINF:" + duration + AttrText(attrs), ",");
    NoNewlineConcat("#EXTINF:" + duration + AttrText(attrs) + ",", title);
  }

  /** The `#EXTINF:-1` line with four attributes, regrouped as one piece
      per attribute. */
  lemma ExtInfOfFour(a0: Attr, a1: Attr, a2: Attr, a3: Attr, title: string)
    ensures ExtInf("-1", [a0, a1, a2, a3], title)
         == "#EXTINF:-1" + AttrField(a0) + AttrField(a1) + AttrField(a2) + AttrField(a3) + "," + title
  {
    AttrTextOfFour(a0, a1, a2, a3);
    assert "#EXTINF:" + "-1" == "#EXTINF:-1";
    Regroup7("#EXTINF:" + "-1", AttrField(a0), AttrField(a1), AttrField(a2), AttrField(a3), ",", title);
  }

  // Proof helper: reassociation of the seven pieces of an `#EXTINF` line.
  lemma Regroup7(h: string, f0: string, f1: string, f2: string, f3: string, c: string, t: string)
    ensures h + (f0 + f1 + f2 + f3) + c + t == h + f0 + f1 + f2 + f3 + c + t
  {
  }

  /** The entry lines of a list of items: for each item, in order, its
      `#EXTINF` line and then its URL line. */
  function Entries<T>(items: seq<T>, extinf: T -> string, url: T -> string): (lines: seq<string>)
    ensures |lines| == 2 * |items|
  {
    if items == [] then [] else [extinf(items[0]), url(items[0])] + Entries(items[1..], extinf, url)
  }

  /** Item k owns lines 2k (its `#EXTINF` line) and 2k + 1 (its URL). */
  lemma {:induction false} EntriesAt<T>(items: seq<T>, extinf: T -> string, url: T -> string, k: nat)
    requires k < |items|
    ensures Entries(items, extinf, url)[2 * k] == extinf(items[k])
    ensures Entries(items, extinf, url)[2 * k + 1] == url(items[k])
  {
    if k > 0 {
      EntriesAt(items[1..], extinf, url, k - 1);
      assert items[1..][k - 1] == items[k];
    }
  }

  lemma {:induction false} EntriesAppend<T>(a: seq<T>, b: seq<T>, extinf: T -> string, url: T -> string)
    ensures Entries(a + b, extinf, url) == Entries(a, extinf, url) + Entries(b, extinf, url)
  {
    if a == [] {
      assert a + b == b;
    } else {
      assert (a + b)[1..] == a[1..] + b;
      EntriesAppend(a[1..], b, extinf, url);
    }
  }

  lemma EntriesOfOne<T>(x: T, extinf: T -> string, url: T -> string)
    ensures Entries([x], extinf, url) == [extinf(x), url(x)]
  {
    assert [x][1..] == [];
  }

  /** Read back line by line, a playlist of newline-free lines is the
      header followed by each item's `#EXTINF` line and URL, in order. */
  lemma EntriesReadBack<T>(header: string, items: seq<T>, extinf: T -> string, url: T -> string)
    requires NoNewline(header)
    requires forall k :: 0 <= k < |items| ==> NoNewline(extinf(items[k])) && NoNewline(url(items[k]))
    ensures SplitLines(Playlist(header, Entries(items, extinf, url))) == [header] + Entries(items, extinf, url)
    ensures |SplitLines(Playlist(header, Entries(items, extinf, url)))| == 1 + 2 * |items|
    ensures forall k :: 0 <= k < |items| ==>
      SplitLines(Playlist(header, Entries(items, extinf, url)))[1 + 2 * k] == extinf(items[k])
      && SplitLines(Playlist(header, Entries(items, extinf, url)))[2 + 2 * k] == url(items[k])
  {
    var lines := [header] + Entries(items, extinf, url);
    forall j | 0 <= j < |lines| ensures NoNewline(lines[j]) {
      if j > 0 {
        var k := (j - 1) / 2;
        assert j == 1 + 2 * k || j == 2 + 2 * k;
        EntriesAt(items, extinf, url, k);
      }
    }
    SplitJoinLines(lines);
    forall k | 0 <= k < |items|
      ensures lines[1 + 2 * k] == extinf(items[k]) && lines[2 + 2 * k] == url(items[k])
    {
      EntriesAt(items, extinf, url, k);
    }
  }
}
