/** The report text: the ranked section builder (`blockTop`) and the per-site
    message template of the daily job. */
module Report {
  import opened Text
  import opened Html
  import opened NumberFormat
  import opened SearchAnalytics

  /** `fmtPct` and `fmtPos` render floating-point values with `toFixed(2)`;
      they are not modelled and are supplied by the caller. */
  datatype FloatFormat = FloatFormat(pct: real -> string, pos: real -> string)

  /** The fixed-point renderings never contain a line break. */
  ghost predicate SingleLine(f: FloatFormat)
  {
    forall x: real :: '\n' !in f.pct(x) && '\n' !in f.pos(x)
  }

  const EmDash := "\U{2014}"
  const Bullet := "\U{2022}"
  const NoData := "(no data)"

  function TitleLine(title: string): string
  {
    "<b>" + title + "</b>"
  }

  /** `${i + 1}. ${escapeHtml(key)} — … clicks, … impr, ctr, pos …`. */
  function RankLine(rank: nat, it: Row, f: FloatFormat): string
  {
    RankPrefix(rank, it.key)
    + (" " + EmDash + " " + FmtNum(it.clicks) + " clicks, " + FmtNum(it.impressions) + " impr, "
       + f.pct(it.ctr) + ", pos " + f.pos(it.position))
  }

  /** The rank and the escaped key that begin a ranked line. */
  function RankPrefix(rank: nat, key: string): string
  {
    NatToString(rank) + ". " + EscapeHtml(key)
  }

  /** One line per item, ranked from 1 in input order. */
  function RankLines(items: seq<Row>, f: FloatFormat): (lines: seq<string>)
    ensures |lines| == |items|
    ensures forall i :: 0 <= i < |items| ==> lines[i] == RankLine(i + 1, items[i], f)
  {
    seq(|items|, i requires 0 <= i < |items| => RankLine(i + 1, items[i], f))
  }

  /** `blockTop(title, items)`. */
  function BlockTop(title: string, items: seq<Row>, f: FloatFormat): string
  {
    if |items| == 0 then TitleLine(title) + "\n" + NoData + "\n"
    else TitleLine(title) + "\n" + Join(RankLines(items, f), '\n') + "\n"
  }

  /** An empty list renders the placeholder instead of an empty section. */
  lemma BlockTopEmpty(title: string, f: FloatFormat)
    ensures BlockTop(title, [], f) == "<b>" + title + "</b>\n(no data)\n"
  {
  }

  lemma BlockTopEndsWithNewline(title: string, items: seq<Row>, f: FloatFormat)
    ensures HasSuffix(BlockTop(title, items, f), "\n")
  {
    var b := BlockTop(title, items, f);
    assert b[|b| - 1] == '\n';
    assert b[|b| - 1..] == "\n";
  }

  lemma FmtNumNoNewline(n: nat)
    ensures '\n' !in FmtNum(n)
  {
    FmtNumChars(n);
    var s := FmtNum(n);
    assert forall i :: 0 <= i < |s| ==> s[i] != '\n';
  }

  /** A ranked line is one line when its key is. */
  lemma RankLineNoNewline(rank: nat, it: Row, f: FloatFormat)
    requires '\n' !in it.key && SingleLine(f)
    ensures '\n' !in RankLine(rank, it, f)
  {
    NatToStringNoNewline(rank);
    EscapeHtmlExcludes(it.key, '\n');
    FmtNumNoNewline(it.clicks);
    FmtNumNoNewline(it.impressions);
    assert '\n' !in f.pct(it.ctr) && '\n' !in f.pos(it.position);
  }

  lemma RankLinesNoNewline(items: seq<Row>, f: FloatFormat)
    requires SingleLine(f)
    requires forall i :: 0 <= i < |items| ==> '\n' !in items[i].key
    ensures forall i :: 0 <= i < |items| ==> '\n' !in RankLines(items, f)[i]
  {
    forall i | 0 <= i < |items| ensures '\n' !in RankLines(items, f)[i] {
      RankLineNoNewline(i + 1, items[i], f);
    }
  }

  lemma RankLineStartsWithKey(rank: nat, it: Row, f: FloatFormat)
    ensures HasPrefix(RankLine(rank, it, f), RankPrefix(rank, it.key))
  {
    var p := RankPrefix(rank, it.key);
    assert RankLine(rank, it, f)[..|p|] == p;
  }

  /** A non-empty section is its title line and its ranked lines, each
      terminated by a line break. */
  lemma BlockTopUnlines(title: string, items: seq<Row>, f: FloatFormat)
    requires |items| > 0
    ensures BlockTop(title, items, f) == Unlines([TitleLine(title)] + RankLines(items, f))
  {
    var t, lines := TitleLine(title), RankLines(items, f);
    JoinUnlines(lines);
    assert ([t] + lines)[0] == t && ([t] + lines)[1..] == lines;
    assert BlockTop(title, items, f) == t + "\n" + (Join(lines, '\n') + "\n");
  }

  /** Read line by line, a non-empty section is its title line followed by
      exactly one line per item, in input order, each starting with its rank
      and the escaped key, and a final line break. */
  lemma BlockTopLines(title: string, items: seq<Row>, f: FloatFormat)
    requires |items| > 0
    requires '\n' !in title && SingleLine(f)
    requires forall i :: 0 <= i < |items| ==> '\n' !in items[i].key
    ensures var lines := Split(BlockTop(title, items, f), '\n');
      && lines == [TitleLine(title)] + RankLines(items, f) + [""]
      && (forall i :: 0 <= i < |items| ==>
            HasPrefix(lines[i + 1], NatToString(i + 1) + ". " + EscapeHtml(items[i].key)))
  {
    var lines := [TitleLine(title)] + RankLines(items, f);
    RankLinesNoNewline(items, f);
    BlockTopUnlines(title, items, f);
    SplitUnlines(lines);
    forall i | 0 <= i < |items|
      ensures HasPrefix(lines[i + 1], RankPrefix(i + 1, items[i].key))
    {
      RankLineStartsWithKey(i + 1, items[i], f);
    }
  }

  /** Read line by line, an empty section is its title line and the placeholder. */
  lemma BlockTopEmptyLines(title: string, f: FloatFormat)
    requires '\n' !in title
    ensures Split(BlockTop(title, [], f), '\n') == [TitleLine(title), NoData, ""]
  {
    var t := TitleLine(title);
    var lines := [t, NoData];
    assert lines[1..] == [NoData] && [NoData][1..] == [];
    assert Unlines([NoData]) == NoData + "\n";
    assert Unlines(lines) == t + "\n" + (NoData + "\n");
    assert BlockTop(title, [], f) == t + "\n" + NoData + "\n" == Unlines(lines);
    assert '\n' !in t && '\n' !in NoData;
    SplitUnlines(lines);
    assert lines + [""] == [t, NoData, ""];
  }

  function TotalsSection(t: Totals, f: FloatFormat): string
  {
    "<b>Totals</b>\n"
    + Bullet + " Clicks: " + FmtNum(t.clicks) + "\n"
    + Bullet + " Impressions: " + FmtNum(t.impressions) + "\n"
    + Bullet + " Avg CTR: " + f.pct(t.ctr) + "\n"
    + Bullet + " Avg Position: " + f.pos(t.position) + "\n"
  }

  const MessageTitle := "<b>GSC Daily Update</b>\n"

  /** The message template, around its already rendered pieces. */
  function MessageOf(site: string, date: string, totals: string,
                     queries: string, pages: string, countries: string): string
  {
    MessageTitle + "<b>Property:</b> " + site + "\n"
    + "<b>Date:</b> " + date + "\n"
    + "\n"
    + totals
    + "\n"
    + queries + "\n"
    + pages + "\n"
    + countries + "\n"
  }

  /** The message sent for one site. */
  function DailyMessage(siteUrl: string, date: string, totals: Totals,
                        queries: seq<Row>, pages: seq<Row>, countries: seq<Row>,
                        f: FloatFormat): string
  {
    MessageOf(EscapeHtml(siteUrl), date, TotalsSection(totals, f),
              BlockTop("Top Queries", queries, f),
              BlockTop("Top Pages", pages, f),
              BlockTop("Top Countries", countries, f))
  }

  lemma PrefixShrink(m: string, x: string, y: string)
    requires HasPrefix(m, x + y)
    ensures HasPrefix(m, x)
  {
    assert m[..|x|] == (x + y)[..|x|];
  }

  /** The piece `p` appended to `x` occurs in every extension of `x + p`. */
  lemma OccursAfter(m: string, x: string, p: string)
    requires HasPrefix(m, x + p)
    ensures OccursAt(m, p, |x|)
  {
    assert m[|x|..|x| + |p|] == (x + p)[|x|..|x| + |p|];
  }

  /** The template starts with its title and contains, in this order and
      without overlap, each of its pieces; it ends with a line break. */
  lemma MessageOfLayout(site: string, date: string, tot: string, bq: string, bp: string, bc: string)
    returns (iSite: nat, iDate: nat, iTotals: nat, iQueries: nat, iPages: nat, iCountries: nat)
    ensures var msg := MessageOf(site, date, tot, bq, bp, bc);
      && HasPrefix(msg, MessageTitle)
      && OccursAt(msg, site, iSite)
      && OccursAt(msg, date, iDate)
      && OccursAt(msg, tot, iTotals)
      && OccursAt(msg, bq, iQueries)
      && OccursAt(msg, bp, iPages)
      && OccursAt(msg, bc, iCountries)
      && iSite + |site| <= iDate
      && iDate + |date| <= iTotals
      && iTotals + |tot| <= iQueries
      && iQueries + |bq| <= iPages
      && iPages + |bp| <= iCountries
      && iCountries + |bc| < |msg|
      && HasSuffix(msg, "\n")
  {
    var x0 := MessageTitle + "<b>Property:</b> ";
    var x1 := x0 + site;
    var x2 := x1 + "\n";
    var x3 := x2 + "<b>Date:</b> ";
    var x4 := x3 + date;
    var x5 := x4 + "\n";
    var x6 := x5 + "\n";
    var x7 := x6 + tot;
    var x8 := x7 + "\n";
    var x9 := x8 + bq;
    var x10 := x9 + "\n";
    var x11 := x10 + bp;
    var x12 := x11 + "\n";
    var x13 := x12 + bc;
    var msg := x13 + "\n";
    assert msg == MessageOf(site, date, tot, bq, bp, bc);
    iSite, iDate, iTotals, iQueries, iPages, iCountries := |x0|, |x3|, |x6|, |x8|, |x10|, |x12|;
    assert HasPrefix(msg, msg);
    PrefixShrink(msg, x13, "\n");
    OccursAfter(msg, x12, bc);
    PrefixShrink(msg, x12, bc);
    PrefixShrink(msg, x11, "\n");
    OccursAfter(msg, x10, bp);
    PrefixShrink(msg, x10, bp);
    PrefixShrink(msg, x9, "\n");
    OccursAfter(msg, x8, bq);
    PrefixShrink(msg, x8, bq);
    PrefixShrink(msg, x7, "\n");
    OccursAfter(msg, x6, tot);
    PrefixShrink(msg, x6, tot);
    PrefixShrink(msg, x5, "\n");
    PrefixShrink(msg, x4, "\n");
    OccursAfter(msg, x3, date);
    PrefixShrink(msg, x3, date);
    PrefixShrink(msg, x2, "<b>Date:</b> ");
    PrefixShrink(msg, x1, "\n");
    OccursAfter(msg, x0, site);
    PrefixShrink(msg, x0, site);
    PrefixShrink(msg, MessageTitle, "<b>Property:</b> ");
    assert msg[|msg| - 1..] == "\n";
  }

  /** The message starts with its title and contains, in this order and
      without overlap, the escaped site URL, the date, the totals section
      and the query, page and country sections; it ends with a line break. */
  lemma MessageLayout(siteUrl: string, date: string, totals: Totals,
                      queries: seq<Row>, pages: seq<Row>, countries: seq<Row>, f: FloatFormat)
    returns (iSite: nat, iDate: nat, iTotals: nat, iQueries: nat, iPages: nat, iCountries: nat)
    ensures var msg := DailyMessage(siteUrl, date, totals, queries, pages, countries, f);
      && HasPrefix(msg, MessageTitle)
      && OccursAt(msg, EscapeHtml(siteUrl), iSite)
      && OccursAt(msg, date, iDate)
      && OccursAt(msg, TotalsSection(totals, f), iTotals)
      && OccursAt(msg, BlockTop("Top Queries", queries, f), iQueries)
      && OccursAt(msg, BlockTop("Top Pages", pages, f), iPages)
      && OccursAt(msg, BlockTop("Top Countries", countries, f), iCountries)
      && iSite + |EscapeHtml(siteUrl)| <= iDate
      && iDate + |date| <= iTotals
      && iTotals + |TotalsSection(totals, f)| <= iQueries
      && iQueries + |BlockTop("Top Queries", queries, f)| <= iPages
      && iPages + |BlockTop("Top Pages", pages, f)| <= iCountries
      && iCountries + |BlockTop("Top Countries", countries, f)| < |msg|
      && HasSuffix(msg, "\n")
  {
    iSite, iDate, iTotals, iQueries, iPages, iCountries := MessageOfLayout(
      EscapeHtml(siteUrl), date, TotalsSection(totals, f),
      BlockTop("Top Queries", queries, f), BlockTop("Top Pages", pages, f),
      BlockTop("Top Countries", countries, f));
  }
}
