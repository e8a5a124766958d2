/**
 * The combined research report persisted as `raw_research`
 * (index.js:295-322): a summary header with the source counts, the two
 * phases' texts, and the merged citations as a numbered list.
 */
module Report {
  import opened Strings

  /** Line `k` of the citation list: `${i + 1}. ${url}` with `k == i + 1`. */
  function NumberedLine(k: nat, url: string): string {
    NatToString(k) + ". " + url
  }

  /** The lines for `urls`, numbered from `k`, joined with "\n". */
  function ListingFrom(urls: seq<string>, k: nat): string
    decreases |urls|
  {
    if urls == [] then ""
    else if |urls| == 1 then NumberedLine(k, urls[0])
    else NumberedLine(k, urls[0]) + "\n" + ListingFrom(urls[1..], k + 1)
  }

  /** `urls.map((url, i) => `${i + 1}. ${url}`).join('\n')`. */
  function Listing(urls: seq<string>): string {
    ListingFrom(urls, 1)
  }

  predicate SingleLine(s: string) {
    '\n' !in s
  }

  lemma NumberedLineIsSingleLine(k: nat, url: string)
    requires SingleLine(url)
    ensures SingleLine(NumberedLine(k, url))
  {
    var digits := NatToString(k);
    assert forall i :: 0 <= i < |digits| ==> digits[i] != '\n';
  }

  /**
   * When no URL holds a line break, the listing splits back into exactly one
   * line per URL, line `i` reading "`i + k`. url".
   */
  lemma {:induction false} ListingFromLines(urls: seq<string>, k: nat)
    requires |urls| > 0
    requires forall i :: 0 <= i < |urls| ==> SingleLine(urls[i])
    ensures |Split(ListingFrom(urls, k), '\n')| == |urls|
    ensures forall i :: 0 <= i < |urls| ==> Split(ListingFrom(urls, k), '\n')[i] == NumberedLine(k + i, urls[i])
  {
    NumberedLineIsSingleLine(k, urls[0]);
    if |urls| == 1 {
      SplitNoSeparator(NumberedLine(k, urls[0]), '\n');
    } else {
      ListingFromLines(urls[1..], k + 1);
      SplitAtSeparator(NumberedLine(k, urls[0]), '\n', ListingFrom(urls[1..], k + 1));
    }
  }

  /** The listing has one line per merged citation, numbered from 1. */
  lemma ListingLines(urls: seq<string>)
    requires forall i :: 0 <= i < |urls| ==> SingleLine(urls[i])
    ensures urls == [] ==> Listing(urls) == ""
    ensures urls != [] ==> |Split(Listing(urls), '\n')| == |urls|
    ensures forall i :: 0 <= i < |urls| ==> Split(Listing(urls), '\n')[i] == NumberedLine(i + 1, urls[i])
  {
    if urls != [] {
      ListingFromLines(urls, 1);
    }
  }

  /** `job.niche || 'Not specified'` as the report's header shows it. */
  function NicheLabel(niche: string): string {
    if niche != "" then niche else "Not specified"
  }

  function TotalSourcesLine(total: nat): string {
    "- **Total Sources Analyzed:** " + NatToString(total) + "\n"
  }

  function CitationsHeading(total: nat): string {
    "## All Citations (" + NatToString(total) + " sources)\n\n"
  }

  /** The report's title and the product and niche lines. */
  function SummaryHead(productName: string, niche: string): string {
    "\n# PRISM INTELLIGENCE ENGINE - COMPLETE MARKET RESEARCH\n\n## Research Summary\n"
      + "- **Product:** " + productName + "\n"
      + "- **Niche:** " + NicheLabel(niche) + "\n"
  }

  /** The per-phase source counts. */
  function PhaseCounts(phase1Count: nat, phase2Count: nat): string {
    "- **Phase 1 (Behavioral):** " + NatToString(phase1Count) + " sources\n"
      + "- **Phase 2 (Demographic):** " + NatToString(phase2Count) + " sources\n"
  }

  /** The summary block at the top of the report. */
  function SummaryBlock(productName: string, niche: string, phase1Count: nat, phase2Count: nat, total: nat): string {
    SummaryHead(productName, niche) + TotalSourcesLine(total) + PhaseCounts(phase1Count, phase2Count)
  }

  /** The two phases' research texts, each under its own heading. */
  function PhasesBlock(phase1Content: string, phase2Content: string): string {
    "\n---\n\n# PHASE 1: EMOTIONAL & BEHAVIORAL RESEARCH\n\n" + phase1Content
      + "\n\n---\n\n# PHASE 2: DEMOGRAPHIC & PSYCHOGRAPHIC PROFILES\n\n" + phase2Content
      + "\n\n---\n\n"
  }

  /** The citation section that closes the report. */
  function CitationsBlock(merged: seq<string>): string {
    CitationsHeading(|merged|) + Listing(merged) + "\n"
  }

  /** `combinedResearch`. */
  function CombinedResearch(productName: string, niche: string, phase1Content: string, phase1Citations: seq<string>,
                            phase2Content: string, phase2Citations: seq<string>, merged: seq<string>): string
  {
    SummaryBlock(productName, niche, |phase1Citations|, |phase2Citations|, |merged|)
      + PhasesBlock(phase1Content, phase2Content)
      + CitationsBlock(merged)
  }

  /**
   * The report's "Total Sources Analyzed" line, right after the title,
   * product and niche lines, gives the merged list's length, and the report
   * ends with the "All Citations" heading giving that length, followed by
   * the numbered listing of the merged list.
   */
  lemma ReportCountsMergedCitations(productName: string, niche: string, phase1Content: string, phase1Citations: seq<string>,
                                    phase2Content: string, phase2Citations: seq<string>, merged: seq<string>)
    ensures var report := CombinedResearch(productName, niche, phase1Content, phase1Citations, phase2Content, phase2Citations, merged);
      && OccursAt(report, TotalSourcesLine(|merged|), |SummaryHead(productName, niche)|)
      && var block := CitationsHeading(|merged|) + Listing(merged) + "\n";
      && |block| <= |report|
      && report[|report| - |block|..] == block
  {
    var header := SummaryHead(productName, niche);
    var total := TotalSourcesLine(|merged|);
    var counts := PhaseCounts(|phase1Citations|, |phase2Citations|);
    var phases := PhasesBlock(phase1Content, phase2Content);
    var citations := CitationsBlock(merged);
    var report := header + total + counts + phases + citations;
    assert report == header + total + (counts + phases + citations);
    assert report[|header|..|header| + |total|] == total;
    var before := header + total + counts + phases;
    assert report == before + citations;
    assert report[|before|..] == citations;
  }
}
