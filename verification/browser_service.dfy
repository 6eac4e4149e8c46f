/**
 * The pure helpers of `BrowserService`: the RAG source label of a URL, the
 * "1. Title, 2. Title" text shown after a search, the bounded page history
 * with its page-index cache, going back one page, and picking a link by
 * spoken text or number.
 */
module BrowserService {
  import opened Wrappers
  import opened Text
  import opened Values
  import opened Seqs

  /** A link dict: its `href` and `text` entries, absent or a string. */
  datatype Link = Link(href: Option<string>, text: Option<string>)

  // ---------------------------------------------------------------- labels

  predicate SafeChar(c: char) {
    ('a' <= c <= 'z') || ('A' <= c <= 'Z') || ('0' <= c <= '9') || c == '.' || c == '_' || c == '-'
  }

  /** `_sanitize_source_for_rag`: every other character becomes '_', and a result over 100 characters keeps 100 and gains "..". */
  function SanitizeSource(url: string): (r: string)
    ensures forall i :: 0 <= i < |r| ==> SafeChar(r[i])
    ensures |r| <= 102
    ensures |url| <= 100 ==> |r| == |url|
    ensures |url| > 100 ==> |r| == 102 && r[100..] == ".."
    ensures forall i :: 0 <= i < |url| && i < 100 ==> r[i] == (if SafeChar(url[i]) then url[i] else '_')
  {
    var s := seq(|url|, i requires 0 <= i < |url| => if SafeChar(url[i]) then url[i] else '_');
    if |s| > 100 then s[..100] + ".." else s
  }

  /** A label of at most 100 characters is its own label. */
  lemma SanitizeIdempotent(url: string)
    requires |url| <= 100
    ensures SanitizeSource(SanitizeSource(url)) == SanitizeSource(url)
  {
    var r := SanitizeSource(url);
    assert |SanitizeSource(r)| == |r|;
    forall i | 0 <= i < |r| ensures SanitizeSource(r)[i] == r[i] {
      assert SafeChar(r[i]);
    }
  }

  // ------------------------------------------------------- numbered links

  /** `(link.get("text") or link.get("href") or "")`. */
  function Label(link: Link): string {
    if link.text.Some? && link.text.value != "" then link.text.value
    else if link.href.Some? && link.href.value != "" then link.href.value
    else ""
  }

  /** `s.rstrip()`. */
  function RStrip(s: string): (r: string)
    ensures r <= s && (|r| > 0 ==> !IsSpace(r[|r| - 1]))
  {
    s[..TrailingEnd(s)]
  }

  /**
   * The title shown for link number `i`: its label stripped, cut to
   * `maxLen - 3` characters plus "..." when too long, or "link i" when empty.
   */
  function Title(link: Link, i: int, maxLen: int): (r: string)
    ensures r != ""
    ensures var raw := Strip(Label(link));
      && (|raw| > maxLen && maxLen >= 3 ==> |r| <= maxLen && EndsWith(r, "...") && r[..|r| - 3] <= raw)
      && (raw != "" && |raw| <= maxLen ==> r == raw)
      && (raw == "" && maxLen >= 0 ==> r == "link " + IntToString(i))
  {
    var raw := Strip(Label(link));
    var text := if |raw| > maxLen then RStrip(SliceTo(raw, maxLen - 3)) + "..." else raw;
    if text == "" then "link " + IntToString(i) else text
  }

  /** The entry "i. Title" for link number `i`. */
  function Entry(link: Link, i: int, maxLen: int): string {
    IntToString(i) + ". " + Title(link, i, maxLen)
  }

  /** The entries for the links, numbered from `start`. */
  function Entries(links: seq<Link>, maxLen: int, start: int): seq<string> {
    seq(|links|, k requires 0 <= k < |links| => Entry(links[k], start + k, maxLen))
  }

  /** `" ".join(parts)`. */
  function Join(parts: seq<string>, sep: string): (r: string)
    ensures |parts| > 0 ==> parts[0] <= r
    decreases |parts|
  {
    if |parts| == 0 then ""
    else if |parts| == 1 then parts[0]
    else parts[0] + sep + Join(parts[1..], sep)
  }

  /** `_format_numbered_links` with `search_results_numbered_count` = `n`. */
  function FormatNumberedLinks(links: seq<Link>, n: int, maxLen: int): (r: string)
    ensures r == "" <==> n <= 0 || links == []
    ensures n > 0 && links != [] ==>
      r == Join(Entries(links[..Min(n, |links|)], maxLen, 1), " ")
  {
    if n <= 0 || links == [] then ""
    else
      var shown := Entries(links[..Min(n, |links|)], maxLen, 1);
      assert shown[0] == Entry(links[0], 1, maxLen);
      shown[0]
        + (if |shown| > 1 then " " + Join(shown[1..], " ") else "")
  }

  /** The text holds exactly min(n, len) entries, the k-th numbered k and titled from the k-th link. */
  lemma NumberedEntries(links: seq<Link>, n: int, maxLen: int)
    requires n > 0 && links != []
    ensures var shown := Entries(links[..Min(n, |links|)], maxLen, 1);
      && |shown| == Min(n, |links|)
      && forall k :: 0 <= k < |shown| ==> shown[k] == IntToString(k + 1) + ". " + Title(links[k], k + 1, maxLen)
  {
    var shown := Entries(links[..Min(n, |links|)], maxLen, 1);
    forall k | 0 <= k < |shown|
      ensures shown[k] == IntToString(k + 1) + ". " + Title(links[k], k + 1, maxLen)
    {
      EntryAt(links, Min(n, |links|), maxLen, k);
    }
  }

  lemma EntryAt(links: seq<Link>, m: nat, maxLen: int, k: nat)
    requires k < m <= |links|
    ensures Entries(links[..m], maxLen, 1)[k] == Entry(links[k], k + 1, maxLen)
  {
    assert links[..m][k] == links[k];
  }

  // --------------------------------------------------------- page history

  /** The title and links cached for one page. */
  datatype PageIndex = PageIndex(title: string, links: seq<Link>)

  /** The page history (most recent last), its bound, and the page-index cache. */
  datatype Pages = Pages(history: seq<string>, historyMax: int, cache: map<string, PageIndex>)

  /** `max(2, int(config.get("page_history_max", 10)))`. */
  function NewPages(configured: int): (p: Pages)
    ensures p.historyMax >= 2 && p.history == [] && p.cache == map[]
    ensures configured >= 2 ==> p.historyMax == configured
  {
    Pages([], Max(2, configured), map[])
  }

  predicate NoAdjacentRepeat(h: seq<string>) {
    forall i :: 0 < i < |h| ==> h[i - 1] != h[i]
  }

  /** Every entry is non-empty and already stripped. */
  predicate CleanEntries(h: seq<string>) {
    forall i :: 0 <= i < |h| ==> h[i] != "" && Strip(h[i]) == h[i]
  }

  /** History entries are clean, no two neighbours are equal, and the bound holds. */
  predicate HistoryValid(p: Pages) {
    && p.historyMax >= 2
    && |p.history| <= p.historyMax
    && NoAdjacentRepeat(p.history)
    && CleanEntries(p.history)
  }

  /** `_push_page_history(url)`. */
  function PushPage(p: Pages, url: string): (r: Pages)
    ensures r.historyMax == p.historyMax
    ensures var u := Strip(url);
      u == "" || (p.history != [] && p.history[|p.history| - 1] == u) ==> r == p
    ensures var u := Strip(url);
      p.historyMax >= 1 && u != "" && (p.history == [] || p.history[|p.history| - 1] != u) ==>
        && r.history != [] && r.history[|r.history| - 1] == u
        && (|p.history| + 1 <= p.historyMax ==> r.history == p.history + [u] && r.cache == p.cache)
        && (|p.history| + 1 > p.historyMax ==>
              r.history == p.history[1..] + [u] && r.cache == p.cache - {p.history[0]})
  {
    var u := Strip(url);
    if u == "" || (p.history != [] && p.history[|p.history| - 1] == u) then p
    else
      var h := p.history + [u];
      if |h| > p.historyMax then p.(history := h[1..], cache := p.cache - {h[0]})
      else p.(history := h)
  }

  lemma AppendKeepsNoRepeat(h: seq<string>, u: string)
    requires NoAdjacentRepeat(h) && (h == [] || h[|h| - 1] != u)
    ensures NoAdjacentRepeat(h + [u]) && NoAdjacentRepeat((h + [u])[1..])
  {
    var h' := h + [u];
    forall i | 0 < i < |h'| ensures h'[i - 1] != h'[i] {
      if i < |h| {
        assert h'[i - 1] == h[i - 1] && h'[i] == h[i];
      }
    }
    forall i | 0 < i < |h'[1..]| ensures h'[1..][i - 1] != h'[1..][i] {
      assert h'[1..][i - 1] == h'[i] && h'[1..][i] == h'[i + 1];
    }
  }

  lemma AppendKeepsClean(h: seq<string>, u: string)
    requires CleanEntries(h) && u != "" && Strip(u) == u
    ensures CleanEntries(h + [u]) && CleanEntries((h + [u])[1..])
  {
    var h' := h + [u];
    forall i | 0 <= i < |h'| ensures h'[i] != "" && Strip(h'[i]) == h'[i] {
      if i < |h| {
        assert h'[i] == h[i];
      }
    }
  }

  /** Pushing keeps the history valid: bounded, clean, with no equal neighbours. */
  lemma PushKeepsHistoryValid(p: Pages, url: string)
    requires HistoryValid(p)
    ensures HistoryValid(PushPage(p, url))
  {
    var u := Strip(url);
    if u != "" && (p.history == [] || p.history[|p.history| - 1] != u) {
      StripIdempotent(url);
      AppendKeepsNoRepeat(p.history, u);
      AppendKeepsClean(p.history, u);
    }
  }

  /** `_trim_page_index_cache`: keep only pages still in the history. */
  function TrimCache(p: Pages): (r: Pages)
    ensures r.history == p.history && r.historyMax == p.historyMax
    ensures forall k :: k in r.cache ==> k in p.history
    ensures forall k :: k in p.cache && k in p.history ==> k in r.cache && r.cache[k] == p.cache[k]
    ensures r.cache.Keys <= p.cache.Keys
  {
    p.(cache := map k | k in p.cache && k in p.history :: p.cache[k])
  }

  /** Trimming twice removes nothing more. */
  lemma TrimIdempotent(p: Pages)
    ensures TrimCache(TrimCache(p)) == TrimCache(p)
  {
  }

  /** `get_previous_page_url`. */
  function PreviousPage(p: Pages): (r: Option<string>)
    ensures r.None? <==> |p.history| < 2
    ensures r.Some? ==> r.value == p.history[|p.history| - 2]
  {
    if |p.history| < 2 then None else Some(p.history[|p.history| - 2])
  }

  /** After moving to a new page, going back leads to the page before it. */
  lemma PreviousAfterPush(p: Pages, url: string)
    requires HistoryValid(p) && p.history != []
    requires Strip(url) != "" && p.history[|p.history| - 1] != Strip(url)
    ensures PreviousPage(PushPage(p, url)) == Some(p.history[|p.history| - 1])
  {
  }

  // --------------------------------------------------------- link matching

  predicate IsLinkSep(c: char) {
    IsSpace(c) || c == '-' || c == '_'
  }

  /** The `for w in user_words` loop: each word occurs in the link text or is one of its words. */
  predicate AllWordsFound(ws: seq<string>, lt: string, linkWords: seq<string>)
    decreases |ws|
  {
    |ws| == 0 || ((Contains(lt, ws[0]) || (linkWords != [] && ws[0] in linkWords)) && AllWordsFound(ws[1..], lt, linkWords))
  }

  /** `_link_text_partial_match(user_phrase, link_text)`. */
  predicate PartialMatch(userPhrase: string, linkText: string) {
    var up := Norm(userPhrase);
    var lt := Norm(linkText);
    if up == "" then false
    else if lt == "" then up == lt
    else if up == lt || Contains(lt, up) || Contains(up, lt) then true
    else
      var userWords := Words(up, IsSpace);
      userWords == [] || AllWordsFound(userWords, lt, Words(lt, IsLinkSep))
  }

  lemma {:induction false} AllWordsFoundIff(ws: seq<string>, lt: string, linkWords: seq<string>)
    requires forall x :: x in linkWords ==> Contains(lt, x)
    ensures AllWordsFound(ws, lt, linkWords) <==> forall w :: w in ws ==> Contains(lt, w)
    decreases |ws|
  {
    if |ws| > 0 {
      AllWordsFoundIff(ws[1..], lt, linkWords);
      assert forall w :: w in ws <==> w == ws[0] || w in ws[1..];
    }
  }

  /**
   * A phrase partially matches a link text exactly when both are non-empty
   * and one contains the other or every word of the phrase occurs in the
   * link text. A phrase word equal to a link word always occurs in the link
   * text, so the word-list test never decides anything on its own.
   */
  lemma PartialMatchIff(userPhrase: string, linkText: string)
    ensures PartialMatch(userPhrase, linkText) <==>
      var up := Norm(userPhrase);
      var lt := Norm(linkText);
      && up != "" && lt != ""
      && (Contains(lt, up) || Contains(up, lt) || forall w :: w in Words(up, IsSpace) ==> Contains(lt, w))
  {
    var lt := Norm(linkText);
    WordsAreSubstrings(lt, IsLinkSep);
    AllWordsFoundIff(Words(Norm(userPhrase), IsSpace), lt, Words(lt, IsLinkSep));
  }

  /** The index of the first element satisfying `p`. */
  function FirstIndex<T>(s: seq<T>, p: T -> bool): (r: Option<nat>)
    ensures r.Some? ==> r.value < |s| && p(s[r.value]) && forall j :: 0 <= j < r.value ==> !p(s[j])
    ensures r.None? ==> forall j :: 0 <= j < |s| ==> !p(s[j])
    decreases |s|
  {
    if |s| == 0 then None
    else if p(s[0]) then Some(0)
    else match FirstIndex(s[1..], p)
      case None => None
      case Some(i) => Some(i + 1)
  }

  /** A link's own text, stripped: `(link.get("text") or "").strip()`. */
  function OwnText(link: Link): string {
    Strip(if link.text.Some? then link.text.value else "")
  }

  /** One lower-cased phrase contains the other. */
  predicate ExactMatch(phraseLower: string, link: Link) {
    var ltl := Lower(OwnText(link));
    phraseLower == ltl || Contains(ltl, phraseLower) || Contains(phraseLower, ltl)
  }

  /** The spoken intent: `link_index` as loaded, `link_text` absent or a string. */
  datatype Intent = Intent(linkIndex: Value, linkText: Option<string>)

  /**
   * `_match_link(links, intent, use_selected)`: the selected link when asked
   * for, else the first exact then the first partial match of a non-empty
   * link text, else link number `link_index` counted from 1.
   */
  function MatchLink(links: seq<Link>, intent: Intent, useSelected: bool, selected: Option<Link>): (r: Option<Link>)
    ensures useSelected && selected.Some? ==> r == selected
    ensures r.Some? && !(useSelected && selected.Some?) ==> r.value in links
  {
    if useSelected && selected.Some? then selected
    else
      var text := Strip(if intent.linkText.Some? then intent.linkText.value else "");
      if text != "" then
        var lower := Lower(text);
        match FirstIndex(links, (l: Link) => ExactMatch(lower, l))
        case Some(i) => Some(links[i])
        case None =>
          match FirstIndex(links, (l: Link) => !ExactMatch(lower, l) && PartialMatch(text, OwnText(l)))
          case Some(i) => Some(links[i])
          case None => None
      else if intent.linkIndex.Null? then None
      else
        match PyInt(intent.linkIndex)
        case Ok(idx) => if 1 <= idx <= |links| then Some(links[idx - 1]) else None
        case Err(_) => None
  }

  /** `FirstIndex` finds the least index whose element satisfies `p`. */
  lemma {:induction false} FirstIndexAt<T>(s: seq<T>, p: T -> bool, i: nat)
    requires i < |s| && p(s[i]) && forall j :: 0 <= j < i ==> !p(s[j])
    ensures FirstIndex(s, p) == Some(i)
    decreases i
  {
    if i > 0 {
      assert !p(s[0]);
      assert forall j :: 0 <= j < i - 1 ==> s[1..][j] == s[j + 1];
      FirstIndexAt(s[1..], p, i - 1);
    }
  }

  /** A non-empty link text picks the first link, in list order, that matches it exactly. */
  lemma MatchByTextExact(links: seq<Link>, intent: Intent, useSelected: bool, selected: Option<Link>, i: nat)
    requires !(useSelected && selected.Some?)
    requires intent.linkText.Some? && Strip(intent.linkText.value) != ""
    requires var lower := Lower(Strip(intent.linkText.value));
      i < |links| && ExactMatch(lower, links[i]) && forall j :: 0 <= j < i ==> !ExactMatch(lower, links[j])
    ensures MatchLink(links, intent, useSelected, selected) == Some(links[i])
  {
    var lower := Lower(Strip(intent.linkText.value));
    var exact := (l: Link) => ExactMatch(lower, l);
    FirstIndexAt(links, exact, i);
  }

  /** With no exact match, a non-empty link text picks the first link that matches it partially, and nothing when none does. */
  lemma MatchByTextPartial(links: seq<Link>, intent: Intent, useSelected: bool, selected: Option<Link>)
    requires !(useSelected && selected.Some?)
    requires intent.linkText.Some? && Strip(intent.linkText.value) != ""
    requires forall j :: 0 <= j < |links| ==> !ExactMatch(Lower(Strip(intent.linkText.value)), links[j])
    ensures var text := Strip(intent.linkText.value);
      forall i ::
        (0 <= i < |links| && PartialMatch(text, OwnText(links[i])) &&
         forall j :: 0 <= j < i ==> !PartialMatch(text, OwnText(links[j]))) ==>
          MatchLink(links, intent, useSelected, selected) == Some(links[i])
    ensures var text := Strip(intent.linkText.value);
      (forall j :: 0 <= j < |links| ==> !PartialMatch(text, OwnText(links[j]))) ==>
        MatchLink(links, intent, useSelected, selected) == None
  {
    var text := Strip(intent.linkText.value);
    var lower := Lower(text);
    var exact := (l: Link) => ExactMatch(lower, l);
    var partial := (l: Link) => !ExactMatch(lower, l) && PartialMatch(text, OwnText(l));
    assert FirstIndex(links, exact).None?;
    forall i | 0 <= i < |links| && PartialMatch(text, OwnText(links[i])) &&
      (forall j :: 0 <= j < i ==> !PartialMatch(text, OwnText(links[j])))
      ensures MatchLink(links, intent, useSelected, selected) == Some(links[i])
    {
      FirstIndexAt(links, partial, i);
    }
    if forall j :: 0 <= j < |links| ==> !PartialMatch(text, OwnText(links[j])) {
      assert FirstIndex(links, partial).None?;
    }
  }

  /** With no link text, link number n (counted from 1) is picked when it exists, and nothing otherwise. */
  lemma MatchByIndex(links: seq<Link>, intent: Intent, useSelected: bool, selected: Option<Link>)
    requires !(useSelected && selected.Some?)
    requires intent.linkText.None? || Strip(intent.linkText.value) == ""
    ensures var r := MatchLink(links, intent, useSelected, selected);
      var idx := PyInt(intent.linkIndex);
      && (r.Some? <==> !intent.linkIndex.Null? && idx.Ok? && 1 <= idx.value <= |links|)
      && (r.Some? ==> r.value == links[idx.value - 1])
  {
    if intent.linkText.None? {
      assert Strip("") == "";
    }
  }
}
