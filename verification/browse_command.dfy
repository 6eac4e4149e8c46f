/**
 * `BrowseCommandMatcher`: the phrase tests that decide whether a voice
 * utterance is a web-mode command (search, store, go back, click or select,
 * scroll, mode toggle, close tab), and the extraction of the first command
 * from a compound utterance.
 *
 * Every test first normalises with `(s or "").strip().lower()` (`Norm`).
 */
module BrowseCommand {
  import opened Wrappers
  import opened Text

  predicate StartsWith(u: string, p: string) { p <= u }

  predicate LooksLikeSearch(s: string) {
    var u := Norm(s);
    && u != ""
    && (|| StartsWith(u, "search") || Contains(u, " searched for ") || StartsWith(u, "searched for ")
        || Contains(u, "searching for ") || Contains(u, "search for ") || StartsWith(u, "searching ")
        || Contains(u, " searching ") || Contains(u, " search "))
  }

  predicate LooksLikeStore(s: string) {
    var u := Norm(s);
    && u != ""
    && (|| Contains(u, "save page") || u == "save page" || StartsWith(u, "save the page")
        || Contains(u, "store this page") || Contains(u, "store the page") || StartsWith(u, "store page")
        || u == "store page" || StartsWith(u, "store this"))
  }

  predicate LooksLikeGoBack(s: string) {
    var u := Norm(s);
    && u != ""
    && (|| u == "back" || StartsWith(u, "back ") || EndsWith(u, " back") || Contains(u, "go back")
        || u == "go back" || Contains(u, "previous page"))
  }

  /** Click and select are recognised only at the start of the utterance. */
  predicate LooksLikeClickOrSelect(s: string) {
    var u := Norm(s);
    && u != ""
    && (|| StartsWith(u, "open ") || StartsWith(u, "open the ") || StartsWith(u, "click")
        || StartsWith(u, "select ") || u == "click" || StartsWith(u, "the link for ")
        || StartsWith(u, "link for "))
  }

  predicate LooksLikeScroll(s: string) {
    var u := Norm(s);
    && u != ""
    && (|| StartsWith(u, "scroll ") || u == "scroll"
        || Contains(u, " scroll up") || Contains(u, " scroll down")
        || Contains(u, " scroll left") || Contains(u, " scroll right"))
  }

  predicate LooksLikeModeToggle(s: string) {
    var u := Norm(s);
    && u != ""
    && (|| Contains(u, "start browsing") || Contains(u, "stop browsing") || u == "browse on"
        || u == "browse off" || u == "browse" || StartsWith(u, "browse on") || StartsWith(u, "browse off"))
  }

  predicate LooksLikeCloseTab(s: string) {
    var u := Norm(s);
    && u != ""
    && (u == "close tab" || u == "close" || StartsWith(u, "close tab ") || StartsWith(u, "close "))
  }

  /** `_is_browse_command_single`: one of the seven command shapes. */
  predicate IsBrowseCommandSingle(s: string) {
    || LooksLikeSearch(s) || LooksLikeStore(s) || LooksLikeGoBack(s) || LooksLikeClickOrSelect(s)
    || LooksLikeScroll(s) || LooksLikeModeToggle(s) || LooksLikeCloseTab(s)
  }

  /** The `for c in candidates` loop of `is_browse_command`, first candidate first. */
  predicate IsBrowseCommand(candidates: seq<string>)
    decreases |candidates|
  {
    && |candidates| > 0
    && ((candidates[0] != "" && IsBrowseCommandSingle(Strip(candidates[0]))) || IsBrowseCommand(candidates[1..]))
  }

  /** Some non-empty candidate, once stripped, is a single browse command. */
  lemma {:induction false} IsBrowseCommandSome(candidates: seq<string>)
    ensures IsBrowseCommand(candidates) <==>
      exists i :: 0 <= i < |candidates| && candidates[i] != "" && IsBrowseCommandSingle(Strip(candidates[i]))
    decreases |candidates|
  {
    if |candidates| > 0 {
      IsBrowseCommandSome(candidates[1..]);
      if exists i :: 0 <= i < |candidates| && candidates[i] != "" && IsBrowseCommandSingle(Strip(candidates[i])) {
        var i :| 0 <= i < |candidates| && candidates[i] != "" && IsBrowseCommandSingle(Strip(candidates[i]));
        if i > 0 {
          assert candidates[1..][i - 1] == candidates[i];
        }
      }
      if IsBrowseCommand(candidates[1..]) {
        var i :| 0 <= i < |candidates[1..]| && candidates[1..][i] != "" && IsBrowseCommandSingle(Strip(candidates[1..][i]));
        assert candidates[i + 1] == candidates[1..][i];
      }
    }
  }

  /** The prefixes `starts_with_browse_command` tries, longest of each family first. */
  const Prefixes: seq<string> := [
    "searching for ", "searched for ", "search for ", "searching ", "search ", "search",
    "save the page", "save page", "store this page", "store the page", "store page", "store this", "store ",
    "go back", "previous page", "open the ", "open ", "the link for ", "link for ",
    "click ", "click", "select ",
    "scroll up", "scroll down", "scroll left", "scroll right", "scroll ", "scroll",
    "start browsing", "stop browsing", "browse on", "browse off",
    "close tab", "close ", "close", "back ", "back"]

  /** The `for p in prefixes` loop. */
  predicate AnyPrefix(u: string, ps: seq<string>)
    decreases |ps|
  {
    |ps| > 0 && (StartsWith(u, ps[0]) || AnyPrefix(u, ps[1..]))
  }

  lemma {:induction false} AnyPrefixSome(u: string, ps: seq<string>)
    ensures AnyPrefix(u, ps) <==> exists i :: 0 <= i < |ps| && ps[i] <= u
    decreases |ps|
  {
    if |ps| > 0 {
      AnyPrefixSome(u, ps[1..]);
      if exists i :: 0 <= i < |ps| && ps[i] <= u {
        var i :| 0 <= i < |ps| && ps[i] <= u;
        if i > 0 {
          assert ps[1..][i - 1] == ps[i];
        }
      }
      if AnyPrefix(u, ps[1..]) {
        var i :| 0 <= i < |ps[1..]| && ps[1..][i] <= u;
        assert ps[i + 1] == ps[1..][i];
      }
    }
  }

  /** The normal form is non-empty and starts with one of `ps`, is "browse", or starts with "browse ". */
  predicate StartsWithAny(utterance: string, ps: seq<string>) {
    var u := Norm(utterance);
    u != "" && (AnyPrefix(u, ps) || u == "browse" || StartsWith(u, "browse "))
  }

  /** `starts_with_browse_command`. */
  predicate StartsWithBrowseCommand(utterance: string) {
    StartsWithAny(utterance, Prefixes)
  }

  /** The prefix loop holds exactly when the normal form starts with a listed prefix, is "browse", or starts with "browse ". */
  lemma StartsWithAnyIff(utterance: string, ps: seq<string>)
    ensures StartsWithAny(utterance, ps) <==>
      var u := Norm(utterance);
      u != "" && ((exists i :: 0 <= i < |ps| && ps[i] <= u) || u == "browse" || "browse " <= u)
  {
    AnyPrefixSome(Norm(utterance), ps);
  }

  /** The loop finds any listed prefix, wherever it sits in the list. */
  lemma {:induction false} AnyPrefixAt(u: string, ps: seq<string>, i: nat)
    requires i < |ps| && ps[i] <= u
    ensures AnyPrefix(u, ps)
    decreases i
  {
    if i > 0 {
      assert ps[1..][i - 1] == ps[i];
      AnyPrefixAt(u, ps[1..], i - 1);
    }
  }

  /** Blank input is no command of any kind. */
  lemma BlankIsNoCommand(s: string)
    requires Blank(s)
    ensures !LooksLikeSearch(s) && !LooksLikeStore(s) && !LooksLikeGoBack(s) && !LooksLikeClickOrSelect(s)
    ensures !LooksLikeScroll(s) && !LooksLikeModeToggle(s) && !LooksLikeCloseTab(s)
    ensures !IsBrowseCommandSingle(s) && !StartsWithBrowseCommand(s)
  {
    NormBlank(s);
  }

  /** Where the click and select openers sit in the prefix list. */
  lemma ClickPrefixes()
    ensures Prefixes[16] == "open " && Prefixes[17] == "the link for " && Prefixes[18] == "link for "
    ensures Prefixes[20] == "click" && Prefixes[21] == "select "
  {
  }

  /** A click or select command starts with one of the listed prefixes. */
  lemma ClickStartsTheUtterance(s: string)
    requires LooksLikeClickOrSelect(s)
    ensures StartsWithBrowseCommand(s)
  {
    var u := Norm(s);
    ClickPrefixes();
    var i := if StartsWith(u, "open ") then 16
             else if StartsWith(u, "click") then 20
             else if StartsWith(u, "select ") then 21
             else if StartsWith(u, "the link for ") then 17
             else 18;
    AnyPrefixAt(u, Prefixes, i);
  }

  /** The number words `is_open_number_only` accepts. */
  const NumberWords: seq<string> := ["one", "two", "three", "four", "five", "six", "seven", "eight", "nine", "ten"]

  /** What is left of "open N": both openers removed once, stripped, trailing periods dropped. */
  function OpenRest(u: string): string {
    RStripChar(Strip(ReplaceFirst(ReplaceFirst(u, "open the ", ""), "open ", "")), '.')
  }

  predicate IsNumberText(rest: string) {
    (AllDigits(rest) && 1 <= DigitsValue(rest) <= 10) || (!AllDigits(rest) && rest in NumberWords)
  }

  predicate IsOpenNumberOnly(utterance: string) {
    var u := Norm(utterance);
    && u != "" && (StartsWith(u, "open ") || StartsWith(u, "open the "))
    && OpenRest(u) != ""
    && IsNumberText(OpenRest(u))
  }

  predicate NoSpace(w: string) {
    forall i :: 0 <= i < |w| ==> !IsSpace(w[i])
  }

  /** "open " + a space-free word leaves that word, minus trailing periods. */
  lemma OpenRestOfWord(w: string)
    requires NoSpace(w)
    ensures OpenRest("open " + w) == RStripChar(w, '.')
    ensures OpenRest("open the " + w) == RStripChar(w, '.')
  {
    var u := "open " + w;
    forall j | 0 <= j ensures !OccursAt(u, "open the ", j) {
      if j + 9 <= |u| {
        assert u[j..j + 9][8] == u[j + 8] == w[j + 3];
      }
    }
    assert IndexOf(u, "open the ").None?;
    assert OccursAt(u, "open ", 0);
    assert u[5..] == w;
    NoOpenerInWord(w);
    StripTrimmed(w);
    var v := "open the " + w;
    assert OccursAt(v, "open the ", 0);
    assert v[9..] == w;
  }

  lemma NoOpenerInWord(w: string)
    requires NoSpace(w)
    ensures IndexOf(w, "open ").None?
  {
    forall j | 0 <= j ensures !OccursAt(w, "open ", j) {
      if j + 5 <= |w| {
        assert w[j..j + 5][4] == w[j + 4];
      }
    }
  }

  /** "open N" with a space-free N is accepted exactly when N, minus trailing periods, is 1 to 10 in digits or in words. */
  lemma OpenNumberOnlyIff(w: string)
    requires NoSpace(w) && Norm("open " + w) == "open " + w && Norm("open the " + w) == "open the " + w
    ensures IsOpenNumberOnly("open " + w) <==> RStripChar(w, '.') != "" && IsNumberText(RStripChar(w, '.'))
    ensures IsOpenNumberOnly("open the " + w) <==> RStripChar(w, '.') != "" && IsNumberText(RStripChar(w, '.'))
  {
    OpenRestOfWord(w);
    assert StartsWith("open " + w, "open ");
    assert StartsWith("open the " + w, "open ");
  }

  /** `s[:max_len] if len(s) > max_len else s`. */
  function Cap(s: string, maxLen: int): (r: string)
    ensures r <= s
    ensures maxLen >= 0 ==> |r| <= maxLen
    ensures |s| <= maxLen ==> r == s
  {
    if |s| > maxLen then SliceTo(s, maxLen) else s
  }

  /** The segment before the first `sep` in `u`, stripped, when `sep` occurs. */
  function FirstSegment(u: string, sep: string): (r: Option<string>)
    ensures r.None? <==> !Contains(u, sep)
    ensures r.Some? ==> r.value == Strip(u[..IndexOf(u, sep).value])
  {
    match IndexOf(u, sep)
    case None => None
    case Some(i) => Some(Strip(u[..i]))
  }

  /**
   * `first_single_command`: the first non-empty segment before ". ", else
   * before " and ", else the whole stripped utterance, capped at `maxLen`.
   * Both branches of the source's browse-command test return the same
   * value, so the test is not part of the result.
   */
  function FirstSingleCommand(utterance: string, maxLen: int): (r: string)
  {
    var u := Strip(utterance);
    if u == "" then u
    else
      var dot := FirstSegment(u, ". ");
      if dot.Some? && dot.value != "" then Cap(dot.value, maxLen)
      else
        var and := FirstSegment(u, " and ");
        if and.Some? && and.value != "" then Cap(and.value, maxLen)
        else SliceTo(u, maxLen)
  }

  /** A stripped prefix of a string with no leading whitespace is a prefix of it. */
  lemma StripPrefixOfTrimmed(u: string, i: nat)
    requires i <= |u| && (|u| > 0 ==> !IsSpace(u[0]))
    ensures Strip(u[..i]) <= u
  {
    var p := u[..i];
    if |p| > 0 {
      assert LeadingSpaces(p) == 0;
    }
  }

  /**
   * The first command is a prefix of the stripped utterance, no longer than
   * `maxLen`. When the text before the first ". " strips to something, the
   * command is cut from it; otherwise, when the text before the first " and "
   * does, from that; a cut command holds no copy of its separator and is the
   * whole stripped segment when that fits. With no usable cut it is the
   * stripped utterance sliced to `maxLen`.
   */
  lemma FirstSingleCommandShape(utterance: string, maxLen: int)
    ensures Blank(utterance) ==> FirstSingleCommand(utterance, maxLen) == ""
    ensures FirstSingleCommand(utterance, maxLen) <= Strip(utterance)
    ensures maxLen >= 0 ==> |FirstSingleCommand(utterance, maxLen)| <= maxLen
    ensures !Contains(Strip(utterance), ". ") && !Contains(Strip(utterance), " and ") ==>
      FirstSingleCommand(utterance, maxLen) == SliceTo(Strip(utterance), maxLen)
    ensures var u := Strip(utterance);
      Contains(u, ". ") && Strip(u[..IndexOf(u, ". ").value]) != "" ==>
        FirstSingleCommand(utterance, maxLen) <= u[..IndexOf(u, ". ").value]
        && !Contains(FirstSingleCommand(utterance, maxLen), ". ")
        && (|Strip(u[..IndexOf(u, ". ").value])| <= maxLen ==>
              FirstSingleCommand(utterance, maxLen) == Strip(u[..IndexOf(u, ". ").value]))
    ensures var u := Strip(utterance);
      !(Contains(u, ". ") && Strip(u[..IndexOf(u, ". ").value]) != "")
      && Contains(u, " and ") && Strip(u[..IndexOf(u, " and ").value]) != "" ==>
        FirstSingleCommand(utterance, maxLen) <= u[..IndexOf(u, " and ").value]
        && !Contains(FirstSingleCommand(utterance, maxLen), " and ")
        && (|Strip(u[..IndexOf(u, " and ").value])| <= maxLen ==>
              FirstSingleCommand(utterance, maxLen) == Strip(u[..IndexOf(u, " and ").value]))
    ensures var u := Strip(utterance);
      !(Contains(u, ". ") && Strip(u[..IndexOf(u, ". ").value]) != "")
      && !(Contains(u, " and ") && Strip(u[..IndexOf(u, " and ").value]) != "") ==>
        FirstSingleCommand(utterance, maxLen) == SliceTo(u, maxLen)
  {
    var u := Strip(utterance);
    StripBlank(utterance);
    var r := FirstSingleCommand(utterance, maxLen);
    if u != "" {
      var dot := FirstSegment(u, ". ");
      if dot.Some? {
        var i := IndexOf(u, ". ").value;
        StripPrefixOfTrimmed(u, i);
        if dot.value != "" {
          SegmentPrefix(u, i);
          assert r <= u[..i];
          NoSepBefore(u, ". ", i, r);
          return;
        }
      }
      var and := FirstSegment(u, " and ");
      if and.Some? {
        var i := IndexOf(u, " and ").value;
        StripPrefixOfTrimmed(u, i);
        if and.value != "" {
          SegmentPrefix(u, i);
          assert r <= u[..i];
          NoSepBefore(u, " and ", i, r);
        }
      }
    }
  }

  /** The stripped segment before index `i` of a trimmed string is a prefix of `u[..i]`. */
  lemma SegmentPrefix(u: string, i: nat)
    requires i <= |u| && (|u| > 0 ==> !IsSpace(u[0]))
    ensures Strip(u[..i]) <= u[..i]
  {
    var p := u[..i];
    if |p| > 0 {
      assert LeadingSpaces(p) == 0;
    }
  }

  /** A prefix of `u[..i]`, where `i` is the first occurrence of `sep`, does not contain `sep`. */
  lemma NoSepBefore(u: string, sep: string, i: nat, r: string)
    requires |sep| > 0 && IndexOf(u, sep) == Some(i) && r <= u[..i]
    ensures !Contains(r, sep)
  {
    if Contains(r, sep) {
      var j := IndexOf(r, sep).value;
      assert u[j..j + |sep|] == r[j..j + |sep|];
      assert OccursAt(u, sep, j);
      assert false;
    }
  }

  /** `is_scroll_or_go_back_only`: the first command alone is a scroll or a go back. */
  predicate IsScrollOrGoBackOnly(utterance: string) {
    var cmd := Norm(FirstSingleCommand(utterance, 80));
    cmd != "" && (LooksLikeScroll(cmd) || LooksLikeGoBack(cmd))
  }

  /** In "A. B", only the first sentence A is classified. */
  lemma ScrollOrGoBackLooksAtFirst(a: string, b: string)
    requires Strip(a + ". " + b) == a + ". " + b
    requires a != "" && Strip(a) == a && !Contains(a, ". ")
    ensures IsScrollOrGoBackOnly(a + ". " + b) <==>
      var cmd := Norm(Cap(a, 80));
      cmd != "" && (LooksLikeScroll(cmd) || LooksLikeGoBack(cmd))
  {
    var u := a + ". " + b;
    FirstSeparator(a, b);
    assert u[..|a|] == a;
  }

  /** With no ". " in `a`, the first ". " of `a + ". " + b` is the one after `a`. */
  lemma FirstSeparator(a: string, b: string)
    requires !Contains(a, ". ")
    ensures IndexOf(a + ". " + b, ". ") == Some(|a|)
  {
    var u := a + ". " + b;
    assert OccursAt(u, ". ", |a|);
    forall j | 0 <= j < |a| ensures !OccursAt(u, ". ", j) {
      if j + 2 <= |a| {
        assert a[j..j + 2] == u[j..j + 2];
        assert !OccursAt(a, ". ", j);
      } else {
        assert u[j..j + 2][1] == u[|a|] == '.';
      }
    }
  }
}
