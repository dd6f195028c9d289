/**
 * The publish gate and annotator of the content processor: the scan-failure report,
 * the upload gate, the warning banner prepended to an article, and the title and tag
 * extraction from a file's text.
 *
 * The title patterns are searched by an uninterpreted matcher; the front-matter tag
 * pattern `tags:\s*\[(.*?)\]` is small enough to be modelled exactly.
 */
module ContentProcessor {
  import opened Common
  import opened Strings
  import opened SecurityRules
  import opened SecurityScanner

  // ---------------------------------------------------------------------------
  // scan and gate

  const ScanErrorPrefix: string := "セキュリティスキャンでエラーが発生しました: "

  /** The report returned when scanning raised `e`: no counts and no issues. */
  function ScanErrorReport(e: string): Report {
    Report("error", 0, None, None, ScanErrorPrefix + e, None)
  }

  /**
   * `_perform_security_scan`: scan, then aggregate; `failure` is the exception the
   * scan raised, if it raised one, and turns into the error report.
   */
  method PerformSecurityScan(scanner: Scanner, engine: RegexEngine, content: string, failure: Option<string>)
    returns (report: Report)
    ensures failure.Some? ==>
      && report.status == "error" && report.totalIssues == 0
      && report.byLevel.None? && report.byCategory.None? && report.issues.None?
      && report.message == ScanErrorPrefix + failure.value
    ensures failure.None? ==> report == SecurityReport(Scan(scanner, engine, content))
  {
    if failure.Some? {
      return ScanErrorReport(failure.value);
    }
    var issues := ScanContent(scanner, engine, content);
    report := GetSecurityReport(issues);
  }

  /**
   * The processor's gate: never block without a report or with scanning disabled;
   * otherwise block exactly on status "critical".
   */
  function ShouldBlockUpload(report: Option<Report>, scannerEnabled: bool): (block: bool)
    ensures !scannerEnabled || report.None? ==> !block
    ensures scannerEnabled && report.Some? ==> (block <==> report.value.status == Critical)
  {
    if report.None? || !scannerEnabled then false
    else report.value.status == Critical
  }

  /** On a successful scan the processor's gate and the scanner's own gate agree. */
  lemma GateMatchesScanner(scanner: Scanner, engine: RegexEngine, content: string)
    ensures ShouldBlockUpload(Some(SecurityReport(Scan(scanner, engine, content))), true)
      == SecurityScanner.ShouldBlockUpload(Scan(scanner, engine, content))
  {
  }

  /** A failed scan never blocks an upload. */
  lemma ScanErrorNeverBlocks(e: string, scannerEnabled: bool)
    ensures !ShouldBlockUpload(Some(ScanErrorReport(e)), scannerEnabled)
  {
  }

  // ---------------------------------------------------------------------------
  // warning banner

  /** The Japanese display names of the known categories; others are shown as they are. */
  const CategoryNames: map<string, string> := map[
    "credentials" := "認証情報",
    "personal_info" := "個人情報",
    "dangerous_code" := "危険なコード",
    "web_security" := "Webセキュリティ",
    "file_paths" := "ファイルパス",
    "network_info" := "ネットワーク情報"
  ]

  function CategoryJapaneseName(category: string): string {
    if category in CategoryNames then CategoryNames[category] else category
  }

  /** Every category of the built-in catalog has a Japanese name of its own. */
  lemma {:induction false} DefaultCategoriesTranslated()
    ensures forall i :: 0 <= i < |DefaultPatterns()| ==>
      DefaultPatterns()[i].name in CategoryNames
      && CategoryJapaneseName(DefaultPatterns()[i].name) != DefaultPatterns()[i].name
  {
    var c := DefaultPatterns();
    forall i | 0 <= i < |c|
      ensures c[i].name in CategoryNames && CategoryJapaneseName(c[i].name) != c[i].name
    {
      assert i == 0 || i == 1 || i == 2 || i == 3 || i == 4;
    }
  }

  /** A category the table does not know is shown under its own name. */
  lemma UnknownCategoryKept(category: string)
    requires category !in CategoryNames
    ensures CategoryJapaneseName(category) == category
  {
  }

  /** The banner's icon and label for a report status. */
  function BannerIcon(status: string): string {
    if status == Critical then "🚨" else if status == High then "⚠️" else "💡"
  }

  function BannerLabel(status: string): string {
    if status == Critical then "重要" else if status == High then "注意" else "情報"
  }

  /** The banner's first line, after its leading newline. */
  function Headline(status: string): string {
    "\n" + BannerIcon(status) + " **セキュリティ" + BannerLabel(status) + "**"
  }

  const BannerIntro: string := "\n\nこの記事には以下のセキュリティに関する項目が含まれています：\n\n"

  const BannerFooter: string :=
    "\n記事の内容を確認し、必要に応じて以下の対応を行ってください：\n"
    + "- 実際の認証情報やAPIキーが含まれていないか確認\n"
    + "- 個人情報（メールアドレス、電話番号等）の匿名化\n"
    + "- 危険なコード例には適切な警告を追加\n\n---\n"

  /** One summary line of the banner, without its newline. */
  function CategoryLine(entry: (string, nat)): string {
    "- " + CategoryJapaneseName(entry.0) + ": " + NatToString(entry.1) + "件"
  }

  /** The summary lines of the banner, each followed by a newline. */
  function CategoryLines(entries: Counts): string
    decreases |entries|
  {
    if |entries| == 0 then "" else CategoryLine(entries[0]) + "\n" + CategoryLines(entries[1..])
  }

  /** The banner for a report: header by status, one line per category, footer. */
  function WarningSection(report: Report): string {
    Headline(report.status) + BannerIntro + SummaryOf(report) + BannerFooter
  }

  /** The category lines of the banner; none when the report has no `by_category`. */
  function SummaryOf(report: Report): string {
    match report.byCategory
    case Some(entries) => CategoryLines(entries)
    case None => ""
  }

  lemma {:induction false} CategoryLinesAppend(entries: Counts, entry: (string, nat))
    ensures CategoryLines(entries + [entry]) == CategoryLines(entries) + CategoryLine(entry) + "\n"
    decreases |entries|
  {
    if |entries| > 0 {
      CategoryLinesAppend(entries[1..], entry);
      assert (entries + [entry])[1..] == entries[1..] + [entry];
    } else {
      assert CategoryLines([entry]) == CategoryLine(entry) + "\n" + CategoryLines([]);
    }
  }

  /** `_generate_security_warning_section`: builds the banner line by line. */
  method HeadlineOf(status: string) returns (headline: string)
    ensures headline == Headline(status)
  {
    var icon, level;
    if status == Critical {
      icon, level := "🚨", "重要";
    } else if status == High {
      icon, level := "⚠️", "注意";
    } else {
      icon, level := "💡", "情報";
    }
    headline := "\n" + icon + " **セキュリティ" + level + "**";
  }

  method AppendCategoryLines(output: string, entries: Counts) returns (out: string)
    ensures out == output + CategoryLines(entries)
  {
    out := output;
    for i := 0 to |entries|
      invariant out == output + CategoryLines(entries[..i])
    {
      var categoryName := CategoryJapaneseName(entries[i].0);
      var line := "- " + categoryName + ": " + NatToString(entries[i].1) + "件";
      CategoryLinesAppend(entries[..i], entries[i]);
      assert entries[..i + 1] == entries[..i] + [entries[i]];
      out := out + line + "\n";
    }
    assert entries[..|entries|] == entries;
  }

  method GenerateSecurityWarningSection(report: Report) returns (warning: string)
    ensures warning == WarningSection(report)
  {
    var headline := HeadlineOf(report.status);
    var summary := "";
    if report.byCategory.Some? {
      summary := AppendCategoryLines("", report.byCategory.value);
    }
    assert summary == SummaryOf(report);
    warning := headline + BannerIntro + summary + BannerFooter;
  }

  /** The summary lines of the banner, in `by_category` order. */
  function CategoryLineList(entries: Counts): (r: seq<string>)
    ensures |r| == |entries|
    ensures forall i :: 0 <= i < |r| ==> r[i] == CategoryLine(entries[i])
  {
    seq(|entries|, i requires 0 <= i < |entries| => CategoryLine(entries[i]))
  }

  lemma {:induction false} CategoryLinesJoin(entries: Counts)
    ensures CategoryLines(entries) == Join(CategoryLineList(entries) + [""], "\n")
    decreases |entries|
  {
    if |entries| > 0 {
      CategoryLinesJoin(entries[1..]);
      var l := CategoryLineList(entries) + [""];
      assert l[1..] == CategoryLineList(entries[1..]) + [""];
    }
  }

  lemma {:induction false} CategoryLineOneLine(entry: (string, nat))
    requires '\n' !in CategoryJapaneseName(entry.0)
    ensures '\n' !in CategoryLine(entry)
  {
    var count := NatToString(entry.1);
    assert '\n' !in count by {
      forall k | 0 <= k < |count| ensures count[k] != '\n' { assert IsDigit(count[k]); }
    }
    assert '\n' !in "- " && '\n' !in ": " && '\n' !in "件";
  }

  /**
   * The banner's summary is one line per `by_category` entry, in order, naming the
   * category in Japanese (or as it is) with its count: read back line by line it
   * gives exactly those lines (and the empty remainder after the last newline).
   */
  lemma {:induction false} BannerLinesPerCategory(entries: Counts)
    requires forall i :: 0 <= i < |entries| ==> '\n' !in CategoryJapaneseName(entries[i].0)
    ensures Split(CategoryLines(entries), '\n') == CategoryLineList(entries) + [""]
  {
    var lines := CategoryLineList(entries) + [""];
    assert CategoryLines(entries) == Join(lines, ['\n']) by {
      CategoryLinesJoin(entries);
    }
    assert forall i :: 0 <= i < |lines| ==> '\n' !in lines[i] by {
      forall i | 0 <= i < |lines| ensures '\n' !in lines[i] {
        if i < |entries| {
          CategoryLineOneLine(entries[i]);
        }
      }
    }
    SplitJoin(lines, '\n');
  }

  lemma PrefixSuffixOfConcat(a: string, b: string, c: string, d: string)
    ensures StartsWith(a + b + c + d, a)
    ensures |d| <= |a + b + c + d| && (a + b + c + d)[|a + b + c + d| - |d|..] == d
  {
    assert (a + b + c + d)[..|a|] == a;
  }

  /**
   * The banner opens with the headline of the report's status (🚨 重要 for critical,
   * ⚠️ 注意 for high, 💡 情報 otherwise) and closes with the advice footer.
   */
  lemma {:induction false} BannerFrame(report: Report)
    ensures StartsWith(WarningSection(report), Headline(report.status))
    ensures |BannerFooter| <= |WarningSection(report)|
      && WarningSection(report)[|WarningSection(report)| - |BannerFooter|..] == BannerFooter
  {
    PrefixSuffixOfConcat(Headline(report.status), BannerIntro, SummaryOf(report), BannerFooter);
  }

  /**
   * `add_security_warning_to_content`: without a report, or with one that counts no
   * issue, the body is returned unchanged; otherwise the banner is put in front.
   */
  function AddSecurityWarningToContent(body: string, report: Option<Report>): (r: string)
    ensures report.None? || report.value.totalIssues == 0 ==> r == body
    ensures report.Some? && report.value.totalIssues > 0 ==>
      |r| > |body| && r[|r| - |body|..] == body && r[..|r| - |body|] == WarningSection(report.value) + "\n\n"
  {
    if report.None? || report.value.totalIssues == 0 then body
    else WarningSection(report.value) + "\n\n" + body
  }

  /**
   * For content that was scanned, the article gains a banner exactly when the scan
   * found something, and the article text itself always survives as a suffix; a
   * failed scan adds nothing.
   */
  lemma {:induction false} WarningOnlyWhenIssues(scanner: Scanner, engine: RegexEngine, content: string, body: string, e: string)
    ensures var annotated := AddSecurityWarningToContent(body, Some(SecurityReport(Scan(scanner, engine, content))));
      (annotated == body <==> |Scan(scanner, engine, content)| == 0)
      && |body| <= |annotated| && annotated[|annotated| - |body|..] == body
    ensures AddSecurityWarningToContent(body, Some(ScanErrorReport(e))) == body
  {
    ReportCounts(Scan(scanner, engine, content));
  }

  // ---------------------------------------------------------------------------
  // tags

  /** The tag list used when the content declares none. */
  function DefaultTags(): seq<Tag> {
    [Tag("備忘録", [])]
  }

  const TagQuotes: set<char> := {'"', '\''}

  /** `tag.strip().strip('"\'')`. */
  function CleanTagName(raw: string): string {
    StripChars(Strip(raw), TagQuotes)
  }

  /** `xs` without its empty strings, in order. */
  function NonEmpty(xs: seq<string>): (r: seq<string>)
    ensures forall i :: 0 <= i < |r| ==> r[i] != ""
    decreases |xs|
  {
    if |xs| == 0 then []
    else NonEmpty(xs[..|xs| - 1]) + (if xs[|xs| - 1] != "" then [xs[|xs| - 1]] else [])
  }

  function Cleaned(pieces: seq<string>): (r: seq<string>)
    ensures |r| == |pieces| && forall i :: 0 <= i < |pieces| ==> r[i] == CleanTagName(pieces[i])
  {
    seq(|pieces|, i requires 0 <= i < |pieces| => CleanTagName(pieces[i]))
  }

  /** The cleaned pieces, with the empty ones dropped. */
  function TagNames(pieces: seq<string>): (names: seq<string>)
    ensures forall i :: 0 <= i < |names| ==> names[i] != ""
  {
    NonEmpty(Cleaned(pieces))
  }

  function NamesToTags(names: seq<string>): (tags: seq<Tag>)
    ensures |tags| == |names| && forall i :: 0 <= i < |names| ==> tags[i] == Tag(names[i], [])
  {
    seq(|names|, i requires 0 <= i < |names| => Tag(names[i], []))
  }

  /** The text between the opening `---` and the next `---` found from index 3, if the content has one. */
  function FrontMatter(content: string): Option<string> {
    if StartsWith(content, "---") then
      var endMarker := IndexOf(content, "---", 3);
      if endMarker != -1 then Some(content[3..endMarker]) else None
    else None
  }

  /** The first index at or after `i` that is not whitespace (`\s*` is greedy). */
  function SkipSpace(s: string, i: nat): (j: nat)
    requires i <= |s|
    ensures i <= j <= |s| && (j < |s| ==> s[j] !in Whitespace)
    ensures forall k :: i <= k < j ==> s[k] in Whitespace
    decreases |s| - i
  {
    if i < |s| && s[i] in Whitespace then SkipSpace(s, i + 1) else i
  }

  /** Where the lazy `(.*?)\]` starting at `i` stops: the first `]`, provided no newline comes before it. */
  function CloseBracket(s: string, i: nat): (j: int)
    requires i <= |s|
    ensures j == -1 || (i <= j < |s| && s[j] == ']')
    ensures j != -1 ==> forall k :: i <= k < j ==> s[k] != ']' && s[k] != '\n'
    decreases |s| - i
  {
    if i == |s| || s[i] == '\n' then -1
    else if s[i] == ']' then i
    else CloseBracket(s, i + 1)
  }

  /** The group of `tags:\s*\[(.*?)\]` when the match starts at `p`. */
  function TagListAt(s: string, p: nat): Option<string> {
    if OccursAt(s, "tags:", p) then
      var open := SkipSpace(s, p + 5);
      if open < |s| && s[open] == '[' then
        var close := CloseBracket(s, open + 1);
        if close != -1 then Some(s[open + 1..close]) else None
      else None
    else None
  }

  /** `re.search(r'tags:\s*\[(.*?)\]', s)` from position `p` on: the group of the leftmost match. */
  function FindTagList(s: string, p: nat): Option<string>
    decreases |s| - p
  {
    if p > |s| then None
    else if TagListAt(s, p).Some? then TagListAt(s, p)
    else FindTagList(s, p + 1)
  }

  /** The tags the front matter declares, possibly none. */
  function DeclaredTags(content: string): seq<Tag> {
    match FrontMatter(content)
    case None => []
    case Some(frontMatter) =>
      match FindTagList(frontMatter, 0)
      case None => []
      case Some(group) => NamesToTags(TagNames(Split(group, ',')))
  }

  /**
   * `_extract_tags_from_content`: the front-matter tags, or the default tag when there
   * are none. Never empty; every tag has a non-empty name and no versions.
   */
  function ExtractTagsFromContent(content: string): (tags: seq<Tag>)
    ensures |tags| >= 1
    ensures forall i :: 0 <= i < |tags| ==> tags[i].name != "" && tags[i].versions == []
  {
    var declared := DeclaredTags(content);
    if |declared| == 0 then DefaultTags() else declared
  }

  /** Content without a closed front-matter block gets the default tag. */
  lemma NoFrontMatterDefaultTags(content: string)
    requires !StartsWith(content, "---") || IndexOf(content, "---", 3) == -1
    ensures ExtractTagsFromContent(content) == [Tag("備忘録", [])]
  {
  }

  lemma StripCharsUnchanged(s: string, chars: set<char>)
    requires |s| > 0 ==> s[0] !in chars && s[|s| - 1] !in chars
    ensures StripChars(s, chars) == s
  {
  }

  /** A tag name that survives cleaning unchanged. */
  predicate PlainTagName(name: string) {
    name != "" && ',' !in name
    && name[0] !in Whitespace && name[|name| - 1] !in Whitespace
    && name[0] !in TagQuotes && name[|name| - 1] !in TagQuotes
  }

  lemma {:induction false} CleanPlainName(name: string)
    requires PlainTagName(name)
    ensures CleanTagName(name) == name
  {
    StripCharsUnchanged(name, Whitespace);
    StripCharsUnchanged(name, TagQuotes);
  }

  lemma {:induction false} NonEmptyKeeps(xs: seq<string>)
    requires forall i :: 0 <= i < |xs| ==> xs[i] != ""
    ensures NonEmpty(xs) == xs
    decreases |xs|
  {
    if |xs| > 0 {
      NonEmptyKeeps(xs[..|xs| - 1]);
      assert xs[..|xs| - 1] + [xs[|xs| - 1]] == xs;
    }
  }

  lemma {:induction false} TagNamesPlain(names: seq<string>)
    requires forall i :: 0 <= i < |names| ==> names[i] != "" && CleanTagName(names[i]) == names[i]
    ensures TagNames(names) == names
  {
    assert Cleaned(names) == names;
    NonEmptyKeeps(names);
  }

  /** Writing plain tag names as a comma-separated list and parsing it gives the names back. */
  lemma {:induction false} TagListRoundTrip(names: seq<string>)
    requires |names| >= 1
    requires forall i :: 0 <= i < |names| ==> PlainTagName(names[i])
    ensures NamesToTags(TagNames(Split(Join(names, ","), ','))) == NamesToTags(names)
  {
    SplitJoin(names, ',');
    forall i | 0 <= i < |names| ensures CleanTagName(names[i]) == names[i] {
      CleanPlainName(names[i]);
    }
    TagNamesPlain(names);
  }

  lemma {:induction false} CloseBracketAfter(s: string, i: nat, j: nat)
    requires i <= j < |s| && s[j] == ']'
    requires forall k :: i <= k < j ==> s[k] != ']' && s[k] != '\n'
    ensures CloseBracket(s, i) == j
    decreases j - i
  {
    if i < j { CloseBracketAfter(s, i + 1, j); }
  }

  /**
   * A front matter that is exactly `tags: [` + list + `]`, with no bracket or newline
   * in the list, is read as that list.
   */
  lemma {:induction false} TagListFound(list: string)
    requires ']' !in list && '\n' !in list
    ensures FindTagList("tags: [" + list + "]", 0) == Some(list)
  {
    var s := "tags: [" + list + "]";
    assert s[0..5] == "tags:";
    assert s[5] == ' ' && s[6] == '[';
    assert SkipSpace(s, 6) == 6;
    assert SkipSpace(s, 5) == 6;
    forall k | 7 <= k < 7 + |list| ensures s[k] != ']' && s[k] != '\n' {
      assert s[k] == list[k - 7];
    }
    CloseBracketAfter(s, 7, 7 + |list|);
    assert s[7..7 + |list|] == list;
  }

  /**
   * A file that opens with `---tags: [a,b,...]---` declares exactly those tags, when
   * the names are plain and contain no `-`, `]` or newline.
   */
  lemma {:induction false} FrontMatterTagsRoundTrip(names: seq<string>, rest: string)
    requires |names| >= 1
    requires forall i :: 0 <= i < |names| ==> PlainTagName(names[i])
    requires forall i :: 0 <= i < |names| ==> '-' !in names[i] && ']' !in names[i] && '\n' !in names[i]
    ensures ExtractTagsFromContent("---tags: [" + Join(names, ",") + "]---" + rest) == NamesToTags(names)
  {
    JoinWithout(names, ",", '-');
    JoinWithout(names, ",", ']');
    JoinWithout(names, ",", '\n');
    FrontMatterDeclares(Join(names, ","), rest);
    TagListRoundTrip(names);
  }

  /** A `tags: [...]` front matter declares the tags its list names. */
  lemma {:induction false} FrontMatterDeclares(list: string, rest: string)
    requires '-' !in list && ']' !in list && '\n' !in list
    ensures DeclaredTags("---tags: [" + list + "]---" + rest) == NamesToTags(TagNames(Split(list, ',')))
  {
    var fm := "tags: [" + list + "]";
    assert "---" + fm + "---" + rest == "---tags: [" + list + "]---" + rest;
    DashFree(list);
    FrontMatterOf(fm, rest);
    TagListFound(list);
  }

  lemma {:induction false} DashFree(list: string)
    requires '-' !in list
    ensures '-' !in "tags: [" + list + "]"
  {
    var fm := "tags: [" + list + "]";
    forall k | 0 <= k < |fm| ensures fm[k] != '-' {
      if 7 <= k < 7 + |list| {
        assert fm[k] == list[k - 7];
      }
    }
  }

  /** A front matter with no `-` in it ends at the first `---` after the opening one. */
  lemma {:induction false} FrontMatterOf(fm: string, rest: string)
    requires '-' !in fm
    ensures FrontMatter("---" + fm + "---" + rest) == Some(fm)
  {
    var content := "---" + fm + "---" + rest;
    var endAt := 3 + |fm|;
    assert content[endAt..endAt + 3] == "---";
    assert OccursAt(content, "---", endAt);
    forall i | 3 <= i < endAt ensures !OccursAt(content, "---", i) {
      assert content[i] == fm[i - 3];
      assert fm[i - 3] != '-';
    }
    assert IndexOf(content, "---", 3) == endAt;
    assert content[..3] == "---";
    assert content[3..endAt] == fm;
  }

  lemma {:induction false} JoinWithout(pieces: seq<string>, sep: string, c: char)
    requires c !in sep
    requires forall i :: 0 <= i < |pieces| ==> c !in pieces[i]
    ensures c !in Join(pieces, sep)
    decreases |pieces|
  {
    if |pieces| > 1 { JoinWithout(pieces[1..], sep, c); }
  }

  // ---------------------------------------------------------------------------
  // title

  /**
   * `re.search(pattern, content, re.MULTILINE)`, reduced to the first group of the
   * match when there is one.
   */
  type TitleSearch = (string, string) -> Option<string>

  /** The title patterns, tried in order: a Python docstring, a JS/TS block comment, a `#` comment line. */
  const TitlePatterns: seq<string> := [
    @"^""""""([^""]+)""""""",
    @"^/\*\*\s*([^*]+)\s*\*/",
    @"^#\s*(.+)$"
  ]

  /** The stripped text after `# ` on the first line that starts with it. */
  function FirstHeading(lines: seq<string>): Option<string>
    decreases |lines|
  {
    if |lines| == 0 then None
    else if StartsWith(lines[0], "# ") then Some(Strip(lines[0][2..]))
    else FirstHeading(lines[1..])
  }

  /** The stripped group of the first pattern that matches. */
  function FirstPatternTitle(patterns: seq<string>, search: TitleSearch, content: string): Option<string>
    decreases |patterns|
  {
    if |patterns| == 0 then None
    else if search(patterns[0], content).Some? then Some(Strip(search(patterns[0], content).value))
    else FirstPatternTitle(patterns[1..], search, content)
  }

  /** `s.replace(a, b)` for single characters. */
  function ReplaceChar(s: string, a: char, b: char): (r: string)
    ensures |r| == |s| && forall i :: 0 <= i < |s| ==> r[i] == (if s[i] == a then b else s[i])
  {
    seq(|s|, i requires 0 <= i < |s| => if s[i] == a then b else s[i])
  }

  /** The file-name title: the stem with `_` and `-` turned into spaces, then title-cased. */
  function FallbackTitle(stem: string, titleCase: string -> string): string {
    titleCase(ReplaceChar(ReplaceChar(stem, '_', ' '), '-', ' '))
  }

  /** The title the extractor settles on. */
  function Title(content: string, search: TitleSearch, stem: string, titleCase: string -> string): string {
    match FirstHeading(Split(Strip(content), '\n'))
    case Some(heading) => heading
    case None =>
      match FirstPatternTitle(TitlePatterns, search, content)
      case Some(t) => t
      case None => FallbackTitle(stem, titleCase)
  }

  /** `_extract_title_from_content`: first heading line, else first title pattern, else the file name. */
  method ExtractTitleFromContent(content: string, search: TitleSearch, stem: string, titleCase: string -> string)
    returns (title: string)
    ensures title == Title(content, search, stem, titleCase)
  {
    var heading := FindHeading(Split(Strip(content), '\n'));
    if heading.Some? {
      return heading.value;
    }
    var found := FindPatternTitle(TitlePatterns, search, content);
    if found.Some? {
      return found.value;
    }
    title := FallbackTitle(stem, titleCase);
  }

  /** The loop over the lines: the first `# ` line's stripped text. */
  method FindHeading(lines: seq<string>) returns (heading: Option<string>)
    ensures heading == FirstHeading(lines)
  {
    var i := 0;
    while i < |lines|
      invariant 0 <= i <= |lines|
      invariant FirstHeading(lines) == FirstHeading(lines[i..])
    {
      if StartsWith(lines[i], "# ") {
        return Some(Strip(lines[i][2..]));
      }
      assert lines[i..][1..] == lines[i + 1..];
      i := i + 1;
    }
    heading := None;
  }

  /** The loop over the title patterns: the stripped group of the first one that matches. */
  method FindPatternTitle(patterns: seq<string>, search: TitleSearch, content: string) returns (title: Option<string>)
    ensures title == FirstPatternTitle(patterns, search, content)
  {
    var p := 0;
    while p < |patterns|
      invariant 0 <= p <= |patterns|
      invariant FirstPatternTitle(patterns, search, content) == FirstPatternTitle(patterns[p..], search, content)
    {
      var found := search(patterns[p], content);
      if found.Some? {
        return Some(Strip(found.value));
      }
      assert patterns[p..][1..] == patterns[p + 1..];
      p := p + 1;
    }
    title := None;
  }

  /**
   * The heading title is taken from the first line that starts with `# `, and only
   * when there is one.
   */
  lemma {:induction false} FirstHeadingIsFirst(lines: seq<string>)
    ensures FirstHeading(lines).None? <==> forall i :: 0 <= i < |lines| ==> !StartsWith(lines[i], "# ")
    ensures FirstHeading(lines).Some? ==>
      exists i :: 0 <= i < |lines| && StartsWith(lines[i], "# ")
        && (forall j :: 0 <= j < i ==> !StartsWith(lines[j], "# "))
        && FirstHeading(lines).value == Strip(lines[i][2..])
    decreases |lines|
  {
    if |lines| > 0 && !StartsWith(lines[0], "# ") {
      var rest := lines[1..];
      FirstHeadingIsFirst(rest);
      if FirstHeading(rest).Some? {
        var i :| 0 <= i < |rest| && StartsWith(rest[i], "# ")
          && (forall j :: 0 <= j < i ==> !StartsWith(rest[j], "# "))
          && FirstHeading(rest).value == Strip(rest[i][2..]);
        assert rest[i] == lines[i + 1];
        forall j | 0 <= j < i + 1 ensures !StartsWith(lines[j], "# ") {
          if j > 0 { assert lines[j] == rest[j - 1]; }
        }
      } else {
        forall i | 0 <= i < |lines| ensures !StartsWith(lines[i], "# ") {
          if i > 0 { assert lines[i] == rest[i - 1]; }
        }
      }
    }
  }

  lemma {:induction false} SplitFirst(a: string, b: string, sep: char)
    requires sep !in a
    ensures Split(a + [sep] + b, sep)[0] == a
    decreases |a|
  {
    var s := a + [sep] + b;
    if |a| == 0 {
      assert s[0] == sep;
    } else {
      assert s[1..] == a[1..] + [sep] + b;
      SplitFirst(a[1..], b, sep);
      assert s[0] == a[0] && [a[0]] + a[1..] == a;
    }
  }

  /**
   * Content whose first line is a `# ` heading is titled by that heading, whatever
   * the title patterns or the file name would give.
   */
  lemma {:induction false} HeadingWins(heading: string, rest: string, search: TitleSearch, stem: string, titleCase: string -> string)
    requires '\n' !in heading
    requires |rest| > 0 && rest[|rest| - 1] !in Whitespace
    ensures Title("# " + heading + "\n" + rest, search, stem, titleCase) == Strip(heading)
  {
    var first := "# " + heading;
    assert "# " + heading + "\n" + rest == first + ['\n'] + rest;
    NoNewlineInHeadingLine(heading);
    UnstrippedContent(first, rest);
    SplitFirst(first, rest, '\n');
    TitleFromFirstLine(first + ['\n'] + rest, heading, search, stem, titleCase);
  }

  lemma {:induction false} NoNewlineInHeadingLine(heading: string)
    requires '\n' !in heading
    ensures '\n' !in "# " + heading
  {
    var first := "# " + heading;
    forall k | 0 <= k < |first| ensures first[k] != '\n' {
      if k >= 2 { assert first[k] == heading[k - 2]; }
    }
  }

  lemma {:induction false} UnstrippedContent(first: string, rest: string)
    requires |first| > 0 && first[0] == '#'
    requires |rest| > 0 && rest[|rest| - 1] !in Whitespace
    ensures Strip(first + ['\n'] + rest) == first + ['\n'] + rest
  {
    var content := first + ['\n'] + rest;
    assert content[0] == '#';
    assert content[|content| - 1] == rest[|rest| - 1];
    StripCharsUnchanged(content, Whitespace);
  }

  lemma {:induction false} TitleFromFirstLine(content: string, heading: string, search: TitleSearch, stem: string, titleCase: string -> string)
    requires Strip(content) == content
    requires Split(content, '\n')[0] == "# " + heading
    ensures Title(content, search, stem, titleCase) == Strip(heading)
  {
    var lines := Split(Strip(content), '\n');
    assert lines[0] == "# " + heading;
    assert ("# " + heading)[2..] == heading;
    assert StartsWith(lines[0], "# ");
    assert FirstHeading(lines) == Some(Strip(heading));
  }
}
