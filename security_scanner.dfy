/**
 * The security scanner run on content before it is uploaded to Qiita.
 *
 * The rule catalog is data; the regular-expression engine is not interpreted: a
 * `RegexEngine` value says, for a pattern and a line, which matches `re.finditer`
 * yields and whether `re.search(..., re.IGNORECASE)` finds the pattern. Everything
 * built on top of it (the line loop, the whitelist, the ordering of findings, the
 * counts, the verdict and the console rendering) is modelled exactly.
 */
module SecurityScanner {
  import opened Common
  import opened Strings
  import opened SecurityRules

  const Critical: string := "critical"
  const High: string := "high"

  /** One finding. */
  datatype SecurityIssue = SecurityIssue(
    level: string,
    category: string,
    description: string,
    lineNumber: nat,
    lineContent: string,
    suggestion: string)

  /** One match object yielded by `re.finditer`. */
  datatype Match = Match(start: nat, end: nat)

  /** The regular-expression engine, left uninterpreted. */
  datatype RegexEngine = RegexEngine(
    findAll: (string, string) -> seq<Match>,
    searchIgnoreCase: (string, string) -> bool)

  /** A constructed scanner: its catalog and its whitelist, never changed afterwards. */
  datatype Scanner = Scanner(patterns: Catalog, whitelistPatterns: seq<string>)

  /** The optional rule file: absent (no path, or no file at the path), or present and parsed by `json.load`. */
  datatype RuleFile = NoRuleFile | RuleFile(parsed: Result<Catalog, string>)

  /**
   * Constructing a scanner: a rule file that exists replaces the whole built-in
   * catalog; a parse error of that file is not caught and escapes the constructor.
   */
  function NewScanner(file: RuleFile): (r: Result<Scanner, string>)
    ensures r.Ok? ==> r.value.whitelistPatterns == DefaultWhitelist()
    ensures file.NoRuleFile? ==> r.Ok? && r.value.patterns == DefaultPatterns()
    ensures file.RuleFile? && file.parsed.Ok? ==> r.Ok? && r.value.patterns == file.parsed.value
    ensures r.Err? <==> file.RuleFile? && file.parsed.Err?
  {
    match file
    case NoRuleFile => Ok(Scanner(DefaultPatterns(), DefaultWhitelist()))
    case RuleFile(Ok(catalog)) => Ok(Scanner(catalog, DefaultWhitelist()))
    case RuleFile(Err(e)) => Err(e)
  }

  // ---------------------------------------------------------------------------
  // scanning: the specification

  /** Some whitelist pattern is found, ignoring case, on `line`. */
  predicate Whitelisted(scanner: Scanner, engine: RegexEngine, line: string) {
    exists i :: 0 <= i < |scanner.whitelistPatterns| && engine.searchIgnoreCase(scanner.whitelistPatterns[i], line)
  }

  /** The finding a match of `rule` on line `lineNumber` produces. */
  function NewIssue(rule: Rule, category: string, lineNumber: nat, line: string): SecurityIssue {
    SecurityIssue(rule.level, category, rule.description, lineNumber, Strip(line), rule.suggestion.GetOr(""))
  }

  /** `n` copies of `x`. */
  function Repeat<T>(x: T, n: nat): (r: seq<T>)
    ensures |r| == n && forall k :: 0 <= k < n ==> r[k] == x
  {
    if n == 0 then [] else Repeat(x, n - 1) + [x]
  }

  /** One finding per match of one rule on one line. */
  function RuleIssues(engine: RegexEngine, category: string, rule: Rule, lineNumber: nat, line: string): seq<SecurityIssue> {
    Repeat(NewIssue(rule, category, lineNumber, line), |engine.findAll(rule.pattern, line)|)
  }

  /** The findings of a category's rules on one line, rule by rule. */
  function RulesIssues(engine: RegexEngine, category: string, rules: seq<Rule>, lineNumber: nat, line: string): seq<SecurityIssue>
    decreases |rules|
  {
    if |rules| == 0 then []
    else
      var front := RulesIssues(engine, category, rules[..|rules| - 1], lineNumber, line);
      front + RuleIssues(engine, category, rules[|rules| - 1], lineNumber, line)
  }

  /** The findings of the catalog on one line, category by category. */
  function CategoriesIssues(engine: RegexEngine, cats: Catalog, lineNumber: nat, line: string): seq<SecurityIssue>
    decreases |cats|
  {
    if |cats| == 0 then []
    else
      var front := CategoriesIssues(engine, cats[..|cats| - 1], lineNumber, line);
      front + RulesIssues(engine, cats[|cats| - 1].name, cats[|cats| - 1].rules, lineNumber, line)
  }

  /** The findings on one line: none at all when the line is whitelisted. */
  function LineIssues(scanner: Scanner, engine: RegexEngine, lineNumber: nat, line: string): seq<SecurityIssue> {
    if Whitelisted(scanner, engine, line) then [] else CategoriesIssues(engine, scanner.patterns, lineNumber, line)
  }

  /** The findings on the lines, numbered from 1, line by line. */
  function LinesIssues(scanner: Scanner, engine: RegexEngine, lines: seq<string>): seq<SecurityIssue>
    decreases |lines|
  {
    if |lines| == 0 then []
    else
      var front := LinesIssues(scanner, engine, lines[..|lines| - 1]);
      front + LineIssues(scanner, engine, |lines|, lines[|lines| - 1])
  }

  /** The findings on `content`, split at every '\n'. */
  function Scan(scanner: Scanner, engine: RegexEngine, content: string): seq<SecurityIssue> {
    LinesIssues(scanner, engine, Split(content, '\n'))
  }

  // ---------------------------------------------------------------------------
  // scanning: the implementation

  /** Tries the whitelist patterns in order and stops at the first one found. */
  method IsWhitelisted(scanner: Scanner, engine: RegexEngine, line: string) returns (found: bool)
    ensures found <==>
              exists i :: 0 <= i < |scanner.whitelistPatterns| && engine.searchIgnoreCase(scanner.whitelistPatterns[i], line)
  {
    var i := 0;
    while i < |scanner.whitelistPatterns|
      invariant 0 <= i <= |scanner.whitelistPatterns|
      invariant forall j :: 0 <= j < i ==> !engine.searchIgnoreCase(scanner.whitelistPatterns[j], line)
    {
      if engine.searchIgnoreCase(scanner.whitelistPatterns[i], line) {
        return true;
      }
      i := i + 1;
    }
    return false;
  }

  /**
   * The inner loops of the scan for one line that is not whitelisted: category by
   * category, rule by rule and match by match, each finding appended to `issues`.
   */
  method AppendLineIssues(issues: seq<SecurityIssue>, cats: Catalog, engine: RegexEngine, lineNumber: nat, line: string)
    returns (out: seq<SecurityIssue>)
    ensures out == issues + CategoriesIssues(engine, cats, lineNumber, line)
  {
    out := issues;
    var c := 0;
    while c < |cats|
      invariant 0 <= c <= |cats|
      invariant out == issues + CategoriesIssues(engine, cats[..c], lineNumber, line)
    {
      var category := cats[c];
      ghost var beforeCategory := out;
      var r := 0;
      while r < |category.rules|
        invariant 0 <= r <= |category.rules|
        invariant out == beforeCategory + RulesIssues(engine, category.name, category.rules[..r], lineNumber, line)
      {
        var rule := category.rules[r];
        var matches := engine.findAll(rule.pattern, line);
        ghost var beforeRule := out;
        var m := 0;
        while m < |matches|
          invariant 0 <= m <= |matches|
          invariant out == beforeRule + Repeat(NewIssue(rule, category.name, lineNumber, line), m)
        {
          var issue := SecurityIssue(rule.level, category.name, rule.description, lineNumber,
                                     Strip(line), rule.suggestion.GetOr(""));
          out := out + [issue];
          m := m + 1;
        }
        assert category.rules[..r + 1][..r] == category.rules[..r];
        r := r + 1;
      }
      assert category.rules[..r] == category.rules;
      assert cats[..c + 1][..c] == cats[..c];
      c := c + 1;
    }
    assert cats[..c] == cats;
  }

  /** Scans line by line; a whitelisted line is skipped before any rule is tried on it. */
  method ScanContent(scanner: Scanner, engine: RegexEngine, content: string) returns (issues: seq<SecurityIssue>)
    ensures issues == Scan(scanner, engine, content)
  {
    var lines := Split(content, '\n');
    issues := [];
    var i := 0;
    while i < |lines|
      invariant 0 <= i <= |lines|
      invariant issues == LinesIssues(scanner, engine, lines[..i])
    {
      var line := lines[i];
      var skip := IsWhitelisted(scanner, engine, line);
      if !skip {
        issues := AppendLineIssues(issues, scanner.patterns, engine, i + 1, line);
      }
      assert lines[..i + 1][..i] == lines[..i];
      i := i + 1;
    }
    assert lines[..i] == lines;
  }

  // ---------------------------------------------------------------------------
  // properties of the scan

  /** `issue` is what some rule of `cats` that matches `line` produces for it. */
  ghost predicate RaisedBy(issue: SecurityIssue, engine: RegexEngine, cats: Catalog, lineNumber: nat, line: string) {
    exists c, r :: 0 <= c < |cats| && 0 <= r < |cats[c].rules|
      && |engine.findAll(cats[c].rules[r].pattern, line)| > 0
      && issue == NewIssue(cats[c].rules[r], cats[c].name, lineNumber, line)
  }

  /** `issue` is what some rule of `rules`, in category `name`, that matches `line` produces for it. */
  ghost predicate RaisedByRule(issue: SecurityIssue, engine: RegexEngine, name: string, rules: seq<Rule>, lineNumber: nat, line: string) {
    exists r :: 0 <= r < |rules| && |engine.findAll(rules[r].pattern, line)| > 0
      && issue == NewIssue(rules[r], name, lineNumber, line)
  }

  lemma {:induction false} RulesIssuesRaised(engine: RegexEngine, name: string, rules: seq<Rule>, lineNumber: nat, line: string)
    ensures forall k :: 0 <= k < |RulesIssues(engine, name, rules, lineNumber, line)| ==>
      RaisedByRule(RulesIssues(engine, name, rules, lineNumber, line)[k], engine, name, rules, lineNumber, line)
    decreases |rules|
  {
    if |rules| > 0 {
      var front := rules[..|rules| - 1];
      var last := rules[|rules| - 1];
      RulesIssuesRaised(engine, name, front, lineNumber, line);
      var all := RulesIssues(engine, name, rules, lineNumber, line);
      var a := RulesIssues(engine, name, front, lineNumber, line);
      var b := RuleIssues(engine, name, last, lineNumber, line);
      assert all == a + b;
      forall k | 0 <= k < |all| ensures RaisedByRule(all[k], engine, name, rules, lineNumber, line) {
        if k < |a| {
          assert RaisedByRule(a[k], engine, name, front, lineNumber, line);
          var r :| 0 <= r < |front| && |engine.findAll(front[r].pattern, line)| > 0
            && a[k] == NewIssue(front[r], name, lineNumber, line);
          assert front[r] == rules[r];
        } else {
          assert all[k] == b[k - |a|];
          assert rules[|rules| - 1] == last;
        }
      }
    }
  }

  lemma {:induction false} CategoriesIssuesRaised(engine: RegexEngine, cats: Catalog, lineNumber: nat, line: string)
    ensures forall k :: 0 <= k < |CategoriesIssues(engine, cats, lineNumber, line)| ==>
      RaisedBy(CategoriesIssues(engine, cats, lineNumber, line)[k], engine, cats, lineNumber, line)
    decreases |cats|
  {
    if |cats| > 0 {
      var front := cats[..|cats| - 1];
      var last := cats[|cats| - 1];
      CategoriesIssuesRaised(engine, front, lineNumber, line);
      RulesIssuesRaised(engine, last.name, last.rules, lineNumber, line);
      var all := CategoriesIssues(engine, cats, lineNumber, line);
      var a := CategoriesIssues(engine, front, lineNumber, line);
      var b := RulesIssues(engine, last.name, last.rules, lineNumber, line);
      assert all == a + b;
      forall k | 0 <= k < |all| ensures RaisedBy(all[k], engine, cats, lineNumber, line) {
        if k < |a| {
          var c, r :| 0 <= c < |front| && 0 <= r < |front[c].rules|
            && |engine.findAll(front[c].rules[r].pattern, line)| > 0
            && a[k] == NewIssue(front[c].rules[r], front[c].name, lineNumber, line);
          assert front[c] == cats[c];
        } else {
          assert all[k] == b[k - |a|];
          assert RaisedByRule(b[k - |a|], engine, last.name, last.rules, lineNumber, line);
          var r :| 0 <= r < |last.rules| && |engine.findAll(last.rules[r].pattern, line)| > 0
            && b[k - |a|] == NewIssue(last.rules[r], last.name, lineNumber, line);
          assert cats[|cats| - 1] == last;
        }
      }
    }
  }

  /** The issue on a line comes from that line: its number, and a rule of the catalog matching it. */
  ghost predicate FromLine(issue: SecurityIssue, scanner: Scanner, engine: RegexEngine, lines: seq<string>) {
    1 <= issue.lineNumber <= |lines|
    && !Whitelisted(scanner, engine, lines[issue.lineNumber - 1])
    && RaisedBy(issue, engine, scanner.patterns, issue.lineNumber, lines[issue.lineNumber - 1])
  }

  lemma {:induction false} LinesIssuesFromLines(scanner: Scanner, engine: RegexEngine, lines: seq<string>)
    ensures forall k :: 0 <= k < |LinesIssues(scanner, engine, lines)| ==>
      FromLine(LinesIssues(scanner, engine, lines)[k], scanner, engine, lines)
    decreases |lines|
  {
    if |lines| > 0 {
      var n := |lines|;
      var front := lines[..n - 1];
      LinesIssuesFromLines(scanner, engine, front);
      CategoriesIssuesRaised(engine, scanner.patterns, n, lines[n - 1]);
      var all := LinesIssues(scanner, engine, lines);
      var a := LinesIssues(scanner, engine, front);
      var b := LineIssues(scanner, engine, n, lines[n - 1]);
      assert all == a + b;
      forall k | 0 <= k < |all| ensures FromLine(all[k], scanner, engine, lines) {
        if k < |a| {
          assert FromLine(a[k], scanner, engine, front);
          assert front[a[k].lineNumber - 1] == lines[a[k].lineNumber - 1];
        } else {
          assert all[k] == b[k - |a|];
          assert RaisedBy(b[k - |a|], engine, scanner.patterns, n, lines[n - 1]);
        }
      }
    }
  }

  /**
   * Every finding names a line of the content (numbered from 1) that no whitelist
   * pattern is found on, and is the finding of a rule that matches that line: its
   * level, category and description are the rule's, its line content is the
   * stripped line and its suggestion is the rule's, or "" when the rule has none.
   */
  lemma {:induction false} ScanIssueProvenance(scanner: Scanner, engine: RegexEngine, content: string)
    ensures forall k :: 0 <= k < |Scan(scanner, engine, content)| ==>
      FromLine(Scan(scanner, engine, content)[k], scanner, engine, Split(content, '\n'))
  {
    LinesIssuesFromLines(scanner, engine, Split(content, '\n'));
  }

  /** A whitelisted line yields no finding, whatever rules (critical ones included) match it. */
  lemma {:induction false} WhitelistPrecedence(scanner: Scanner, engine: RegexEngine, content: string, lineNumber: nat)
    requires 1 <= lineNumber <= |Split(content, '\n')|
    requires Whitelisted(scanner, engine, Split(content, '\n')[lineNumber - 1])
    ensures forall k :: 0 <= k < |Scan(scanner, engine, content)| ==>
      Scan(scanner, engine, content)[k].lineNumber != lineNumber
  {
    ScanIssueProvenance(scanner, engine, content);
  }

  lemma {:induction false} LinesIssuesBelow(scanner: Scanner, engine: RegexEngine, lines: seq<string>)
    ensures forall k :: 0 <= k < |LinesIssues(scanner, engine, lines)| ==>
      1 <= LinesIssues(scanner, engine, lines)[k].lineNumber <= |lines|
  {
    LinesIssuesFromLines(scanner, engine, lines);
  }

  /** Findings never go back to an earlier line. */
  ghost predicate SortedByLine(s: seq<SecurityIssue>) {
    forall a, b :: 0 <= a < b < |s| ==> s[a].lineNumber <= s[b].lineNumber
  }

  lemma {:induction false} LinesIssuesSorted(scanner: Scanner, engine: RegexEngine, lines: seq<string>)
    ensures SortedByLine(LinesIssues(scanner, engine, lines))
    decreases |lines|
  {
    if |lines| > 0 {
      var n := |lines|;
      var front := lines[..n - 1];
      LinesIssuesSorted(scanner, engine, front);
      LinesIssuesBelow(scanner, engine, front);
      CategoriesIssuesRaised(engine, scanner.patterns, n, lines[n - 1]);
      var s := LinesIssues(scanner, engine, lines);
      var p := LinesIssues(scanner, engine, front);
      var q := LineIssues(scanner, engine, n, lines[n - 1]);
      assert s == p + q;
      assert forall k :: 0 <= k < |q| ==> q[k].lineNumber == n;
      forall a, b | 0 <= a < b < |s| ensures s[a].lineNumber <= s[b].lineNumber {
        if b < |p| {
          assert s[a] == p[a] && s[b] == p[b];
        } else if a < |p| {
          assert s[a] == p[a] && s[b] == q[b - |p|];
        } else {
          assert s[a] == q[a - |p|] && s[b] == q[b - |p|];
        }
      }
    }
  }

  /** Findings come in line order. */
  lemma {:induction false} ScanSortedByLine(scanner: Scanner, engine: RegexEngine, content: string)
    ensures SortedByLine(Scan(scanner, engine, content))
  {
    LinesIssuesSorted(scanner, engine, Split(content, '\n'));
  }

  /** The findings on line `k`, in their order. */
  function IssuesOnLine(issues: seq<SecurityIssue>, k: nat): (r: seq<SecurityIssue>)
    ensures forall j :: 0 <= j < |r| ==> r[j].lineNumber == k
    decreases |issues|
  {
    if |issues| == 0 then []
    else
      var last := issues[|issues| - 1];
      IssuesOnLine(issues[..|issues| - 1], k) + (if last.lineNumber == k then [last] else [])
  }

  lemma {:induction false} IssuesOnLineAppend(a: seq<SecurityIssue>, b: seq<SecurityIssue>, k: nat)
    ensures IssuesOnLine(a + b, k) == IssuesOnLine(a, k) + IssuesOnLine(b, k)
    decreases |b|
  {
    if |b| > 0 {
      var b' := b[..|b| - 1];
      IssuesOnLineAppend(a, b', k);
      assert (a + b)[..|a + b| - 1] == a + b';
      assert (a + b)[|a + b| - 1] == b[|b| - 1];
    } else {
      assert a + b == a;
    }
  }

  lemma {:induction false} IssuesOnLineAll(s: seq<SecurityIssue>, n: nat, k: nat)
    requires forall j :: 0 <= j < |s| ==> s[j].lineNumber == n
    ensures IssuesOnLine(s, k) == if n == k then s else []
    decreases |s|
  {
    if |s| > 0 {
      var front, last := s[..|s| - 1], s[|s| - 1];
      assert forall j :: 0 <= j < |front| ==> front[j] == s[j];
      IssuesOnLineAll(front, n, k);
      assert last.lineNumber == n;
      if n == k {
        calc {
          IssuesOnLine(s, k);
          IssuesOnLine(front, k) + [last];
          front + [last];
          { assert front + [last] == s; }
          s;
        }
      } else {
        assert IssuesOnLine(s, k) == IssuesOnLine(front, k);
      }
    }
  }

  /** Number of matches that the catalog's rules have on `line`, summed over categories and rules. */
  function MatchTotal(engine: RegexEngine, cats: Catalog, line: string): nat
    decreases |cats|
  {
    if |cats| == 0 then 0
    else MatchTotal(engine, cats[..|cats| - 1], line) + RuleMatchTotal(engine, cats[|cats| - 1].rules, line)
  }

  function RuleMatchTotal(engine: RegexEngine, rules: seq<Rule>, line: string): nat
    decreases |rules|
  {
    if |rules| == 0 then 0
    else RuleMatchTotal(engine, rules[..|rules| - 1], line) + |engine.findAll(rules[|rules| - 1].pattern, line)|
  }

  lemma {:induction false} CategoriesIssuesCount(engine: RegexEngine, cats: Catalog, lineNumber: nat, line: string)
    ensures |CategoriesIssues(engine, cats, lineNumber, line)| == MatchTotal(engine, cats, line)
    decreases |cats|
  {
    if |cats| > 0 {
      CategoriesIssuesCount(engine, cats[..|cats| - 1], lineNumber, line);
      RulesIssuesCount(engine, cats[|cats| - 1].name, cats[|cats| - 1].rules, lineNumber, line);
    }
  }

  lemma {:induction false} RulesIssuesCount(engine: RegexEngine, name: string, rules: seq<Rule>, lineNumber: nat, line: string)
    ensures |RulesIssues(engine, name, rules, lineNumber, line)| == RuleMatchTotal(engine, rules, line)
    decreases |rules|
  {
    if |rules| > 0 {
      RulesIssuesCount(engine, name, rules[..|rules| - 1], lineNumber, line);
    }
  }

  lemma {:induction false} LinesIssuesByLine(scanner: Scanner, engine: RegexEngine, lines: seq<string>, k: nat)
    requires 1 <= k <= |lines|
    ensures IssuesOnLine(LinesIssues(scanner, engine, lines), k) == LineIssues(scanner, engine, k, lines[k - 1])
    decreases |lines|
  {
    var n := |lines|;
    var front := lines[..n - 1];
    var p := LinesIssues(scanner, engine, front);
    var q := LineIssues(scanner, engine, n, lines[n - 1]);
    IssuesOnLineAppend(p, q, k);
    CategoriesIssuesRaised(engine, scanner.patterns, n, lines[n - 1]);
    IssuesOnLineAll(q, n, k);
    if k < n {
      LinesIssuesByLine(scanner, engine, front, k);
      assert front[k - 1] == lines[k - 1];
    } else {
      LinesIssuesBelow(scanner, engine, front);
      forall j | 0 <= j < |p| ensures p[j].lineNumber != k { }
      IssuesOnLineNone(p, k);
    }
  }

  lemma {:induction false} IssuesOnLineNone(s: seq<SecurityIssue>, k: nat)
    requires forall j :: 0 <= j < |s| ==> s[j].lineNumber != k
    ensures IssuesOnLine(s, k) == []
    decreases |s|
  {
    if |s| > 0 { IssuesOnLineNone(s[..|s| - 1], k); }
  }

  /**
   * The findings on line `k` are exactly that line's findings in category, rule and
   * match order; there are none if the line is whitelisted, and otherwise one per
   * match of every rule (nothing is merged).
   */
  lemma {:induction false} ScanByLine(scanner: Scanner, engine: RegexEngine, content: string, k: nat)
    requires 1 <= k <= |Split(content, '\n')|
    ensures var line := Split(content, '\n')[k - 1];
      IssuesOnLine(Scan(scanner, engine, content), k) == LineIssues(scanner, engine, k, line)
      && |IssuesOnLine(Scan(scanner, engine, content), k)|
         == if Whitelisted(scanner, engine, line) then 0 else MatchTotal(engine, scanner.patterns, line)
  {
    var lines := Split(content, '\n');
    LinesIssuesByLine(scanner, engine, lines, k);
    CategoriesIssuesCount(engine, scanner.patterns, k, lines[k - 1]);
  }

  // ---------------------------------------------------------------------------
  // report

  /** A Python dict from string to count, with its keys in insertion order. */
  type Counts = seq<(string, nat)>

  /** A security report; the scan-error report has no `by_level`, `by_category` or `issues`. */
  datatype Report = Report(
    status: string,
    totalIssues: nat,
    byLevel: Option<Counts>,
    byCategory: Option<Counts>,
    message: string,
    issues: Option<seq<SecurityIssue>>)

  const PassedMessage: string := "セキュリティチェックに問題はありませんでした"
  const CriticalMessage: string := "❌ 重大なセキュリティ問題が見つかりました。修正が必要です。"
  const HighMessage: string := "⚠️ 高レベルのセキュリティ問題が見つかりました。確認が必要です。"
  const WarningMessage: string := "⚠️ セキュリティに関する注意事項があります。確認をお勧めします。"

  function CountKeys(counts: Counts): seq<string> {
    seq(|counts|, i requires 0 <= i < |counts| => counts[i].0)
  }

  /** `d.get(key, 0)`. */
  function Lookup(counts: Counts, key: string): nat
    decreases |counts|
  {
    if |counts| == 0 then 0
    else if counts[0].0 == key then counts[0].1
    else Lookup(counts[1..], key)
  }

  /** `d[key] = d.get(key, 0) + 1`: an existing key keeps its place, a new one goes last. */
  function Bump(counts: Counts, key: string): Counts
    decreases |counts|
  {
    if |counts| == 0 then [(key, 1)]
    else if counts[0].0 == key then [(key, counts[0].1 + 1)] + counts[1..]
    else [counts[0]] + Bump(counts[1..], key)
  }

  /** The dict the counting loop builds from `keys`. */
  function Tally(keys: seq<string>): Counts
    decreases |keys|
  {
    if |keys| == 0 then [] else Bump(Tally(keys[..|keys| - 1]), keys[|keys| - 1])
  }

  /** How often `key` occurs in `keys`. */
  function Occurrences(keys: seq<string>, key: string): nat
    decreases |keys|
  {
    if |keys| == 0 then 0
    else Occurrences(keys[..|keys| - 1], key) + (if keys[|keys| - 1] == key then 1 else 0)
  }

  /** The distinct elements of `keys`, in order of first occurrence. */
  function FirstOccurrences(keys: seq<string>): seq<string>
    decreases |keys|
  {
    if |keys| == 0 then []
    else
      var front := FirstOccurrences(keys[..|keys| - 1]);
      if keys[|keys| - 1] in front then front else front + [keys[|keys| - 1]]
  }

  /** The sum of the dict's values. */
  function Total(counts: Counts): nat
    decreases |counts|
  {
    if |counts| == 0 then 0 else counts[0].1 + Total(counts[1..])
  }

  lemma {:induction false} BumpEffect(counts: Counts, key: string)
    ensures forall k :: Lookup(Bump(counts, key), k) == Lookup(counts, k) + (if k == key then 1 else 0)
    ensures CountKeys(Bump(counts, key)) == if key in CountKeys(counts) then CountKeys(counts) else CountKeys(counts) + [key]
    ensures Total(Bump(counts, key)) == Total(counts) + 1
    ensures (forall i :: 0 <= i < |counts| ==> counts[i].1 > 0) ==>
      forall i :: 0 <= i < |Bump(counts, key)| ==> Bump(counts, key)[i].1 > 0
    decreases |counts|
  {
    if |counts| > 0 && counts[0].0 != key {
      BumpEffect(counts[1..], key);
      var b := Bump(counts, key);
      assert CountKeys(b) == [counts[0].0] + CountKeys(Bump(counts[1..], key));
      assert CountKeys(counts) == [counts[0].0] + CountKeys(counts[1..]);
      assert b[1..] == Bump(counts[1..], key);
      forall k ensures Lookup(b, k) == Lookup(counts, k) + (if k == key then 1 else 0) {
        if k != counts[0].0 {
          assert Lookup(b, k) == Lookup(Bump(counts[1..], key), k);
        }
      }
      if (forall i :: 0 <= i < |counts| ==> counts[i].1 > 0) {
        assert forall i :: 0 <= i < |counts[1..]| ==> counts[1..][i].1 > 0 by {
          forall i | 0 <= i < |counts[1..]| ensures counts[1..][i].1 > 0 { assert counts[1..][i] == counts[i + 1]; }
        }
        forall i | 0 <= i < |b| ensures b[i].1 > 0 {
          if i > 0 { assert b[i] == Bump(counts[1..], key)[i - 1]; }
        }
      }
    } else if |counts| > 0 {
      var b := Bump(counts, key);
      assert CountKeys(counts)[0] == key;
      assert CountKeys(b) == CountKeys(counts);
      assert b[1..] == counts[1..];
      forall k ensures Lookup(b, k) == Lookup(counts, k) + (if k == key then 1 else 0) {
        if k != key { assert Lookup(b, k) == Lookup(counts[1..], k); }
      }
      forall i | 0 < i < |b| ensures b[i] == counts[i] {
        assert b[i] == b[1..][i - 1];
      }
    } else {
      assert CountKeys(Bump(counts, key)) == [key];
    }
  }

  /** No key appears twice. */
  ghost predicate Distinct(keys: seq<string>) {
    forall i, j :: 0 <= i < j < |keys| ==> keys[i] != keys[j]
  }

  /**
   * What the counting loop builds from `keys`: each distinct key once, in order of
   * first occurrence, with the number of times it occurs (so never 0); the values
   * add up to the number of keys.
   */
  lemma {:induction false} TallyCounts(keys: seq<string>)
    ensures forall k :: Lookup(Tally(keys), k) == Occurrences(keys, k)
    ensures CountKeys(Tally(keys)) == FirstOccurrences(keys)
    ensures Distinct(CountKeys(Tally(keys)))
    ensures forall i :: 0 <= i < |Tally(keys)| ==> Tally(keys)[i].1 > 0
    ensures Total(Tally(keys)) == |keys|
    decreases |keys|
  {
    if |keys| > 0 {
      var front := keys[..|keys| - 1];
      var key := keys[|keys| - 1];
      TallyCounts(front);
      BumpEffect(Tally(front), key);
      var ks := CountKeys(Tally(keys));
      assert Distinct(ks) by {
        if key !in CountKeys(Tally(front)) {
          forall i, j | 0 <= i < j < |ks| ensures ks[i] != ks[j] {
            if j == |ks| - 1 { assert ks[i] in CountKeys(Tally(front)); }
          }
        }
      }
    }
  }

  /** The levels of the findings, in order. */
  function Levels(issues: seq<SecurityIssue>): seq<string> {
    seq(|issues|, i requires 0 <= i < |issues| => issues[i].level)
  }

  /** The categories of the findings, in order. */
  function Categories(issues: seq<SecurityIssue>): seq<string> {
    seq(|issues|, i requires 0 <= i < |issues| => issues[i].category)
  }

  predicate HasLevel(issues: seq<SecurityIssue>, level: string) {
    exists i :: 0 <= i < |issues| && issues[i].level == level
  }

  /** The report the aggregator produces for `issues`. */
  function SecurityReport(issues: seq<SecurityIssue>): Report {
    if |issues| == 0 then Report("passed", 0, Some([]), Some([]), PassedMessage, None)
    else
      var status := if HasLevel(issues, Critical) then Critical else if HasLevel(issues, High) then High else "warning";
      var message := if status == Critical then CriticalMessage else if status == High then HighMessage else WarningMessage;
      Report(status, |issues|, Some(Tally(Levels(issues))), Some(Tally(Categories(issues))), message, Some(issues))
  }

  /** Counts the findings by level and by category, then derives the status. */
  method GetSecurityReport(issues: seq<SecurityIssue>) returns (report: Report)
    ensures report == SecurityReport(issues)
  {
    if |issues| == 0 {
      return Report("passed", 0, Some([]), Some([]), PassedMessage, None);
    }
    var byLevel: Counts := [];
    var i := 0;
    while i < |issues|
      invariant 0 <= i <= |issues|
      invariant byLevel == Tally(Levels(issues[..i]))
    {
      assert Levels(issues[..i + 1])[..i] == Levels(issues[..i]);
      byLevel := Bump(byLevel, issues[i].level);
      i := i + 1;
    }
    assert issues[..i] == issues;
    var byCategory: Counts := [];
    i := 0;
    while i < |issues|
      invariant 0 <= i <= |issues|
      invariant byCategory == Tally(Categories(issues[..i]))
    {
      assert Categories(issues[..i + 1])[..i] == Categories(issues[..i]);
      byCategory := Bump(byCategory, issues[i].category);
      i := i + 1;
    }
    assert issues[..i] == issues;
    var hasCritical := exists j :: 0 <= j < |issues| && issues[j].level == Critical;
    var hasHigh := exists j :: 0 <= j < |issues| && issues[j].level == High;
    var status, message;
    if hasCritical {
      status, message := Critical, CriticalMessage;
    } else if hasHigh {
      status, message := High, HighMessage;
    } else {
      status, message := "warning", WarningMessage;
    }
    report := Report(status, |issues|, Some(byLevel), Some(byCategory), message, Some(issues));
  }

  lemma {:induction false} OccurrencesExist(keys: seq<string>, key: string)
    ensures Occurrences(keys, key) > 0 <==> exists i :: 0 <= i < |keys| && keys[i] == key
    decreases |keys|
  {
    if |keys| > 0 {
      var front := keys[..|keys| - 1];
      OccurrencesExist(front, key);
      if exists i :: 0 <= i < |front| && front[i] == key {
        var i :| 0 <= i < |front| && front[i] == key;
        assert keys[i] == key;
      }
      if exists i :: 0 <= i < |keys| && keys[i] == key {
        var i :| 0 <= i < |keys| && keys[i] == key;
        if i < |front| { assert front[i] == key; }
      }
    }
  }

  /** `counts` counts `keys`: one entry per distinct key, its value how often the key occurs, the values summing to |keys|. */
  ghost predicate CountsOf(counts: Counts, keys: seq<string>) {
    && Distinct(CountKeys(counts))
    && (forall k :: Lookup(counts, k) == Occurrences(keys, k))
    && Total(counts) == |keys|
  }

  /**
   * The report's counts: no findings gives "passed", 0 and empty dicts without an
   * `issues` entry; otherwise the total, the sum of `by_level` and the sum of
   * `by_category` are all the number of findings, each level and category is counted
   * exactly as often as it occurs, and `issues` holds the findings themselves.
   */
  lemma {:induction false} ReportCounts(issues: seq<SecurityIssue>)
    ensures var r := SecurityReport(issues);
      |issues| == 0 ==>
        r.status == "passed" && r.totalIssues == 0 && r.byLevel == Some([])
        && r.byCategory == Some([]) && r.issues.None?
    ensures var r := SecurityReport(issues);
      |issues| > 0 ==>
        r.totalIssues == |issues| && r.issues == Some(issues)
        && r.byLevel.Some? && CountsOf(r.byLevel.value, Levels(issues))
        && r.byCategory.Some? && CountsOf(r.byCategory.value, Categories(issues))
  {
    TallyCounts(Levels(issues));
    TallyCounts(Categories(issues));
  }

  /** Status priority: "critical" if any finding is critical, else "high" if any is high, else "warning". */
  lemma ReportStatus(issues: seq<SecurityIssue>)
    ensures var s := SecurityReport(issues).status;
      && (s == "passed" <==> |issues| == 0)
      && (s == Critical <==> HasLevel(issues, Critical))
      && (s == High <==> !HasLevel(issues, Critical) && HasLevel(issues, High))
      && (s == "warning" <==> |issues| > 0 && !HasLevel(issues, Critical) && !HasLevel(issues, High))
  {
  }

  /** The status read off `by_level` alone. */
  function StatusOfLevels(byLevel: Counts): string {
    if |byLevel| == 0 then "passed"
    else if Lookup(byLevel, Critical) > 0 then Critical
    else if Lookup(byLevel, High) > 0 then High
    else "warning"
  }

  /** The status is a function of the `by_level` dict. */
  lemma {:induction false} StatusFollowsLevels(issues: seq<SecurityIssue>)
    ensures var r := SecurityReport(issues);
      r.byLevel.Some? && r.status == StatusOfLevels(r.byLevel.value)
  {
    var levels := Levels(issues);
    TallyCounts(levels);
    OccurrencesExist(levels, Critical);
    OccurrencesExist(levels, High);
    if |issues| > 0 {
      assert Total(Tally(levels)) > 0;
      assert HasLevel(issues, Critical) <==> exists i :: 0 <= i < |levels| && levels[i] == Critical by {
        if HasLevel(issues, Critical) {
          var i :| 0 <= i < |issues| && issues[i].level == Critical;
          assert levels[i] == Critical;
        }
      }
      assert HasLevel(issues, High) <==> exists i :: 0 <= i < |levels| && levels[i] == High by {
        if HasLevel(issues, High) {
          var i :| 0 <= i < |issues| && issues[i].level == High;
          assert levels[i] == High;
        }
      }
    }
  }

  /** The scanner's own gate: block exactly when the report's status is "critical". */
  function ShouldBlockUpload(issues: seq<SecurityIssue>): (block: bool)
    ensures block <==> SecurityReport(issues).status == Critical
  {
    exists i :: 0 <= i < |issues| && issues[i].level in [Critical]
  }

  // ---------------------------------------------------------------------------
  // console rendering

  const PassedDisplay: string := "✅ セキュリティチェック: 問題なし"

  /** At most this many findings are rendered. */
  const DisplayLimit: nat := 10

  function LevelEmoji(level: string): string {
    if level == "critical" then "🔴"
    else if level == "high" then "🟠"
    else if level == "medium" then "🟡"
    else if level == "low" then "🔵"
    else "⚪"
  }

  function LevelLine(level: string, count: nat): string {
    "  " + LevelEmoji(level) + " " + level + ": " + NatToString(count) + "件"
  }

  /** `s[:n]`. */
  function Take(s: string, n: nat): string {
    if |s| <= n then s else s[..n]
  }

  /** The lines rendering finding number `number`. */
  function IssueLines(number: nat, issue: SecurityIssue): (r: seq<string>)
    ensures 2 <= |r| <= 3
  {
    ["\n" + NatToString(number) + ". [" + Upper(issue.level) + "] " + issue.description,
     "   行 " + NatToString(issue.lineNumber) + ": " + Take(issue.lineContent, 80) + "..."]
    + (if issue.suggestion != "" then ["   💡 提案: " + issue.suggestion] else [])
  }

  /** The lines rendering `shown`, numbered from 1. */
  function IssueBlocks(shown: seq<SecurityIssue>): (r: seq<string>)
    ensures 2 * |shown| <= |r| <= 3 * |shown|
    decreases |shown|
  {
    if |shown| == 0 then []
    else IssueBlocks(shown[..|shown| - 1]) + IssueLines(|shown|, shown[|shown| - 1])
  }

  /** The closing line naming how many findings were not rendered, if any were not. */
  function MoreLine(count: nat): seq<string> {
    if count > DisplayLimit then ["\n... および他 " + NatToString(count - DisplayLimit) + " 件"] else []
  }

  function Min(a: nat, b: nat): nat { if a <= b then a else b }

  /** One line per level, in the order given, with its count. */
  function LevelLines(levels: seq<string>, byLevel: Counts): seq<string>
    decreases |levels|
  {
    if |levels| == 0 then []
    else
      var last := levels[|levels| - 1];
      LevelLines(levels[..|levels| - 1], byLevel) + [LevelLine(last, Lookup(byLevel, last))]
  }

  /** The level section: a heading and the level lines, or nothing when no level was counted. */
  function LevelSection(byLevel: Counts, sortedLevels: seq<string>): seq<string> {
    if |byLevel| > 0 then ["\n問題レベル別:"] + LevelLines(sortedLevels, byLevel) else []
  }

  /** The details section: a heading, the first ten findings and the closing line. */
  function DetailSection(issues: Option<seq<SecurityIssue>>): seq<string> {
    match issues
    case None => []
    case Some(all) => ["\n詳細:"] + IssueBlocks(all[..Min(DisplayLimit, |all|)]) + MoreLine(|all|)
  }

  /** The rendering of a report that did not pass, once its level names are sorted. */
  function DisplayLines(report: Report, sortedLevels: seq<string>): seq<string>
    requires report.byLevel.Some?
  {
    ["\n" + report.message, "検出された問題: " + NatToString(report.totalIssues) + "件"]
    + LevelSection(report.byLevel.value, sortedLevels)
    + DetailSection(report.issues)
  }

  /** Appends one line per level to `output`. */
  method AppendLevelLines(output: seq<string>, levels: seq<string>, byLevel: Counts) returns (out: seq<string>)
    ensures out == output + LevelLines(levels, byLevel)
  {
    out := output;
    for j := 0 to |levels|
      invariant out == output + LevelLines(levels[..j], byLevel)
    {
      assert levels[..j + 1][..j] == levels[..j];
      out := out + [LevelLine(levels[j], Lookup(byLevel, levels[j]))];
    }
    assert levels[..|levels|] == levels;
  }

  /** Appends the lines rendering finding number `number`. */
  method AppendIssue(output: seq<string>, number: nat, issue: SecurityIssue) returns (out: seq<string>)
    ensures out == output + IssueLines(number, issue)
  {
    out := output + ["\n" + NatToString(number) + ". [" + Upper(issue.level) + "] " + issue.description];
    out := out + ["   行 " + NatToString(issue.lineNumber) + ": " + Take(issue.lineContent, 80) + "..."];
    if issue.suggestion != "" {
      out := out + ["   💡 提案: " + issue.suggestion];
    }
  }

  /** Appends the lines of the first ten findings, numbered from 1, then the closing line. */
  method AppendDetails(output: seq<string>, all: seq<SecurityIssue>) returns (out: seq<string>)
    ensures out == output + IssueBlocks(all[..Min(DisplayLimit, |all|)]) + MoreLine(|all|)
  {
    out := output;
    var shown := all[..Min(DisplayLimit, |all|)];
    for i := 0 to |shown|
      invariant out == output + IssueBlocks(shown[..i])
    {
      assert shown[..i + 1][..i] == shown[..i];
      assert IssueBlocks(shown[..i + 1]) == IssueBlocks(shown[..i]) + IssueLines(i + 1, shown[i]);
      out := AppendIssue(out, i + 1, shown[i]);
    }
    assert shown[..|shown|] == shown;
    out := out + MoreLine(|all|);
  }

  /** `sorted(report['by_level'].keys())`. */
  method SortedLevels(byLevel: Counts) returns (levels: seq<string>)
    ensures StrictlySorted(levels) && forall l :: l in levels <==> l in CountKeys(byLevel)
  {
    levels := SortedFromSet(set y | y in CountKeys(byLevel));
  }

  /**
   * `format_report_for_display`: a fixed line for a passed report; otherwise the
   * message, the total, the level counts in ascending order of level name and the
   * first ten findings. A report without `by_level` raises `KeyError`.
   */
  method FormatReportForDisplay(report: Report) returns (r: Result<string, string>)
    ensures report.status == "passed" ==> r == Ok(PassedDisplay)
    ensures report.status != "passed" && report.byLevel.None? ==> r == Err("by_level")
    ensures report.status != "passed" && report.byLevel.Some? ==>
      exists levels :: StrictlySorted(levels) && (forall l :: l in levels <==> l in CountKeys(report.byLevel.value))
        && r == Ok(Join(DisplayLines(report, levels), "\n"))
  {
    if report.status == "passed" {
      return Ok(PassedDisplay);
    }
    var output := ["\n" + report.message];
    output := output + ["検出された問題: " + NatToString(report.totalIssues) + "件"];
    if report.byLevel.None? {
      return Err("by_level");
    }
    var levels := SortedLevels(report.byLevel.value);
    ghost var header := output;
    output := AppendLevelSection(output, report.byLevel.value, levels);
    output := AppendDetailSection(output, report.issues);
    assert header == ["\n" + report.message, "検出された問題: " + NatToString(report.totalIssues) + "件"];
    assert output == DisplayLines(report, levels);
    r := Ok(Join(output, "\n"));
  }

  /** Appends the level heading and one line per level, unless no level was counted. */
  method AppendLevelSection(output: seq<string>, byLevel: Counts, levels: seq<string>) returns (out: seq<string>)
    ensures out == output + LevelSection(byLevel, levels)
  {
    out := output;
    if |byLevel| > 0 {
      out := out + ["\n問題レベル別:"];
      out := AppendLevelLines(out, levels, byLevel);
    }
  }

  /** Appends the details heading and the details, when the report carries its findings. */
  method AppendDetailSection(output: seq<string>, issues: Option<seq<SecurityIssue>>) returns (out: seq<string>)
    ensures out == output + DetailSection(issues)
  {
    out := output;
    if issues.Some? {
      out := out + ["\n詳細:"];
      out := AppendDetails(out, issues.value);
    }
  }

  lemma {:induction false} IssueBlocksStart(shown: seq<SecurityIssue>)
    requires |shown| > 0
    ensures IssueBlocks(shown)[0] == IssueLines(1, shown[0])[0]
    decreases |shown|
  {
    if |shown| > 1 {
      var front := shown[..|shown| - 1];
      IssueBlocksStart(front);
      assert front[0] == shown[0];
    }
  }

  /**
   * However many findings a report holds, its details section renders at most ten of
   * them, starting with finding number 1; a closing line is added exactly when more
   * than ten exist, and the count it names reads back as the number left out.
   */
  lemma {:induction false} DisplayDetailsBounded(all: seq<SecurityIssue>)
    ensures var details := IssueBlocks(all[..Min(DisplayLimit, |all|)]) + MoreLine(|all|);
      2 * Min(DisplayLimit, |all|) <= |details| <= 3 * DisplayLimit + 1
    ensures |all| > 0 ==>
      IssueBlocks(all[..Min(DisplayLimit, |all|)])[0] == "\n1. [" + Upper(all[0].level) + "] " + all[0].description
    ensures |MoreLine(|all|)| == (if |all| > DisplayLimit then 1 else 0)
    ensures |all| > DisplayLimit ==>
      var digits := MoreLine(|all|)[0][|"\n... および他 "|..|MoreLine(|all|)[0]| - |" 件"|];
      (forall i :: 0 <= i < |digits| ==> IsDigit(digits[i])) && ParseNat(digits) == |all| - DisplayLimit
  {
    var shown := all[..Min(DisplayLimit, |all|)];
    if |all| > 0 {
      IssueBlocksStart(shown);
      assert shown[0] == all[0];
    }
    if |all| > DisplayLimit {
      MoreLineReadsBack(|all|);
    }
  }

  /** The closing line's number reads back as the count of findings left out. */
  lemma {:induction false} MoreLineReadsBack(count: nat)
    requires count > DisplayLimit
    ensures var digits := MoreLine(count)[0][|"\n... および他 "|..|MoreLine(count)[0]| - |" 件"|];
      (forall i :: 0 <= i < |digits| ==> IsDigit(digits[i])) && ParseNat(digits) == count - DisplayLimit
  {
    var line := MoreLine(count)[0];
    var d := NatToString(count - DisplayLimit);
    assert line == "\n... および他 " + d + " 件";
    assert line[|"\n... および他 "|..|line| - |" 件"|] == d;
    ParseNatToString(count - DisplayLimit);
  }
}
