# AutoQiita publish pipeline, in Dafny

AutoQiita watches workspace files and publishes them to Qiita as private drafts. This
project models the parts of it that make decisions:

- **Security scanner** (`SecurityScanner`, rules in `SecurityRules`):
  - splits an article into lines and skips whitelisted lines;
  - raises one finding per rule match;
  - aggregates the findings into a report with counts by level and by category and a status (`passed`, `warning`, `high`, `critical`);
  - renders that report for the console.
- **Content processor** (`ContentProcessor`):
  - turns a scan failure into an error report;
  - decides whether an upload is blocked;
  - puts a Japanese warning banner in front of an article that has findings;
  - extracts the article's title and its front-matter tags.
- **Qiita client** (`QiitaClient`):
  - creates a private draft, and when that fails, updates the user's existing private draft with the same title;
  - the simple entry point only creates.
  - The Qiita API is a `RemoteStore` object. Its replies are fixed functions of the request, and it records every call in `trace`.
- **Bookkeeping state**, kept as classes whose methods update their fields:
  - the watched-extension set and its descriptions (`ExtensionManager.FileExtensionManager`);
  - the workspace registry (`MultiWorkspace.MultiWorkspaceConfig`);
  - the file-event handler with its per-path debounce table (`FileMonitor.VSCodeFileHandler`);
  - the observer's start/stop switch (`FileMonitor.Monitor`).

`Strings` holds the Python `str` operations the model needs:
- `split`, `strip`, `find`, `in`;
- ASCII `lower`/`upper`;
- `sorted` over strings, where `Less` is Python's code-point order.

`Paths` holds the pieces of `pathlib` it needs: `parts`, `name` and `suffix`.

The regular-expression engine is a value of type `SecurityScanner.RegexEngine`:
- `finditer` gives a rule's matches on a line;
- `searchIgnoreCase` is the case-insensitive whitelist search.

Everything proved holds for every engine. The clock, `Path.is_file`, `Path.resolve`, the file loaders and the HTTP endpoints are likewise parameters.

Where the code and the design description of the system disagree, the model follows the code:
- **Malformed rule file.** A rule file that is present but malformed makes construction fail, with `NewScanner` returning `Err`. The code has no fallback to the built-in rules on that path (security_scanner.py:33-35).
- **Failed update.** When the fallback update fails, the create call's original error is raised, not the update's (qiita_client.py:104-115).
- **Listing depth.** The fallback searches a single page of 20 items (qiita_client.py:70, 105), not a full listing.

## Model

| member | source | states |
|---|---|---|
| SecurityRules.DefaultPatterns | security_scanner.py:37-139 | the built-in catalog has the five categories credentials, personal_info, dangerous_code, web_security, file_paths in that order, with 4, 3, 4, 2 and 2 rules |
| SecurityRules.CredentialRules | security_scanner.py:39-64 | the credentials category has four rules, in the order of the table |
| SecurityRules.PersonalInfoRules | security_scanner.py:65-84 | the personal-information category has three rules |
| SecurityRules.DangerousCodeRules | security_scanner.py:85-110 | the dangerous-code category has four rules |
| SecurityRules.WebSecurityRules | security_scanner.py:111-124 | the web-security category has two rules |
| SecurityRules.FilePathRules | security_scanner.py:125-138 | the file-path category has two rules |
| SecurityRules.DefaultWhitelist | security_scanner.py:141-153 | the whitelist has nine patterns, among them the escaped test e-mail address and `localhost` |
| SecurityScanner.NewScanner | security_scanner.py:27-35 | without a rule file the built-in catalog is used; a parsed rule file replaces it; construction fails exactly when the rule file does not parse; the whitelist is always the built-in one |
| SecurityScanner.Repeat | security_scanner.py:166-180 | n copies of the same finding, one per match |
| SecurityScanner.IsWhitelisted | security_scanner.py:184-189 | true exactly when some whitelist pattern is found in the line, ignoring case |
| SecurityScanner.AppendLineIssues | security_scanner.py:166-180 | appends the line's findings in category, rule and match order |
| SecurityScanner.ScanContent | security_scanner.py:155-182 | the findings are those of every line of the text split at each newline, numbered from 1, with whitelisted lines skipped |
| SecurityScanner.RulesIssuesRaised | security_scanner.py:168-180 | each finding of a category copies level, description and suggestion from a rule of that category whose pattern matches the line, and carries the stripped line |
| SecurityScanner.CategoriesIssuesRaised | security_scanner.py:166-180 | each finding on a line comes from some rule of some category of the catalog that matches that line |
| SecurityScanner.LinesIssuesFromLines | security_scanner.py:158-180 | each finding's line number n lies in 1..number of lines and the finding was raised by a rule matching line n, which is not whitelisted |
| SecurityScanner.ScanIssueProvenance | security_scanner.py:155-182 | every finding of a scan names a real line of the content and a rule that matches it there |
| SecurityScanner.WhitelistPrecedence | security_scanner.py:160-163 | a whitelisted line yields no finding at all, whatever rules (critical ones included) match it |
| SecurityScanner.LinesIssuesBelow | security_scanner.py:158-180 | every line number is between 1 and the number of lines |
| SecurityScanner.LinesIssuesSorted | security_scanner.py:158-180 | findings never go back to an earlier line |
| SecurityScanner.ScanSortedByLine | security_scanner.py:155-182 | a scan's findings are ordered by line |
| SecurityScanner.IssuesOnLine | security_scanner.py:158-180 | the selected findings all belong to the given line |
| SecurityScanner.IssuesOnLineAppend | security_scanner.py:158-180 | selecting one line's findings distributes over concatenation |
| SecurityScanner.IssuesOnLineAll | security_scanner.py:158-180 | findings of a single line are all selected for that line and none for another |
| SecurityScanner.CategoriesIssuesCount | security_scanner.py:166-180 | a line yields exactly one finding per match of every rule of every category (no merging) |
| SecurityScanner.RulesIssuesCount | security_scanner.py:168-180 | a category yields exactly one finding per match of each of its rules |
| SecurityScanner.LinesIssuesByLine | security_scanner.py:158-180 | the findings on line k are exactly that line's own findings, in order |
| SecurityScanner.IssuesOnLineNone | security_scanner.py:158-180 | no finding is selected for a line none of them is on |
| SecurityScanner.ScanByLine | security_scanner.py:155-182 | the findings on line k are that line's findings, none when whitelisted and otherwise as many as the rules have matches there |
| SecurityScanner.BumpEffect | security_scanner.py:212-221 | incrementing a count raises that key by one and no other, keeps an existing key's place, puts a new key last, and adds one to the total |
| SecurityScanner.TallyCounts | security_scanner.py:212-221 | the counting loop gives each key its number of occurrences, lists keys once in first-occurrence order, holds no zero entry and sums to the number of keys |
| SecurityScanner.GetSecurityReport | security_scanner.py:201-243 | the report built by the loops is the report the aggregator specifies |
| SecurityScanner.OccurrencesExist | security_scanner.py:212-221 | a key is counted at least once exactly when it occurs |
| SecurityScanner.ReportCounts | security_scanner.py:201-243 | no findings give "passed", 0, empty dicts and no issues entry; otherwise the total, the sum by level and the sum by category all equal the number of findings, each counted as often as it occurs, and the issues entry holds the findings |
| SecurityScanner.ReportStatus | security_scanner.py:223-234 | "passed" iff no findings, "critical" iff some finding is critical, "high" iff none is critical and some is high, "warning" otherwise |
| SecurityScanner.StatusFollowsLevels | security_scanner.py:223-234 | the status is determined by the by-level counts alone |
| SecurityScanner.ShouldBlockUpload | security_scanner.py:245-247 | block exactly when the report's status is critical, that is when some finding is critical |
| SecurityScanner.IssueLines | security_scanner.py:263-269 | a finding renders as two lines, three with a suggestion |
| SecurityScanner.IssueBlocks | security_scanner.py:263-269 | n findings render as between 2n and 3n lines |
| SecurityScanner.AppendLevelLines | security_scanner.py:257-261 | appends one line per level in the order given |
| SecurityScanner.AppendLevelSection | security_scanner.py:257-261 | appends the level heading and lines, nothing when no level was counted |
| SecurityScanner.AppendIssue | security_scanner.py:264-269 | appends the two or three lines rendering one numbered finding |
| SecurityScanner.AppendDetails | security_scanner.py:263-272 | appends the first ten findings and the closing "more" line |
| SecurityScanner.AppendDetailSection | security_scanner.py:263-272 | appends the details heading and details when the report carries its findings |
| SecurityScanner.SortedLevels | security_scanner.py:259 | the level names of the counts, sorted ascending, each once |
| SecurityScanner.FormatReportForDisplay | security_scanner.py:249-274 | a passed report gives the fixed line; a report without by-level counts raises (Err); otherwise the message, total, levels in ascending name order and details, joined by newlines |
| SecurityScanner.IssueBlocksStart | security_scanner.py:263-266 | the rendering starts with finding number 1 |
| SecurityScanner.DisplayDetailsBounded | security_scanner.py:263-272 | at most ten findings are rendered, starting with number 1 and its level in upper case; the "more" line appears iff there are more than ten, and its number reads back as the count minus ten |
| SecurityScanner.MoreLineReadsBack | security_scanner.py:271-272 | the number in the "more" line reads back as the count minus ten |
| ContentProcessor.PerformSecurityScan | content_processor.py:55-70 | a failed scan gives the error report with status "error", 0 issues and the exception's message; otherwise the report of the scan |
| ContentProcessor.ShouldBlockUpload | content_processor.py:72-77 | never blocks without a report or with scanning disabled; otherwise blocks exactly on status critical |
| ContentProcessor.GateMatchesScanner | content_processor.py:72-77 | on a successful scan the processor's gate agrees with the scanner's own gate |
| ContentProcessor.ScanErrorNeverBlocks | content_processor.py:64-77 | a failed scan never blocks an upload |
| ContentProcessor.DefaultCategoriesTranslated | content_processor.py:125-135 | every built-in category has a Japanese name differing from its key |
| ContentProcessor.UnknownCategoryKept | content_processor.py:125-135 | an unknown category is shown under its own name |
| ContentProcessor.CategoryLinesAppend | content_processor.py:109-112 | each category entry adds its line and a newline at the end of the summary |
| ContentProcessor.HeadlineOf | content_processor.py:91-106 | the banner's headline is chosen by status |
| ContentProcessor.AppendCategoryLines | content_processor.py:109-112 | the loop appends one summary line per category entry, in order |
| ContentProcessor.GenerateSecurityWarningSection | content_processor.py:89-123 | the built banner is headline, introduction, category summary (none without by-category counts) and footer |
| ContentProcessor.CategoryLineList | content_processor.py:109-112 | one summary line per category entry, in order |
| ContentProcessor.CategoryLinesJoin | content_processor.py:109-112 | the summary is its lines joined by newlines with a final newline |
| ContentProcessor.CategoryLineOneLine | content_processor.py:110-112 | a summary line contains no newline when the category name has none |
| ContentProcessor.BannerLinesPerCategory | content_processor.py:109-135 | the summary, read back line by line, is exactly one "name: count件" line per by-category entry in order |
| ContentProcessor.BannerFrame | content_processor.py:91-123 | the banner starts with the status headline (🚨 重要, ⚠️ 注意 or 💡 情報) and ends with the advice footer |
| ContentProcessor.AddSecurityWarningToContent | content_processor.py:79-87 | without a report, or with zero issues, the body is unchanged; otherwise banner, blank line, then the body |
| ContentProcessor.WarningOnlyWhenIssues | content_processor.py:55-87 | a scanned article gains a banner exactly when the scan found something and always keeps its text as a suffix; a failed scan adds nothing |
| ContentProcessor.NonEmpty | content_processor.py:324-325 | the kept names are non-empty |
| ContentProcessor.Cleaned | content_processor.py:324 | each piece is stripped of whitespace and then of quotes |
| ContentProcessor.TagNames | content_processor.py:324-325 | no parsed tag name is empty |
| ContentProcessor.NamesToTags | content_processor.py:325 | one tag per name, with no versions |
| ContentProcessor.SkipSpace | content_processor.py:321 | the greedy whitespace run of the tag pattern |
| ContentProcessor.CloseBracket | content_processor.py:321 | the lazy group stops at the first bracket, failing at a newline |
| ContentProcessor.ExtractTagsFromContent | content_processor.py:313-331 | the tag list is never empty; every tag has a non-empty name and no versions |
| ContentProcessor.NoFrontMatterDefaultTags | content_processor.py:318-331 | content without a closed front-matter block gets the single default tag 備忘録 |
| ContentProcessor.StripCharsUnchanged | content_processor.py:324 | stripping leaves a text alone when its ends are outside the stripped set |
| ContentProcessor.CleanPlainName | content_processor.py:324 | a plain tag name survives cleaning unchanged |
| ContentProcessor.NonEmptyKeeps | content_processor.py:325 | dropping empty names keeps a list with none |
| ContentProcessor.TagNamesPlain | content_processor.py:324-325 | plain names parse to themselves |
| ContentProcessor.TagListRoundTrip | content_processor.py:324-325 | writing plain names as a comma-separated list and parsing it gives the same tags back |
| ContentProcessor.CloseBracketAfter | content_processor.py:321 | the group ends at the first closing bracket |
| ContentProcessor.TagListFound | content_processor.py:321 | a `tags: [...]` text is read as its list |
| ContentProcessor.FrontMatterTagsRoundTrip | content_processor.py:313-331 | a file opening with `---tags: [a,b,...]---` declares exactly those tags |
| ContentProcessor.FrontMatterDeclares | content_processor.py:318-325 | a tags front matter declares the tags its list names |
| ContentProcessor.FrontMatterOf | content_processor.py:318-320 | the front matter ends at the first `---` after the opening one |
| ContentProcessor.JoinWithout | content_processor.py:324 | a character absent from the names and separator is absent from the joined list |
| ContentProcessor.ReplaceChar | content_processor.py:168 | replaces exactly the occurrences of one character |
| ContentProcessor.ExtractTitleFromContent | content_processor.py:146-168 | the title is the first heading line's text, else the first matching title pattern's group, else the file-name title |
| ContentProcessor.FindHeading | content_processor.py:148-153 | the line loop returns the first heading line's stripped text, or nothing |
| ContentProcessor.FindPatternTitle | content_processor.py:156-165 | the pattern loop returns the stripped group of the first matching pattern, or nothing |
| ContentProcessor.FirstHeadingIsFirst | content_processor.py:148-153 | a heading title exists exactly when some line starts with "# ", and it comes from the first such line |
| ContentProcessor.SplitFirst | content_processor.py:148 | the first line of a split is the text before the first newline |
| ContentProcessor.HeadingWins | content_processor.py:146-153 | content whose first line is a "# " heading is titled by that stripped heading, whatever the patterns or the file name give |
| ContentProcessor.UnstrippedContent | content_processor.py:148 | stripping leaves content starting with "#" and ending in a non-space alone |
| ContentProcessor.TitleFromFirstLine | content_processor.py:148-153 | a first line "# h" gives the title h stripped |
| QiitaClient.RemoteStore.constructor | qiita_client.py:25-31 | a client starts with no calls made |
| QiitaClient.RemoteStore.CreateDraft | qiita_client.py:33-46 | the create endpoint's reply for the draft, with the call recorded |
| QiitaClient.RemoteStore.ListUserItems | qiita_client.py:70-77 | the list endpoint's reply for the page, with the call recorded |
| QiitaClient.RemoteStore.UpdateDraft | qiita_client.py:48-61 | the update endpoint's reply for the item, with the call recorded |
| QiitaClient.NewDraft | qiita_client.py:82-98 | the submitted draft has no id, the given title and body, the tags or an empty list, and is private |
| QiitaClient.FirstMatchFrom | qiita_client.py:106-108 | a found index is of a private item with the same title |
| QiitaClient.FindOrCreateDraft | qiita_client.py:79-115 | the result and the calls made are those of the reconciliation: gate, create, then on failure list, first match and update |
| QiitaClient.CreateDraftSimple | qiita_client.py:117-128 | exactly one create call for the private draft; its reply is returned, and its error raised |
| QiitaClient.FirstMatchFromIsFirst | qiita_client.py:106-110 | the search finds nothing iff no item from the start is reusable, and otherwise the first reusable one |
| QiitaClient.FirstMatchIsFirst | qiita_client.py:106-110 | the first reusable item of the listing is chosen; later duplicates are ignored |
| QiitaClient.BlockedMakesNoCalls | qiita_client.py:86-90 | a critical report without force raises SecurityError before any call |
| QiitaClient.UnblockedCreatesFirst | qiita_client.py:86-101 | without a blocking report the first call creates the private draft |
| QiitaClient.CreateSuccessIsFinal | qiita_client.py:100-101 | a successful create is returned, with no list or update call |
| QiitaClient.CallsArePrivateSinglePage | qiita_client.py:93-110 | at most three calls; every draft sent is private with the given title, body and tags; any listing is page 1 of 20 |
| QiitaClient.FailureRaisesCreateError | qiita_client.py:102-115 | after the gate, every failure surfaces the create call's own error |
| QiitaClient.UpdateTargetsFirstMatch | qiita_client.py:102-110 | an update happens only after a failed create and a successful listing, targets the first reusable item under its id, and its success is returned |
| QiitaClient.NoMatchNoUpdate | qiita_client.py:104-112 | with no reusable item, create and list are the only calls and the create error is raised |
| QiitaClient.MatchUpdates | qiita_client.py:104-110 | after a failed create, the first reusable listed item with an id is updated once with the draft under that id; the update's reply is returned, or the create error when the update fails |
| QiitaClient.MatchWithoutIdNoUpdate | qiita_client.py:104-112 | a first reusable item without an id is not updated: create and list are the only calls and the create error is raised |
| ExtensionManager.Normalize | extension_manager.py:90-92 | the extension gains a leading dot when missing, and is otherwise unchanged |
| ExtensionManager.Loaded | extension_manager.py:59-72 | never empty; the file's list when it has one, else the defaults |
| ExtensionManager.FileExtensionManager.constructor | extension_manager.py:13-57 | starts with the loaded set and the default descriptions |
| ExtensionManager.FileExtensionManager.LoadExtensions | extension_manager.py:59-72 | the watched set becomes the loaded one; descriptions are untouched |
| ExtensionManager.FileExtensionManager.AddExtension | extension_manager.py:88-104 | true iff the normalised extension was not watched; it is then watched; a new extension without a description gets "<EXT> files" |
| ExtensionManager.FileExtensionManager.RemoveExtension | extension_manager.py:106-116 | true iff the normalised extension was watched; exactly it is removed |
| ExtensionManager.FileExtensionManager.ListExtensions | extension_manager.py:118-120 | the watched extensions, sorted ascending, each once |
| ExtensionManager.FileExtensionManager.SuggestExtensions | extension_manager.py:122-153 | sorted and duplicate-free; an extension is listed iff it is described and its name or description contains the lower-cased keyword, or the keyword maps to it |
| ExtensionManager.AddThenRemove | extension_manager.py:88-116 | adding an unwatched extension and then removing it reports both changes and restores the watched set, while a default "<EXT> files" description written by the add stays |
| ExtensionManager.NormalizeIdempotent | extension_manager.py:90-92 | "md" and ".md" name the same extension |
| ExtensionManager.MappedExtensionsDescribed | extension_manager.py:133-147 | every keyword-mapped extension has a description |
| ExtensionManager.KeywordDescribed | extension_manager.py:133-147 | the extensions one keyword maps to all have descriptions |
| ExtensionManager.DefaultsDescribed | extension_manager.py:15-56 | every default extension has a description |
| MultiWorkspace.LoadWorkspaces | multi_workspace.py:16-26 | the file's list, or none when the file is missing or unparsable |
| MultiWorkspace.NewWorkspace | multi_workspace.py:36-47 | the resolved path, the given or default name (the path's last component), the enabled flag and a "<name>-project" tag |
| MultiWorkspace.WithoutPath | multi_workspace.py:48-57 | exactly the entries with another path remain |
| MultiWorkspace.EnabledOnly | multi_workspace.py:59-61 | exactly the enabled entries remain |
| MultiWorkspace.FirstWithPath | multi_workspace.py:66-68 | the index of the first entry with the path, or none when no entry has it |
| MultiWorkspace.Toggle | multi_workspace.py:68-72 | only the flag changes: to the given value, or negated with a missing flag read as true |
| MultiWorkspace.Toggled | multi_workspace.py:63-73 | the list keeps its length |
| MultiWorkspace.MultiWorkspaceConfig.constructor | multi_workspace.py:12-14 | starts with the loaded workspaces |
| MultiWorkspace.MultiWorkspaceConfig.AddWorkspace | multi_workspace.py:34-52 | entries with the resolved path are dropped and the new entry is appended |
| MultiWorkspace.MultiWorkspaceConfig.RemoveWorkspace | multi_workspace.py:54-57 | exactly the entries with the resolved path are dropped |
| MultiWorkspace.MultiWorkspaceConfig.GetEnabledWorkspaces | multi_workspace.py:59-61 | exactly the entries whose flag is true or missing |
| MultiWorkspace.MultiWorkspaceConfig.ToggleWorkspace | multi_workspace.py:63-73 | only the first entry with the resolved path is toggled |
| MultiWorkspace.AddLeavesOneEntry | multi_workspace.py:48-51 | after an add, exactly one entry has the path, and it is the last |
| MultiWorkspace.WithoutPathAppend | multi_workspace.py:49 | the other entries keep their relative order |
| MultiWorkspace.WithoutAbsentPath | multi_workspace.py:49 | an absent path leaves the list unchanged |
| MultiWorkspace.EnabledOnlyAppend | multi_workspace.py:59-61 | the enabled filter keeps order |
| MultiWorkspace.ToggleTouchesOnlyFirst | multi_workspace.py:63-73 | an unknown path changes nothing; otherwise only the first match's flag changes |
| MultiWorkspace.ToggleTwiceRestores | multi_workspace.py:68-72 | flipping twice restores every entry's enabled state |
| MultiWorkspace.FirstWithPathSamePaths | multi_workspace.py:66-67 | the first match depends only on the paths |
| MultiWorkspace.ToggleExplicitIdempotent | multi_workspace.py:68-70 | setting an explicit value twice is setting it once |
| Paths.Components | autoqiita/file_monitor.py:42 | path components are non-empty, not ".", and taken from the pieces |
| Paths.Parts | autoqiita/file_monitor.py:42 | no part is empty or "." |
| Paths.Name | multi_workspace.py:36-37 | the last component of the path (`Path(path).name`, the default workspace name and the text `suffix` reads), with no slash and not "." |
| Paths.LastIndexOf | autoqiita/file_monitor.py:37 | the last occurrence of the character, or -1 when absent |
| Paths.Suffix | autoqiita/file_monitor.py:37 | empty, or a dot followed by a non-empty, dot-free text |
| FileMonitor.OrDefault | autoqiita/file_monitor.py:24-28 | the given set unless it is missing or empty, then the defaults |
| FileMonitor.VSCodeFileHandler.constructor | autoqiita/file_monitor.py:19-30 | watched and ignore sets with defaults, an empty debounce table |
| FileMonitor.VSCodeFileHandler.OnModified | autoqiita/file_monitor.py:51-75 | a delivered event records its time and calls back once; any other event leaves table and log untouched |
| FileMonitor.Monitor.constructor | autoqiita/file_monitor.py:80-92 | not running, no observer action |
| FileMonitor.Monitor.Start | autoqiita/file_monitor.py:94-107 | schedules and starts the observer unless it already runs |
| FileMonitor.Monitor.Stop | autoqiita/file_monitor.py:109-117 | stops and joins the observer unless it is not running |
| FileMonitor.IgnoredComponentRejects | autoqiita/file_monitor.py:40-43 | a component equal to an ignore pattern rejects the path |
| FileMonitor.UnwatchedSuffixRejects | autoqiita/file_monitor.py:36-38 | an unwatched suffix rejects the path |
| FileMonitor.ComponentsOfPlain | autoqiita/file_monitor.py:42 | plain pieces are their own components |
| FileMonitor.PartsOfPlainPath | autoqiita/file_monitor.py:42 | a relative path built from plain pieces has those pieces as parts and the last as name |
| FileMonitor.IgnoreMatchesWholeComponents | autoqiita/file_monitor.py:40-43 | a path is ignored iff some whole component equals a pattern, never on a substring |
| FileMonitor.SuffixOfName | autoqiita/file_monitor.py:36-38 | a name "stem.ext" has suffix ".ext" |
| FileMonitor.DebounceDropsRepeat | autoqiita/file_monitor.py:62-65 | a second event within two seconds of an accepted one is dropped |
| FileMonitor.ReplayTimesBounded | autoqiita/file_monitor.py:62-67 | recorded times never exceed the initial and event times |
| FileMonitor.ReplayLogInTable | autoqiita/file_monitor.py:62-75 | each delivered path is in the table with a time no earlier than its delivery |
| FileMonitor.DeliveryTimeIsEventTime | autoqiita/file_monitor.py:67-75 | every delivery happens at the time of some event |
| FileMonitor.DebounceSpacing | autoqiita/file_monitor.py:62-75 | with a clock that never goes back, two callbacks for the same path are at least two seconds apart |
| FileMonitor.StartStopIdempotent | autoqiita/file_monitor.py:94-117 | starting twice is starting once, stopping twice is stopping once; running after start, not after stop |
| FileMonitor.Count | autoqiita/file_monitor.py:94-117 | an action occurs at most as often as the history is long |
| FileMonitor.CountAppend | autoqiita/file_monitor.py:94-117 | counts add over concatenated histories |
| FileMonitor.StartStopKeepBalance | autoqiita/file_monitor.py:94-117 | the observer is started once more than stopped exactly while the monitor runs, and start and stop keep this |
| Strings.JoinSplit | security_scanner.py:158 | joining the pieces of a split gives the text back |
| Strings.SplitJoin | content_processor.py:324 | splitting a join of separator-free pieces gives the pieces back |
| Strings.ParseNatToString | security_scanner.py:272 | a rendered count reads back as the number |
| Strings.StrictlySortedCard | extension_manager.py:120 | a strictly sorted list holds each element once |
| Strings.SortedFromSet | extension_manager.py:153 | the set's elements, sorted ascending, each once |

## Left out

- **Regular expressions.** The Python `re` engine is a parameter: matching with `finditer`, the case-insensitive whitelist search, and the three title patterns. Only the front-matter pattern `tags:\s*\[(.*?)\]` is written out, with `\s` as `str.isspace` whitespace.
- **File and JSON I/O.** What loading found is a parameter. This covers the rule file, `scan_file`, `_read_file_content` with its shift_jis fallback, `save_extensions` and `save_workspaces`.
- **`Path.resolve` and `Path.is_file`.** Both are parameters.
- **HTTP.** The endpoints are an oracle. The bearer header, URLs, `get_draft` and `raise_for_status` details are not modelled.
- **Clock and title-casing.**
  - `time.time()` is a real-valued parameter.
  - `Path.stem.title()` is a parameter.
  - `upper`/`lower` are ASCII-only.
- **Threads.** The watchdog observer and its threads are not modelled; `Monitor` records the actions it would request. The callback's exceptions are swallowed, so the callback is modelled as a log entry.
- **Other content processing.** The `_process_*` body builders and `process_file` (timestamps and file templating) are not part of this model.
- **Other components.** The CLI, the MCP server, the VS Code extension, `config.py` and `main.py` are not part of this model.
- **Interactive code.** `interactive_add` and `interactive_remove` (prompts) are not part of this model.
- **`SecurityError`'s default message.** It is never used: a report always has a message.
- **Numeric types.** Counts are unbounded naturals; times are reals rather than floats.
- MultiWorkspace.MultiWorkspaceConfig.AddWorkspace: entries read from the file that lack a "path" key (a KeyError in Python) are not modelled. Workspaces are values, so aliasing between the returned list and the registry is not captured.
- MultiWorkspace.Toggled: its own contract states only the length; what changes is stated by `ToggleTouchesOnlyFirst` and `Toggle`.
- SecurityScanner.FormatReportForDisplay: emoji per level and the exact text of each line are stated through `DisplayLines`, whose parts `DisplayDetailsBounded` and `IssueBlocksStart` describe.
- Paths.Parts: the POSIX `//` root quirk of `pathlib` is not modelled.
- ExtensionManager.FileExtensionManager.SuggestExtensions: dictionary order does not matter, because the result is sorted.
