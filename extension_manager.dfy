/**
 * The set of file extensions the monitor watches, with a description per extension,
 * edited by adding and removing extensions and searched by keyword.
 *
 * Reading and writing the JSON configuration file is not modelled: what loading
 * found is a parameter, and saving is left out.
 */
module ExtensionManager {
  import opened Strings

  const DefaultExtensions: set<string> := {
    ".md", ".py", ".js", ".ts", ".txt", ".rst", ".json", ".yaml", ".yml", ".html", ".css", ".scss"
  }

  const DefaultDescriptions: map<string, string> := map[
    ".md" := "Markdown files",
    ".py" := "Python files",
    ".js" := "JavaScript files",
    ".ts" := "TypeScript files",
    ".tsx" := "TypeScript React files",
    ".jsx" := "JavaScript React files",
    ".txt" := "Text files",
    ".rst" := "reStructuredText files",
    ".json" := "JSON files",
    ".yaml" := "YAML files",
    ".yml" := "YAML files",
    ".html" := "HTML files",
    ".css" := "CSS files",
    ".scss" := "SCSS files",
    ".go" := "Go files",
    ".rs" := "Rust files",
    ".java" := "Java files",
    ".cpp" := "C++ files",
    ".c" := "C files",
    ".h" := "Header files",
    ".php" := "PHP files",
    ".rb" := "Ruby files",
    ".swift" := "Swift files",
    ".kt" := "Kotlin files",
    ".dart" := "Dart files",
    ".vue" := "Vue.js files",
    ".svelte" := "Svelte files",
    ".sql" := "SQL files",
    ".sh" := "Shell script files",
    ".bash" := "Bash script files",
    ".ps1" := "PowerShell files",
    ".dockerfile" := "Dockerfile",
    ".toml" := "TOML files",
    ".ini" := "INI files",
    ".xml" := "XML files",
    ".csv" := "CSV files"
  ]

  /** Keywords that name a technology rather than an extension, and the extensions they stand for. */
  const KeywordMappings: map<string, seq<string>> := map[
    "react" := [".jsx", ".tsx"],
    "vue" := [".vue"],
    "angular" := [".ts", ".html", ".scss"],
    "node" := [".js", ".ts", ".json"],
    "python" := [".py"],
    "rust" := [".rs"],
    "go" := [".go"],
    "java" := [".java"],
    "web" := [".html", ".css", ".js"],
    "config" := [".json", ".yaml", ".yml", ".toml", ".ini"],
    "script" := [".sh", ".bash", ".ps1"],
    "database" := [".sql"],
    "docker" := [".dockerfile"]
  ]

  /** What loading the configuration file found. */
  datatype ConfigFile =
    | Missing
    | Unreadable                          // unreadable or not valid JSON
    | Parsed(extensions: seq<string>)     // the "extensions" list, empty when the key is absent

  /** The extension with a leading `.`, added when missing. */
  function Normalize(extension: string): (e: string)
    ensures StartsWith(e, ".")
    ensures StartsWith(extension, ".") ==> e == extension
    ensures !StartsWith(extension, ".") ==> e == "." + extension
  {
    if StartsWith(extension, ".") then extension else "." + extension
  }

  /** The watched set a load produces: the file's list, unless it is missing, unreadable or empty. */
  function Loaded(file: ConfigFile): (w: set<string>)
    ensures w != {}
    ensures file.Parsed? && |file.extensions| > 0 ==> forall e :: e in w <==> e in file.extensions
    ensures !(file.Parsed? && |file.extensions| > 0) ==> w == DefaultExtensions
  {
    if file.Parsed? && |file.extensions| > 0 then
      var w := set e | e in file.extensions;
      assert file.extensions[0] in w;
      assert forall e :: e in w <==> e in file.extensions;
      w
    else DefaultExtensions
  }

  /** Whether a keyword search picks this described extension. */
  predicate Mentions(extension: string, description: string, keyword: string) {
    Contains(Lower(extension), keyword) || Contains(Lower(description), keyword)
  }

  /** The extensions a keyword brings up: described ones that mention it, plus its mapped ones. */
  ghost predicate Suggested(descriptions: map<string, string>, keyword: string, e: string) {
    (e in descriptions && Mentions(e, descriptions[e], keyword))
    || (keyword in KeywordMappings && e in KeywordMappings[keyword])
  }

  /** `FileExtensionManager`. */
  class FileExtensionManager {
    var watched: set<string>
    var descriptions: map<string, string>

    /** `__init__` followed by `load_extensions`. */
    constructor(file: ConfigFile)
      ensures watched == Loaded(file) && descriptions == DefaultDescriptions
    {
      descriptions := DefaultDescriptions;
      watched := Loaded(file);
    }

    /** `load_extensions`: the file's list, with a fresh copy of the defaults as the fallback. */
    method LoadExtensions(file: ConfigFile)
      modifies this
      ensures watched == Loaded(file) && descriptions == old(descriptions)
    {
      match file
      case Parsed(extensions) =>
        watched := set e | e in extensions;
        if watched == {} {
          watched := DefaultExtensions;
        }
      case _ =>
        watched := DefaultExtensions;
    }

    /**
     * `add_extension`: watch the normalised extension unless it already is; a new
     * extension without a description gets "<EXT> files".
     */
    method AddExtension(extension: string) returns (added: bool)
      modifies this
      ensures added <==> Normalize(extension) !in old(watched)
      ensures watched == old(watched) + {Normalize(extension)}
      ensures descriptions ==
        if added && Normalize(extension) !in old(descriptions)
        then old(descriptions)[Normalize(extension) := Upper(Normalize(extension)) + " files"]
        else old(descriptions)
    {
      var e := Normalize(extension);
      if e in watched {
        return false;
      }
      watched := watched + {e};
      if e !in descriptions {
        descriptions := descriptions[e := Upper(e) + " files"];
      }
      added := true;
    }

    /** `remove_extension`: stop watching the normalised extension, if it is watched. */
    method RemoveExtension(extension: string) returns (removed: bool)
      modifies this
      ensures removed <==> Normalize(extension) in old(watched)
      ensures watched == old(watched) - {Normalize(extension)}
      ensures descriptions == old(descriptions)
    {
      var e := Normalize(extension);
      if e !in watched {
        return false;
      }
      watched := watched - {e};
      removed := true;
    }

    /** `list_extensions`: the watched extensions, sorted, each once. */
    method ListExtensions() returns (r: seq<string>)
      ensures StrictlySorted(r)
      ensures forall e :: e in r <==> e in watched
      ensures |r| == |watched|
    {
      r := SortedFromSet(watched);
    }

    /** `suggest_extensions`: the sorted, duplicate-free suggestions for a keyword (compared lower-cased). */
    method SuggestExtensions(keyword: string) returns (r: seq<string>)
      ensures StrictlySorted(r)
      ensures forall e :: e in r <==> Suggested(descriptions, Lower(keyword), e)
    {
      var kw := Lower(keyword);
      var suggestions: seq<string> := [];
      var pending := descriptions.Keys;
      while pending != {}
        invariant pending <= descriptions.Keys
        invariant forall e :: e in suggestions <==>
          e in descriptions && e !in pending && Mentions(e, descriptions[e], kw)
        decreases |pending|
      {
        var e :| e in pending;
        if Contains(Lower(e), kw) || Contains(Lower(descriptions[e]), kw) {
          suggestions := suggestions + [e];
        }
        pending := pending - {e};
      }
      if kw in KeywordMappings {
        suggestions := suggestions + KeywordMappings[kw];
      }
      var unique := set e | e in suggestions;
      r := SortedFromSet(unique);
      forall e ensures e in r <==> Suggested(descriptions, kw, e) {
        assert e in unique <==> e in suggestions;
      }
    }
  }

  /**
   * Adding an extension that was not watched and then removing it reports both
   * changes and restores the watched set. The descriptions are not restored: the add
   * may have written a default "<EXT> files" entry, and the remove leaves it in place.
   */
  method AddThenRemove(m: FileExtensionManager, extension: string) returns (added: bool, removed: bool)
    requires Normalize(extension) !in m.watched
    modifies m
    ensures added && removed
    ensures m.watched == old(m.watched)
    ensures m.descriptions ==
      if Normalize(extension) in old(m.descriptions) then old(m.descriptions)
      else old(m.descriptions)[Normalize(extension) := Upper(Normalize(extension)) + " files"]
  {
    added := m.AddExtension(extension);
    removed := m.RemoveExtension(extension);
    assert m.watched == (old(m.watched) + {Normalize(extension)}) - {Normalize(extension)};
  }

  /** Normalising twice is normalising once, so `md` and `.md` name the same watched extension. */
  lemma NormalizeIdempotent(extension: string)
    ensures Normalize(Normalize(extension)) == Normalize(extension)
    ensures Normalize("." + extension) == Normalize(extension) || StartsWith(extension, ".")
  {
    assert ("." + extension)[..1] == ".";
  }

  /** Every extension a keyword maps to is one the manager has a description for. */
  lemma MappedExtensionsDescribed()
    ensures forall k, e :: k in KeywordMappings && e in KeywordMappings[k] ==> e in DefaultDescriptions
  {
    forall k | k in KeywordMappings {
      KeywordDescribed(k);
    }
  }

  /** The extensions one keyword maps to all have descriptions. */
  lemma KeywordDescribed(k: string)
    requires k in KeywordMappings
    ensures forall e :: e in KeywordMappings[k] ==> e in DefaultDescriptions
  {
    var ks := ["react", "vue", "angular", "node", "python", "rust", "go", "java", "web", "config", "script", "database", "docker"];
    assert k in ks;
    var i :| 0 <= i < |ks| && ks[i] == k;
    assert KeywordMappings[ks[i]] == KeywordMappings[k];
  }

  /** Every default extension has a description. */
  lemma DefaultsDescribed()
    ensures DefaultExtensions <= DefaultDescriptions.Keys
  {
  }
}
