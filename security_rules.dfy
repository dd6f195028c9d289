/**
 * The security scanner's built-in data: the rule catalog and the whitelist, and the
 * shape of a catalog read from a rule file.
 */
module SecurityRules {
  import opened Common

  /** One rule object of the catalog; a rule file may leave out `suggestion`. */
  datatype Rule = Rule(pattern: string, description: string, level: string, suggestion: Option<string>)

  /** One entry of the catalog, which maps a category name to its ordered rules. */
  datatype Category = Category(name: string, rules: seq<Rule>)

  /** The catalog, in the dictionary's iteration order. */
  type Catalog = seq<Category>

  /** The built-in catalog, in the order the scanner tries its categories. */
  function DefaultPatterns(): (c: Catalog)
    ensures |c| == 5
    ensures c[0].name == "credentials" && c[1].name == "personal_info" && c[2].name == "dangerous_code"
      && c[3].name == "web_security" && c[4].name == "file_paths"
    ensures |c[0].rules| == 4 && |c[1].rules| == 3 && |c[2].rules| == 4 && |c[3].rules| == 2 && |c[4].rules| == 2
  {
    [
      Category("credentials", CredentialRules()),
      Category("personal_info", PersonalInfoRules()),
      Category("dangerous_code", DangerousCodeRules()),
      Category("web_security", WebSecurityRules()),
      Category("file_paths", FilePathRules())
    ]
  }

  /** Rule number `i` of the credentials category. */
  function CredentialRule(i: nat): Rule
    requires i < 4
  {
    match i
      case 0 => Rule(@"(?i)(password|passwd|pwd)\s*[=:]\s*['\""]?[a-zA-Z0-9@#$%^&*!]+['\""]?",
          "パスワードが平文で含まれている可能性があります",
          "critical",
          Some("パスワードは環境変数や設定ファイルに移動してください"))
      case 1 => Rule(@"(?i)(api[_-]?key|apikey|access[_-]?token|secret[_-]?key)\s*[=:]\s*['\""]?[a-zA-Z0-9_-]{16,}['\""]?",
          "APIキーまたはアクセストークンが含まれている可能性があります",
          "critical",
          Some("APIキーは環境変数に移動し、ダミー値に置き換えてください"))
      case 2 => Rule(@"(?i)(database[_-]?url|db[_-]?url|connection[_-]?string)\s*[=:]\s*['\""]?[^'\""\\s]+['\""]?",
          "データベース接続文字列が含まれている可能性があります",
          "high",
          Some("接続文字列は環境変数に移動してください"))
      case _ => Rule(@"(?i)-----BEGIN\s+(RSA\s+)?PRIVATE\s+KEY-----",
          "秘密鍵が含まれています",
          "critical",
          Some("秘密鍵は絶対に公開しないでください"))
  }

  function CredentialRules(): (r: seq<Rule>)
    ensures |r| == 4 && forall i :: 0 <= i < 4 ==> r[i] == CredentialRule(i)
  {
    seq(4, i requires 0 <= i < 4 => CredentialRule(i))
  }

  /** Rule number `i` of the personal_info category. */
  function PersonalInfoRule(i: nat): Rule
    requires i < 3
  {
    match i
      case 0 => Rule(@"\b[A-Za-z0-9._%+-]+@[A-Za-z0-9.-]+\.[A-Z|a-z]{2,}\b",
          "メールアドレスが含まれています",
          "medium",
          Some("個人のメールアドレスは example@example.com に置き換えることをお勧めします"))
      case 1 => Rule(@"\b(?:\d{1,3}\.){3}\d{1,3}\b",
          "IPアドレスが含まれています",
          "medium",
          Some("実際のIPアドレスはダミー値（例：192.168.1.1）に置き換えることをお勧めします"))
      case _ => Rule(@"\b(?:\+81|0)\d{1,4}-?\d{1,4}-?\d{4}\b",
          "電話番号が含まれている可能性があります",
          "medium",
          Some("実際の電話番号はダミー値に置き換えてください"))
  }

  function PersonalInfoRules(): (r: seq<Rule>)
    ensures |r| == 3 && forall i :: 0 <= i < 3 ==> r[i] == PersonalInfoRule(i)
  {
    seq(3, i requires 0 <= i < 3 => PersonalInfoRule(i))
  }

  /** Rule number `i` of the dangerous_code category. */
  function DangerousCodeRule(i: nat): Rule
    requires i < 4
  {
    match i
      case 0 => Rule(@"(?i)(eval|exec)\s*\(",
          "動的コード実行（eval/exec）が使用されています",
          "high",
          Some("eval/execの使用は危険です。より安全な代替手段を検討してください"))
      case 1 => Rule(@"(?i)(os\.system|subprocess\.call|subprocess\.run)\s*\([^)]*shell\s*=\s*True",
          "シェルインジェクションの脆弱性の可能性があります",
          "high",
          Some("shell=Trueの使用を避け、引数をリストで渡してください"))
      case 2 => Rule(@"(?i)pickle\.loads?\s*\(",
          "pickle.loadsは信頼できないデータに対して危険です",
          "medium",
          Some("信頼できないデータにはjsonやその他の安全な形式を使用してください"))
      case _ => Rule(@"(?i)(rm\s+-rf|del\s+/s|format\s+c:)",
          "危険なシステムコマンドが含まれています",
          "high",
          Some("破壊的なコマンドは削除するか、コメントアウトしてください"))
  }

  function DangerousCodeRules(): (r: seq<Rule>)
    ensures |r| == 4 && forall i :: 0 <= i < 4 ==> r[i] == DangerousCodeRule(i)
  {
    seq(4, i requires 0 <= i < 4 => DangerousCodeRule(i))
  }

  /** Rule number `i` of the web_security category. */
  function WebSecurityRule(i: nat): Rule
    requires i < 2
  {
    match i
      case 0 => Rule(@"(?i)(<script[^>]*>|javascript:)",
          "XSS攻撃の可能性があるJavaScriptコードが含まれています",
          "medium",
          Some("サンプルコードの場合は安全な例に置き換えてください"))
      case _ => Rule(@"(?i)(union\s+select|drop\s+table|delete\s+from.*where)",
          "SQLインジェクション攻撃のパターンが含まれています",
          "medium",
          Some("SQLインジェクションの例の場合は、安全なコメント付きで説明してください"))
  }

  function WebSecurityRules(): (r: seq<Rule>)
    ensures |r| == 2 && forall i :: 0 <= i < 2 ==> r[i] == WebSecurityRule(i)
  {
    seq(2, i requires 0 <= i < 2 => WebSecurityRule(i))
  }

  /** Rule number `i` of the file_paths category. */
  function FilePathRule(i: nat): Rule
    requires i < 2
  {
    match i
      case 0 => Rule(@"(?i)[c-z]:\\(?:users|documents|desktop)\\[^\\s\""']+",
          "個人のファイルパスが含まれています",
          "low",
          Some("個人のパスは汎用的なパス例に置き換えてください"))
      case _ => Rule(@"/home/[^/\\s\""']+",
          "個人のホームディレクトリパスが含まれています",
          "low",
          Some("個人のパスは /home/user や /path/to などに置き換えてください"))
  }

  function FilePathRules(): (r: seq<Rule>)
    ensures |r| == 2 && forall i :: 0 <= i < 2 ==> r[i] == FilePathRule(i)
  {
    seq(2, i requires 0 <= i < 2 => FilePathRule(i))
  }

  /** The built-in whitelist: a line on which any of these is found is not scanned. */
  function DefaultWhitelist(): (w: seq<string>)
    ensures |w| == 9 && w[1] == @"test@example\.com" && w[6] == "localhost"
  {
    [
      @"example\.com",
      @"test@example\.com",
      "your_api_key_here",
      "your_password_here",
      @"192\.168\.1\.1",
      @"127\.0\.0\.1",
      "localhost",
      "dummy_token",
      "sample_password"
    ]
  }

}
