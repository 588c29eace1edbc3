/** The JHipster Online payload that `HipSlacker.generate_payload` builds
    from the tokens of a chat command, specified as a fold over the tokens
    (`Fold`, what the loop computes) and, independently, field by field
    (`Expected`, what the keyword table promises). */
module Payload {
  import opened Text

  /** The "generator-jhipster" part of the payload. The fields the bot can
      change come first; `fixed` holds those it always leaves at their
      defaults. `packageName` and `packageFolder` are absent until the token
      pass has finished. */
  datatype Generator = Generator(
    applicationType: string,
    baseName: string,
    serverPort: int,
    databaseType: string,
    devDatabaseType: string,
    prodDatabaseType: string,
    packageName: Option<string>,
    packageFolder: Option<string>,
    fixed: FixedOptions)

  datatype FixedOptions = FixedOptions(
    serviceDiscoveryType: string,
    authenticationType: string,
    uaaBaseName: string,
    cacheProvider: string,
    enableHibernateCache: bool,
    websocket: bool,
    searchEngine: bool,
    enableSwaggerCodegen: bool,
    messageBroker: bool,
    buildTool: string,
    useSass: bool,
    clientPackageManager: string,
    testFrameworks: seq<string>,
    enableTranslation: bool,
    nativeLanguage: string,
    languages: seq<string>,
    clientFramework: string,
    jhiPrefix: string)

  /** The whole payload; `gitProvider` is absent until the token pass has finished. */
  datatype Payload = Payload(
    generator: Generator,
    gitCompany: string,
    repositoryName: string,
    gitProvider: Option<string>)

  /** An exception the bot does not catch. */
  datatype Error =
    | InvalidLiteral(token: string)  // ValueError from int(token)
    | MissingKey(key: string)        // KeyError on an event dictionary

  datatype Outcome = Completed | Raised(error: Error)

  const DefaultName := "my-awesome-app"
  const DefaultPort := 8080
  const DefaultProvider := "github"

  function DefaultGenerator(): Generator {
    Generator(
      "monolith", DefaultName, DefaultPort, "sql", "h2Disk", "mysql", None, None,
      FixedOptions(
        "eureka", "jwt", "../uaa", "ehcache", true, false, false, false, false,
        "maven", false, "yarn", [], false, "en", ["en"], "react", "jhi"))
  }

  /** The payload `HipSlacker.__init__` starts from; `onlineUser` is the
      JHipster Online account, which also owns the generated repository. */
  function DefaultPayload(onlineUser: string): Payload {
    Payload(DefaultGenerator(), onlineUser, DefaultName, None)
  }

  const AppTypes: seq<string> := ["monolith", "microservice", "gateway", "uaa"]
  const SqlDatabases: seq<string> := ["mysql", "mariadb", "postgresql", "oracle", "mssql"]
  const NoSqlDatabases: seq<string> := ["mongodb", "cassandra"]

  /** Python's `tokens.index(x)`: the first position of `x`. */
  function FirstIndex(tokens: seq<string>, x: string): (i: nat)
    requires x in tokens
    ensures i < |tokens| && tokens[i] == x
    ensures forall j :: 0 <= j < i ==> tokens[j] != x
  {
    if tokens[0] == x then 0 else 1 + FirstIndex(tokens[1..], x)
  }

  /** The token that follows the first occurrence of `keyword`, if there is one. */
  function ArgumentOf(tokens: seq<string>, keyword: string): Option<string> {
    if keyword in tokens && FirstIndex(tokens, keyword) + 1 < |tokens|
    then Some(tokens[FirstIndex(tokens, keyword) + 1])
    else None
  }

  /** The state the token loop updates: the generator dictionary and the
      `git_provider` attribute. */
  datatype Draft = Draft(generator: Generator, gitProvider: string)

  /** `set_database(db_type, dev_type, prod_type)`. */
  function WithDatabase(g: Generator, dbType: string, devType: string, prodType: string): Generator {
    g.(databaseType := dbType, devDatabaseType := devType, prodDatabaseType := prodType)
  }

  /** `set_app_name`: the token after the first "named", when there is one. */
  function WithAppName(g: Generator, tokens: seq<string>): Generator
    requires "named" in tokens
  {
    match ArgumentOf(tokens, "named")
    case Some(name) => g.(baseName := name)
    case None => g
  }

  /** `set_port`: `int()` of the token after the first "port", when there is one. */
  function WithPort(g: Generator, tokens: seq<string>): Result<Generator>
    requires "port" in tokens
  {
    match ArgumentOf(tokens, "port")
    case None => Ok(g)
    case Some(arg) =>
      match ParseInt(arg)
      case Some(n) => Ok(g.(serverPort := n))
      case None => Fail(InvalidLiteral(arg))
  }

  datatype Result<T> = Ok(value: T) | Fail(error: Error)

  /** The body of the loop of `generate_payload` for one token `c` of `tokens`.
      The keyword groups are disjoint, so at most one of its six tests fires. */
  function Step(d: Draft, tokens: seq<string>, c: string): Result<Draft>
    requires c in tokens
  {
    if c in AppTypes then Ok(d.(generator := d.generator.(applicationType := c)))
    else if c == "named" then Ok(d.(generator := WithAppName(d.generator, tokens)))
    else if c in SqlDatabases then Ok(d.(generator := WithDatabase(d.generator, "sql", "h2Disk", c)))
    else if c in NoSqlDatabases then Ok(d.(generator := WithDatabase(d.generator, c, c, c)))
    else if c == "port" then
      match WithPort(d.generator, tokens)
      case Ok(g) => Ok(d.(generator := g))
      case Fail(e) => Fail(e)
    else if c == "gitlab" then Ok(d.(gitProvider := "gitlab"))
    else Ok(d)
  }

  /** The loop of `generate_payload` after its first `n` tokens. */
  function Fold(d0: Draft, tokens: seq<string>, n: nat): Result<Draft>
    requires n <= |tokens|
  {
    if n == 0 then Ok(d0)
    else
      match Fold(d0, tokens, n - 1)
      case Fail(e) => Fail(e)
      case Ok(d) => Step(d, tokens, tokens[n - 1])
  }

  /** The derived fields computed after the loop: repository name, git
      provider, package name and package folder. */
  function Finish(p: Payload, d: Draft, onlineUser: string): Payload {
    p.(generator := d.generator.(
         packageName := Some("io." + d.gitProvider + "." + onlineUser),
         packageFolder := Some("io/" + d.gitProvider + "/" + onlineUser + "/")),
       repositoryName := d.generator.baseName,
       gitProvider := Some(d.gitProvider))
  }

  /** `generate_payload` from payload `p` and git provider `provider`; the
      final git provider is the payload's "git-provider". */
  function Build(p: Payload, provider: string, tokens: seq<string>, onlineUser: string): Result<Payload>
  {
    match Fold(Draft(p.generator, provider), tokens, |tokens|)
    case Fail(e) => Fail(e)
    case Ok(d) => Ok(Finish(p, d, onlineUser))
  }

  // ---------------------------------------------------------------------
  // The keyword table, stated field by field.

  /** The last token of `tokens` that belongs to `keys`. */
  function LastOf(tokens: seq<string>, keys: seq<string>): (r: Option<string>)
    ensures r.Some? ==> r.value in keys && r.value in tokens
    ensures r.None? ==> forall t :: t in tokens ==> t !in keys
  {
    if tokens == [] then None
    else if tokens[|tokens| - 1] in keys then Some(tokens[|tokens| - 1])
    else LastOf(tokens[..|tokens| - 1], keys)
  }

  /** `int()` rejects the argument of the first "port". */
  predicate PortFails(tokens: seq<string>) {
    ArgumentOf(tokens, "port").Some? && ParseInt(ArgumentOf(tokens, "port").value).None?
  }

  /** The database fields selected by the last database keyword in `seen`. */
  function ExpectedDatabase(seen: seq<string>): (string, string, string) {
    match LastOf(seen, SqlDatabases + NoSqlDatabases)
    case None => ("sql", "h2Disk", "mysql")
    case Some(kw) => if kw in SqlDatabases then ("sql", "h2Disk", kw) else (kw, kw, kw)
  }

  /** What the loop has produced after the tokens in `seen` (a prefix of
      `tokens`), field by field, starting from the defaults: the last
      application type seen, the argument of the first "named" once a
      "named" has been seen, the value of the argument of the first "port"
      once a "port" has been seen, the fields of the last database keyword
      seen, and every other field at its default. */
  function Expected(tokens: seq<string>, seen: seq<string>): Generator {
    var db := ExpectedDatabase(seen);
    DefaultGenerator().(
      applicationType := match LastOf(seen, AppTypes) case Some(t) => t case None => "monolith",
      baseName := if "named" in seen && ArgumentOf(tokens, "named").Some?
                  then ArgumentOf(tokens, "named").value else DefaultName,
      serverPort := if "port" in seen && ArgumentOf(tokens, "port").Some? && !PortFails(tokens)
                    then ParseInt(ArgumentOf(tokens, "port").value).value else DefaultPort,
      databaseType := db.0, devDatabaseType := db.1, prodDatabaseType := db.2)
  }

  function ExpectedProvider(seen: seq<string>): string {
    if "gitlab" in seen then "gitlab" else DefaultProvider
  }

  lemma LastOfSnoc(tokens: seq<string>, n: nat, keys: seq<string>)
    requires n < |tokens|
    ensures LastOf(tokens[..n + 1], keys) == if tokens[n] in keys then Some(tokens[n]) else LastOf(tokens[..n], keys)
  {
    assert tokens[..n + 1][..n] == tokens[..n];
  }

  lemma InPrefix(tokens: seq<string>, n: nat, x: string)
    requires n < |tokens|
    ensures x in tokens[..n + 1] <==> x in tokens[..n] || tokens[n] == x
  {
    assert tokens[..n + 1] == tokens[..n] + [tokens[n]];
  }

  /** A failing "port" fails the loop when it is reached. */
  function ExpectedAfter(tokens: seq<string>, n: nat): Result<Draft>
    requires n <= |tokens|
  {
    if PortFails(tokens) && "port" in tokens[..n] then Fail(InvalidLiteral(ArgumentOf(tokens, "port").value))
    else Ok(Draft(Expected(tokens, tokens[..n]), ExpectedProvider(tokens[..n])))
  }

  /** A token none of the tests of the loop picks out. */
  predicate NotKeyword(t: string) {
    t !in AppTypes && t !in SqlDatabases && t !in NoSqlDatabases && t != "named" && t != "port" && t != "gitlab"
  }

  /** Every keyword is lower-case, so a capitalised token is none of them. */
  lemma CapitalisedIsNoKeyword(t: string)
    requires |t| > 0 && 'A' <= t[0] <= 'Z'
    ensures NotKeyword(t)
  {
    forall k | k in AppTypes + SqlDatabases + NoSqlDatabases + ["named", "port", "gitlab"] ensures t != k {
      assert 'a' <= k[0] <= 'z';
    }
  }

  /** The keyword groups of the loop are pairwise disjoint. */
  lemma KeywordGroups(c: string)
    ensures c in AppTypes ==> c != "named" && c !in SqlDatabases && c !in NoSqlDatabases && c != "port" && c != "gitlab"
    ensures c == "named" ==> c !in SqlDatabases && c !in NoSqlDatabases
    ensures c in SqlDatabases ==> c !in NoSqlDatabases && c != "port" && c != "gitlab"
    ensures c in NoSqlDatabases ==> c != "port" && c != "gitlab"
  {
    assert "named"[0] != "mysql"[0] && "named"[0] != "mssql"[0];
    assert "gitlab"[0] != "oracle"[0];
    assert "gateway"[0] != "mariadb"[0] && "gateway"[0] != "mongodb"[0];
  }

  /** One iteration of the loop moves the table's answer from the first `n`
      tokens to the first `n + 1`. */
  lemma StepMatchesTable(tokens: seq<string>, n: nat)
    requires n < |tokens| && ExpectedAfter(tokens, n).Ok?
    ensures Step(ExpectedAfter(tokens, n).value, tokens, tokens[n]) == ExpectedAfter(tokens, n + 1)
  {
    var c := tokens[n];
    if c in AppTypes {
      StepAppType(tokens, n);
    } else if c == "named" {
      StepNamed(tokens, n);
    } else if c in SqlDatabases {
      StepSql(tokens, n);
    } else if c in NoSqlDatabases {
      StepNoSql(tokens, n);
    } else if c == "port" {
      StepPort(tokens, n);
    } else if c == "gitlab" {
      StepGitlab(tokens, n);
    } else {
      StepOther(tokens, n);
    }
  }

  lemma StepAppType(tokens: seq<string>, n: nat)
    requires n < |tokens| && ExpectedAfter(tokens, n).Ok? && tokens[n] in AppTypes
    ensures Step(ExpectedAfter(tokens, n).value, tokens, tokens[n]) == ExpectedAfter(tokens, n + 1)
  {
    KeywordGroups(tokens[n]);
    PrefixFacts(tokens, n);
    var c := tokens[n];
    var prev := ExpectedAfter(tokens, n).value;
    assert Step(prev, tokens, c) == Ok(prev.(generator := prev.generator.(applicationType := c)));
    assert ExpectedProvider(tokens[..n + 1]) == ExpectedProvider(tokens[..n]);
    assert ExpectedDatabase(tokens[..n + 1]) == ExpectedDatabase(tokens[..n]);
    assert Expected(tokens, tokens[..n + 1]) == Expected(tokens, tokens[..n]).(applicationType := c);
  }

  lemma StepNamed(tokens: seq<string>, n: nat)
    requires n < |tokens| && ExpectedAfter(tokens, n).Ok? && tokens[n] == "named"
    ensures Step(ExpectedAfter(tokens, n).value, tokens, tokens[n]) == ExpectedAfter(tokens, n + 1)
  {
    KeywordGroups(tokens[n]);
    PrefixFacts(tokens, n);
    var c := tokens[n];
    var prev := ExpectedAfter(tokens, n).value;
    assert Step(prev, tokens, c) == Ok(prev.(generator := WithAppName(prev.generator, tokens)));
    assert ExpectedProvider(tokens[..n + 1]) == ExpectedProvider(tokens[..n]);
    assert ExpectedDatabase(tokens[..n + 1]) == ExpectedDatabase(tokens[..n]);
    assert LastOf(tokens[..n + 1], AppTypes) == LastOf(tokens[..n], AppTypes);
    assert Expected(tokens, tokens[..n + 1]) == WithAppName(Expected(tokens, tokens[..n]), tokens);
  }

  lemma StepSql(tokens: seq<string>, n: nat)
    requires n < |tokens| && ExpectedAfter(tokens, n).Ok? && tokens[n] in SqlDatabases
    ensures Step(ExpectedAfter(tokens, n).value, tokens, tokens[n]) == ExpectedAfter(tokens, n + 1)
  {
    KeywordGroups(tokens[n]);
    PrefixFacts(tokens, n);
    var c := tokens[n];
    assert c !in AppTypes && c != "named" && c != "port" && c != "gitlab";
    var prev := ExpectedAfter(tokens, n).value;
    assert Step(prev, tokens, c) == Ok(prev.(generator := WithDatabase(prev.generator, "sql", "h2Disk", c)));
    assert ExpectedProvider(tokens[..n + 1]) == ExpectedProvider(tokens[..n]);
    assert ExpectedDatabase(tokens[..n + 1]) == ("sql", "h2Disk", c);
    assert Expected(tokens, tokens[..n + 1]) == WithDatabase(Expected(tokens, tokens[..n]), "sql", "h2Disk", c);
  }

  lemma StepNoSql(tokens: seq<string>, n: nat)
    requires n < |tokens| && ExpectedAfter(tokens, n).Ok? && tokens[n] in NoSqlDatabases
    ensures Step(ExpectedAfter(tokens, n).value, tokens, tokens[n]) == ExpectedAfter(tokens, n + 1)
  {
    KeywordGroups(tokens[n]);
    PrefixFacts(tokens, n);
    var c := tokens[n];
    var prev := ExpectedAfter(tokens, n).value;
    assert Step(prev, tokens, c) == Ok(prev.(generator := WithDatabase(prev.generator, c, c, c)));
    assert ExpectedProvider(tokens[..n + 1]) == ExpectedProvider(tokens[..n]);
    assert ExpectedDatabase(tokens[..n + 1]) == (c, c, c);
    assert LastOf(tokens[..n + 1], AppTypes) == LastOf(tokens[..n], AppTypes);
    assert Expected(tokens, tokens[..n + 1]) == WithDatabase(Expected(tokens, tokens[..n]), c, c, c);
  }

  lemma StepPort(tokens: seq<string>, n: nat)
    requires n < |tokens| && ExpectedAfter(tokens, n).Ok? && tokens[n] == "port"
    ensures Step(ExpectedAfter(tokens, n).value, tokens, tokens[n]) == ExpectedAfter(tokens, n + 1)
  {
    KeywordGroups(tokens[n]);
    PrefixFacts(tokens, n);
    var c := tokens[n];
    assert c !in AppTypes && c != "named" && c !in SqlDatabases && c !in NoSqlDatabases;
    assert ExpectedDatabase(tokens[..n + 1]) == ExpectedDatabase(tokens[..n]);
    if ArgumentOf(tokens, "port").Some? && !PortFails(tokens) {
      assert WithPort(Expected(tokens, tokens[..n]), tokens)
             == Ok(Expected(tokens, tokens[..n]).(serverPort := ParseInt(ArgumentOf(tokens, "port").value).value));
    }
  }

  lemma StepGitlab(tokens: seq<string>, n: nat)
    requires n < |tokens| && ExpectedAfter(tokens, n).Ok? && tokens[n] == "gitlab"
    ensures Step(ExpectedAfter(tokens, n).value, tokens, tokens[n]) == ExpectedAfter(tokens, n + 1)
  {
    KeywordGroups(tokens[n]);
    PrefixFacts(tokens, n);
    var c := tokens[n];
    var prev := ExpectedAfter(tokens, n).value;
    assert Step(prev, tokens, c) == Ok(prev.(gitProvider := "gitlab"));
    assert ExpectedProvider(tokens[..n + 1]) == "gitlab";
    assert ExpectedDatabase(tokens[..n + 1]) == ExpectedDatabase(tokens[..n]);
    assert LastOf(tokens[..n + 1], AppTypes) == LastOf(tokens[..n], AppTypes);
    assert Expected(tokens, tokens[..n + 1]) == Expected(tokens, tokens[..n]);
  }

  lemma StepOther(tokens: seq<string>, n: nat)
    requires n < |tokens| && ExpectedAfter(tokens, n).Ok? && NotKeyword(tokens[n])
    ensures Step(ExpectedAfter(tokens, n).value, tokens, tokens[n]) == ExpectedAfter(tokens, n + 1)
  {
    KeywordGroups(tokens[n]);
    PrefixFacts(tokens, n);
    var c := tokens[n];
    var prev := ExpectedAfter(tokens, n).value;
    assert c !in AppTypes && c !in SqlDatabases && c !in NoSqlDatabases && c != "named" && c != "port" && c != "gitlab";
    assert Step(prev, tokens, c) == Ok(prev);
    assert ExpectedProvider(tokens[..n + 1]) == ExpectedProvider(tokens[..n]);
    assert ExpectedDatabase(tokens[..n + 1]) == ExpectedDatabase(tokens[..n]);
    assert LastOf(tokens[..n + 1], AppTypes) == LastOf(tokens[..n], AppTypes);
    assert Expected(tokens, tokens[..n + 1]) == Expected(tokens, tokens[..n]);
  }

  lemma PrefixFacts(tokens: seq<string>, n: nat)
    requires n < |tokens|
    ensures forall x :: x in tokens[..n + 1] <==> x in tokens[..n] || tokens[n] == x
    ensures LastOf(tokens[..n + 1], AppTypes) == if tokens[n] in AppTypes then Some(tokens[n]) else LastOf(tokens[..n], AppTypes)
    ensures var dbs := SqlDatabases + NoSqlDatabases;
            LastOf(tokens[..n + 1], dbs) == if tokens[n] in dbs then Some(tokens[n]) else LastOf(tokens[..n], dbs)
  {
    assert tokens[..n + 1] == tokens[..n] + [tokens[n]];
    LastOfSnoc(tokens, n, AppTypes);
    LastOfSnoc(tokens, n, SqlDatabases + NoSqlDatabases);
  }

  /** The loop, token by token, agrees with the table: after `n` tokens it
      has failed exactly when the first "port" lies among them and its
      argument is not an integer, and otherwise every field holds what the
      table gives for the tokens seen so far. */
  lemma FoldMatchesTable(tokens: seq<string>, n: nat)
    requires n <= |tokens|
    ensures Fold(Draft(DefaultGenerator(), DefaultProvider), tokens, n) == ExpectedAfter(tokens, n)
  {
    FoldStartsAtDefaults(tokens);
    FoldMatchesTableFrom(tokens, 0, n);
  }

  /** The loop agrees with the table after `n` tokens. */
  predicate TableAt(tokens: seq<string>, n: nat)
    requires n <= |tokens|
  {
    Fold(Draft(DefaultGenerator(), DefaultProvider), tokens, n) == ExpectedAfter(tokens, n)
  }

  /** The table is kept from the `m`-th iteration up to the `n`-th. */
  lemma {:induction false} FoldMatchesTableFrom(tokens: seq<string>, m: nat, n: nat)
    requires m <= n <= |tokens| && TableAt(tokens, m)
    ensures TableAt(tokens, n)
    decreases n - m
  {
    if m < n {
      FoldStepMatchesTable(tokens, m);
      FoldMatchesTableFrom(tokens, m + 1, n);
    }
  }

  /** Before any token the loop holds the defaults, as the table says. */
  lemma FoldStartsAtDefaults(tokens: seq<string>)
    ensures Fold(Draft(DefaultGenerator(), DefaultProvider), tokens, 0) == ExpectedAfter(tokens, 0)
  {
    assert tokens[..0] == [];
    assert Expected(tokens, []) == DefaultGenerator();
  }

  lemma FoldStepMatchesTable(tokens: seq<string>, m: nat)
    requires m < |tokens| && TableAt(tokens, m)
    ensures TableAt(tokens, m + 1)
  {
    if ExpectedAfter(tokens, m).Fail? {
      FoldFailStays(tokens, m);
    } else {
      FoldSnoc(Draft(DefaultGenerator(), DefaultProvider), tokens, m, ExpectedAfter(tokens, m).value);
      StepMatchesTable(tokens, m);
    }
  }

  /** The loop's next iteration, unfolded once. */
  lemma FoldSnoc(d0: Draft, tokens: seq<string>, m: nat, d: Draft)
    requires m < |tokens| && Fold(d0, tokens, m) == Ok(d)
    ensures Fold(d0, tokens, m + 1) == Step(d, tokens, tokens[m])
  {
  }

  /** Once the loop has raised, it stays raised. */
  lemma {:induction false} FailurePersists(d0: Draft, tokens: seq<string>, i: nat, n: nat)
    requires i <= n <= |tokens| && Fold(d0, tokens, i).Fail?
    ensures Fold(d0, tokens, n) == Fold(d0, tokens, i)
    decreases n - i
  {
    if i < n {
      FailurePersists(d0, tokens, i, n - 1);
    }
  }

  /** Once the loop has failed it stays failed, as the table says. */
  lemma FoldFailStays(tokens: seq<string>, m: nat)
    requires m < |tokens|
    requires Fold(Draft(DefaultGenerator(), DefaultProvider), tokens, m) == ExpectedAfter(tokens, m)
    requires ExpectedAfter(tokens, m).Fail?
    ensures Fold(Draft(DefaultGenerator(), DefaultProvider), tokens, m + 1) == ExpectedAfter(tokens, m + 1)
  {
    var e := ExpectedAfter(tokens, m);
    assert PortFails(tokens) && "port" in tokens[..m];
    InPrefix(tokens, m, "port");
    assert ExpectedAfter(tokens, m + 1) == e;
  }

  /** `generate_payload` on the default payload, against the keyword table:
      it raises exactly when the argument of the first "port" is not an
      integer, and otherwise the application type is the last one named
      (else "monolith"), the database fields are those of the last database
      keyword, the base name is the argument of the FIRST "named", the port
      the value of the argument of the FIRST "port", the git provider
      "gitlab" exactly when that token occurs, and the derived fields follow
      from the base name and the provider; nothing else changes. */
  lemma GeneratePayloadTable(tokens: seq<string>, onlineUser: string)
    ensures var r := Build(DefaultPayload(onlineUser), DefaultProvider, tokens, onlineUser);
      (r.Fail? <==> PortFails(tokens))
      && (r.Fail? ==> r.error == InvalidLiteral(ArgumentOf(tokens, "port").value))
      && (r.Ok? ==>
            var g := r.value.generator;
            var provider := if "gitlab" in tokens then "gitlab" else "github";
            && g.applicationType == (match LastOf(tokens, AppTypes) case Some(t) => t case None => "monolith")
            && (g.databaseType, g.devDatabaseType, g.prodDatabaseType) == ExpectedDatabase(tokens)
            && g.baseName == (match ArgumentOf(tokens, "named") case Some(name) => name case None => DefaultName)
            && g.serverPort == (match ArgumentOf(tokens, "port") case Some(arg) => ParseInt(arg).value case None => DefaultPort)
            && r.value.repositoryName == g.baseName
            && r.value.gitProvider == Some(provider)
            && g.packageName == Some("io." + provider + "." + onlineUser)
            && g.packageFolder == Some("io/" + provider + "/" + onlineUser + "/")
            && r.value.gitCompany == onlineUser
            && g.fixed == DefaultGenerator().fixed)
  {
    FoldMatchesTable(tokens, |tokens|);
    assert tokens[..|tokens|] == tokens;
  }

  /** A command without any keyword leaves every field at its default and
      derives the repository and package names from the defaults. */
  lemma NoKeywordKeepsDefaults(tokens: seq<string>, onlineUser: string)
    requires forall t :: t in tokens ==> NotKeyword(t)
    ensures Build(DefaultPayload(onlineUser), DefaultProvider, tokens, onlineUser)
            == Ok(Payload(
                    DefaultGenerator().(packageName := Some("io.github." + onlineUser),
                                        packageFolder := Some("io/github/" + onlineUser + "/")),
                    onlineUser, "my-awesome-app", Some("github")))
  {
    GeneratePayloadTable(tokens, onlineUser);
    assert "named" !in tokens && "port" !in tokens && "gitlab" !in tokens;
    assert forall t :: t in tokens ==> t !in AppTypes && t !in SqlDatabases + NoSqlDatabases;
    GithubNames(onlineUser);
  }

  lemma GithubNames(onlineUser: string)
    ensures "io." + "github" + "." + onlineUser == "io.github." + onlineUser
    ensures "io/" + "github" + "/" + onlineUser + "/" == "io/github/" + onlineUser + "/"
  {
    assert "io." + "github" + "." == "io.github.";
    assert "io/" + "github" + "/" == "io/github/";
  }

  const ExampleTokens: seq<string> :=
    ["<@U0BOT>", "generate", "microservice", "with", "mongodb", "named", "demo", "port", "9090"]

  /** The command "@bot generate microservice with mongodb named demo port
      9090" (its first token is the mention). */
  lemma ExampleCommand(onlineUser: string)
    ensures var r := Build(DefaultPayload(onlineUser), DefaultProvider, ExampleTokens, onlineUser);
      && r.Ok?
      && r.value.generator.applicationType == "microservice"
      && r.value.generator.databaseType == "mongodb"
      && r.value.generator.devDatabaseType == "mongodb"
      && r.value.generator.prodDatabaseType == "mongodb"
      && r.value.generator.baseName == "demo"
      && r.value.generator.serverPort == 9090
      && r.value.repositoryName == "demo"
  {
    ExampleArguments();
    ExampleKeywords();
    GeneratePayloadTable(ExampleTokens, onlineUser);
  }

  /** The message text of the example command. */
  function ExampleText(): string {
    "<@U0BOT>" + (" " + ("generate" + (" " + ("microservice" + (" " + ("with" + (" " + ("mongodb" +
    (" " + ("named" + (" " + ("demo" + (" " + ("port" + (" " + "9090")))))))))))))))
  }

  /** The single blanks between the words of the example message. */
  const ExampleGaps: seq<string> := [" ", " ", " ", " ", " ", " ", " ", " "]

  /** `re.split("\s+", …)` cuts the example message into `ExampleTokens`. */
  lemma ExampleSplit()
    ensures SplitWs(ExampleText()) == ExampleTokens
  {
    ExampleSeparated();
    ExampleJoined();
    SplitWsOfInterleave(ExampleTokens, ExampleGaps);
  }

  lemma ExampleSeparated()
    ensures Separated(ExampleTokens, ExampleGaps)
  {
    var t := ExampleTokens;
    forall k | 0 <= k < |t| ensures NoSpace(t[k]) {
      PrintableNoSpace(t[k]);
    }
    assert AllSpace(" ");
  }

  lemma ExampleJoined()
    ensures Interleave(ExampleTokens, ExampleGaps) == ExampleText()
  {
    var t, g := ExampleTokens, ExampleGaps;
    var s8 := "9090";
    var s7 := "port" + (" " + s8);
    var s6 := "demo" + (" " + s7);
    var s5 := "named" + (" " + s6);
    var s4 := "mongodb" + (" " + s5);
    var s3 := "with" + (" " + s4);
    var s2 := "microservice" + (" " + s3);
    var s1 := "generate" + (" " + s2);
    assert Interleave(t[8..], g[8..]) == s8;
    assert Interleave(t[7..], g[7..]) == s7;
    assert Interleave(t[6..], g[6..]) == s6;
    assert Interleave(t[5..], g[5..]) == s5;
    assert Interleave(t[4..], g[4..]) == s4;
    assert Interleave(t[3..], g[3..]) == s3;
    assert Interleave(t[2..], g[2..]) == s2;
    assert Interleave(t[1..], g[1..]) == s1;
  }

  lemma ExampleArguments()
    ensures ArgumentOf(ExampleTokens, "named") == Some("demo")
    ensures ArgumentOf(ExampleTokens, "port") == Some("9090")
    ensures ParseInt("9090") == Some(9090)
  {
    ExampleIndex("named", 5);
    ExampleIndex("port", 7);
    ParseExamplePort();
  }

  lemma ParseExamplePort()
    ensures ParseInt("9090") == Some(9090)
  {
    assert AllDigits("9090");
    assert DigitsValue("9") == 9 by { assert "9"[..0] == ""; }
    assert DigitsValue("90") == 90 by { assert "90"[..1] == "9"; }
    assert DigitsValue("909") == 909 by { assert "909"[..2] == "90"; }
    assert DigitsValue("9090") == 9090 by { assert "9090"[..3] == "909"; }
  }

  lemma ExampleIndex(keyword: string, i: nat)
    requires i < |ExampleTokens| && ExampleTokens[i] == keyword
    requires forall j :: 0 <= j < i ==> ExampleTokens[j] != keyword
    ensures keyword in ExampleTokens && FirstIndex(ExampleTokens, keyword) == i
  {
    var k := FirstIndex(ExampleTokens, keyword);
    assert !(k < i) && !(i < k);
  }

  lemma ExampleKeywords()
    ensures LastOf(ExampleTokens, AppTypes) == Some("microservice")
    ensures ExpectedDatabase(ExampleTokens) == ("mongodb", "mongodb", "mongodb")
  {
    var t := ExampleTokens;
    assert t[..8][..7][..6][..5] == t[..5];
    assert LastOf(t, SqlDatabases + NoSqlDatabases) == LastOf(t[..5], SqlDatabases + NoSqlDatabases);
    assert LastOf(t, AppTypes) == LastOf(t[..3], AppTypes);
    assert "mongodb" !in SqlDatabases;
  }

  /** The last keyword of a table in the token list: it occurs at some
      position, and no token after that position is a keyword of the table;
      there is none exactly when no token is one. */
  lemma {:induction false} LastOfIsLast(tokens: seq<string>, keys: seq<string>)
    ensures var r := LastOf(tokens, keys);
      r.Some? ==> exists i :: 0 <= i < |tokens| && tokens[i] == r.value && tokens[i] in keys
                              && forall j :: i < j < |tokens| ==> tokens[j] !in keys
    ensures LastOf(tokens, keys).None? <==> forall i :: 0 <= i < |tokens| ==> tokens[i] !in keys
  {
    if tokens != [] && tokens[|tokens| - 1] !in keys {
      var front := tokens[..|tokens| - 1];
      LastOfIsLast(front, keys);
      var r := LastOf(tokens, keys);
      if r.Some? {
        var i :| 0 <= i < |front| && front[i] == r.value && front[i] in keys
                  && forall j :: i < j < |front| ==> front[j] !in keys;
        assert tokens[i] == front[i];
        assert forall j :: i < j < |tokens| ==> tokens[j] !in keys by {
          forall j | i < j < |tokens| ensures tokens[j] !in keys {
            if j < |front| {
              assert tokens[j] == front[j];
            }
          }
        }
      } else {
        assert forall i :: 0 <= i < |front| ==> tokens[i] == front[i];
      }
    }
  }

  /** A second "named" takes the argument of the first again. */
  lemma FirstNamedWins(onlineUser: string)
    ensures var r := Build(DefaultPayload(onlineUser), DefaultProvider, ["named", "alpha", "named", "beta"], onlineUser);
      r.Ok? && r.value.generator.baseName == "alpha" && r.value.repositoryName == "alpha"
  {
    var tokens := ["named", "alpha", "named", "beta"];
    GeneratePayloadTable(tokens, onlineUser);
    assert FirstIndex(tokens, "named") == 0;
  }

  /** A token taken as the argument of "named" is still read as a keyword. */
  lemma NamedArgumentIsScanned(onlineUser: string)
    ensures var r := Build(DefaultPayload(onlineUser), DefaultProvider, ["named", "mongodb"], onlineUser);
      r.Ok? && r.value.generator.baseName == "mongodb" && r.value.generator.databaseType == "mongodb"
  {
    var tokens := ["named", "mongodb"];
    assert ArgumentOf(tokens, "named") == Some("mongodb") by {
      assert FirstIndex(tokens, "named") == 0;
    }
    assert ExpectedDatabase(tokens).0 == "mongodb" by {
      assert LastOf(tokens, SqlDatabases + NoSqlDatabases) == Some("mongodb");
      assert "mongodb" !in SqlDatabases;
    }
    assert !PortFails(tokens) by {
      assert "port" !in tokens;
    }
    GeneratePayloadTable(tokens, onlineUser);
  }

  /** Keywords are matched case-sensitively. */
  lemma KeywordsAreCaseSensitive(onlineUser: string)
    ensures var r := Build(DefaultPayload(onlineUser), DefaultProvider, ["Gateway", "MongoDB", "GitLab"], onlineUser);
      && r.Ok?
      && r.value.generator.applicationType == "monolith"
      && r.value.generator.databaseType == "sql"
      && r.value.gitProvider == Some("github")
  {
    var tokens := ["Gateway", "MongoDB", "GitLab"];
    GeneratePayloadTable(tokens, onlineUser);
    CapitalisedIsNoKeyword("Gateway");
    CapitalisedIsNoKeyword("MongoDB");
    CapitalisedIsNoKeyword("GitLab");
    assert LastOf(tokens, AppTypes) == None;
    assert LastOf(tokens, SqlDatabases + NoSqlDatabases) == None;
  }

  /** "named" or "port" as the last token changes nothing. */
  lemma TrailingKeywordKeepsDefault(onlineUser: string)
    ensures var r := Build(DefaultPayload(onlineUser), DefaultProvider, ["generate", "named"], onlineUser);
      r.Ok? && r.value.generator.baseName == DefaultName
    ensures var r := Build(DefaultPayload(onlineUser), DefaultProvider, ["generate", "port"], onlineUser);
      r.Ok? && r.value.generator.serverPort == DefaultPort
  {
    GeneratePayloadTable(["generate", "named"], onlineUser);
    assert FirstIndex(["generate", "named"], "named") == 1;
    GeneratePayloadTable(["generate", "port"], onlineUser);
    assert FirstIndex(["generate", "port"], "port") == 1;
  }

  /** A "port" whose argument is not an integer makes the whole pass raise. */
  lemma BadPortRaises(onlineUser: string)
    ensures Build(DefaultPayload(onlineUser), DefaultProvider, ["gateway", "port", "80a"], onlineUser)
            == Fail(InvalidLiteral("80a"))
  {
    var tokens := ["gateway", "port", "80a"];
    GeneratePayloadTable(tokens, onlineUser);
    assert FirstIndex(tokens, "port") == 1;
    assert !AllDigits("80a");
  }

  /** The last database keyword sets all three database fields. */
  lemma LastDatabaseWins(onlineUser: string)
    ensures var r := Build(DefaultPayload(onlineUser), DefaultProvider, ["mysql", "cassandra"], onlineUser);
      r.Ok? && (r.value.generator.databaseType, r.value.generator.devDatabaseType, r.value.generator.prodDatabaseType)
               == ("cassandra", "cassandra", "cassandra")
  {
    GeneratePayloadTable(["mysql", "cassandra"], onlineUser);
    assert LastOf(["mysql", "cassandra"], SqlDatabases + NoSqlDatabases) == Some("cassandra");
  }

  /** An SQL keyword after a NoSQL one brings back the SQL development database. */
  lemma LastSqlDatabaseWins(onlineUser: string)
    ensures var r := Build(DefaultPayload(onlineUser), DefaultProvider, ["mongodb", "postgresql"], onlineUser);
      r.Ok? && (r.value.generator.databaseType, r.value.generator.devDatabaseType, r.value.generator.prodDatabaseType)
               == ("sql", "h2Disk", "postgresql")
  {
    GeneratePayloadTable(["mongodb", "postgresql"], onlineUser);
    assert LastOf(["mongodb", "postgresql"], SqlDatabases + NoSqlDatabases) == Some("postgresql");
  }
}
