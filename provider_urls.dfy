/**
 * Deriving the archive-download URL and the issue-tracker URL of an asset's
 * repository from its browse URL, its download provider and a commit or ref
 * (`Utils::getComputedDownloadUrl` and `Utils::getDefaultIssuesUrl`).
 *
 * The PHP by-reference `&$warning` is an input warning and an output warning:
 * a branch that assigns it replaces it, a branch that does not passes the
 * caller's warning through. A warning never stops the URL from being returned.
 */
module ProviderUrls {
  import opened Wrappers
  import opened UrlShapes

  /** The provider as the caller passes it: a PHP `int` index or anything else (taken as a name). */
  datatype ProviderArg = IntArg(index: int) | StrArg(name: string)

  /** The provider names the `switch` distinguishes; every other name is `Unknown`. */
  datatype Provider = GitHub | GitLab | BitBucket | Gogs | Cgit | Unknown

  /** A derived URL together with the warning as it stands after the call. */
  datatype Derived = Derived(url: string, warning: Option<string>)

  /** The `download_provider` constant table: provider index to provider name. */
  type ProviderTable = map<int, string>

  /** An integer provider must index the table; a name is always accepted. */
  predicate Resolvable(table: ProviderTable, provider: ProviderArg) {
    provider.IntArg? ==> provider.index in table
  }

  /** Only a real integer is looked up; a numeric string stays a name. */
  function ResolveProvider(table: ProviderTable, provider: ProviderArg): (name: string)
    requires Resolvable(table, provider)
    ensures provider.IntArg? ==> name == table[provider.index]
    ensures provider.StrArg? ==> name == provider.name
  {
    match provider
    case IntArg(i) => table[i]
    case StrArg(s) => s
  }

  /** The `case` label that selects a named provider. */
  function CaseLabel(kind: Provider): string
    requires kind != Unknown
  {
    match kind
    case GitHub => "GitHub"
    case GitLab => "GitLab"
    case BitBucket => "BitBucket"
    case Gogs => "Gogs"
    case Cgit => "cgit"
  }

  /** The `case` a provider name selects: the one whose label it equals exactly, else the default. */
  function Classify(name: string): (kind: Provider)
    ensures kind != Unknown ==> CaseLabel(kind) == name
    ensures kind == Unknown ==> forall k: Provider :: k != Unknown ==> CaseLabel(k) != name
  {
    if name == "GitHub" then GitHub
    else if name == "GitLab" then GitLab
    else if name == "BitBucket" then BitBucket
    else if name == "Gogs" then Gogs
    else if name == "cgit" then Cgit
    else Unknown
  }

  const WarningSuffix: string := "Please, ensure that the URL and the repository provider are, indeed, correct."
  const LightWarningSuffix: string := "Please, doublecheck that the URL and the repository provider are correct."

  /** The strict "doesn't look correct" warning, naming the expected shape. */
  function StrictWarning(url: string, expected: string): string {
    "\"" + url + "\" doesn't look correct; it should be similar to \"" + expected + "\". " + WarningSuffix
  }

  /** The soft warning for a GitLab URL whose host is not gitlab.com. */
  function CustomGitLabWarning(url: string): string {
    "\"" + url + "\" might not be correct; it should be similar to \"https://gitlab.com/<owner>/<name>\", unless the asset is hosted on a custom instance of GitLab. " + LightWarningSuffix
  }

  /** The soft warning every Gogs or cgit URL gets. */
  function SelfHostedWarning(product: string, url: string): string {
    "Since " + product + " might be self-hosted, we can't be sure that \"" + url + "\" is a valid " + product + " URL. " + LightWarningSuffix
  }

  /** `^https?://[^/]+?/[^/]+?/[^/]+?$`, the Gogs and cgit pattern. */
  function SelfHostedShape(url: string): (matches: bool)
    ensures matches <==> IsHostOwnerName(url, "http://") || IsHostOwnerName(url, "https://")
  {
    ThreeSegmentsIff(url, "http://");
    ThreeSegmentsIff(url, "https://");
    MatchesShape(url, "http://", 3) || MatchesShape(url, "https://", 3)
  }

  /** The archive-download URL for a repository, and the warning after the call. */
  function ComputedDownloadUrl(table: ProviderTable, repoUrl: string, provider: ProviderArg, commit: string,
                               warning: Option<string>): (r: Derived)
    requires Resolvable(table, provider)
    ensures var base, kind := TrimTrailingSlashes(repoUrl), Classify(ResolveProvider(table, provider));
      && (kind == GitHub ==> r.url == base + "/archive/" + commit + ".zip")
      && (kind == GitLab ==> r.url == base + "/repository/archive.zip?ref=" + commit)
      && (kind == BitBucket ==> r.url == base + "/get/" + commit + ".zip")
      && (kind == Gogs ==> r.url == base + "/archive/" + commit + ".zip")
      && (kind == Cgit ==> r.url == base + "/snapshot/" + commit + ".zip")
      && (kind == Unknown ==> r.url == base + "/" + commit + ".zip")
    ensures var base, kind := TrimTrailingSlashes(repoUrl), Classify(ResolveProvider(table, provider));
      && (kind == Gogs ==> r.warning == Some(SelfHostedWarning("Gogs", base)))
      && (kind == Cgit ==> r.warning == Some(SelfHostedWarning("cgit", base)))
      && (kind == Unknown ==> r.warning == warning)
  {
    var url := TrimTrailingSlashes(repoUrl);
    match Classify(ResolveProvider(table, provider))
    case GitHub =>
      var w := if !MatchesShape(url, "https://github.com/", 2)
        then Some(StrictWarning(url, "https://github.com/<owner>/<name>")) else warning;
      Derived(url + "/archive/" + commit + ".zip", w)
    case GitLab =>
      var w := if !MatchesShape(url, "https://", 3)
        then Some(StrictWarning(url, "https://<gitlab instance>/<owner>/<name>"))
        else if !MatchesShape(url, "https://gitlab.com/", 2) then Some(CustomGitLabWarning(url))
        else warning;
      Derived(url + "/repository/archive.zip?ref=" + commit, w)
    case BitBucket =>
      var w := if !MatchesShape(url, "https://bitbucket.org/", 2)
        then Some(StrictWarning(url, "https://bitbucket.org/<owner>/<name>")) else warning;
      Derived(url + "/get/" + commit + ".zip", w)
    case Gogs =>
      // The shape warning is assigned first and then always overwritten.
      var w := if !SelfHostedShape(url)
        then Some(StrictWarning(url, "http<s>://<gogs instance>/<owner>/<name>")) else warning;
      var w' := Some(SelfHostedWarning("Gogs", url));
      Derived(url + "/archive/" + commit + ".zip", w')
    case Cgit =>
      var w := if !SelfHostedShape(url)
        then Some(StrictWarning(url, "http<s>://<cgit instance>/<owner>/<name>")) else warning;
      var w' := Some(SelfHostedWarning("cgit", url));
      Derived(url + "/snapshot/" + commit + ".zip", w')
    case Unknown =>
      // A deliberately kept fallback that is not a real archive URL.
      Derived(url + "/" + commit + ".zip", warning)
  }

  /** The providers with an issue tracker at `<url>/issues`. */
  predicate HasIssueTracker(kind: Provider) {
    kind == GitHub || kind == GitLab || kind == BitBucket || kind == Gogs
  }

  /** The default issue-tracker URL, or "" where the provider has none. */
  function DefaultIssuesUrl(table: ProviderTable, repoUrl: string, provider: ProviderArg): (r: string)
    requires Resolvable(table, provider)
    ensures HasIssueTracker(Classify(ResolveProvider(table, provider))) ==> r == TrimTrailingSlashes(repoUrl) + "/issues"
    ensures !HasIssueTracker(Classify(ResolveProvider(table, provider))) ==> r == ""
  {
    var url := TrimTrailingSlashes(repoUrl);
    match Classify(ResolveProvider(table, provider))
    case GitHub | GitLab | BitBucket | Gogs => url + "/issues"
    case Cgit | Unknown => ""
  }

  // ---------------------------------------------------------------------
  // Warning policy, stated against the declarative URL shapes.

  /** GitHub: the strict warning exactly when the URL is not `https://github.com/<a>/<b>`. */
  lemma GitHubWarning(table: ProviderTable, repoUrl: string, provider: ProviderArg, commit: string,
                      warning: Option<string>)
    requires Resolvable(table, provider) && Classify(ResolveProvider(table, provider)) == GitHub
    ensures var base := TrimTrailingSlashes(repoUrl);
      ComputedDownloadUrl(table, repoUrl, provider, commit, warning).warning
        == if IsOwnerName(base, "https://github.com/") then warning
           else Some(StrictWarning(base, "https://github.com/<owner>/<name>"))
  {
    TwoSegmentsIff(TrimTrailingSlashes(repoUrl), "https://github.com/");
  }

  /** BitBucket: the strict warning exactly when the URL is not `https://bitbucket.org/<a>/<b>`. */
  lemma BitBucketWarning(table: ProviderTable, repoUrl: string, provider: ProviderArg, commit: string,
                         warning: Option<string>)
    requires Resolvable(table, provider) && Classify(ResolveProvider(table, provider)) == BitBucket
    ensures var base := TrimTrailingSlashes(repoUrl);
      ComputedDownloadUrl(table, repoUrl, provider, commit, warning).warning
        == if IsOwnerName(base, "https://bitbucket.org/") then warning
           else Some(StrictWarning(base, "https://bitbucket.org/<owner>/<name>"))
  {
    TwoSegmentsIff(TrimTrailingSlashes(repoUrl), "https://bitbucket.org/");
  }

  /** GitLab, first outcome: a URL not of the shape `https://<h>/<a>/<b>` gets the strict warning. */
  lemma GitLabMalformedWarning(table: ProviderTable, repoUrl: string, provider: ProviderArg, commit: string,
                               warning: Option<string>)
    requires Resolvable(table, provider) && Classify(ResolveProvider(table, provider)) == GitLab
    requires !IsHostOwnerName(TrimTrailingSlashes(repoUrl), "https://")
    ensures ComputedDownloadUrl(table, repoUrl, provider, commit, warning).warning
      == Some(StrictWarning(TrimTrailingSlashes(repoUrl), "https://<gitlab instance>/<owner>/<name>"))
  {
    ThreeSegmentsIff(TrimTrailingSlashes(repoUrl), "https://");
  }

  /**
   * GitLab, other two outcomes: for `https://<h>/<a>/<b>` the soft custom-instance
   * warning when the host `h` is not gitlab.com, and the caller's warning otherwise.
   */
  lemma GitLabHostWarning(table: ProviderTable, repoUrl: string, provider: ProviderArg, commit: string,
                          warning: Option<string>, h: string, a: string, b: string)
    requires Resolvable(table, provider) && Classify(ResolveProvider(table, provider)) == GitLab
    requires Segment(h) && Segment(a) && Segment(b)
    requires TrimTrailingSlashes(repoUrl) == "https://" + h + "/" + a + "/" + b
    ensures ComputedDownloadUrl(table, repoUrl, provider, commit, warning).warning
      == if h == "gitlab.com" then warning else Some(CustomGitLabWarning(TrimTrailingSlashes(repoUrl)))
  {
    var base := TrimTrailingSlashes(repoUrl);
    ThreeSegmentsComplete(base, "https://", h, a, b);
    TwoSegmentsIff(base, "https://gitlab.com/");
    HostIsGitLabCom(h, a, b);
  }

  // ---------------------------------------------------------------------
  // Normalisation and provider resolution.

  /** The derived URL is the trimmed URL, then '/', then the rest: no doubled slash at the seam. */
  lemma DownloadUrlExtendsBase(table: ProviderTable, repoUrl: string, provider: ProviderArg, commit: string,
                               warning: Option<string>)
    requires Resolvable(table, provider)
    ensures var base, r := TrimTrailingSlashes(repoUrl), ComputedDownloadUrl(table, repoUrl, provider, commit, warning);
      && base < r.url && r.url[|base|] == '/'
      && (base == [] || base[|base| - 1] != '/')
  {
  }

  /** Trailing slashes on the browse URL never reach either derived URL. */
  lemma TrailingSlashesIgnored(table: ProviderTable, repoUrl: string, slashes: string, provider: ProviderArg,
                               commit: string, warning: Option<string>)
    requires Resolvable(table, provider) && AllSlashes(slashes)
    ensures ComputedDownloadUrl(table, repoUrl + slashes, provider, commit, warning)
      == ComputedDownloadUrl(table, repoUrl, provider, commit, warning)
    ensures DefaultIssuesUrl(table, repoUrl + slashes, provider) == DefaultIssuesUrl(table, repoUrl, provider)
  {
    TrimIgnoresAppendedSlashes(repoUrl, slashes);
  }

  /** An integer provider behaves exactly as the name the table gives it. */
  lemma IntegerProviderResolvedFirst(table: ProviderTable, repoUrl: string, i: int, commit: string,
                                     warning: Option<string>)
    requires i in table
    ensures ComputedDownloadUrl(table, repoUrl, IntArg(i), commit, warning)
      == ComputedDownloadUrl(table, repoUrl, StrArg(table[i]), commit, warning)
    ensures DefaultIssuesUrl(table, repoUrl, IntArg(i)) == DefaultIssuesUrl(table, repoUrl, StrArg(table[i]))
  {
  }

  /**
   * A name outside the five, such as the numeric string "1" (not an `int`, so
   * never looked up), takes the default branch of both switches.
   */
  lemma UnmatchedNameFallsThrough(table: ProviderTable, repoUrl: string, name: string, commit: string,
                                  warning: Option<string>)
    requires Classify(name) == Unknown
    ensures ComputedDownloadUrl(table, repoUrl, StrArg(name), commit, warning)
      == Derived(TrimTrailingSlashes(repoUrl) + "/" + commit + ".zip", warning)
    ensures DefaultIssuesUrl(table, repoUrl, StrArg(name)) == ""
  {
  }

  // ---------------------------------------------------------------------
  // A worked example. The pieces of the URL are bound with `:|` so that the
  // verifier reasons about them symbolically rather than character by character.

  /** A GitHub URL of the usual shape, with a trailing slash: the archive URL and no warning. */
  lemma GitHubExample(table: ProviderTable)
    ensures ComputedDownloadUrl(table, "https://github.com/foo/bar/", StrArg("GitHub"), "abc123", None)
      == Derived("https://github.com/foo/bar/archive/abc123.zip", None)
  {
    var a, b, c :| a == "foo" && b == "bar" && c == "abc123";
    var url := "https://github.com/" + a + "/" + b;
    assert url + "/" == "https://github.com/foo/bar/";
    assert url + "/archive/" + c + ".zip" == "https://github.com/foo/bar/archive/abc123.zip";
    assert ComputedDownloadUrl(table, url + "/", StrArg("GitHub"), c, None)
      == Derived(url + "/archive/" + c + ".zip", None) by {
      TrimIgnoresAppendedSlashes(url, "/");
      assert TrimTrailingSlashes(url) == url;
      assert Segment(a) && Segment(b);
      GitHubWarning(table, url + "/", StrArg("GitHub"), c, None);
    }
  }
}
