# Asset library `Utils` helpers in Dafny

A model of the helper class `Utils` of the Godot asset library's web API
(`src/Helpers/Utils.php`). The class does two unrelated jobs:

- **URL derivation.** From an asset's repository browse URL, its download
  provider (GitHub, GitLab, BitBucket, Gogs, cgit or anything else) and a
  commit, it builds the archive-download URL and the default issue-tracker URL.
  Download URLs come with an advisory warning when the browse URL does not
  look like the provider's usual shape.
- **Validation chain and token resolution.** A set of request checks threads
  a "failed already" flag from one check to the next, so only the first
  failing check writes an HTTP error response. A token resolver turns a
  decoded session or password-reset token into a user row.

Modules:

- `Wrappers`: `Option`, standing for PHP `null`/`false` against a value.
- `UrlShapes`: `rtrim($url, '/')`, splitting on `/`, and the anchored URL
  patterns. An executable reading (`MatchesShape`: a prefix, then exactly `n`
  non-empty segments) is proved equivalent to a declarative one
  (`IsOwnerName`, `IsHostOwnerName`: there exist slash-free, non-empty
  segments that make up the URL).
- `ProviderUrls`: `getComputedDownloadUrl` and `getDefaultIssuesUrl` as pure
  functions. The by-reference `&$warning` is an input warning plus the
  `warning` field of the result. A branch that assigns it replaces it. A
  branch that does not passes the caller's warning through.
- `Validation`: the `errorResponseIf*` checks, `getUserFromTokenData` and
  `ensureLoggedIn` as methods. Each by-reference parameter (`&$response`,
  `&$user`, `&$token_data`) is an in-parameter plus a primed out-parameter.
  The token decoder, `base64_decode` and the two prepared user queries are
  function-typed parameters. The logger call is a recorded `LogEntry`
  out-parameter. `ResolveToken` is the decision procedure written as a
  single-pass state machine. `GetUserFromTokenData` and `EnsureLoggedIn`
  follow the code's if/elseif chain and its calls to the checks, and their
  contracts tie them to `ResolveToken`.

Notes on how the code is read:

- A provider given as a PHP `int` is looked up in the `download_provider`
  table (a `map<int, string>` parameter). Anything else is used as the name,
  so the numeric string `"1"` is not looked up and takes the default branch.
- The `switch` compares the provider with each `case` label as exact strings.
- The Gogs and cgit branches first assign the strict "doesn't look correct"
  warning and then always overwrite it. The model keeps both assignments. The
  final warning is always the soft "might be self-hosted" one.
- The unknown-provider fallback `<url>/<commit>.zip` is kept unchanged.
- "No warning" for a well-shaped URL means the caller's warning comes back
  unchanged.
- `errorResponseIfNotUserHasLevel` with `user === false` returns true and
  writes no response, even when no earlier check failed.

## Model

| member | source | states |
|---|---|---|
| `UrlShapes.TrimTrailingSlashes` | src/Helpers/Utils.php:16 | the result is a prefix of the URL, does not end in `/`, and everything cut off is `/` |
| `UrlShapes.TrimIgnoresAppendedSlashes` | src/Helpers/Utils.php:16 | appending any run of slashes to a URL does not change its trimmed form |
| `UrlShapes.TwoSegmentsIff` | src/Helpers/Utils.php:24-36 | the anchored `^<prefix>[^/]+?/[^/]+?$` check holds exactly when the URL is the prefix followed by two non-empty slash-free segments joined by `/` (the GitHub, `gitlab.com` and BitBucket patterns at lines 24, 31 and 36) |
| `UrlShapes.ThreeSegmentsIff` | src/Helpers/Utils.php:29-47 | the anchored `^https://[^/]+/[^/]+?/[^/]+?$` check (and its `http` form) holds exactly when the URL is the scheme followed by three non-empty slash-free segments (the GitLab pattern at line 29 and the Gogs and cgit patterns at lines 41 and 47) |
| `UrlShapes.HostIsGitLabCom` | src/Helpers/Utils.php:29-31 | for a URL `https://<h>/<a>/<b>`, the `https://gitlab.com/<a>/<b>` pattern holds exactly when the host `h` is `gitlab.com` |
| `ProviderUrls.Classify` | src/Helpers/Utils.php:22-53 | a name selects the case whose label (`GitHub`, `GitLab`, `BitBucket`, `Gogs`, `cgit`) it equals exactly, and the default case when it equals none of them |
| `ProviderUrls.SelfHostedShape` | src/Helpers/Utils.php:41-47 | the Gogs and cgit pattern `^https?://[^/]+?/[^/]+?/[^/]+?$` holds exactly when the URL is `http://` or `https://` followed by three non-empty slash-free segments |
| `ProviderUrls.ResolveProvider` | src/Helpers/Utils.php:17-19 | an `int` provider becomes `table[provider]`; any other provider is its own name |
| `ProviderUrls.ComputedDownloadUrl` | src/Helpers/Utils.php:14-55 | the URL is the trimmed URL followed by the provider's template (`/archive/<c>.zip`, `/repository/archive.zip?ref=<c>`, `/get/<c>.zip`, `/archive/<c>.zip`, `/snapshot/<c>.zip`, `/<c>.zip`), whatever the warning; Gogs and cgit always end with their self-hosted warning; the default branch returns the caller's warning untouched |
| `ProviderUrls.DefaultIssuesUrl` | src/Helpers/Utils.php:57-73 | `<trimmed url>/issues` for GitHub, GitLab, BitBucket and Gogs, and `""` for cgit and every other provider, whatever the URL's shape |
| `ProviderUrls.GitHubWarning` | src/Helpers/Utils.php:24-26 | the warning becomes the strict GitHub warning exactly when the trimmed URL is not `https://github.com/<a>/<b>`, and is the caller's warning otherwise |
| `ProviderUrls.BitBucketWarning` | src/Helpers/Utils.php:36-38 | the warning becomes the strict BitBucket warning exactly when the trimmed URL is not `https://bitbucket.org/<a>/<b>`, and is the caller's warning otherwise |
| `ProviderUrls.GitLabMalformedWarning` | src/Helpers/Utils.php:29-30 | a GitLab URL that is not `https://<h>/<a>/<b>` gets the strict warning |
| `ProviderUrls.GitLabHostWarning` | src/Helpers/Utils.php:31-33 | a GitLab URL `https://<h>/<a>/<b>` gets the soft custom-instance warning when `h` is not `gitlab.com`, and keeps the caller's warning when it is |
| `ProviderUrls.GitHubExample` | src/Helpers/Utils.php:16-27 | `https://github.com/foo/bar/` with provider `GitHub` and commit `abc123` gives `https://github.com/foo/bar/archive/abc123.zip` and no warning, for any provider table |
| `ProviderUrls.DownloadUrlExtendsBase` | src/Helpers/Utils.php:16-53 | the derived URL strictly extends the trimmed URL with `/`, and the trimmed URL does not end in `/`, so no doubled slash appears at the seam |
| `ProviderUrls.TrailingSlashesIgnored` | src/Helpers/Utils.php:14-73 | adding trailing slashes to the browse URL changes neither derived URL nor the warning |
| `ProviderUrls.IntegerProviderResolvedFirst` | src/Helpers/Utils.php:17-62 | an `int` provider gives the same download URL, warning and issue URL as passing `table[provider]` by name |
| `ProviderUrls.UnmatchedNameFallsThrough` | src/Helpers/Utils.php:52-71 | a name that matches no case label gives `<trimmed url>/<commit>.zip` with the caller's warning, and the empty issue URL |
| `Validation.ErrorResponseIfNotUserHasLevel` | src/Helpers/Utils.php:75-88 | with an earlier failure or `user === false`: true, response unchanged; otherwise fails exactly when the user's level is below the threshold, writing 403 with the message, and otherwise leaves the response alone |
| `Validation.RequiredString` | src/Helpers/Utils.php:96 | a field fails the required-string test exactly when it is missing, null, not a string, or the empty string |
| `Validation.ErrorResponseIfMissingOrNotString` | src/Helpers/Utils.php:90-103 | with an earlier failure: true, response unchanged; otherwise fails exactly when the field is missing, null, not a string or empty, writing 400 `"<prop> is required, and must be a string"` |
| `Validation.ErrorResponseIfQueryBad` | src/Helpers/Utils.php:105-119 | with an earlier failure: true, nothing written or logged; otherwise fails exactly when the error code is not `00000`, writing 500 and logging `DBError` with the error info |
| `Validation.ErrorResponseIfQueryNoResults` | src/Helpers/Utils.php:121-134 | with an earlier failure: true, response unchanged; otherwise fails exactly when the query has no rows, writing 404 with the message |
| `Validation.ResolveToken` | src/Helpers/Utils.php:153-187 | the decision procedure for a decoded token: falsy or lacking the mode's member gives 403 "Invalid token"; otherwise the mode's lookup, keyed by the decoded member, gives 500, 404 "Nonexistent token submitted" or the first row (its properties are the lemmas below) |
| `Validation.GetUserFromTokenData` | src/Helpers/Utils.php:148-188 | with an earlier failure nothing changes; otherwise the response, user, log and result are exactly what `ResolveToken` decides: one error response or the first row as the user |
| `Validation.EnsureLoggedIn` | src/Helpers/Utils.php:136-146 | a missing, non-string or empty `token` gives 400 before anything is decoded; otherwise the token data becomes the decoder's output and resolution proceeds as `ResolveToken` decides |
| `Validation.UndecodableTokenInvalid` | src/Helpers/Utils.php:153-158 | a falsy decoded token is rejected with 403 "Invalid token" |
| `Validation.WrongModeTokenInvalid` | src/Helpers/Utils.php:165-176 | without the member its mode needs (`session` normally, `reset` in reset mode), a token is rejected with 403 "Invalid token", whatever the other member holds |
| `Validation.ResolvedIsFirstRow` | src/Helpers/Utils.php:165-187 | a resolved user is the first row of the mode's lookup, keyed by the decoded member, which succeeded and returned rows |
| `Validation.LookupOutcomes` | src/Helpers/Utils.php:178-187 | with the mode's member present, a lookup error code gives 500 "An error occured while executing DB queries" with a `DBError` log entry; no error and no rows gives 404 "Nonexistent token submitted"; no error and some rows resolves to the first row |
| `Validation.RejectionClasses` | src/Helpers/Utils.php:153-184 | a rejection is 403 "Invalid token", 404 "Nonexistent token submitted" or 500, and only the 500 one logs |

## Left out

- The regular-expression engine. Each anchored pattern is modelled as a prefix followed by a fixed number of non-empty, slash-free segments. PCRE's `$` may also match before a final newline, but `[^/]` matches a newline too, so the matched set of strings is the same.
- PHP loose comparison. The `switch` labels, `errorCode() != '00000'` and `== ""` are exact string comparisons here. Numeric-string equalities such as `'0' == '00000'` are not modelled.
- Provider and level values that PHP would coerce (null, floats, booleans). An `int` provider must be a key of the provider table, and a level name must be a key of the level table. PHP's notice-plus-null on a missing key is not modelled.
- `(int) $user['type']`: the row carries its `type` column as an already-integer `userType`.
- The PDO statement mechanics (`bindValue`, `execute`, `rowCount`, `fetchAll`). Each lookup is a function from the bound token to an executed result, and `rowCount()` is the number of returned rows.
- The logger is a recorded `LogEntry` output, not a sink.
- The token decoder (`tokens->validate`) and `base64_decode` are opaque function parameters.
- Slim responses keep only their status and the `error` member of the JSON body. Headers and the rest of the body are not modelled.
- PHP's optional arguments (`$message`, `$reset = false`, `&$warning = null`, `&$token_data = null`) are ordinary parameters that every caller passes. The default messages are the constants `NotAuthorizedMessage`, `QueryErrorMessage` and `NoResultsMessage`; PHP's `null` default is `None`.
- The constructor and the container (`$this->c`): each constant table the code reads from it is a parameter.
- The commented-out `user_id` branch of `getUserFromTokenData`, which is not live code.
- Commit identifiers and URLs are strings. PHP's interpolation of non-string values is not modelled.
