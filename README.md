# Routing and authentication decisions of a multi-tenant site platform

This project models two pieces of decision logic of a multi-tenant web
platform. Each subdomain or custom domain serves its own site.

- **The request router** (`middleware.ts`), modelled in `middleware.dfy` as
  the total function `Middleware.Route`. It takes the Host header, the
  pathname, the query string, a "session present" flag, the root domain and
  the deployment suffix. It returns either `Rewrite(internalPath)` or
  `Redirect(target)`. First the host is normalised: the first
  ".localhost:3000" becomes "." + root domain, and a preview deployment host
  collapses to its tenant. Then the path is composed from the pathname and
  the query. Last, an ordered chain of tests decides. The application host
  `app.<root>` gets its own sign-in gate. After it come the marketing host
  `vercel.pub`, the root domain (served from `/home`), and every other host,
  which is served as a tenant under `/<host>`. `Middleware.Middleware` adds
  the route matcher: for the paths it skips, the router never runs.
- **The authentication decisions** (`lib/auth.ts`), modelled in `auth.dfy`:
  - the GitHub and Google profile mappings;
  - the session cookie, which depends on whether this is a Vercel deployment;
  - the `jwt` callback, as the class `Auth.Token`, which updates its user in
    place;
  - the `session` callback, as the class `Auth.Session`, which overwrites its
    user;
  - the `signIn` callback, as the method `Auth.UserTable.SignIn` on a user
    table keyed by email, specified by the pure function `Auth.SignInSpec`;
  - the ownership guards `withSiteAuth` and `withPostAuth`, as the functions
    `Auth.WithSiteAuth` and `Auth.WithPostAuth` over a store of sites or posts.

`js.dfy` models the JavaScript built-ins these rely on:
- truthiness and `||` on possibly undefined strings (`Js`);
- `startsWith`, `endsWith`, `includes`, `indexOf`, `replace` with a string
  pattern (only the first occurrence is replaced, and the replacement is
  inserted literally) and `split(sep)[0]` (`JsString`);
- `Number.prototype.toString` on integers, together with a parser that is
  proved to invert it (`JsNumber`).

Inputs from outside the code are parameters:
- the session is a flag for the router and an optional record for the guards;
- the configuration strings (root domain, deployment suffix, the value of
  `VERCEL_URL`) are passed in;
- `encodeURIComponent` is a function parameter with no interpretation;
- the id the database gives a new user is passed in as `newId`.

The model follows the code as written, including where it behaves
unexpectedly:
- **`/verify` keeps only the search part.** A path starting with "/verify" is
  rewritten to "/app/verify" plus the search part. The rest of the pathname
  is dropped, so "/verify/anything" becomes "/app/verify", not
  "/app/verify/anything" (`Middleware.ScenarioVerifyDropsRest`).
- **The query is not always kept.** The signup rewrite "/app/signup" drops
  the query string.
- **The error test is a prefix test.** The error case checks whether the raw
  query string *starts with* "error". It does not look for an `error`
  parameter.
- **The confirmation creates without looking first.** The email
  confirmation step creates the account unconditionally. It does not
  find-or-create. On an email that is already taken, the unique key makes the
  create fail, and the sign-in fails. Modelling this as written shows a
  consequence: every address whose verification request is allowed already
  has an account. Therefore the confirmation of that same address always
  fails (`Auth.KnownEmailCannotFinishEmailSignIn`). Two confirmations of a
  new address in a row leave exactly one account, and the second one fails
  (`Auth.RepeatedConfirmation`).
- **A missing name does not send the user to signup.** The callback answers
  `true` whether or not the new account has a name.

## Model

| member | source | states |
|---|---|---|
| `Js.Or` | lib/auth.ts:20 | `a \|\| b` gives `a` when `a` is truthy and `b` otherwise; the result is truthy exactly when one of the operands is |
| `JsString.StartsWithIff` | middleware.ts:44 | `startsWith` holds exactly when the string agrees with the prefix at every position of the prefix |
| `JsString.EndsWithIff` | middleware.ts:27 | `endsWith` holds exactly when the last positions of the string spell the suffix |
| `JsString.IndexOfFrom` | middleware.ts:26 | the result is an occurrence at or after `from`, and no occurrence lies between `from` and it (none at all when absent) |
| `JsString.IndexOf` | middleware.ts:26 | the result is the first occurrence of the pattern; None means the pattern occurs nowhere |
| `JsString.FirstOccurrenceUnique` | middleware.ts:20-22 | two first occurrences of one pattern are the same position |
| `JsString.IndexOfIsFirstOccurrence` | middleware.ts:26 | `indexOf` returns `i` exactly when `i` is the first occurrence |
| `JsString.IncludesIff` | middleware.ts:26 | `includes` holds exactly when the pattern occurs at some position |
| `JsString.AbsentCharExcludes` | middleware.ts:26 | a pattern containing a character that the string lacks is not included |
| `JsString.FirstOccurrenceAt` | middleware.ts:20-29 | an occurrence with none before it is what `indexOf` finds |
| `JsString.Replace` | middleware.ts:20-22 | `replace` with a string pattern substitutes the first occurrence only; without an occurrence the string is unchanged |
| `JsString.OccursInPrefix` | middleware.ts:29 | an occurrence inside a prefix is an occurrence of the whole string that ends within the prefix |
| `JsString.SplitHead` | middleware.ts:29 | `split(sep)[0]` is a prefix free of the separator; when the separator occurs it is the text before its first occurrence, which follows it; it is the whole string otherwise |
| `JsNumber.DigitChar` | lib/auth.ts:19 | a digit value becomes the decimal digit character of that value |
| `JsNumber.NatToString` | lib/auth.ts:19 | the decimal form of a natural number is a non-empty string of digits without a leading zero |
| `JsNumber.ParseNatToString` | lib/auth.ts:19 | parsing the decimal form of `n` gives back `n` |
| `JsNumber.IntToString` | lib/auth.ts:19 | `toString` of an integer starts with "-" exactly when the integer is negative |
| `JsNumber.ParseIntToString` | lib/auth.ts:19 | the string form of an integer is well formed and parses back to that integer |
| `JsNumber.IntToStringInjective` | lib/auth.ts:19 | distinct integers have distinct string forms |
| `Middleware.DevNormalised` | middleware.ts:20-22 | the first ".localhost:3000" is replaced by "." + root domain, the text around it kept; a host without it is unchanged |
| `Middleware.CollapsePreview` | middleware.ts:25-32 | a host that contains "---" and ends with "." + deployment suffix becomes the text before its first "---" followed by "." + root domain; every other host is unchanged |
| `Middleware.Hostname` | middleware.ts:20-32 | a host with neither ".localhost:3000" nor "---" is classified as it is |
| `Middleware.Search` | middleware.ts:34-38 | the search part is empty exactly when the query is, and otherwise is "?" followed by the query |
| `Middleware.RequestPath` | middleware.ts:34-38 | the composed path starts with the pathname and is the pathname when the query is empty |
| `Middleware.UnderFolder` | middleware.ts:70-72 | a rewrite under a folder starts with the folder, and "/" maps to the folder itself |
| `Middleware.AppRoute` | middleware.ts:41-73 | on the application host every redirect goes to "/login" or "/", and every rewrite starts with "/app" |
| `Middleware.Route` | middleware.ts:17-96 | the only redirect targets are "/login", "/" and the marketing URL |
| `Middleware.LeadingRun` | middleware.ts:13 | the result is the length of the longest prefix made of word characters and hyphens |
| `Middleware.LooksLikeFileIff` | middleware.ts:13 | the run-based file test agrees with the lookahead `[\w-]+\.\w+` as a regular expression: some split into run, dot, word character exists |
| `Middleware.MatcherAccepts` | middleware.ts:13 | a pathname is accepted exactly when it starts with "/" and the rest starts with none of "api/", "_next/", "_static/", "_vercel" and with no `[\w-]+\.\w+` file name |
| `Middleware.Middleware` | middleware.ts:4-17 | a pathname not starting with "/", API routes, Next.js internals, "_static/", "_vercel" and root files of the public folder are skipped; every other path gets the router's outcome |
| `Middleware.PathStartsWith` | middleware.ts:34-54 | for a literal without "?", a prefix test on the composed path is the same test on the pathname |
| `Middleware.PathEquals` | middleware.ts:34-61 | the composed path equals a literal without "?" exactly when the pathname does and the query is empty |
| `Middleware.DevSuffixReplaced` | middleware.ts:20-22 | `name.localhost:3000` becomes `name.` + root domain |
| `Middleware.DevHostRoutesLikeProduction` | middleware.ts:20-22 | a local development tenant host routes exactly like the same tenant under the root domain |
| `Middleware.PreviewHostCollapses` | middleware.ts:25-32 | `prefix---hash.suffix` becomes `prefix.` + root domain when its first "---" follows the prefix |
| `Middleware.PreviewHostRoutesLikeProduction` | middleware.ts:25-32 | a preview deployment host routes exactly like the tenant host it collapses to |
| `Middleware.AppHostRoute` | middleware.ts:41-73 | on the application host the outcome is that of the application rules on the composed path |
| `Middleware.VerifyRule` | middleware.ts:44-46 | on the application host a pathname starting with "/verify" is rewritten to "/app/verify" + search, with or without a session |
| `Middleware.AppNoSessionRules` | middleware.ts:48-58 | the application rules without a session, away from "/login" and "/verify", give the error rewrite, the signup rewrite or the "/login" redirect, in that order |
| `Middleware.NoSessionRules` | middleware.ts:48-58 | with no session and a path other than "/login": an "error" query rewrites to "/app/login" + search, else a "/signup" path rewrites to "/app/signup", else the visitor is redirected to "/login" |
| `Middleware.SignedInLoginGoesHome` | middleware.ts:61-63 | a signed-in visitor on "/login" is redirected to "/" |
| `Middleware.SignupRedirectUnreachable` | middleware.ts:48-67 | no request is ever redirected to "/app/signup": the branch that would do so is dead |
| `Middleware.AppFallthrough` | middleware.ts:69-72 | every other application host request is rewritten to "/app" + path, with "/" mapping to exactly "/app" |
| `Middleware.AppFallthroughPath` | middleware.ts:69-72 | the application rules' last branch rewrites the composed path under "/app" |
| `Middleware.AppRewritesStayUnderApp` | middleware.ts:41-73 | every rewrite the application host produces starts with "/app" |
| `Middleware.MarketingHostRedirects` | middleware.ts:77-82 | the marketing host is redirected to the fixed external page |
| `Middleware.RootHostRewritesHome` | middleware.ts:84-92 | the root domain and "localhost:3000" are rewritten to "/home" + path, with "/" mapping to exactly "/home" |
| `Middleware.TenantHostRewrite` | middleware.ts:94-95 | any other host is rewritten to "/" + host name + path |
| `Middleware.NonAppHostIgnoresSession` | middleware.ts:41-95 | outside the application host the outcome does not depend on the session |
| `Middleware.NonAppRewriteKeepsPath` | middleware.ts:84-95 | outside the application host every rewrite other than that of a bare "/" ends with the composed path |
| `Middleware.LiteralHostKept` | middleware.ts:20-32 | a host containing neither ":" nor "-" is classified as it is |
| `Middleware.AppSignupPath` | middleware.ts:54-56 | the application rules send "/signup" without query or session to "/app/signup" |
| `Middleware.AppDashboardPath` | middleware.ts:57 | the application rules redirect "/dashboard" without query or session to "/login" |
| `Middleware.ScenarioAppSignup` | middleware.ts:54-56 | "/signup" on the application host without a session is rewritten to "/app/signup" |
| `Middleware.ScenarioAppDashboard` | middleware.ts:57 | "/dashboard" on the application host without a session is redirected to "/login" |
| `Middleware.ScenarioVerifyDropsRest` | middleware.ts:44-46 | "/verify/anything" is rewritten to "/app/verify" + search, dropping the rest of the pathname |
| `Middleware.ScenarioTenantPost` | middleware.ts:94-95 | `tenant1.<root>/my-post` is rewritten to "/tenant1.<root>/my-post" |
| `Middleware.ScenarioDevTenant` | middleware.ts:20-22 | `demo.localhost:3000` routes like `demo.<root>` |
| `Middleware.ScenarioMatcher` | middleware.ts:4-15 | "/api/user" and "/favicon.ico" are skipped by the matcher, and "/" is accepted |
| `Auth.GitHubUser` | lib/auth.ts:17-26 | the GitHub name is the profile name if truthy, else the login; gh_username is the login; the role is Indecisive; the id is the decimal form of the numeric id |
| `Auth.GoogleUser` | lib/auth.ts:31-38 | the user id is the Google string id; the name is the profile name if truthy, else `login`; the picture is the image; there is no gh_username and no role |
| `Auth.GitHubUserIdsDistinct` | lib/auth.ts:19 | GitHub profiles with different numeric ids map to different user ids |
| `Auth.GitHubUserIdRoundTrip` | lib/auth.ts:19 | the numeric GitHub id can be read back from the mapped user id |
| `Auth.SessionTokenCookie` | lib/auth.ts:61-75 | the cookie name has the "__Secure-" prefix, `secure` is set, and the domain is "." + root domain, each exactly when `VERCEL_URL` is set to a non-empty value; otherwise there is no domain; it is always httpOnly, "lax", path "/" |
| `Auth.Token.constructor` | lib/auth.ts:77 | a token carries the given subject and user |
| `Auth.Token.Jwt` | lib/auth.ts:77-82 | the token's user is replaced only when a user is supplied; the subject is untouched |
| `Auth.SessionUsername` | lib/auth.ts:89 | the user name is the token user's username if truthy, else its gh_username, and absent without a token user |
| `Auth.Session.constructor` | lib/auth.ts:83 | a session starts with the given user |
| `Auth.Session.ApplyToken` | lib/auth.ts:83-92 | the session user gets the token subject as id and the token user's name as username, and keeps its name, email and image |
| `Auth.GitHubSignInSession` | lib/auth.ts:77-92 | after a GitHub sign-in the session shows the GitHub login as username and the token subject as id |
| `Auth.IsVerificationRequest` | lib/auth.ts:102 | the first part of the email flow runs exactly when the `email` argument is present with `verificationRequest` set |
| `Auth.NewUser` | lib/auth.ts:123-128 | the created account has the given email, no name and the Indecisive role |
| `Auth.SignInSpec` | lib/auth.ts:93-141 | the table changes only when the answer is `true`; existing rows are never altered; the only row that can be added is the confirmed address's new nameless Indecisive account; keying by email is preserved |
| `Auth.UserTable.constructor` | lib/auth.ts:59 | a table over rows keyed by their own email |
| `Auth.UserTable.FindUnique` | lib/auth.ts:106 | the lookup finds a row exactly when the email is a key, and the row carries that email |
| `Auth.UserTable.Create` | lib/auth.ts:123-128 | create is rejected exactly when there is no address or the address is taken, leaving the table unchanged; otherwise exactly one nameless row is added |
| `Auth.UserTable.SignIn` | lib/auth.ts:93-141 | the answer and the new table are those of `SignInSpec` on the old table, and the table stays keyed by email |
| `Auth.OtherProviderAllows` | lib/auth.ts:98-140 | a provider other than email answers `true` and leaves the table unchanged |
| `Auth.VerificationRequestOutcome` | lib/auth.ts:102-116 | a verification request for an unknown address answers "/signup?email=" + encode(address); one for a known address answers `true`; neither changes the table |
| `Auth.ConfirmationCreatesAccount` | lib/auth.ts:118-136 | confirming a new truthy address adds exactly that nameless Indecisive account and answers `true` |
| `Auth.ConfirmationOfKnownEmailFails` | lib/auth.ts:123-128 | confirming an address that already has an account fails and leaves the table unchanged |
| `Auth.KnownEmailCannotFinishEmailSignIn` | lib/auth.ts:102-136 | an address whose verification request is answered `true` always fails at confirmation |
| `Auth.RepeatedConfirmation` | lib/auth.ts:118-136 | of two confirmations of a new address, the first creates the account, the second fails, and exactly the first account remains |
| `Auth.OwnedBy` | lib/auth.ts:175 | an owner matches only when both the owner column and the session's user id are present and equal: a null owner never matches an undefined id |
| `Auth.WithSiteAuth` | lib/auth.ts:158-183 | "Not authenticated" exactly without a session; "Not authorized" exactly when the site is missing or not owned by the session user; the action runs only on the owned site, and its result is returned |
| `Auth.WithPostAuth` | lib/auth.ts:185-212 | "Not authenticated" exactly when there is no session or its user id is falsy; "Post not found" exactly when the post is missing or not owned by that user; the action runs only on the owned post |
| `Auth.GuardsOnEmptyUserId` | lib/auth.ts:165-205 | with an empty session user id the site guard can still run an action, while the post guard refuses |

## Left out

- `components/post-card.tsx` and the verify page are React UI with no routing or authentication decisions. They are not part of this model.
- `getToken` (middleware.ts:42) and `getServerSession` (lib/auth.ts:146-156) are session I/O. The session is an input: a flag for the router, and an optional record for the guards.
- `PrismaAdapter`, the Prisma client and the database schema are not modelled. The user table is a map keyed by email; sites and posts are maps keyed by id. Only the fields the decisions read are kept.
- The `EmailProvider` SMTP settings (lib/auth.ts:40-50), the OAuth client ids and secrets, and the `pages` and `session.strategy` options (lib/auth.ts:53-60) are framework configuration with no decision logic.
- `process.env` reads are not modelled. The root domain, the deployment suffix and the `VERCEL_URL` value are parameters.
- The Host header is always present in the model. When it is absent, `req.headers.get("host")!` is null and the `.replace` call at middleware.ts:20-22 throws; that failure is not modelled.
- JsString.Replace: the replacement is inserted literally. JavaScript would expand the `$&`, `$$`, `` $` `` and `$'` patterns in it, so the model matches the source only for a root domain without "$".
- Auth.GoogleUser: the Google id is taken to be a string, on which `toString()` is the identity. A profile without an `id` makes that call throw; this is not modelled.
- `new URL(..., origin)` and `NextResponse` are not modelled. An outcome carries only the path or target string, without origin resolution or URL normalisation.
- The difference between `searchParams.toString()` and `url.search` encoding is not modelled. The search part is "?" + query when the query is non-empty, and "" otherwise.
- `encodeURIComponent` is left uninterpreted: it is the function parameter `encode`.
- The unused `getSession()` call in `signIn` (lib/auth.ts:96) is async I/O with no effect on the result.
- Concurrency between simultaneous sign-ins is not modelled. The model is sequential, and the unique key is checked inside a single `create`.
- Auth.UserTable.SignIn: the fallback `user.email || email` is modelled as "no address" when `user.email` is falsy. In the source the fallback operand is the callback's `email` argument, an object or undefined, not an address. A create without an address is modelled as a rejection, because the model keys rows by email.
- Auth.UserTable.SignIn: a verification request with no `user.email` is modelled as a failed lookup, the error Prisma raises for `findUnique` with an undefined key.
- Auth.GitHubUser: the numeric id is an unbounded integer. The model leaves out JavaScript's floating-point numbers: their loss of precision above 2^53 and their exponent notation.
- Middleware.MatcherAccepts: the regular expression's `.` does not match a newline. Pathnames never contain a raw newline, so the model does not test for one.
- The token fields other than `sub` and `user`, and the session fields other than the user, are not modelled, because no callback decides on them.
