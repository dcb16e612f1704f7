# domain8 parking pages — a verified model

The program serves "tier 0" parking pages for a portfolio of Australian domains. Each page is a
Next.js route driven by one JSON configuration per domain. A set of maintenance scripts creates
these configurations, migrates them and keeps them in step with domain8, the pipeline that
builds the higher-tier sites. This project models the deterministic core of the program in
Dafny and proves what it promises:

- **Request routing** (`Middleware`, `ConfigLoader`). The Host header is cut down to a domain,
  local hosts pass through, and the root path is rewritten to the domain's page. A requested
  domain is cleaned into a configuration name, and the configuration directory is listed.
- **Rendering decisions** (`ContentBoxes`, `Templates`, `TerminalLog`, `BrandColors`).
  - Content boxes are dispatched to a renderer or a placeholder.
  - The hero and landing templates decide which regions appear and in what order. The for-sale
    modal is a one-bit class.
  - The terminal log box is a class whose methods are its timers and handlers, proved to keep
    its invariant. Auto-play, looping and the bounded history are lemmas over its step functions.
  - The brand colours are darkened by an exact integer model of `adjustBrightness`, with
    read-back and format lemmas.
- **The domain8 gate** (`Domain8`, `CheckStatus`, `BatchDeploy`, `SyncDomains`).
  - The tier-0 rule and the brand-colour merge.
  - The status report and its recommendations.
  - The batch deployment, with its generated configuration and counters.
  - The synchronisation. Its `enabled` action is unreachable: `disabled` is deleted before the script
    reads it, so a re-enabled configuration is reported as `updated`. The model proves this.
- **Lead submissions** (`Submissions`). POST validates the form and builds the lead record.
  GET chooses the filter and the limit.
- **Configuration scripts** (`StandardizeConfigs`, `MigrateConfigs`, `MoveSeoToTop`,
  `FixTemplateIssues`, `FixLandingContent`, `SimplifyLandingContent`, `EnableDomainSale`,
  `RemoveDomainInquiry`, `ScriptRuns`).
  - Each script's work on one parsed configuration is a specification function.
  - The in-place steps are methods proved against it, with skip conditions, "nothing else
    changes" and idempotence as lemmas.
  - `ScriptRuns.RunScript` is the shared file loop with its counters.

Shared modules:

- `Json`: parsed JSON with JavaScript's property reads, assignment, `delete`, truthiness, `||`
  and `??`. Objects are ordered member lists, so key order can be stated.
- `Strings`: JavaScript string operations.
- `JsNumbers`: `parseInt` and `toString`.
- `Seqs`: counting and de-duplication.
- `Types`: the enumerations of `lib/types.ts`.
- `Wrappers`: `Option` and `Result`.

Thrown exceptions are `Result` failures. `undefined` is `None`.

## Model

| member | source | states |
|---|---|---|
| `Middleware.DomainOfHost` | middleware.ts:9 | the domain taken from the Host header holds no `:` |
| `Middleware.Route` | middleware.ts:4-27 | a rewrite always goes to `/` followed by the domain of the Host header, read as `""` when absent |
| `Middleware.RewriteIff` | middleware.ts:11-26 | a request is rewritten if and only if it asks for `/` and its domain is neither `localhost` nor `127.0.0.1` |
| `Middleware.LocalPassesThrough` | middleware.ts:11-14 | a local host passes through on every path |
| `Middleware.OtherPathsPassThrough` | middleware.ts:20-26 | every path other than `/` passes through |
| `Middleware.MissingHost` | middleware.ts:6 | a missing Host header behaves like an empty one, and the root is rewritten to `/` |
| `Middleware.PlainHostUnchanged` | middleware.ts:9 | a host without `www.` and without a port is its own domain |
| `Middleware.DomainIsPrefixBeforePort` | middleware.ts:9 | the domain is the host, with its first `www.` removed, up to the first `:` |
| `Middleware.InnerWwwRemoved` | middleware.ts:9 | a `www.` in the middle of the host is removed too, not only a leading one |
| `ConfigLoader.CleanDomain` | lib/config-loader.ts:11 | the cleaned domain holds no `/` |
| `ConfigLoader.CleanDomainIsPrefix` | lib/config-loader.ts:11 | the cleaned domain is what precedes the first `/` once the scheme and a leading `www.` are gone |
| `ConfigLoader.BareDomainUnchanged` | lib/config-loader.ts:11 | a bare domain name is left as it is |
| `ConfigLoader.UrlCleansToHost` | lib/config-loader.ts:11 | an `http(s)://www.` URL with a path cleans to its host |
| `ConfigLoader.JsonFiles` | lib/config-loader.ts:46 | only files whose names end in `.json` are kept, in directory order |
| `ConfigLoader.JsonFilesExactly` | lib/config-loader.ts:46 | a file is listed if and only if it is in the directory and its name ends in `.json` |
| `ConfigLoader.SettingsOf` | lib/config-loader.ts:51-62 | a parsed configuration yields its template settings unless it is `null`, which throws and falls back to the name alone |
| `ConfigLoader.Summary` | lib/config-loader.ts:48-62 | each entry is named by the file name without its first `.json`, and has no settings exactly when the file does not parse or holds `null` |
| `ConfigLoader.AllDomainConfigs` | lib/config-loader.ts:38-68 | a missing directory lists nothing; otherwise there is one entry per JSON file, in order |
| `ConfigLoader.NameDropsSuffix` | lib/config-loader.ts:53 | a name whose only `.json` is its suffix is listed without it |
| `ConfigLoader.NameDropsFirstOccurrence` | lib/config-loader.ts:53 | only the first `.json` of a name is removed (`a.json.json` lists as `a.json`) |
| `ContentBoxes.KeyCount` | components/content-boxes/index.tsx:13 | `Object.keys` counts the characters of a string, the elements of an array and the members of an object, and nothing for other values |
| `ContentBoxes.RendererFor` | components/content-boxes/index.tsx:17-35 | a renderer is chosen only for its own box type |
| `ContentBoxes.RendererForType` | components/content-boxes/index.tsx:17-31 | each of the seven renderers is chosen for its type |
| `ContentBoxes.RenderContentBox` | components/content-boxes/index.tsx:11-36 | a box is rendered by a renderer if and only if its content is non-empty and its type has one; otherwise its placeholder shows, with the box's type and position |
| `ContentBoxes.EmptyBoxIsPlaceholder` | components/content-boxes/index.tsx:13-15 | absent, falsy or key-less content always shows the placeholder |
| `ContentBoxes.StringContentDispatched` | components/content-boxes/index.tsx:13-31 | a non-empty string counts as content and goes to its type's renderer |
| `ContentBoxes.ScalarContentIsPlaceholder` | components/content-boxes/index.tsx:13 | a number or boolean has no keys, so even a truthy one shows the placeholder |
| `ContentBoxes.UnknownTypeIsPlaceholder` | components/content-boxes/index.tsx:33-34 | a type without a renderer shows the placeholder |
| `ContentBoxes.PlaceholderFor` | components/content-boxes/PlaceholderBox.tsx:12-122 | the placeholder variant: six feature boxes only at position `feature-grid`, two sidebar ads when the position contains `sidebar` and three native ads otherwise, four metrics, the dynamic view for `dynamic-feed` and `main-content`, and the generic view exactly for the unknown types |
| `ContentBoxes.RenderPlaceholder` | components/content-boxes/PlaceholderBox.tsx:9-12 | the placeholder is dark exactly when the colour mode is `dark`, and its variant is the one for its type and position |
| `ContentBoxes.ColorModeKeepsView` | components/content-boxes/PlaceholderBox.tsx:10-122 | the colour mode never changes the variant or its item counts |
| `Types.ThemeNamed` | lib/types.ts:13 | a theme is found only under its own name |
| `Types.ThemeNameRoundTrip` | lib/types.ts:13 | every theme's name reads back as that theme |
| `Domain8.Includes` | lib/domain8-integration.ts:74-75 | `includes` searches a string for the word and an array for the element; `null` and `undefined` give false; any other value throws |
| `Domain8.FirstElement` | lib/domain8-integration.ts:66 | `?.[0]` of an array is its first element, `undefined` when empty or nullish |
| `Domain8.BrandColorsOf` | lib/domain8-integration.ts:63-67 | brand colours that are read form an object |
| `Domain8.CheckDomain8Status` | lib/domain8-integration.ts:31-90 | an unknown domain is absent with tier 0 enabled; a known one reports whether it has a website, and has a brand exactly when brand colours were read |
| `Domain8.AbsentDomainAllowsTier0` | lib/domain8-integration.ts:35-40 | a domain domain8 does not know leaves tier 0 enabled |
| `Domain8.RejectsIff` | lib/domain8-integration.ts:74-75 | the check rejects if and only if the phase is a value other than nullish, a string or an array |
| `Domain8.HigherTierLive` | lib/domain8-integration.ts:74-85 | the check throws exactly when the phase is neither nullish, a string nor an array; a string phase is live when it contains `live` or `production`, an array phase when it holds either, and a nullish one only when the status is `deployed` |
| `Domain8.Tier0Rule` | lib/domain8-integration.ts:74-85 | for a textual or missing phase, tier 0 is enabled if and only if the phase mentions neither `live` nor `production`, the status is not `deployed` and `tier0.enabled` is not `false` |
| `Domain8.PhaseArrayLive` | lib/domain8-integration.ts:74-75 | a phase array holding `live` or `production` disables tier 0 |
| `Domain8.PhaseDefaultsToUnknown` | lib/domain8-integration.ts:83-84 | a falsy phase or status is reported as `unknown`, a truthy one as it is |
| `Domain8.BrandFromPalette` | lib/domain8-integration.ts:63-67 | the brand colours are the primary and secondary hex codes and the first accent's, when present |
| `Domain8.NoPaletteNoBrand` | lib/domain8-integration.ts:59-86 | a brand file without a palette gives no brand colours and no brand |
| `Domain8.AllDomain8Domains` | lib/domain8-integration.ts:92-110 | a missing domain8 directory lists nothing; otherwise no more names than entries |
| `Domain8.AllDomain8DomainsExactly` | lib/domain8-integration.ts:102-105 | a name is listed if and only if it is a directory whose name contains a dot |
| `Domain8.LoadDomainConfigWithBrand` | lib/domain8-integration.ts:113-135 | an unparsable configuration rejects; the status returned is the one the check gives |
| `Domain8.BrandMerged` | lib/domain8-integration.ts:127-129 | when tier 0 is enabled, brand colours exist and a configuration was read, they become `template.brandColors` and every other member stays |
| `Domain8.NoMergeKeepsConfig` | lib/domain8-integration.ts:116-134 | without those conditions the configuration is returned as it was read, `null` when there is none |
| `Domain8.MissingTemplateRejects` | lib/domain8-integration.ts:128 | merging into a configuration without a template throws |
| `Submissions.QueryGet` | app/api/submissions/route.ts:26-28 | `searchParams.get` finds nothing if and only if no pair has the name; otherwise it gives the value of the first pair that does |
| `Submissions.OrNull` | app/api/submissions/route.ts:35-40 | the logical or with `null` keeps a truthy value and gives `null` for every falsy or missing one |
| `Submissions.Post` | app/api/submissions/route.ts:5-65 | a lead is inserted only for a JSON body holding the required fields |
| `Submissions.PostOutcomes` | app/api/submissions/route.ts:6-64 | POST answers 400 exactly for a non-null JSON body missing a truthy `type`, `domain` or `data.email`, and 500 exactly when the body is not JSON or is `null` |
| `Submissions.LeadFields` | app/api/submissions/route.ts:24-47 | an inserted lead holds the body's `type`, `domain` and `data.email`, all truthy, has status `new`, and carries the URL's UTM parameters, `null` when absent |
| `Submissions.OptionalFieldsNullWhenFalsy` | app/api/submissions/route.ts:35-40 | each optional form field is stored as given when truthy and as `null` otherwise |
| `Submissions.ClientInfo` | app/api/submissions/route.ts:17-22 | the address is the first non-empty one of `x-forwarded-for` and `x-real-ip`, else `unknown`, so never empty; user agent and referrer default to the empty string |
| `Submissions.Conditions` | app/api/submissions/route.ts:79-85 | at most two filter conditions are built |
| `Submissions.GetFilter` | app/api/submissions/route.ts:71-89 | GET filters by the domain when one is given, otherwise by the lead type when one is given, otherwise not at all: only the first condition is applied |
| `Submissions.GetDefaultLimit` | app/api/submissions/route.ts:73 | with no `limit` parameter, or an empty one, at most 100 leads are read |
| `Submissions.GetGivenLimit` | app/api/submissions/route.ts:73-91 | a `limit` written as a decimal number is the limit used |
| `CheckStatus.Domain8ReportOf` | scripts/check-status.ts:21-28 | the report says the domain is in domain8 exactly when domain8 knows it, copies its tier-0 verdict, and copies phase, status, brand and website only for a known domain |
| `CheckStatus.CheckDomainStatus` | scripts/check-status.ts:8-39 | the check fails exactly when the domain8 check fails or the configuration file is not JSON or is `null`; otherwise tier 0 is enabled exactly when a configuration exists and domain8 allows it, the path and settings are there exactly when the configuration exists, and `disabled` defaults to `false` |
| `CheckStatus.Recommend` | scripts/check-status.ts:78-85 | ready to serve exactly when a configuration exists and tier 0 is enabled, disabled by a higher tier exactly when it exists and tier 0 is not; batch deployment exactly when there is none and domain8 allows tier 0; no recommendation otherwise |
| `CheckStatus.RecommendationCases` | scripts/check-status.ts:78-85 | each of the three recommendations, and the lack of one, holds exactly in its own combination of "configuration exists" and "domain8 allows tier 0" |
| `CheckStatus.UnknownDomainIsDeployed` | scripts/check-status.ts:79-80 | a domain with no configuration that domain8 does not know is recommended for batch deployment |
| `BatchDeploy.SelectTemplate` | scripts/batch-deploy.ts:42-55 | the template is `hero` if and only if the lower-cased model type contains one of the six hero keywords, otherwise `landing` |
| `BatchDeploy.NoModelTypeIsLanding` | scripts/batch-deploy.ts:45 | a domain without a model type gets the landing template |
| `BatchDeploy.SelectTheme` | scripts/batch-deploy.ts:57-94 | the theme chosen is never `terminal` |
| `BatchDeploy.SelectThemeIsFirstRule` | scripts/batch-deploy.ts:57-94 | the theme is the one of the first rule (technology, finance, ecommerce, professional, creative, comparison) whose words occur in the business idea or model type, and `basic` when none does |
| `BatchDeploy.Title` | scripts/batch-deploy.ts:125-126 | the title has no `-` left, and is as long as the name without its first `.com.au` |
| `BatchDeploy.HeroBoxNames` | scripts/batch-deploy.ts:129-177 | the hero boxes follow `main` in the order they are assigned |
| `BatchDeploy.AdsFacts` | scripts/batch-deploy.ts:140-143 | ads are enabled, and a network is named, exactly when the network is not `none` |
| `BatchDeploy.GenerateConfig` | scripts/batch-deploy.ts:113-180 | the configuration is `Generated` for the domain and network, and carries the chosen template and theme, the title, exactly the box names of its template, `forSale` true at `$2,500`, ads enabled and a network exactly when the network is not `none`, and no brand colours |
| `BatchDeploy.GeneratedFacts` | scripts/batch-deploy.ts:113-180 | every generated configuration has the template `selectTemplate` picks, the theme `selectTheme` picks, the title, exactly the box names of its template, the sale at `$2,500`, ads exactly when the network is not `none`, and no brand colours |
| `BatchDeploy.ConfigTemplate` | scripts/batch-deploy.ts:120-123 | the `template` section holds the type and theme given and no brand colours |
| `BatchDeploy.ConfigContent` | scripts/batch-deploy.ts:124-136 | the `content` section holds the title and the content boxes given |
| `BatchDeploy.ConfigMonetization` | scripts/batch-deploy.ts:137-144 | the `monetization` section is for sale at `$2,500`, with ads as the network decides |
| `BatchDeploy.DeployDomain` | scripts/batch-deploy.ts:182-232 | a domain is skipped when domain8 knows it and disables tier 0, or when its configuration already exists; it is deployed exactly when domain8 allows tier 0, no configuration exists and writing succeeds, and the configuration written is then the generated one with domain8's brand colours merged in; it errors exactly when the domain8 check fails or the write fails |
| `BatchDeploy.DeployedConfigFrame` | scripts/batch-deploy.ts:209-214 | merging the brand puts domain8's brand colours (none when it has none) at `template.brandColors` and changes nothing else: the template type and theme and every other section are as generated |
| `BatchDeploy.DeployedConfigFacts` | scripts/batch-deploy.ts:209-224 | the deployed configuration keeps the template, theme, title, box names, sale at `$2,500` and ads that the generated one has, with domain8's brand colours |
| `BatchDeploy.DeployOne` | scripts/batch-deploy.ts:182-232 | one domain of the list is deployed, skipped or errored exactly as its domain8 status, existing configuration and write decide, and a deployed one carries the merged configuration |
| `BatchDeploy.DeployAll` | scripts/batch-deploy.ts:247-267 | one result per domain, in order, each deployed, skipped or errored exactly as that domain's inputs decide and, when deployed, with its merged configuration; the three counters count deployed, skipped and errored results and add up to the number of domains |
| `SyncDomains.SyncDomain` | scripts/sync-domains.ts:15-85 | the outcome is `SyncOf`; the sync fails when the domain8 check fails; a higher tier disables an existing configuration and records the phase; otherwise a configuration is rewritten exactly when it was disabled or its brand colours differ, its `disabled` members are removed, the brand colours become domain8's, every other member is kept and the template is kept unless its brand colours are replaced; the action is never `enabled` |
| `SyncDomains.RewriteFrame` | scripts/sync-domains.ts:44-71 | a re-enabled or updated configuration differs only in its `disabled` members and its template's `brandColors`: every other member keeps its value, and the template is kept unless it is an object whose brand colours differ from domain8's |
| `SyncDomains.SyncOne` | scripts/sync-domains.ts:112-115 | one domain is synced on the files it meets, and its action is never `enabled` |
| `SyncDomains.ConfigNames` | scripts/sync-domains.ts:95-99 | the names are exactly those of the `.json` files of the directory, each without its first `.json` |
| `SyncDomains.AllDomainsUnion` | scripts/sync-domains.ts:102 | the names synced are those of the list and the directory, each once, in order of first occurrence |
| `SyncDomains.SyncAll` | scripts/sync-domains.ts:106-135 | the run fails if and only if syncing some name fails, and then with the error of the first such name; otherwise there is one result per name, in order, each the one its files decide; the counters count each action, `enabled` stays 0, and they add up to the number of names |
| `Templates.ResolveFlag` | components/templates/HeroTemplate.tsx:76 | `control ?? legacy` as a condition: an explicit control value wins, even `false`; otherwise the legacy flag decides |
| `Templates.StatusBadge` | components/templates/HeroTemplate.tsx:72 | the badge reads `COMING SOON` for `coming_soon`, and the status upper-cased otherwise |
| `Templates.FooterOf` | components/templates/HeroTemplate.tsx:215-217 | the footer is the `footer` unit when there is one, else the copyright line with the year and domain name |
| `Templates.HeroPage` | components/templates/HeroTemplate.tsx:39-249 | the hero page shows its regions in the template's fixed order, each exactly when its condition holds |
| `Templates.HeroSlotShown` | components/templates/HeroTemplate.tsx:89-206 | each hero slot is on the page if and only if the map has a unit for its position, and it shows that unit |
| `Templates.HeroEmailCaptureShown` | components/templates/HeroTemplate.tsx:142 | the sidebar email capture shows if and only if its flag resolves true and the component exists |
| `Templates.HeroLowerContentBorder` | components/templates/HeroTemplate.tsx:182-188 | the lower-content section has a top border exactly when there is no mid-page banner |
| `Templates.HeroFooter` | components/templates/HeroTemplate.tsx:208-219 | the hero page always has its footer |
| `Templates.HeroIgnoresOtherPositions` | components/templates/HeroTemplate.tsx:89-217 | units at positions the hero template never reads (such as `main`) do not change the page |
| `Templates.LandingPage` | components/templates/LandingTemplate.tsx:39-158 | the landing page shows its regions in the template's fixed order, each exactly when its condition holds |
| `Templates.LandingMainAlwaysShown` | components/templates/LandingTemplate.tsx:97-101 | the `main` wrapper is always there, holding the `main` unit when there is one |
| `Templates.LandingSlotShown` | components/templates/LandingTemplate.tsx:88-116 | `ad-top-banner` and `additional` show if and only if the map has a unit for them |
| `Templates.LandingEmailCaptureShown` | components/templates/LandingTemplate.tsx:105-110 | the email-capture wrapper shows if and only if its flag resolves true |
| `Templates.LandingFooter` | components/templates/LandingTemplate.tsx:121-129 | the landing page always has its footer |
| `Templates.LandingIgnoresOtherPositions` | components/templates/LandingTemplate.tsx:88-126 | only `ad-top-banner`, `main`, `additional` and `footer` are read; units at any other position do not change the page |
| `Templates.DomainModalToggle.constructor` | components/templates/HeroTemplate.tsx:19 | the modal starts closed |
| `Templates.DomainModalToggle.ClickForSale` | components/templates/HeroTemplate.tsx:78 | the for-sale button opens the modal |
| `Templates.DomainModalToggle.Close` | components/templates/HeroTemplate.tsx:225-235 | the backdrop and the Close button close the modal |
| `Templates.HeroModalShown` | components/templates/HeroTemplate.tsx:222 | the inquiry modal is on the hero page if and only if it is open and the for-sale flag resolves true |
| `Templates.LandingModalShown` | components/templates/LandingTemplate.tsx:132 | the inquiry modal is on the landing page if and only if it is open and the for-sale flag resolves true |
| `TerminalLog.DefaultSettings` | components/content-boxes/TerminalLogBox.tsx:43-52 | content that sets nothing gets the title `terminal@system`, no commands, autoplay, 5000 ms, 10 commands, no input, looping and timestamps |
| `TerminalLog.GivenSettingsKept` | components/content-boxes/TerminalLogBox.tsx:43-52 | a setting that is given wins over its default, even when it is falsy |
| `TerminalLog.KeepLast` | components/content-boxes/TerminalLogBox.tsx:73 | `slice(-max)` keeps a suffix: the last `max` entries for a positive bound, all of them for 0, and all but the first `-max` for a negative bound |
| `TerminalLog.AppendBounded` | components/content-boxes/TerminalLogBox.tsx:71-74 | with a positive bound the list stays within it, ends with the new entry, and keeps the newest earlier entries in order |
| `TerminalLog.Initial` | components/content-boxes/TerminalLogBox.tsx:32-56 | the first state shows nothing, and its timeout is pending exactly when autoplay is on and there are commands |
| `TerminalLog.InitialValid` | components/content-boxes/TerminalLogBox.tsx:32-56 | the first state meets the box's invariant |
| `TerminalLog.TimeoutKeepsValid` | components/content-boxes/TerminalLogBox.tsx:78-94 | the one-second timeout keeps the invariant |
| `TerminalLog.IntervalKeepsValid` | components/content-boxes/TerminalLogBox.tsx:83-93 | an interval tick keeps the invariant |
| `TerminalLog.KeyKeepsValid` | components/content-boxes/TerminalLogBox.tsx:110-126 | a key press keeps the invariant |
| `TerminalLog.RestartKeepsValid` | components/content-boxes/TerminalLogBox.tsx:96-100 | the effect's cleanup and re-run keep the invariant |
| `TerminalLog.NoAutoplayShowsNothing` | components/content-boxes/TerminalLogBox.tsx:56 | without autoplay or without commands no timer ever shows a command |
| `TerminalLog.KeyAddsInputOnly` | components/content-boxes/TerminalLogBox.tsx:110-126 | a key press changes the state if and only if it is Enter on non-blank input with input allowed; then it adds that input and clears the line, and it never touches the play index or the timers |
| `TerminalLog.Plays` | components/content-boxes/TerminalLogBox.tsx:61-69 | the entries played are commands `i`, `i + 1`, … taken modulo the number of commands |
| `TerminalLog.KeepLastAppend` | components/content-boxes/TerminalLogBox.tsx:73 | cutting to the last `max` entries, appending, and cutting again is cutting once after appending, for any bound that is not negative |
| `TerminalLog.TicksPlay` | components/content-boxes/TerminalLogBox.tsx:83-93 | under any bound that is not negative (the default 10 too), ticks that keep playing show the next commands in turn, cycling through the list: the entries are the last `maxCommands` of the earlier ones followed by those commands (all of them for a bound of 0), and the interval keeps running |
| `TerminalLog.LoopCycles` | components/content-boxes/TerminalLogBox.tsx:49-93 | with looping, under any bound that is not negative, the ticks cycle through the commands forever, each shown entry cut to the last `maxCommands` |
| `TerminalLog.NoLoopStops` | components/content-boxes/TerminalLogBox.tsx:86-89 | without looping, under any bound that is not negative, the ticks show the remaining commands once, in order, cut to the last `maxCommands`, and the next tick clears the interval |
| `TerminalLog.StoppedStays` | components/content-boxes/TerminalLogBox.tsx:87 | once the interval is cleared, later ticks change nothing |
| `TerminalLog.TerminalLogBox.constructor` | components/content-boxes/TerminalLogBox.tsx:32-56 | the box starts with the defaulted settings in its initial state, which is valid |
| `TerminalLog.TerminalLogBox.FireTimeout` | components/content-boxes/TerminalLogBox.tsx:78-94 | the timeout shows command 0, moves the index to 1 and starts the interval; the invariant holds after it |
| `TerminalLog.TerminalLogBox.FireInterval` | components/content-boxes/TerminalLogBox.tsx:83-93 | a tick shows the next command or, past the last one without looping, clears the interval; the invariant holds after it |
| `TerminalLog.TerminalLogBox.Change` | components/content-boxes/TerminalLogBox.tsx:39 | typing changes only the input line |
| `TerminalLog.TerminalLogBox.KeyDown` | components/content-boxes/TerminalLogBox.tsx:110-126 | a key press acts as the handler does and keeps the invariant |
| `TerminalLog.TerminalLogBox.Restart` | components/content-boxes/TerminalLogBox.tsx:96-100 | a restart clears both timers and schedules a new timeout; the invariant holds after it |
| `TerminalLog.LineTone` | components/content-boxes/TerminalLogBox.tsx:131-147 | a line is a pass if and only if it holds `✓` or `PASSED`; a fail if and only if it holds no pass marker but `✗` or `FAILED`; a warning if and only if it holds neither but `⚠` or `WARNING`; a marker is never plain |
| `TerminalLog.KindTone` | components/content-boxes/TerminalLogBox.tsx:150-168 | `success` and `audit` pass, `error` fails, `warning` warns, and every other type is plain |
| `TerminalLog.PassMarkerWins` | components/content-boxes/TerminalLogBox.tsx:132-136 | a pass marker makes the line green whatever its type, even an error |
| `TerminalLog.FailMarkerBeforeWarning` | components/content-boxes/TerminalLogBox.tsx:137-141 | a fail marker wins over a warning marker and over the type |
| `TerminalLog.WarningMarkerBeforeType` | components/content-boxes/TerminalLogBox.tsx:142-146 | a warning marker without a pass or fail marker makes the line yellow whatever its type, even a success |
| `TerminalLog.UnmarkedLineUsesType` | components/content-boxes/TerminalLogBox.tsx:149-168 | a line without markers takes the colour of its entry type |
| `TerminalLog.AuditLikeSuccess` | components/content-boxes/TerminalLogBox.tsx:151-152 | `audit` entries are coloured exactly like `success` entries |
| `TerminalLog.ThemeOnlyChangesPlain` | components/content-boxes/TerminalLogBox.tsx:129-168 | the terminal theme changes a line's colour if and only if the line has no marker and no known type |
| `BrandColors.Adjust` | lib/brand-colors.ts:53-60 | a shifted, clamped and rounded channel is at most 255 |
| `BrandColors.AdjustMonotone` | lib/brand-colors.ts:53-56 | a shift by 0 keeps a channel; a darkening shift never raises it and a lightening one never lowers it |
| `BrandColors.AdjustClamps` | lib/brand-colors.ts:55 | a shift of -100 percent or less gives 0, one of +100 percent or more gives 255 |
| `BrandColors.Hex2Digits` | lib/brand-colors.ts:59-62 | `toHex` writes a channel below 256 as its two base-16 digits, the high one first |
| `BrandColors.Hex2Lower` | lib/brand-colors.ts:59-62 | `toHex` writes exactly two lowercase hex digits |
| `BrandColors.ParseTwoDigits` | lib/brand-colors.ts:48-50 | two hex digits parse, in base 16, as their value |
| `BrandColors.RenderFormat` | lib/brand-colors.ts:64 | three channels below 256 render as `#` and six lowercase hex digits |
| `BrandColors.AdjustBrightness` | lib/brand-colors.ts:43-65 | the result is `#` and two characters per channel, seven characters exactly when all three channels parse (a channel that does not is written `NaN`) |
| `BrandColors.RenderWidth` | lib/brand-colors.ts:59-64 | a rendered colour starts with `#` and has seven characters exactly when no channel is NaN |
| `BrandColors.AdjustBrightnessRenders` | lib/brand-colors.ts:43-65 | when all three channels parse, the result renders their adjusted values |
| `BrandColors.AdjustBrightnessFormat` | lib/brand-colors.ts:43-65 | when all three channels parse, the result is `#` and six lowercase hex digits |
| `BrandColors.Hex2ReadBack` | lib/brand-colors.ts:48-62 | a channel written by `toHex` parses back as itself |
| `BrandColors.RenderReadBack` | lib/brand-colors.ts:45-64 | reading a rendered colour back gives its channels |
| `BrandColors.AdjustBrightnessReadBack` | lib/brand-colors.ts:43-65 | reading the result back gives each adjusted channel |
| `BrandColors.AdjustByZeroLowercases` | lib/brand-colors.ts:43-65 | a shift by 0 gives back `#` and the six hex digits, in lowercase |
| `BrandColors.DarkeningNeverLightens` | lib/brand-colors.ts:43-65 | after a darkening shift each channel read back is the shifted one and is at most the original |
| `BrandColors.OrString` | lib/brand-colors.ts:34 | the logical or of two strings gives the second exactly when the first is empty |
| `BrandColors.AccentOrPrimary` | lib/brand-colors.ts:34 | the accent is used when it is a non-empty string, the primary colour otherwise |
| `BrandColors.BrandColorStyles` | lib/brand-colors.ts:3-40 | CSS variables exist exactly when there are brand colours, and the terminal variables exactly for the `terminal` theme |
| `BrandColors.BrandStyles` | lib/brand-colors.ts:68-99 | inline styles exist exactly when there are brand colours, and their text colour is white |
| `BrandColors.AccentFallsBackToPrimary` | lib/brand-colors.ts:31-38 | without an accent, the variables and the inline styles use the primary colour for it, and its hover is the primary darkened by 20 percent |
| `BrandColors.InlineStylesMatchVariables` | lib/brand-colors.ts:31-97 | the inline styles use the same colours as the CSS variables |
| `BrandColors.BrandVarsIgnoreTheme` | lib/brand-colors.ts:11-39 | apart from the terminal extras, the variables do not depend on the theme |
| `BrandColors.HoverNeverLighter` | lib/brand-colors.ts:36 | the primary hover colour is the primary darkened by 20 percent, channel by channel, and never lighter |
| `BrandColors.ThemeClassesFor` | lib/brand-colors.ts:104-222 | with brand colours the result is the fixed branded classes; without them it is always a row of the theme table |
| `BrandColors.BrandedClassesIgnoreTheme` | lib/brand-colors.ts:104-120 | with brand colours every theme gets the same classes |
| `BrandColors.ThemeRow` | lib/brand-colors.ts:123-222 | without brand colours each theme gets its own row of the table |
| `BrandColors.UnknownThemeIsBasic` | lib/brand-colors.ts:222 | without brand colours an unknown theme gets the `basic` row |
| `ConfigScripts.Count` | scripts/fix-landing-content.js:16-87 | counting one more file raises the sum of the counters by exactly one |
| `ConfigScripts.TallyOf` | scripts/fix-landing-content.js:16-89 | after a run every file is counted exactly once |
| `ConfigScripts.TallyCounts` | scripts/fix-landing-content.js:16-89 | each counter is the number of files that ended its way |
| `ConfigScripts.TallyAppend` | scripts/fix-landing-content.js:20-89 | counting one more file extends the tally of the files before it |
| `ConfigScripts.WordsOfBase` | scripts/fix-landing-content.js:48 | splitting on `-` and joining the capitalised words with spaces leaves no `-` and keeps the length |
| `ConfigScripts.OneWord` | scripts/fix-landing-content.js:48 | a one-word name is only capitalised |
| `ConfigScripts.WelcomeTitle` | scripts/fix-landing-content.js:48 | the title exists exactly when the domain is present and its name is a string; it is `Welcome to ` and the display name, with no `-` after the prefix, and as long as the name without its suffixes |
| `ConfigScripts.MainBoxContent` | scripts/simplify-landing-content.js:40-48 | the title and subtitle of the `main` box read back as given |
| `FixLandingContent.GeneratedMain` | scripts/fix-landing-content.js:47-50 | generated content fails exactly when the welcome title does; otherwise its title is the welcome title and its subtitle the domain description or the fixed text |
| `FixLandingContent.LandingBoxesLayout` | scripts/fix-landing-content.js:43-75 | the new boxes are exactly `main` then `additional`: a headline holding the given content, and a features grid with the three fixed features |
| `FixLandingContent.FixLandingFile` | scripts/fix-landing-content.js:20-89 | a protected file or a non-landing configuration is skipped and nothing is left untouched; the file fails exactly when content must be generated and cannot be; otherwise the boxes are replaced by the headline's content, or by generated content, and every other member is kept |
| `SimplifyLandingContent.SimplifiedTitle` | scripts/simplify-landing-content.js:45 | a truthy existing title is kept; otherwise the welcome title, which fails exactly when it cannot be made; the result is always truthy |
| `SimplifyLandingContent.SimplifiedSubtitle` | scripts/simplify-landing-content.js:46 | a truthy existing subtitle is kept; otherwise it fails exactly when the domain is missing, and is the domain description or the fixed text; the result is always truthy |
| `SimplifyLandingContent.Simplified` | scripts/simplify-landing-content.js:39-49 | the simplification fails exactly when the title or subtitle does; otherwise the boxes become the one `main` box and every other member is kept |
| `SimplifyLandingContent.SimplifyFile` | scripts/simplify-landing-content.js:20-63 | a protected file or a non-landing configuration is skipped and nothing is left untouched; a landing configuration is written as simplified, or fails when the simplification does |
| `SimplifyLandingContent.SimplifyTwice` | scripts/simplify-landing-content.js:39-49 | a simplified configuration is still a landing one, and simplifying it again changes nothing |
| `FixTemplateIssues.HeadlineOf` | scripts/fix-template-issues.js:55-57 | the headline is the truthy content of `main-headline`, else that of `hero-headline`, else `{}` |
| `FixTemplateIssues.MainTitle` | scripts/fix-template-issues.js:64 | a truthy headline title is kept; otherwise it fails exactly when the domain is missing, and is `Welcome to ` followed by the domain name, or by the domain itself |
| `FixTemplateIssues.MainSubtitle` | scripts/fix-template-issues.js:65 | a truthy headline subtitle is kept; otherwise it fails exactly when the domain is missing, and is the truthy description or `Coming soon` |
| `FixTemplateIssues.TemplateFixed` | scripts/fix-template-issues.js:36-50 | an object template that has been fixed needs no further type or theme fix |
| `FixTemplateIssues.FixTemplateSection` | scripts/fix-template-issues.js:36-50 | fixing the template fails exactly when it is missing; a fix is needed exactly when the type is not `landing` or the theme is truthy and unknown, and afterwards the template is fixed |
| `FixTemplateIssues.FixTemplateFile` | scripts/fix-template-issues.js:23-81 | a protected file is skipped; a file fails exactly when it does not parse, is `null`, has no template or its collapse reads a missing domain; it is written exactly when a fix was needed, with a fixed template, boxes collapsed when there was no `main` box, and every other member kept |
| `FixTemplateIssues.SecondRunUntouched` | scripts/fix-template-issues.js:39-86 | a configuration written with an object template needs no fix, so a second run leaves it untouched |
| `StandardizeConfigs.DetermineCategory` | scripts/standardize-configs.js:66-98 | the category is always one of the six categories |
| `StandardizeConfigs.ThemeDecidesCategory` | scripts/standardize-configs.js:79-81 | an old theme that names a category decides it, whatever the domain |
| `StandardizeConfigs.TemplateThemesDoNotDecide` | scripts/standardize-configs.js:70-81 | the themes `basic` and `terminal` name no category, so the domain name decides as if there were no theme |
| `StandardizeConfigs.CategoryFromName` | scripts/standardize-configs.js:83-97 | without a deciding theme the category is the first group, in the order ecommerce, finance, technology, comparison, whose words occur anywhere in the lower-cased name, `professional` when none does, and `creative` never |
| `StandardizeConfigs.DomainNameOf` | scripts/standardize-configs.js:121 | the domain name is the `domain` string when it is one, otherwise the file name without its first `.json` |
| `StandardizeConfigs.AssembledSections` | scripts/standardize-configs.js:131-241 | a new configuration holds the domain and controls it was built with, the standard template and ads off |
| `StandardizeConfigs.ForceAdsOff` | scripts/standardize-configs.js:243-246 | controls with an `ads` section get `globalEnabled` false and keep everything else; controls whose ads are already off come back as they were |
| `StandardizeConfigs.DefaultAdsOff` | scripts/standardize-configs.js:181-182 | the default controls already have ads off |
| `StandardizeConfigs.NewConfig` | scripts/standardize-configs.js:131-241 | a new configuration has the eight sections in their fixed order, the standard landing template, the controls it was built with, and ads off on the `adsense` network |
| `StandardizeConfigs.NewConfigFacts` | scripts/standardize-configs.js:131-147 | a new configuration is in the new format unless the domain name is empty |
| `StandardizeConfigs.NewConfigDomain` | scripts/standardize-configs.js:133-147 | the new `domain` section is the generated one and names the domain |
| `StandardizeConfigs.StandardizeFile` | scripts/standardize-configs.js:100-260 | a listed file and a configuration already in the new format are skipped; a file fails exactly when it does not parse or is `null`; every other one is rebuilt with its truthy controls, ads forced off, or with the default controls |
| `StandardizeConfigs.DefaultControlsOff` | scripts/standardize-configs.js:175-194 | the default controls turn on only the email form and analytics: no inquiries, ads off and every ad position off |
| `StandardizeConfigs.StandardTemplateFacts` | scripts/standardize-configs.js:163-172 | the standard template is `landing`, `basic`, light, with the three fixed brand colours |
| `StandardizeConfigs.StandardTemplateFixed` | scripts/standardize-configs.js:163-232 | every rebuilt configuration uses the standard template and has ads off |
| `StandardizeConfigs.DomainSectionFacts` | scripts/standardize-configs.js:133-137 | the domain section names the domain and its category, and is not for sale |
| `EnableDomainSale.ForSale` | scripts/enable-domain-sale.js:34-36 | the step keeps an object an object and a non-object a non-object |
| `EnableDomainSale.InquiryOn` | scripts/enable-domain-sale.js:39-41 | the step keeps an object an object and a non-object a non-object |
| `EnableDomainSale.EnableSaleFile` | scripts/enable-domain-sale.js:20-55 | a protected file is skipped; every other file is written if and only if it parses to a non-null value, with both steps applied, and fails otherwise |
| `EnableDomainSale.SetForSale` | scripts/enable-domain-sale.js:34-36 | the in-place assignment gives the configuration the domain step describes |
| `EnableDomainSale.SetInquiry` | scripts/enable-domain-sale.js:39-41 | the in-place assignment gives the configuration the forms step describes |
| `EnableDomainSale.ForSaleFacts` | scripts/enable-domain-sale.js:34-36 | an object domain gets `forSale` true and keeps its other members; any other domain is kept; no other key changes |
| `EnableDomainSale.InquiryOnFacts` | scripts/enable-domain-sale.js:39-41 | object forms get `domainInquiry` true and keep their other members and the other sections of `controls`; nothing else changes and nothing is created |
| `EnableDomainSale.ForSaleFixed` | scripts/enable-domain-sale.js:34-36 | a domain already for sale, or not an object, is left alone |
| `EnableDomainSale.InquiryOnFixed` | scripts/enable-domain-sale.js:39-41 | forms with the inquiry already on, or not an object, are left alone |
| `EnableDomainSale.EnableSaleTwice` | scripts/enable-domain-sale.js:33-41 | running the two steps twice is the same as running them once |
| `RemoveDomainInquiry.WithoutInquiry` | scripts/remove-domain-inquiry.js:20-21 | the deletion keeps an object an object and a non-object a non-object |
| `RemoveDomainInquiry.RemoveInquiryFile` | scripts/remove-domain-inquiry.js:13-30 | no file is skipped; a file fails exactly when it does not parse or is `null`; it is written exactly when the flag is defined, without the flag; any other file is left as it was |
| `RemoveDomainInquiry.WithoutInquiryFacts` | scripts/remove-domain-inquiry.js:20-21 | after the deletion the flag is gone and every other member of the forms, of `controls` and of the configuration keeps its value |
| `RemoveDomainInquiry.SecondRunUntouched` | scripts/remove-domain-inquiry.js:20 | a second run finds no flag, so it writes nothing |
| `RemoveDomainInquiry.NoInquiryNoChange` | scripts/remove-domain-inquiry.js:20-21 | deleting a flag that is not there changes nothing |
| `MoveSeoToTop.Reordered` | scripts/move-seo-to-top.js:22-70 | the output starts with the truthy known sections in their fixed order, then the other keys in input order; a known section with a falsy value stays where it was |
| `MoveSeoToTop.ReorderedValues` | scripts/move-seo-to-top.js:22-70 | every key keeps its value, and no key is added or lost |
| `MoveSeoToTop.ReorderedIdempotent` | scripts/move-seo-to-top.js:22-70 | reordering twice gives what reordering once gives |
| `MoveSeoToTop.Reorder` | scripts/move-seo-to-top.js:22-70 | the two loops build exactly the reordered object |
| `MoveSeoToTop.PlaceFront` | scripts/move-seo-to-top.js:25-63 | the eight `if (config.k)` steps place exactly the truthy known sections, in order |
| `MoveSeoToTop.AppendRest` | scripts/move-seo-to-top.js:66-70 | the `Object.keys` loop appends every key not already placed, in input order |
| `MoveSeoToTop.FrontTruthy` | scripts/move-seo-to-top.js:25-63 | every section placed first holds a truthy value |
| `MoveSeoToTop.ReorderConfig` | scripts/move-seo-to-top.js:20-70 | a `null` configuration fails; any other value becomes the reordered object of its own entries |
| `MoveSeoToTop.MoveSeoFile` | scripts/move-seo-to-top.js:16-84 | a file is written, reordered, exactly when it parses to a non-null value, and fails otherwise |
| `MigrateConfigs.Migrate` | scripts/migrate-configs.js:13-54 | migration fails exactly on `null`, and leaves a configuration alone exactly when its `controls` is truthy |
| `MigrateConfigs.Migrated` | scripts/migrate-configs.js:22-54 | the new configuration is an object holding only `controls` and the defined known sections, with their old values; every other key is dropped |
| `MigrateConfigs.ControlsLayout` | scripts/migrate-configs.js:27-46 | `controls` holds the forms section, the ads section and the analytics flag |
| `MigrateConfigs.FormControls` | scripts/migrate-configs.js:28-32 | the email form follows `features.showEmailCapture` (default true), the domain inquiry follows `domain.forSale` (default false), and the business inquiry is off |
| `MigrateConfigs.AdsAndAnalytics` | scripts/migrate-configs.js:34-45 | `globalEnabled` follows `ads.enabled` (default false) and analytics follow `features.enableAnalytics` (default true) |
| `MigrateConfigs.AdPositionsFollowBoxes` | scripts/migrate-configs.js:35-43 | each ad position is on unless its content box is explicitly disabled |
| `MigrateConfigs.NoBoxesAllPositionsOn` | scripts/migrate-configs.js:35-43 | without content boxes every ad position is on |
| `MigrateConfigs.MigrateTwice` | scripts/migrate-configs.js:16-19 | a migrated configuration is left alone by a second run |
| `ScriptRuns.ProcessFile` | scripts/fix-landing-content.js:20-89 | each script's per-file step gives an outcome that script can have, skips its listed files, fails on a file that does not parse, and gives everything its own per-file method promises (`Describes`) |
| `ScriptRuns.DescribedBasics` | scripts/fix-template-issues.js:23-81 | whatever a script's per-file method promises implies an outcome the script can have, a skip for a listed file and a failure for a file that does not parse |
| `ScriptRuns.DescribedVerdict` | scripts/fix-template-issues.js:23-81 | the counter a file moves is the one `Classify` reads off the file alone, branch by branch of the script |
| `ScriptRuns.RunScript` | scripts/fix-template-issues.js:23-86 | every file gets exactly one outcome, in order, so one failure does not stop the rest; each outcome is the one the script's per-file method promises; the counters are those of the outcomes, equal `Expected` computed from the files alone, and add up to the number of files; scripts that never leave a file untouched, or never skip one, keep that counter at 0 |
| `ScriptRuns.RunStep` | scripts/fix-template-issues.js:23-81 | one turn of the loop processes the next file and keeps the state of the run |
| `ScriptRuns.CountOne` | scripts/fix-template-issues.js:75-80 | counting the next file's outcome keeps the counters equal to those expected of the files so far |
| `ScriptRuns.AllDescribedAt` | scripts/fix-template-issues.js:23-81 | a run described file by file gives each file its described outcome |
| `ScriptRuns.Bump` | scripts/fix-template-issues.js:28-79 | counting a file moves exactly its own counter by one |
| `ScriptRuns.ExpectedCount` | scripts/fix-template-issues.js:23-86 | each expected counter is the number of files the script sends its way |
| `ScriptRuns.RemoveInquiryCounts` | scripts/remove-domain-inquiry.js:11-32 | the inquiry removal updates exactly the readable files with the flag defined, leaves the other readable ones alone, skips none and fails on the rest |
| `ScriptRuns.FixTemplateCounts` | scripts/fix-template-issues.js:16-86 | the template fix skips the protected files, fixes the readable ones that need it, reports those that need no fix as already correct, and fails on the rest |
| `ScriptRuns.EnableSaleCounts` | scripts/enable-domain-sale.js:16-59 | enabling the sale skips the protected files, updates every other readable one, leaves none untouched and fails on the rest |
| `ScriptRuns.MoveSeoCounts` | scripts/move-seo-to-top.js:13-87 | the reordering updates every readable file, skips none, leaves none untouched and fails on the rest |
| `ScriptRuns.StandardizeCounts` | scripts/standardize-configs.js:16-264 | the standardisation skips the protected files and those already in the new format, updates every other readable one and fails on the rest |
| `Seqs.DedupElements` | scripts/sync-domains.ts:102 | removing duplicates keeps exactly the elements of the input, each once |
| `Seqs.DedupFirstOccurrenceOrder` | scripts/sync-domains.ts:102 | removing duplicates orders the elements by their first occurrence |
| `JsNumbers.ParseHexOfToHex` | lib/brand-colors.ts:48-60 | a number written by `toString(16)` parses back, in base 16, as itself |
| `JsNumbers.ParseDecimalOfToString` | app/api/submissions/route.ts:73 | a number written in decimal parses back as itself |

## Left out

- **File system, parsing and output.**
  - Reading and writing files, existence checks and directory listings are inputs to the model.
  - `JSON.parse` is an input: a parsed value, or None when parsing threw.
  - `JSON.stringify`, console output and the JSON reports are not modelled.
  - Reading the CSV domain list (`readDomainList`) is not modelled: the domains are given.
- **Database and network.**
  - The database calls of the submissions route are left out: POST ends at the lead record, and
    GET at its filter and limit.
  - `fetch`, the Vercel CLI script and the analytics globals are not part of this model.
- **Floating point.**
  - `determineAdNetwork` parses currency and percent strings as floats, so the ad network is an
    input to `BatchDeploy.GenerateConfig` and `BatchDeploy.DeployDomain`.
  - `adjustBrightness` is exact for whole percentages (the program passes -20 and -30). Numbers
    in configurations are integers.
- **Dates.** The footer year and the log timestamps are parameters. The log entry ids are left
  out.
- **React and styling.**
  - Hooks, timers and events become the methods of `TerminalLog.TerminalLogBox` and
    `Templates.DomainModalToggle`. The timers' scheduling is the `pending`/`ticking` state.
  - Class-name strings are not modelled, except the output colours of the terminal log and the
    theme classes of `getThemeClasses`.
  - Rendered units are an abstract type `U`.
- **Components not modelled.** The canvas animations (matrix rain, terminal theme), the map
  components, the presentation-only boxes and forms, the admin page and `next.config.js` are not
  part of this model.
- **Middleware matcher.** The regex `matcher` of the middleware is not modelled: its Next.js
  matching rules are not in the source.
- **Content templates.**
  - `generateContent` of the standardisation script is modelled as the value it builds.
  - The generated headline, text, SEO and e-mail texts carry no stated property beyond their
    place in the new configuration.
- **JavaScript objects.**
  - Integer-like keys, which JavaScript orders first, are treated as ordinary string keys.
  - Properties inherited from `Object.prototype` (such as `constructor`) are not modelled:
    reading a missing key is always `undefined`. This matters to `move-seo-to-top`'s
    `!orderedConfig[key]` test.
  - Parsed objects are assumed to have distinct keys (`ScriptRuns.WellParsed`), as `JSON.parse`
    guarantees.
  - A named property set on an array, or on a primitive in the sloppy-mode scripts, is not kept:
    `JSON.stringify` would not write it.
- **Case mapping.** `toUpperCase` and `toLowerCase` cover ASCII letters only.
- **In-place updates.** Mutating a parsed configuration is modelled on values: each method
  returns the new configuration. Aliasing between the parsed object and its sections does not
  arise in these scripts.
- **Migration loop.** `migrate-configs.js` has no `try`: the first unreadable or `null`
  configuration ends the run. Only one configuration is modelled (`MigrateConfigs.Migrate`), and
  the script is not one of `ScriptRuns`'s scripts.
- **Counters the scripts do not keep.** `ScriptRuns.RunScript` tallies every outcome.
  - `remove-domain-inquiry.js` counts only updates, and only logs its errors.
  - `move-seo-to-top.js` counts updates and errors.
  - `fix-landing-content.js` regenerates its content on a second run, so it has no idempotence
    lemma. `simplify-landing-content.js` does (`SimplifyLandingContent.SimplifyTwice`).
- **Terminal log bounds.** `TerminalLog.TicksPlay`, `TerminalLog.LoopCycles` and
  `TerminalLog.NoLoopStops` cover bounds that are not negative. A negative `maxCommands` makes
  each tick drop entries from the front, and those runs have no closed form in the model; the
  invariant lemmas and the class methods still cover them.
- **Missing `features`.** `Templates.ResolveFlag` reads a missing `features` section as false.
  The templates read `config.features.showEmailCapture`, which throws when `features` is absent
  and the control is nullish; `features` is a required member of `SiteConfig` in `lib/types.ts`.
- **Domain8 directory listing.** `Domain8.AllDomain8Domains` takes whether each entry is a
  directory as given. In `lib/domain8-integration.ts:106-109` one failing `fs.statSync`, such as
  a broken symbolic link, is caught and the whole list becomes empty; the model never lists
  nothing because of one entry.
- **Error messages and paths.** `BatchDeploy.DeployDomain` reports an error by its name, not by
  its `message`. `CheckStatus` joins the configuration path by concatenation, without the
  normalisation of `path.join`.
- **The submissions limit.** `GetGivenLimit` covers decimal limits. A non-numeric `limit` gives
  `NaN`, and its effect on the database query is not modelled.
