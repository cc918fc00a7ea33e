# White-label configuration layer of the Mattermost web app, in Dafny

This project models the part of the web app that applies a front-end brand profile to the
client configuration delivered by the server, and the build-time helpers of the bundler
configuration that read the same brand profile.

- `options.dfy` — `Options.Option`, the optional value used for JavaScript's `undefined`.
- `brand_config.dfy` — `BrandConfig`: the brand profile (`BRAND_CONFIG`) as an immutable
  datatype and its shipped value `Shipped`. An empty string is the "no override" sentinel; the
  two theme switches are `Option<bool>` so that an undefined switch can be expressed.
- `config_with_brand.dfy` — `ConfigWithBrand`: the merge `getConfigWithBrand` as a method that
  copies the server configuration and runs the source's seven conditional overwrites in order.
  Its result is proved equal to `MergedConfig`, a key-by-key definition built from the
  override table `Override` (which field is written, under which condition, with which value).
  The lemmas about `MergedConfig` state the per-field rules, the pass-through of every other
  key, idempotence, and the effect of the shipped profile. `getConfig` (the name every consumer
  imports, through the bundler alias) is the merge with the shipped profile.
- `use_brand_config.dfy` — `UseBrandConfig`: the defaulting view built by `useBrandConfig`,
  as a function of the merged configuration.
- `brand_scan.dfy` — `BrandScan`: the two regular expressions the bundler applies to the
  brand file's text, as deterministic scanners (`MatchAt`, `SearchFrom`, `Search`), each proved
  equivalent to a declarative statement of the expression's leftmost-match semantics
  (`ValueMatch`, `SectionMatch`).
- `webpack_config.dfy` — `WebpackConfig`: `getBrandConfigForBuild` (a method updating a local
  record step by step), the `publicPath` normalisation, `generateCSP` and `makeSharedModules`.

The client configuration is a `map<string, string>`: every `ClientConfig` field is a string
(booleans are the strings `"true"`/`"false"`) and an absent key is `undefined`. The server's
configuration, the brand profile, the build mode, the environment variable, the outcome of
reading the brand file, the URL parser and the package manifest's dependencies are all inputs.

Two consequences of the code are worth stating:

- The merged configuration can hold override keys that the server did not send: merging
  `{SiteName: "Acme"}` adds `DefaultTheme` (`MergeExample`). `MergedKeys` states that no server
  key is lost and that only override keys are added.
- The brand profile's doc comments say that a `false` theme switch means "use the server's
  value". The merge writes the string `"false"` whenever the switch is defined, and
  `EnableThemeSelectionOverride` and `AllowCustomThemesOverride` state that.

## Model

| member | source | states |
|---|---|---|
| BrandConfig.ShippedThemeIsValid | webapp/channels/src/utils/brand_config.ts:62-67 | the shipped default theme is non-empty and one of denim, sapphire, quartz, indigo, onyx |
| ConfigWithBrand.FieldOf | webapp/channels/src/utils/config_with_brand.ts:50-84 | a key names an override field exactly when it is one of the eight keys the merge writes, and that field's key is the key |
| ConfigWithBrand.GetConfigWithBrand | webapp/channels/src/utils/config_with_brand.ts:37-87 | copying the server configuration and applying the seven conditional overwrites in order yields exactly the key-wise merge `MergedConfig` |
| ConfigWithBrand.MergeSteps | webapp/channels/src/utils/config_with_brand.ts:50-84 | the overwrites of the eight override fields, applied in the source's order, compose to the key-wise merge |
| ConfigWithBrand.MergedLookup | webapp/channels/src/utils/config_with_brand.ts:42-84 | reading any key of the merged configuration gives the brand's override if one fires for that key, else the server's value or absence |
| ConfigWithBrand.FieldLookup | webapp/channels/src/utils/config_with_brand.ts:42-84 | the same reading, for the key of an override field |
| ConfigWithBrand.GetConfig | webapp/channels/src/utils/config_with_brand.ts:94 | the exported `getConfig` is the merge with the shipped brand profile |
| ConfigWithBrand.ShippedIdentity | webapp/channels/src/utils/brand_config.ts:23-59 | with the shipped profile: SiteName reads "Guduu OS", SiteURL "https://im.guduu.co", CustomDescriptionText "Login", and CustomBrandText and EnableCustomBrand keep the server's values, because the shipped brand text is empty |
| ConfigWithBrand.ShippedTheme | webapp/channels/src/utils/brand_config.ts:62-81 | with the shipped profile: DefaultTheme reads "quartz" and both theme switches read "true" |
| ConfigWithBrand.GetOriginalConfigWithoutBrand | webapp/channels/src/utils/config_with_brand.ts:130-132 | returns the server configuration unchanged, which agrees with the merge at every key outside the override table, for every brand |
| ConfigWithBrand.OverridesOnlyOverrideKeys | webapp/channels/src/utils/config_with_brand.ts:50-84 | an override can fire only for one of the eight override keys |
| ConfigWithBrand.MergedKeepsOtherKeys | webapp/channels/src/utils/config_with_brand.ts:42-44 | every key outside the override table keeps its server value or its absence, for every brand |
| ConfigWithBrand.MergedKeys | webapp/channels/src/utils/config_with_brand.ts:42-84 | every server key is present in the result, and every added key is an override key |
| ConfigWithBrand.SiteNameOverride | webapp/channels/src/utils/config_with_brand.ts:51-53 | SiteName is the brand's site name if the custom-brand switch is on and that name is non-empty, otherwise the server's value |
| ConfigWithBrand.SiteURLOverride | webapp/channels/src/utils/config_with_brand.ts:56-58 | SiteURL is the brand's site URL under the same condition, otherwise the server's value |
| ConfigWithBrand.CustomBrandTextOverride | webapp/channels/src/utils/config_with_brand.ts:61-62 | CustomBrandText is the brand's text if the switch is on and the text is non-empty, otherwise the server's value |
| ConfigWithBrand.EnableCustomBrandOverride | webapp/channels/src/utils/config_with_brand.ts:61-64 | EnableCustomBrand reads "true" under exactly the condition that replaces CustomBrandText, otherwise the server's value |
| ConfigWithBrand.CustomDescriptionTextOverride | webapp/channels/src/utils/config_with_brand.ts:67-69 | CustomDescriptionText is the brand's text if the switch is on and the text is non-empty, otherwise the server's value |
| ConfigWithBrand.DefaultThemeOverride | webapp/channels/src/utils/config_with_brand.ts:72-74 | DefaultTheme is the brand's theme whenever it is non-empty, whatever the custom-brand switch, otherwise the server's value |
| ConfigWithBrand.EnableThemeSelectionOverride | webapp/channels/src/utils/config_with_brand.ts:77-79 | a defined theme-selection switch is written as "true" or "false" (so an explicit false gives "false"); an undefined one keeps the server's value |
| ConfigWithBrand.AllowCustomThemesOverride | webapp/channels/src/utils/config_with_brand.ts:82-84 | the same rule for the custom-themes switch |
| ConfigWithBrand.SwitchOffKeepsIdentity | webapp/channels/src/utils/config_with_brand.ts:51-69 | with the custom-brand switch off, none of SiteName, SiteURL, CustomBrandText, EnableCustomBrand, CustomDescriptionText differs from the server's |
| ConfigWithBrand.ThemeFieldsIgnoreSwitch | webapp/channels/src/utils/config_with_brand.ts:72-84 | the three theme fields of the result do not depend on the custom-brand switch |
| ConfigWithBrand.ThemeOverrideIgnoresSwitch | webapp/channels/src/utils/config_with_brand.ts:72-84 | the override table's entries for the theme fields do not read the custom-brand switch |
| ConfigWithBrand.MergeIdempotent | webapp/channels/src/utils/config_with_brand.ts:42-84 | merging an already merged configuration with the same brand changes nothing |
| ConfigWithBrand.NameAndThemeOnly | webapp/channels/src/utils/config_with_brand.ts:50-84 | a profile whose other override values are empty or undefined leaves every override field except SiteName and DefaultTheme as the server had it |
| ConfigWithBrand.MergeExample | webapp/channels/src/utils/config_with_brand.ts:51-74 | server {SiteName: "Acme"} with the switch on and only a site name and theme set gives exactly {SiteName: "Guduu OS", DefaultTheme: "quartz"}; with the switch off SiteName stays "Acme" |
| UseBrandConfig.View | webapp/channels/src/utils/use_brand_config.ts:21-48 | site name and default theme are never empty; each text field is the configuration's value when present (and, for the name and theme, non-empty), else "Mattermost", "" or "denim"; each switch holds iff the configuration's string is exactly "true"; the configuration is passed through unchanged |
| UseBrandConfig.UseBrandConfig | webapp/channels/src/utils/use_brand_config.ts:18-49 | the hook is `View` of the merged configuration: it carries that configuration unchanged and never shows an empty site name or theme; what it shows for a given brand is stated by `BrandSiteNameShown`, `BrandThemeShown`, `ThemeSwitchesShown` and `ShippedView` |
| UseBrandConfig.BrandSiteNameShown | webapp/channels/src/utils/use_brand_config.ts:19-23 | with the switch on and a non-empty brand site name V, the hook's siteName is V |
| UseBrandConfig.ThemeSwitchesShown | webapp/channels/src/utils/use_brand_config.ts:40-44 | a defined brand theme switch reaches the hook's boolean unchanged through its string encoding |
| UseBrandConfig.BrandThemeShown | webapp/channels/src/utils/use_brand_config.ts:37-38 | a non-empty brand default theme is the hook's defaultTheme |
| UseBrandConfig.ShippedView | webapp/channels/src/utils/use_brand_config.ts:18-49 | with the shipped profile the hook shows "Guduu OS", "https://im.guduu.co", "Login", "quartz" and both theme switches on, whatever the server sent |
| UseBrandConfig.EmptySiteNameFallsBack | webapp/channels/src/utils/use_brand_config.ts:23 | an empty SiteName shows as "Mattermost", not as an empty name |
| BrandScan.SkipSpaces | webapp/channels/webpack.config.js:34 | `\s*` stops at the first non-whitespace character and everything it skips is whitespace |
| BrandScan.NextQuote | webapp/channels/webpack.config.js:34 | `[^'"]+` stops at the first quote and everything it consumes is quote-free |
| BrandScan.NextChar | webapp/channels/webpack.config.js:49 | the lazy `[\s\S]*?\}` stops at the first closing brace |
| BrandScan.MatchAt | webapp/channels/webpack.config.js:34-51 | a match attempted at one position starts there, begins with the key, and its matched text is the text of the input at that position; a section match ends with the closing brace (the exact regular-expression semantics are `ValueMatchAt` and `SectionMatchAt`) |
| BrandScan.SearchFrom | webapp/channels/webpack.config.js:34 | the search returns the match at the leftmost position where one exists, and reports none only when no position matches |
| BrandScan.Search | webapp/channels/webpack.config.js:34-51 | the non-global `match` at lines 34, 40, 49 and 51: the reported hit is a match at its position, no position before it matches, and none is reported only when no position matches |
| BrandScan.ValueMatchAt | webapp/channels/webpack.config.js:34 | the value scanner matches at a position exactly when `KEY\s*['"]([^'"]+)['"]` does, with the same matched text and capture |
| BrandScan.SectionMatchAt | webapp/channels/webpack.config.js:49 | the section scanner matches at a position exactly when `META:\s*\{[\s\S]*?\}` does, with the same matched text |
| BrandScan.SearchValue | webapp/channels/webpack.config.js:34-37 | the value search succeeds exactly when the expression matches somewhere, returns that match's capture, and no match starts earlier |
| BrandScan.SearchSection | webapp/channels/webpack.config.js:49-50 | the section search succeeds exactly when the expression matches somewhere, returns the text up to the first closing brace, and no match starts earlier |
| BrandScan.CaptureWellFormed | webapp/channels/webpack.config.js:34-51 | a captured value is non-empty and contains no quote character |
| BrandScan.ValueRoundTrip | webapp/channels/webpack.config.js:34-37 | scanning `KEY 'v'` returns v for every non-empty, quote-free v |
| WebpackConfig.Capture | webapp/channels/webpack.config.js:34-36 | the captured group of the leftmost match of the value expression, present exactly when the expression matches, well-formed, and with no match starting earlier |
| WebpackConfig.Section | webapp/channels/webpack.config.js:49-50 | the text of the leftmost `META: { … }` match, present exactly when the expression matches, and with no match starting earlier |
| WebpackConfig.SiteNameKeyMissesShortKey | webapp/channels/webpack.config.js:34-40 | the `SITE_NAME:` expression never matches where `SITE_NAME_SHORT:` starts, so the short name is never read as the site name |
| WebpackConfig.GetBrandConfigForBuild | webapp/channels/webpack.config.js:22-61 | a failed read gives the three defaults; otherwise the site name is the captured SITE_NAME or "Mattermost1", the short name is its own capture or else the final site name, and the description is taken only from the first META section, else the default; all three are non-empty |
| WebpackConfig.WithTrailingSlash | webapp/channels/webpack.config.js:87 | the result ends with "/", extends the pathname by at most one character, and equals it exactly when it already ended with "/" |
| WebpackConfig.WithTrailingSlashIdempotent | webapp/channels/webpack.config.js:87 | normalising twice is normalising once |
| WebpackConfig.PublicPath | webapp/channels/webpack.config.js:81-89 | the public path always ends with "/"; it is "/" outside a development build or when the site URL is unset or empty; otherwise it is the URL's pathname with a trailing slash, and the build aborts exactly when the URL cannot be parsed |
| WebpackConfig.GenerateCSP | webapp/channels/webpack.config.js:362-373 | the policy starts with `script-src 'self' js.stripe.com/v3`; it contains `'unsafe-eval'` iff the build is a development build, and the `connect-src` directive iff the build is a development build |
| WebpackConfig.BasePolicyLacksDevClauses | webapp/channels/webpack.config.js:363 | the production policy contains neither `'unsafe-eval'` nor the `connect-src` directive |
| WebpackConfig.DevPolicyHasDevClauses | webapp/channels/webpack.config.js:365-370 | the development policy contains both |
| WebpackConfig.MakeSharedModules | webapp/channels/webpack.config.js:376-397 | exactly one entry per listed package; each has singleton and strictVersion equal to the flag, version equal to the manifest's version (or undefined), and requiredVersion equal to that version when the flag is set, else undefined |

## Left out

- Redux plumbing: `getOriginalConfig`, `GlobalState` and `useSelector` are host-store calls. The server configuration is an input value, and `UseBrandConfig.UseBrandConfig` takes it with the brand profile.
- The re-exported upstream selectors (`config_with_brand.ts:100-124`) forward code that is not part of this model.
- Not mutating the input: maps are values in Dafny, so the server configuration cannot change. The copy, aliasing and object identity are not modelled.
- JavaScript object key order: maps are unordered.
- The presentational components `site_name_and_description.tsx` and `mattermost_logo.tsx`: React markup and translation.
- The bundler's plugin and loader declarations, the module-federation plugin registration, the Monaco and copy plugins, the dev-server proxy and its header rewriting: these are declarative tool configuration and network plumbing.
- `getRemoteContainers`: its product list is empty, so it always returns no remotes.
- Environment and runtime inputs become parameters:
  - `process.env` and the npm target, which become the `dev` flag and the optional site URL;
  - `fs.readFileSync`, which becomes `FileRead`;
  - `new url.URL(...).pathname`, which becomes a function parameter whose `None` stands for a throwing constructor;
  - `packageJson.dependencies`, which becomes a map.
- `Date.now()` and the cache-busting timestamp are not modelled; nothing computed here reads them.
- `console.warn` on a failed read is not modelled; only the returned defaults are.
- Strings are sequences of Unicode scalar values, whereas JavaScript strings are UTF-16. The two expressions only test ASCII characters and the Basic Multilingual Plane whitespace of `\s`, so the matching is the same on any text without lone surrogates.
- ConfigWithBrand.GetConfig: its contract only identifies it with the merge over the shipped profile. The values the shipped profile produces are stated by `ShippedIdentity` and `ShippedTheme`.
- The remaining brand fields (logos, links, title suffix, short name, company domain) are part of `BrandConfig.Shipped`. No modelled operation reads them.
