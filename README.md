# skeleton-webpack core, modelled in Dafny

skeleton-webpack is a starter kit for static sites. Pages are art-template
HTML, scripts are TypeScript and the stylesheet is SCSS, and webpack
compiles them all. This project models and proves the parts of it that
carry logic of their own:

- **Option handling and paths** (`webpack.helper.js`, class `WebpackHelper`),
  in `webpack_helper.dfy`:
  - The constructor's defaults and validation, over a small model of
    JavaScript values (`JsValue`, `??`, `typeof`, truthiness).
  - `createEntry` with and without a file argument. The loop that fills the
    entry object is a `method` proved against the left-to-right assignment
    `Assign`.
  - The output paths `getEntryPath`, `getHtmlPath` and `getCssPath`.
  - Node's POSIX `path.normalize`, `join`, `resolve` and `relative`, modelled
    in `paths.dfy` as a fold over the '/'-separated segments. The central
    fact is that `relative(dir, join(dir, rel)) == rel` for any directory
    and any plain relative path. From it follows that every output path
    puts a source file at the same relative place below the output
    directory.
- **Build coalescing in the development server** (`webpack.helper.js`,
  classes `Completer`, `Builder`, `WebpackServer`), in `builder.dfy` and
  `dev_server.dfy`:
  - `Completer` is a promise that settles at most once.
  - `Builder` is idle or has one run in flight. Requests that arrive while
    a run is in flight share its promise. A ghost counter `runs` counts the
    calls of `compiler.run`.
  - The compiler's completion callback is the method `Builder.RunFinished`.
  - The middleware decides which GET requests compile a page, a script or
    the stylesheet. It keeps one `Builder` per unit in the map `keys` and
    writes a 200 or a 500 response.
- **Theme preference** (`template/components/theme.ts`), in `theme.dfy`:
  - The `Theme` class and the states of its `setTheme`.
  - The `data-theme` attribute of `<html>` and the `localStorage` item
    `theme`, which mirror the chosen theme.
  - The derived `isDark`, `is` and `color`.
  - The singleton `Theme.instance()`.
- **The `url(s)` template helper** (`server.js`, `webpack.config.js`), in
  `template_url.dfy`. It makes a link below the prefix `/` and, unless the
  link is a page, appends a `ts=<milliseconds>` cache-busting parameter.
  The development server reads the clock at every call. The production
  configuration reads it once, at load.

`wrappers.dfy` holds `Option` and `Result`. `text.dfy` holds the string
helpers: suffix tests, the `/\.ts$/` and `/\.js$/` replacements, and the
decimal rendering of a number.

Everything outside the program is a parameter:
- `__dirname` and `process.cwd()` are `Env`.
- The result of `glob.sync` is a sequence of files.
- `fs.existsSync` is a set of existing paths.
- The clock is a number.
- Whether `webpack(cfg)` or `compiler.run` throws is an optional error
  message.
- How a compiler run ends is a `RunOutcome`.

A finished build is not reused. `c` is cleared on success as on failure
(`webpack.helper.js:336-338`), so the next request after a run has settled
starts a new run (`Build.NextRequestRebuilds`).

## Model

| member | source | states |
|---|---|---|
| WebpackHelper.NewOptions | webpack.helper.js:38-67 | null or undefined options give `{dev: false, input: './src', output: './dist', data: {}}`. Otherwise the options are accepted exactly when they are an object whose `input ?? './src'` and `output ?? './dist'` are strings and whose `data ?? {}` has typeof "object". The fields then take those values, and `dev` is the truthiness of `opts.dev`. The errors are "opts invalid" for a non-object, "opts.input invalid", then "opts.output invalid", then "opts.data invalid". |
| WebpackHelper.CreateEntry | webpack.helper.js:157-160 | with a file argument, exactly one entry: the input-relative path without `.ts`, pointing at `'./' + filepath` |
| WebpackHelper.EntryNameOfInputFile | webpack.helper.js:158-159 | for the file `join(input, stem + '.ts')` the single entry is `stem`, and `stem + '.ts'` is the relative path again |
| WebpackHelper.CreateAllEntries | webpack.helper.js:148-156 | the entries loop assigns every globbed file's name and source in glob order, then the `style` entry `./style.scss`, which is always present |
| WebpackHelper.AllEntries | webpack.helper.js:150-156 | the keys are exactly `style` and the names of the files found; a name holds the source of the last file found with that name, unless the name is `style` |
| WebpackHelper.AssignKeys | webpack.helper.js:152-155 | a key is present after assigning the pairs iff some pair has that key |
| WebpackHelper.AssignLastWins | webpack.helper.js:152-155 | a key holds the value of the last pair that assigns it |
| WebpackHelper.EntryPathReroots | webpack.helper.js:130-135 | the script `rel/stem.ts` below the input directory is written to `rel/stem.js` below `__dirname/output` |
| WebpackHelper.HtmlPathReroots | webpack.helper.js:169-173 | the page at `rel` below the input directory is written to `rel` below `__dirname/output` |
| WebpackHelper.CssPathInOutput | webpack.helper.js:247-250 | the stylesheet resolves to the output directory's own path plus its file name |
| Paths.RelativeOfJoin | webpack.helper.js:172 | `path.relative(dir, path.join(dir, rel))` is `rel` for every directory and working directory, when `rel` is a path of plain segments |
| Paths.ResolveJoin | webpack.helper.js:403 | `path.join(dir, rel)` resolves to `rel`'s segments below where `dir` resolves |
| Paths.NormalizeResolves | webpack.helper.js:249 | normalising a path, as `path.join` does, does not change where it resolves |
| Text.StripSuffix | webpack.helper.js:153 | removing a trailing `.ts` gives a string that the suffix completes; without the suffix the string is unchanged |
| Text.ReplaceSuffix | webpack.helper.js:133 | replacing a trailing suffix gives a string that ends in the replacement and has the original stem; without the suffix the string is unchanged |
| Build.SettleAtMostOnce | webpack.helper.js:285-300 | a promise takes its first settlement and ignores every later one |
| Build.Completer.Resolve | webpack.helper.js:285-292 | resolving fulfils a pending promise and leaves a settled one as it is |
| Build.Completer.Reject | webpack.helper.js:293-300 | rejecting rejects a pending promise and leaves a settled one as it is |
| Build.Settlement | webpack.helper.js:320-347 | only a run that built and read its output fulfils the promise, with the output's text; a run error rejects it with that error, a run with compilation errors with the statistics text verbatim, and a failed read of the output with the read's error |
| Build.Builder.constructor | webpack.helper.js:302-308 | a new builder keeps its output file name and has no run in flight |
| Build.Builder.Build | webpack.helper.js:313-318 | with a run in flight, returns that run's promise and starts nothing. Otherwise it starts one run with a fresh pending promise, which is in flight unless `compiler.run` throws. In that case the promise is rejected with the error and the builder is idle again. |
| Build.Builder.RunFinished | webpack.helper.js:320-347 | the callback clears the in-flight promise only if it is still the one this run started, then settles that promise by `Settlement` |
| Build.CoalescedRequests | webpack.helper.js:313-355 | any number of requests arriving before the run ends cause one run and all see the same settlement |
| Build.NextRequestRebuilds | webpack.helper.js:334-340 | after a run settles, success included, the next request gets a new pending promise and a second run starts |
| DevServer.Template | webpack.helper.js:401 | a path ending in `/` gets `index.html` appended (and then names a page); other paths are unchanged |
| DevServer.Classify | webpack.helper.js:396-473 | only GET requests compile anything. A page is a `.html` template that exists under the input directory. A script is a `.js` path outside `/assets/` whose `.ts` source exists. The stylesheet is exactly `/style.scss`. Each unit has its key. |
| DevServer.StyleIgnoresFileSystem | webpack.helper.js:449-451 | a GET of `/style.scss` compiles the stylesheet whatever files exist |
| DevServer.DirectoryServesIndex | webpack.helper.js:401-404 | a GET of a directory is the page `index.html` in it if that exists, and nothing otherwise |
| DevServer.Respond | webpack.helper.js:420-472 | a settled build answers 200 with its text and the unit's content type (HTML, JavaScript or CSS, each UTF-8) exactly when it was fulfilled; a rejected one answers with the failure response |
| DevServer.FailureResponse | webpack.helper.js:474-490 | a caught failure answers status 500 with the error page showing the failure's text |
| DevServer.WebpackServer.constructor | webpack.helper.js:391 | the server starts with no builders |
| DevServer.WebpackServer.Handle | webpack.helper.js:396-473 | an unclassified request changes nothing. A known unit reuses its builder. A new unit gets one builder, for the unit's output file, stored under its key, unless constructing it throws, which answers 500 and stores nothing. The request then waits on the builder's `build()`: with a run in flight it gets that run's pending promise and the builder is unchanged; otherwise one run starts and the builder holds its pending promise, or, when `compiler.run` throws, the builder is idle and the promise is rejected with the error. Other builders are unchanged, and distinct keys keep distinct builders. |
| DevServer.PageRequests | webpack.helper.js:405-423 | any number of requests for one existing page before its build ends run the compiler once and all get the same 200 HTML response |
| DevServer.FailedRunIsRetried | webpack.helper.js:348-353 | a request whose `compiler.run` throws answers 500 with that error, and the next request for the unit starts a second run |
| ThemeModel.ThemeRegistry.constructor | template/components/theme.ts:9 | no theme exists before the first `instance()` |
| ThemeModel.ThemeRegistry.Instance | template/components/theme.ts:10-17 | the first call creates the theme and stores it, with the stored choice applied to the element and storage as the constructor does; every later call returns the stored theme and touches nothing |
| ThemeModel.Theme.constructor | template/components/theme.ts:18-41 | the new theme has no choice and the system's dark flag, then applies the stored item `theme` with `setTheme`; the choice is none, "Dark" or "Light" |
| ThemeModel.StartupApplies | template/components/theme.ts:39 | a stored "Dark" or "Light" becomes the choice and is mirrored into the element; any other stored value, or none, leaves no choice and changes nothing |
| ThemeModel.Theme.SetTheme | template/components/theme.ts:45-70 | the theme, the element's attributes and the storage become `SetThemeSpec` of what they were; the system flag is unchanged; afterwards `getTheme()` is what the name selects and `isDark` follows it, or the system flag when nothing is selected; the choice stays none, "Dark" or "Light" |
| ThemeModel.SetThemeSelects | template/components/theme.ts:45-70 | after `setTheme(name)` the theme is "Dark" or "Light" when `name` is, and null for any other name |
| ThemeModel.SetThemeNoChange | template/components/theme.ts:48-68 | when the theme already is what the name selects, nothing changes |
| ThemeModel.SetThemeIdempotent | template/components/theme.ts:45-70 | two calls of `setTheme` with one name leave the state of one call |
| ThemeModel.SetThemeKeepsMirror | template/components/theme.ts:48-68 | if `data-theme` and the stored `theme` agreed with the theme before (`dark`/"Dark", `light`/"Light", both absent for null), they agree after |
| ThemeModel.SetThemeFrame | template/components/theme.ts:48-68 | no attribute other than `data-theme` and no storage item other than `theme` changes |
| ThemeModel.Theme.SystemDarkChanged | template/components/theme.ts:30-36 | a change of the system's colour scheme sets the dark flag to whether it now matches dark |
| ThemeModel.ReadsAfterSetTheme | template/components/theme.ts:74-101 | on a page where the user picks `name`, `getTheme()` gives what `name` selects, `is(name)` holds exactly when `name` is "Dark", "Light" or null, `isDark` is true for "Dark", false for "Light" and the system's scheme otherwise, and `color` is `is-dark` exactly when `isDark` |
| ThemeModel.SetThemeReads | template/components/theme.ts:80-101 | after `setTheme("Dark")` the page is dark with colour `is-dark`, after `setTheme("Light")` light with `is-light`, and after any other name the choice is cleared and the system's scheme decides both |
| TemplateUrl.StampedUrlForm | server.js:15-25 | a non-page link starts with `join(prefix, s)`, then `?` exactly when that has no `?` and `&` otherwise, then `ts=`, then nothing but the stamp's digits, which read back as the stamp |
| TemplateUrl.SingleQuery | server.js:20-25 | when the joined path has no `?`, the link's only `?` is the one that opens the stamp's query |
| TemplateUrl.PageLinkUnstamped | server.js:16-19 | an argument ending in `.html` or `/` gives exactly `join(prefix, s)`, with no query added |
| TemplateUrl.StampedUrlEqual | server.js:16-25 | two links for one argument agree iff it ends in `.html` or `/` (then each is `join(prefix, s)` unstamped) or their stamps agree |
| TemplateUrl.ServerUrlsDiffer | server.js:25 | in the development server a non-page link rendered at another millisecond is another link, carrying the time of its call |
| TemplateUrl.ConfigUrlsShareStamp | webpack.config.js:5-24 | in a production build every stamped link carries the one time taken when the configuration loaded |
| Text.ParseDecimalRoundTrip | webpack.config.js:24 | the decimal text of a time reads back as that time |

## Left out

- webpack compilation, the in-memory file system, and the construction of
  plugins and configurations (`createBuilder`, `createHtml`, `createCss`,
  `createAssets`) are foreign libraries. A compiler run is only its
  outcome (`RunOutcome`), and building a `Builder` is only whether
  `webpack(cfg)` throws.
- art-template rendering, including `art.defaults.include` and the HTML
  escaping of the error page. The error page is `ErrorPage(message)`.
- Koa, `koa-static`, `app.listen` and the printed address. Because the
  middleware calls `await next()` first, a static file that was already
  served is overwritten by a compiled unit. That ordering is not modelled.
- The option checks of the `WebpackServer` constructor (`opts.webpack`,
  `port`, `hostname`) are not part of this model: they validate the helper
  instance and the listening address, and the model takes a valid
  `Options` and `Env` directly.
- `glob.sync`, `fs.existsSync` and `readFileSync` are file I/O. They are
  parameters: a sequence of files, a set of existing paths, and the
  `ReadFailed`/`Built` outcomes.
- The `RemoveFilesAfterBuild` hook in webpack.config.js, which deletes a
  file.
- The JavaScript event loop. Requests and compiler callbacks are
  sequential method calls in an order the caller chooses; no two run at
  once.
- Console logging of statistics and errors.
- `matchMedia` and its listener. A change of the system colour scheme is
  the method `Theme.SystemDarkChanged`. Alpine's reactivity is not
  modelled.
- template/components/nav-component.ts is not part of this model; it only
  delegates to `Theme`.
- JavaScript numbers are integers in `JsValue` (no NaN, no fractions, no
  -0), so the truthiness of `dev` is exact only for integer values.
- WebpackHelper.NewOptions: arrays and other objects are all `Obj`, and
  functions are never objects. Exotic values such as symbols and bigints
  are not modelled.
- Paths.Relative: the working directory consists of plain segments. Paths
  are byte strings split at `/`; Windows paths are not modelled.
- DevServer.WebpackServer.Handle: the promise a request awaits is returned, and the
  response is `Respond` of its state once settled. The `await` itself is
  not modelled.
