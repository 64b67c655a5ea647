# Image-process demo: edge dispatcher, client composer and navigation guard in Dafny

This project models the logic that the image-processing demo owns itself.

- **The edge function (`fun.js`).** It answers CORS preflights. It serves four single-operation routes (`/api/process/format`, `resize`, `rotate` and `watermark`) that read their parameters from the query string. It serves a composite route that parses a multipart upload and forwards the file. It returns a fallback banner on any other path, and a 500 JSON reply for anything thrown inside its `try`. It turns an `ImageProcessConfig` into the ordered list of provider actions (format, then resize, then rotate, then watermark) that travels with the forwarded request.
- **The client composer (`src/composables/useImageProcess.ts`).** It holds six reactive fields: `loading`, `error`, `uploadedFile`, `processedImageUrl`, `defaultImageBlobUrl` and `isProcessed`. Its operations are upload, process, download (with the file-extension rule) and reset. It also loads a default image.
- **The router (`src/router/index.ts`).** It has a route table with a catch-all redirect. Its `beforeEach` guard sends a navigation that needs a file home and one that needs a result to the process page.

Files:

- `wrappers.dfy`: `Option` and `Result`. `Result` stands for a value or a thrown error's message.
- `numerals.dfy`: digit strings, the decimal rendering of a number, and its round trip.
- `actions.dfy` (module `ImageActions`): the config, the provider actions, the single-step builders and the composite builder. The composite list is specified as the fixed pipeline filtered by the config. The in-place builders (`BuildCompositeActions`, `BuildResizeAction`) are methods proved equal to that specification.
- `dispatcher.dfy` (module `EdgeDispatcher`): JavaScript `parseInt`, `parseFormData` and `handleRequest`.
  - The routing decision (`Dispatch`) is a value. It says whether the handler replies itself, forwards to the provider, or throws. So "never reaches the provider" is a fact about that value.
  - The provider is a function parameter. A second statement of the same fact is that the response is the same for any two providers.
- `composer.dfy` (module `ImageComposer`): the class `ImageProcess` with the six fields.
  - `URL.createObjectURL` is modelled as a counter. It hands out URLs `blob:<n>`, which are fresh because decimal renderings are injective.
  - `URL.revokeObjectURL` is modelled as a set of revoked URLs.
- `router.dfy` (module `AppRouter`): the route table, the guard, and navigation. Navigation re-runs the guard on every redirect target, as the router does for `next({ name })`.

Behaviour of the code worth knowing:

- The preflight reply carries four CORS headers, including `Access-Control-Max-Age: 86400`.
- `processImage` does not call the network in this version. After its delay it stores the bundled finished-image URL.
- `uploadImage` releases only the default image's URL. The previous upload's URL is never released.
- `reset` releases the default image's URL but leaves it in `defaultImageBlobUrl`.
- The composite resize step passes `width` and `height` through as given. With `{width: 0, height: 100}` it sends `fw: 0`. Only an absent field is left out.
- The download extension is the text between the first and the second "/" of the URL's part before its first ";", or `png` when that text is missing or empty (`DownloadExtensionRule`).
  - A root-relative asset path such as `/assets/finish.png` yields its first path segment, `assets` (`PathUrlExtension`).
  - A data URL yields its media subtype (`DataUrlExtension`).
  - An absolute URL such as `https://host/x.png` or `blob:https://host/<id>` yields `png` (`SchemeUrlExtension`).

## Model

| member | source | states |
|---|---|---|
| `ImageActions.SingleResize` | fun.js:17-20 | `p` is always the given quality. `fw`/`fh` are present exactly when width/height are truthy, so NaN and 0 are never sent. Mode is "custom". |
| `ImageActions.FormatActions` | fun.js:6-15 | `imageFormat`: a single format step with the given format. `SingleMatchesComposite` relates it to the composite builder. |
| `ImageActions.ResizeActions` | fun.js:17-33 | `imageResize`: a single resize step, as `SingleResize` states. |
| `ImageActions.RotateActions` | fun.js:35-47 | `imageRotate`: a single rotate step with the given angle. |
| `ImageActions.WatermarkActions` | fun.js:49-68 | `imageWatermark`: a single watermark step with the fixed look. |
| `ImageActions.CompositeActions` | fun.js:71-126 | `imageCompositeProcess`'s list: the pipeline filtered by the config. The rows below prove its order, its membership and its emptiness. |
| `ImageActions.BuildResizeAction` | fun.js:17-33 | Adding the keys one by one gives exactly the resize step that `SingleResize` describes. |
| `ImageActions.BuildCompositeActions` | fun.js:71-120 | Pushing the steps one by one gives exactly the pipeline [format, resize, rotate, watermark] filtered by what the config requests. |
| `ImageActions.CompositeInOrder` | fun.js:72-120 | The composite list is in pipeline order, and no step kind, hence no `action` name, occurs twice. |
| `ImageActions.CompositeActionFor` | fun.js:72-120 | A step of a given kind is in the list iff the config requests it, and it is then the step built from the config. |
| `ImageActions.ImageOption` | fun.js:122-125 | No `image` option is sent iff the action list is empty. Otherwise the list is sent as it is. |
| `ImageActions.CompositeEmptyIff` | fun.js:122-125 | The list is empty iff format, width, height, angle and watermark text are all absent or falsy. Then no `image` option is sent. |
| `ImageActions.EmptyConfigNoActions` | fun.js:122-123 | `{}` yields no actions. |
| `ImageActions.CompositeFormat` | fun.js:74-79 | A format step is emitted iff the format is a non-empty string. It carries that format and no mode. |
| `ImageActions.CompositeResize` | fun.js:81-93 | A resize step is emitted iff width or height is non-zero. Mode is "custom". Quality 0 or absent becomes 90. Width and height are passed through, and absent ones are left out. |
| `ImageActions.CompositeRotate` | fun.js:95-103 | A rotate step is emitted iff the angle is non-zero. It carries that angle, with mode "custom". |
| `ImageActions.CompositeWatermark` | fun.js:105-120 | A watermark step is emitted iff the text is non-empty. It always has font size 16, colour #ffffff80, offsets 10/10, rotation 30 and mode "text". |
| `ImageActions.SingleMatchesComposite` | fun.js:6-68 | Each single-operation builder gives the same list as the composite builder on a config holding only its own fields, when each of those is non-empty or non-zero. For resize that means width, height and quality all non-zero. |
| `ImageActions.ZeroWidthDiffers` | fun.js:17-20 | The resize builders differ on a width of 0 beside a non-zero height. The single-operation builder leaves `fw` out (fun.js:19). The composite builder sends `fw: 0` (fun.js:88). |
| `ImageActions.ScenarioFormatThenResize` | fun.js:74-93 | `{format: "jpeg", width: 200}` gives a jpeg format step, then a resize with p 90 and fw 200 but no fh. |
| `ImageActions.ScenarioRotateThenWatermark` | fun.js:95-120 | `{angle: 90, watermarkText: "draft"}` gives a rotate step, then the fixed-look watermark. |
| `EdgeDispatcher.ParseIntDecimal` | fun.js:192-198 | `parseInt` reads back the decimal rendering of any number, with or without a minus sign. |
| `EdgeDispatcher.ParseIntEmpty` | fun.js:192-193 | `parseInt("")` is NaN. |
| `EdgeDispatcher.ParseInt` | fun.js:192-198 | JavaScript `parseInt` with no radix. It skips leading white space, takes an optional sign and a "0x" prefix for base 16, then reads the longest digit prefix; no digits give NaN. `ParseIntDecimal` and `ParseIntEmpty` state its values. |
| `EdgeDispatcher.ParseFormData` | fun.js:129-164 | `parseFormData`: a non-multipart body is read as JSON, with no file. A multipart body yields its `file` field and its `config` field parsed as JSON, `{}` when the config is absent or empty. Every failure carries its prefixes. `ParseFormDataMultipart` states the multipart success case, and the composite-route lemmas state the others. |
| `EdgeDispatcher.Rewrap` | fun.js:225-231 | The forwarded POST. `RewrapShape` states its shape. |
| `EdgeDispatcher.Dispatch` | fun.js:167-246 | `handleRequest`'s routing: the reply it builds itself, the call it forwards (and whether Allow-Origin is added), or the error it throws. The route lemmas below state each branch, with the query parameters of each single route and the composite success path (`CompositeForwardsConfig`). |
| `EdgeDispatcher.CompositeDecision` | fun.js:207-240 | The composite route's branch of `handleRequest`. `CompositeForwardsConfig`, `CompositeMissingConfig`, `CompositeMissingFile`, `CompositeNullConfig`, `CompositeMalformedConfig` and `CompositeFormFailure` state each of its outcomes. |
| `EdgeDispatcher.Complete` | fun.js:230-258 | The provider call and the top-level catch. `CaughtErrors` and `CompositeSuccess` state it. |
| `EdgeDispatcher.HandleRequest` | fun.js:167-260 | `handleRequest`: the routing decision carried out against the provider. The preflight, the routes' parameters and defaults, the composite success and error paths, the banner and the catch are each stated by the lemmas below. |
| `EdgeDispatcher.QueryOr` | fun.js:188 | `get(key) \|\| default` is the parameter when it is present and non-empty, and the default otherwise. |
| `EdgeDispatcher.PreflightAnyPath` | fun.js:169-179 | OPTIONS on any path gets 204, no body and exactly the four CORS headers with their fixed values. |
| `EdgeDispatcher.FormatRouteDefaults` | fun.js:187-190 | The format route forwards the original request with one format step. The format is "png" when the parameter is absent or empty. The provider's answer is relayed unchanged. |
| `EdgeDispatcher.ResizeDispatch` | fun.js:191-196 | The resize route forwards the original request with the one resize step built from the parsed width, height and quality. With all three given in decimal, the step carries exactly that quality as `p`, and that width and height, with a 0 left out. |
| `EdgeDispatcher.ResizeDimension` | fun.js:192-193 | An absent width/height parses to a falsy value. A decimal one parses to its number. |
| `EdgeDispatcher.QualityDefault` | fun.js:194 | The quality default "90" parses to 90. |
| `EdgeDispatcher.QualityParameter` | fun.js:194 | The resize quality is 90 when absent and the given number when given in decimal. |
| `EdgeDispatcher.ResizeQueryDefaults` | fun.js:191-196 | From a query: absent width/height are not sent, sent ones are non-zero, and a decimal one is sent as its number (0 is omitted). Absent quality gives p 90, and a decimal quality is sent as its number. |
| `EdgeDispatcher.RotateDefault` | fun.js:197-200 | An absent angle gives a rotate step with angle 0. |
| `EdgeDispatcher.RotateAngleGiven` | fun.js:197-200 | An angle given in decimal, with or without a minus sign, is forwarded as that number in the one rotate step. |
| `EdgeDispatcher.WatermarkDefault` | fun.js:201-204 | An absent or empty text gives the watermark "ImageProcess". |
| `EdgeDispatcher.WatermarkTextGiven` | fun.js:201-204 | A non-empty text parameter is forwarded as the text of the one fixed-look watermark step. |
| `EdgeDispatcher.SingleRoutesRelayVerbatim` | fun.js:187-204 | The single-operation routes forward the original request and return the provider's response without adding headers. |
| `EdgeDispatcher.CompositeNotMultipartRejected` | fun.js:130-140 | A composite request that is not multipart never reaches the provider. A JSON body that reads to an object gets 400 with the fixed JSON error. A body that does not read gets 500 with the "JSON解析失败：" prefix. A `null` body also gets 500: reading `body.config` throws a TypeError. |
| `EdgeDispatcher.CompositeMissingFile` | fun.js:211-222 | A multipart request whose form reads, whose `config` field is absent, empty or valid JSON, and whose `file` field is absent or falsy gets 400 with Allow-Origin, whatever the provider. A malformed config is answered 500 before the file is checked (`CompositeMalformedConfig`). |
| `EdgeDispatcher.CompositeMalformedConfig` | fun.js:150-163 | A malformed `config` field gets 500 with "处理失败：FormData解析失败：配置JSON解析失败：" plus the message, and Allow-Origin, before any provider call. |
| `EdgeDispatcher.CompositeFormFailure` | fun.js:143-163 | A multipart body that cannot be read gets 500 with "处理失败：FormData解析失败：" plus the message, whatever the provider. |
| `EdgeDispatcher.CompositeNullConfig` | fun.js:152-158 | A `config` field holding JSON `null` with a usable file gets 500 with the TypeError that reading `config.format` throws (fun.js:72-74), whatever the provider. |
| `EdgeDispatcher.CompositeMissingConfig` | fun.js:149-152 | A missing or empty `config` counts as `{}`. The file is POSTed, typed by its media type, with no `image` option. |
| `EdgeDispatcher.RewrapShape` | fun.js:225-231 | The composite route sends the uploaded file on as the body of a POST to the same URL. The request carries only a Content-Type header: the file's media type, or "image/jpeg" when that is empty or the field is text. |
| `EdgeDispatcher.ParseFormDataMultipart` | fun.js:148-160 | A multipart body whose `config` field is present and parses yields its `file` field and exactly the parsed config. |
| `EdgeDispatcher.CompositeForwardsConfig` | fun.js:207-234 | A multipart upload with a usable file and a config that parses to an object is forwarded as the re-wrapped file with that config's composite action list as the `image` option, and with Allow-Origin to be added. |
| `EdgeDispatcher.CompositeSuccess` | fun.js:224-239 | Whenever the composite route reaches the provider, it forwards the re-wrapped file with the composite list of the parsed config. The provider's status and body are kept, and Allow-Origin "*" is added to its headers. |
| `EdgeDispatcher.UnmatchedPathBanner` | fun.js:243-246 | Any other path gets 200 with the fixed banner and Allow-Origin. |
| `EdgeDispatcher.AllowOriginEverywhere` | fun.js:247-258 | Every response except a single-operation route's relayed provider response carries Allow-Origin "*". This includes the 500 error replies. |
| `EdgeDispatcher.InternalError` | fun.js:247-258 | The catch reply is a 500 with Allow-Origin "*" and the error "处理失败：" plus the message. |
| `EdgeDispatcher.CaughtErrors` | fun.js:247-258 | Anything the handler throws, and any rejection of the provider's fetch on any route, becomes that 500 reply with the thrown message. A provider response that arrives keeps its status. |
| `ImageComposer.BlobUrlFresh` | src/composables/useImageProcess.ts:41 | Each new object URL differs from every earlier one and from the asset URL. |
| `ImageComposer.ImageProcess.constructor` | src/composables/useImageProcess.ts:8-14 | The fields start out as false, "", null, "", "" and false, with no URLs created or revoked. |
| `ImageComposer.ImageProcess.CreateObjectUrl` | src/composables/useImageProcess.ts:22 | It returns a URL never returned before and not revoked. |
| `ImageComposer.ImageProcess.InitDefaultImage` | src/composables/useImageProcess.ts:17-29 | On success it holds a fresh URL as the default and uploads a "test.png" file of the blob's type with it. On failure it sets the fixed error and leaves `uploadedFile` and the default URL unchanged. |
| `ImageComposer.ImageProcess.UploadImage` | src/composables/useImageProcess.ts:36-45 | It revokes and clears a non-empty default URL, and revokes nothing else. It stores and returns the file with a fresh URL. |
| `ImageComposer.ImageProcess.ProcessImage` | src/composables/useImageProcess.ts:48-68 | On success it sets the finish URL and `isProcessed` and returns that same URL. On failure it sets the prefixed error, returns that same string and leaves `isProcessed` false. `loading` ends false on both paths. |
| `ImageComposer.ImageProcess.DownloadImage` | src/composables/useImageProcess.ts:71-84 | It does nothing iff there is no result. Otherwise it saves the result as `name.ext`, where the name defaults to "processed-image". |
| `ImageComposer.ImageProcess.Reset` | src/composables/useImageProcess.ts:87-101 | It revokes the uploaded URL, the non-empty default URL and the non-empty result URL. It clears the file, result, error, loading and processed flag, and leaves the default URL field as it was. |
| `ImageComposer.ResetAfterProcessing` | src/composables/useImageProcess.ts:36-101 | Upload, a successful process, then reset. Both the upload's URL and the result's URL end up revoked, and nothing is left to download. |
| `ImageComposer.DownloadExtension` | src/composables/useImageProcess.ts:78-80 | The extension is never empty and contains neither ";" nor "/". |
| `ImageComposer.DownloadExtensionRule` | src/composables/useImageProcess.ts:78-80 | For every URL, let `b` be the text before the first ";". If `b` has no "/", the extension is "png". Otherwise it is the text between the first and the second "/" of `b`, or "png" when that text is empty. |
| `ImageComposer.DataUrlExtension` | src/composables/useImageProcess.ts:78-80 | For `data:<type>/<subtype>;…` the extension is the subtype. |
| `ImageComposer.PathUrlExtension` | src/composables/useImageProcess.ts:78-80 | For a path `/<segment>/<rest>` the extension is the first segment. |
| `ImageComposer.BlobUrlExtension` | src/composables/useImageProcess.ts:78-80 | An object URL downloads as "png". |
| `ImageComposer.SchemeUrlExtension` | src/composables/useImageProcess.ts:78-80 | An absolute URL `<scheme>//<rest>` is saved as "png", because the text between its first two "/" is empty. |
| `AppRouter.GuardOutcomes` | src/router/index.ts:38-44 | The guard goes home iff a file is required and none is stored. It goes to process iff that does not apply, a result is required and none is stored. It proceeds iff both requirements are met. |
| `AppRouter.FileCheckFirst` | src/router/index.ts:38-41 | The file check wins over the result check. |
| `AppRouter.AbsentStateRedirects` | src/router/index.ts:35-37 | A missing stored state reads as `{}`, so every guarded route redirects. |
| `AppRouter.RouteTableMeta` | src/router/index.ts:9-29 | Only "/process" requires a file and only "/result" requires a result. Paths and names are unique. |
| `AppRouter.UnmatchedPathGoesHome` | src/router/index.ts:26-29 | Any other path resolves to "/" (home). |
| `AppRouter.NavigationSettles` | src/router/index.ts:34-45 | Re-running the guard on redirect targets always ends on a route whose guard proceeds. |
| `AppRouter.ResultLanding` | src/router/index.ts:38-43 | "/result" lands on the result page when a result is stored. Otherwise it lands on the process page when a file is stored, and otherwise home. |
| `AppRouter.Guard` | src/router/index.ts:34-45 | The `beforeEach` guard. `GuardOutcomes` states it in both directions. |
| `AppRouter.Lookup` | src/router/index.ts:9-29 | The first route matching a path or a name. It returns a route of the table that matches, and nothing only when no route matches. |
| `AppRouter.Resolve` | src/router/index.ts:9-29 | The route a path resolves to, following the catch-all redirect. It is always a route of the table. |
| `AppRouter.Settle` | src/router/index.ts:38-43 | The guard, re-run on each `next({ name })` target. |
| `AppRouter.Navigate` | src/router/index.ts:34-45 | A navigation to a path. `NavigationSettles` and `ResultLanding` state where it lands. |

## Left out

- The image provider's fetch and the image transformation are a function parameter. It maps the forwarded request and its action list to a response or a rejection message.
- Multipart parsing, `request.json()` and `JSON.parse` are not modelled; their outcomes are inputs. A JSON `null` config is modelled, and so is the TypeError it causes (V8's message text). Field values of another JSON type than the declared one are not: a string width, say, or a non-integer number.
- URL parsing and `URLSearchParams` are not modelled. The path and a key-to-value map are given. Repeated query keys are not modelled.
- `parseInt`'s double-precision rounding of very long digit strings is not modelled: integers are unbounded.
- The JSON text of error bodies is kept as the error string. Header names are kept in lower case, one value each. `statusText`, body streams and `request.clone()` are not modelled.
- Vue reactivity, `onMounted`, the 800 ms delay (one step that completes or throws), the DOM anchor, `alert`, `console` and asset imports are not modelled. The finished image's URL is taken to be "/assets/finish.png"; the real string depends on the bundler.
- `reset`'s closing call to `initDefaultImage` is asynchronous, so it is the separate method `InitDefaultImage`.
- Overlapping `processImage` calls are not modelled.
- `localStorage` and `JSON.parse` in the guard are not modelled, and neither is a malformed stored value. The stored state is passed in as two optional strings.
- The router's path matching is modelled as exact. The library also accepts a different letter case and a trailing slash.
- `src/types/index.ts` is mirrored as the datatypes `Config`, `ProcessResult` and `UploadFile`.
