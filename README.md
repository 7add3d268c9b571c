# api-setup in Dafny

`api-setup` is a command-line scaffolder. Its `init` command asks for an API
base URL. It then creates four folders under `src/`, writes eight TypeScript
templates into them, and installs four npm dependencies. The templates make up
a small client library:

- an axios instance with request and response interceptors;
- four React Query hooks (fetch, post, patch and delete);
- a query-string serialiser and a FormData flattener.

This project models both halves in Dafny and proves what each part promises.

- **Query string and FormData** (`src/utils/storage.ts`):
  - `QueryString` models `buildQueryString`, built on `UriEncoding`'s
    `encodeURIComponent` (section 19.2.6.5 of ECMA-262).
  - Each has a partner: a parser that reads the query string back, and a
    decoder that reads an encoded component back.
  - `FormFlatten` models `objectToFormData`. It is a recursive method that
    appends to one `FormData` object, and it is proved against a flattening
    function.
- **The scaffolder** (`index.js`):
  - `ScaffoldFs` is an abstract file tree: a set of directories and a map from
    file paths to contents. `Disks.Disk` is the mutable disk the loops work on.
  - `FolderPhase` and `FilePhase` are the two loops of `setupApiStructure`.
    Each is a method with loop invariants, proved equal to a specification
    function. Theorems about those functions state what each folder and each
    file holds afterwards.
  - `PackageManagers` covers the package manager and the install command, and
    `BaseUrlPrompt` the URL question.
  - `Setup` ties all of these together.
  - Prompts are answered from scripted answer lists. A prompt past the end of
    its list takes the prompt's default.
- **The HTTP client** (`src/config/instance/instance.ts`), modelled by
  `HttpClient`:
  - header rules, with `PendingRequest` rewriting its headers in place;
  - the success filter;
  - the 401 logout, on a `Browser` object holding localStorage and cookies;
  - the `Instance` class and its verb methods.
  - The backend is a parameter: `server` says how it answers a request.
- **The hooks** (`src/hooks/*.ts`):
  - `FetchHook`, `PostHook`, `PatchHook` and `DeleteHook`, with shared pieces
    in `HookKit`.
  - Each hook classifies what the client settled to.
  - Effects are recorded in order: toasts, console lines, and cache refetch or
    invalidate calls.
  - Options are merged the way `{ ...defaults, ...options }` merges them, so
    the caller's value wins.

Three things the proofs bring out about the client and the hooks:

- The response interceptor resolves only success envelopes (status 200 or 201
  with `error === false`); anything else resolves to `undefined`.
  - As a result, the 400 and 401 branches of the patch and delete hooks are
    never taken through this client (`HookKit.StatusTagsUnreachable`).
  - A success envelope with status 201 makes `useFetchData` fail
    (`FetchHook.FetchReturnsOnlyOk`).
  - An error envelope's message never reaches `usePostData`'s toast
    (`PostHook.ThroughClient`).
- The bearer token is read once, when the module loads. After a 401 has
  removed the cookie, later requests still carry the old token
  (`HttpClient.TokenOutlivesLogout`).
- When a post fails with a response, the user sees two error toasts: the
  mutation function's, then the generic one from `onError`
  (`PostHook.FailureToastsTwice`).

Where the code and its evident intent differ, the model follows the code.
`Setup.SetupApiStructure` and `PackageManagers.DetectPackageManager` are the
code as written. The intended versions sit beside them, with their properties
proved (see "## Findings").

## Model

| member | source | states |
|---|---|---|
| `QueryString.BuildQueryString` | src/utils/storage.ts:3-34 | The result is `""`, or `?` followed by at least one character, never a bare `?`. |
| `QueryString.ValuePairs` | src/utils/storage.ts:17-27 | Null or undefined gives no pair. A scalar gives exactly one pair with its text. An array gives one pair per element, in element order. |
| `QueryString.Pair` | src/utils/storage.ts:23-27 | An encoded `key=value` segment is never empty and never contains `&`. |
| `QueryString.FilterJoin` | src/utils/storage.ts:14-30 | Filtering out the empty per-key strings and joining with `&` gives the pair segments in key order, joined by single `&`s. The result is empty exactly when there are no pairs. |
| `QueryString.QueryShape` | src/utils/storage.ts:5-33 | The result is `""` exactly when no pair survives, which covers a non-object, an empty object and all-null values. Otherwise it is `?` plus the segments joined by `&`, and splitting on `&` gives back those segments, none of them empty. |
| `QueryString.QueryRoundTrip` | src/utils/storage.ts:3-34 | Parsing the query string gives back every non-null key/value pair, in key order and array-element order. |
| `QueryString.SegmentCount` | src/utils/storage.ts:14-30 | The number of segments is the number of scalars plus the number of array elements. |
| `UriEncoding.EncodeURIComponent` | src/utils/storage.ts:23-27 | The encoding uses only unreserved characters and `%XX` escapes, so it never contains `&`, `=` or `?`. A string of unreserved characters is left unchanged. |
| `UriEncoding.DecodeEncode` | src/utils/storage.ts:27 | Decoding the encoding gives back the original string, through UTF-8 and percent escapes. |
| `UriEncoding.EncodeInjective` | src/utils/storage.ts:27 | Distinct keys or values have distinct encodings. |
| `FormFlatten.FormKey` | src/utils/storage.ts:75 | With no namespace the name is the key. Otherwise it is `namespace[key]`. |
| `FormFlatten.FormData.Append` | src/utils/storage.ts:79-85 | `append` adds exactly one entry at the end. |
| `FormFlatten.AppendField` | src/utils/storage.ts:74-86 | One key appends its `FieldEntries`: a File or Blob as it is, a primitive as its text, a nested object recursively, and nothing for null or undefined. |
| `FormFlatten.ObjectToFormData` | src/utils/storage.ts:65-91 | Returns the form it was given, or a fresh one when given none. Its entries are the old entries followed by `Flatten(obj, namespace)`. |
| `FormFlatten.NamesUnderNamespace` | src/utils/storage.ts:75-82 | Under a non-empty namespace, every appended name starts with `namespace[`. |
| `FormFlatten.FlattenValues` | src/utils/storage.ts:72-88 | The appended values are exactly the object's leaves in depth-first key order, without nulls. |
| `FormFlatten.ArrayOfPrimitives` | src/utils/storage.ts:80-85 | An array of primitives under `name` becomes the entries `name[0]`, `name[1]`, … holding the items' texts. |
| `ScaffoldFs.Removed` | index.js:70 | `fs.rm` with `recursive` and `force` removes the path and everything below it, and nothing else. |
| `ScaffoldFs.MadeDir` | index.js:78 | `fs.mkdir` with `recursive` fails exactly when some prefix of the path is a file. Otherwise it adds the path and its ancestors as directories and leaves the files unchanged. |
| `ScaffoldFs.Written` | index.js:613 | `fs.writeFile` succeeds exactly when the parent is a directory and the path is not one. |
| `ScaffoldFs.RemovedWellFormed` | index.js:70 | Removing keeps the tree well formed. |
| `ScaffoldFs.MadeDirWellFormed` | index.js:78 | A successful mkdir keeps the tree well formed. |
| `Disks.Disk.Access` | index.js:16-32 | `directoryExists` and `fileExists` are both `fs.access`, true for a file or a directory. |
| `Disks.Disk.Rm` | index.js:70 | The disk becomes `Removed` of its old state. |
| `Disks.Disk.Mkdir` | index.js:78 | The disk becomes `MadeDir` of its old state, or is unchanged when that fails. |
| `Disks.Disk.WriteFile` | index.js:613 | The disk becomes `Written` of its old state, or is unchanged when that fails. |
| `FolderPhase.FolderAnswer` | index.js:52-64 | The n-th folder prompt takes the n-th scripted answer, and `merge` when the script has run out. |
| `FolderPhase.PrepareFolders` | index.js:47-85 | The loop leaves the disk, the prompt count and the failing path as the folder-loop specification says. |
| `FolderPhase.Decisions` | index.js:47-73 | There is one decision per listed folder, in order. |
| `FolderPhase.LoopOutside` | index.js:47-85 | The folder loop changes no path that is neither inside nor above a listed folder. |
| `FolderPhase.FolderLoopOutcome` | index.js:47-85 | For independent folders on a clear path, the loop never fails. It asks one prompt per pre-existing folder. Afterwards every folder exists: unchanged if skipped or merged, empty if overwritten or created. |
| `FilePhase.FileAnswer` | index.js:593-604 | The n-th file prompt takes the n-th scripted answer, and `skip` when the script has run out. |
| `FilePhase.WriteTemplates` | index.js:581-619 | The loop leaves the disk, the prompt count and the failing path as the file-loop specification says. |
| `FilePhase.FileDecisions` | index.js:586-610 | There is one decision per template: no directory, fresh, kept or replaced. |
| `FilePhase.LoopElsewhere` | index.js:581-619 | The file loop touches no path outside the template list and never changes a directory. |
| `FilePhase.FileLoopOutcome` | index.js:581-619 | When every write can succeed, the loop completes. It asks one prompt per existing file in an existing directory. A fresh or replaced file holds exactly its template. A kept file, or one whose directory is missing, keeps what it held. |
| `PackageManagers.DetectPackageManager` | index.js:646-655 | As written, the answer is always `npm`, because `existsSync` is missing from `fs.promises` and the catch block answers. |
| `PackageManagers.DetectPackageManagerIntended` | index.js:648-650 | `yarn` exactly when yarn.lock is present. `pnpm` exactly when pnpm-lock.yaml is present and yarn.lock is not. `npm` otherwise. |
| `PackageManagers.YarnLockIgnored` | index.js:646-655 | A project with a yarn.lock is installed with npm as written, and with yarn as intended. |
| `PackageManagers.InstallVerb` | index.js:625 | The verb is two space-free words: `yarn add`, `pnpm add` or `npm install`. |
| `PackageManagers.InstallCommandWords` | index.js:623-627 | The command line splits into the verb followed by exactly the four dependencies, in order. |
| `PackageManagers.InstallHint` | index.js:626-632 | A failed install produces the hint `Run: <command>` and does not fail the setup. A successful one produces no hint. |
| `BaseUrlPrompt.TrimEmpty` | index.js:669 | `trim()` gives `""` exactly on input made only of ECMAScript white space and line terminators. |
| `BaseUrlPrompt.TrimInside` | index.js:669 | `trim()` removes only trimmable characters, and only at the two ends. |
| `BaseUrlPrompt.Validate` | index.js:668-676 | Blank input is rejected with the emptiness message. Other input is accepted exactly when the URL parser accepts it, and rejected otherwise with the validity message. |
| `BaseUrlPrompt.Submitted` | index.js:667 | An empty line submits the default URL. |
| `BaseUrlPrompt.Answer` | index.js:662-678 | The answer is the first submitted line that validates. There is none exactly when no line validates. |
| `BaseUrlPrompt.AnswerNotBlank` | index.js:662-679 | The URL handed to the setup is never blank, and the URL parser accepted it. |
| `Setup.Registry` | index.js:88-578 | There are eight templates at the eight listed paths. instance.ts is its text before the slot, then the base URL, then its text after. |
| `Setup.BaseUrlOnlyInInstance` | index.js:110 | The base URL changes instance.ts and no other template, and distinct URLs give distinct instance.ts texts. |
| `Setup.Layout` | index.js:39-44 | The four folders are independent of one another, and each template lies directly in one of them. |
| `Setup.SetupApiStructure` | index.js:34-644 | The disk ends as the two phases specify. A failure stops everything before the install. Otherwise the install command of the detected manager is run, with a hint when it fails. |
| `Setup.Init` | index.js:657-684 | Until a line validates the command is still asking. Afterwards it exits 1 if the setup failed and 0 otherwise. |
| `Setup.FreshProject` | index.js:34-619 | In a project without `src/` the setup asks nothing, completes, creates all four folders and leaves every template holding exactly its text. |
| `Setup.SkippedFolderStillFilled` | index.js:585-589 | As written, a folder answered `skip` still receives its templates. |
| `Setup.IntendedKeepsSkipped` | index.js:585-589 | With the file loop gated on the folder decisions, a skipped folder keeps its whole subtree through both phases. |
| `HttpClient.TokenAtLoad` | src/config/instance/instance.ts:6 | The token is the cookie's value, and `""` when there is no cookie. |
| `HttpClient.InterceptedHeaders` | src/config/instance/instance.ts:15-22 | Authorization is `Bearer <token>`. Content-Type is multipart for FormData, JSON for other truthy data, and unchanged for falsy data. Every other header is unchanged. |
| `HttpClient.PendingRequest.Intercept` | src/config/instance/instance.ts:14-25 | The interceptor rewrites the request's headers in place to `InterceptedHeaders` of the old headers. |
| `HttpClient.InterceptIdempotent` | src/config/instance/instance.ts:15-22 | Intercepting twice gives the same headers as intercepting once. |
| `HttpClient.SentContentType` | src/config/instance/instance.ts:8-21 | The Content-Type of a request after the interceptor, merged over the instance defaults, is multipart for FormData and JSON for truthy data. For falsy data it is the caller's own, or else the instance default, JSON. |
| `HttpClient.WithMethod` | src/config/instance/instance.ts:47-65 | The verb replaces any method the caller gave, and every other field is kept. |
| `HttpClient.OnFulfilled` | src/config/instance/instance.ts:28-33 | A falsy body rejects with `Error in response`. A body resolves to itself exactly when it is a success (200 or 201 with `error === false`), and to `undefined` otherwise. |
| `HttpClient.DispatchShape` | src/config/instance/instance.ts:27-44 | What a caller receives as a value is a success envelope the backend delivered. A rejection is either the backend's refusal, unchanged, or `Error in response` for an empty body. |
| `HttpClient.Browser.OnRejected` | src/config/instance/instance.ts:34-43 | On a 401, localStorage ends empty and the token cookie is removed. Any other error leaves both unchanged. The error is passed on unchanged either way. |
| `HttpClient.Instance.constructor` | src/config/instance/instance.ts:6 | Loading the module reads the token cookie once. |
| `HttpClient.Instance.Request` | src/config/instance/instance.ts:67-78 | `request` settles exactly as the interceptors do. The browser is logged out exactly on a 401 rejection. |
| `HttpClient.Instance.Get` | src/config/instance/instance.ts:47-49 | `get` is `request` with the method forced to GET. Its browser ends as `BrowserAfter` gives for that settlement: localStorage cleared and the `token` cookie removed exactly on a 401 rejection, otherwise unchanged. |
| `HttpClient.Instance.Post` | src/config/instance/instance.ts:51-53 | `post` is `request` with the method forced to POST. Its browser ends as `BrowserAfter` gives for that settlement: localStorage cleared and the `token` cookie removed exactly on a 401 rejection, otherwise unchanged. |
| `HttpClient.Instance.Put` | src/config/instance/instance.ts:55-57 | `put` is `request` with the method forced to PUT. Its browser ends as `BrowserAfter` gives for that settlement: localStorage cleared and the `token` cookie removed exactly on a 401 rejection, otherwise unchanged. |
| `HttpClient.Instance.Patch` | src/config/instance/instance.ts:59-61 | `patch` is `request` with the method forced to PATCH. Its browser ends as `BrowserAfter` gives for that settlement: localStorage cleared and the `token` cookie removed exactly on a 401 rejection, otherwise unchanged. |
| `HttpClient.Instance.Delete` | src/config/instance/instance.ts:63-65 | `delete` is `request` with the method forced to DELETE. Its browser ends as `BrowserAfter` gives for that settlement: localStorage cleared and the `token` cookie removed exactly on a 401 rejection, otherwise unchanged. |
| `HttpClient.TokenOutlivesLogout` | src/config/instance/instance.ts:6-40 | After the cookie is removed, a fresh load would send an empty token, while the loaded module still sends the old one. |
| `HookKit.Spread` | src/hooks/usePostData.ts:70 | In `{ ...defaults, ...options }`, the keys are those of both, and the caller's value wins wherever it has one. |
| `HookKit.Handlers` | src/hooks/usePatchData.ts:24-56 | The hook's own `mutationFn`, `onSuccess` and `onError` stay exactly when the caller's `mutationOptions` does not supply them. |
| `HookKit.RunsOwnIff` | src/hooks/useDeleteData.ts:21-48 | A hook callback runs exactly when the caller did not supply one of that name. |
| `HookKit.CallsFor` | src/hooks/usePatchData.ts:48-50 | `forEach` makes one cache call per listed query, in order, each with the key `[query]`. |
| `HookKit.QueryClient.ForEach` | src/hooks/useDeleteData.ts:40-42 | The loop appends exactly those calls to the client's call log. |
| `HookKit.InvalidatingCallbacks` | src/hooks/usePatchData.ts:47-54 | After the hook's own mutation function gave an outcome, `onSuccess` or `onError` adds exactly the cache calls and notices that `InvalidatingMutation` specifies. |
| `HookKit.ErrorObject.Assign` | src/hooks/usePatchData.ts:35-43 | `Object.assign` sets `statusCode` in place, and replaces the message only when one is given. |
| `HookKit.StatusOutcome` | src/hooks/usePatchData.ts:28-45 | A rejection is passed on. A 200 returns `data`. A 400 throws the message or fallback tagged 400. A 401 throws `Unauthorized` tagged 401. Anything else throws the message or fallback, untagged. |
| `HookKit.StatusTagsUnreachable` | src/config/instance/instance.ts:28-33 | Through the client, no error the patch or delete hook builds carries a status code. |
| `FetchHook.ParamsOrDefault` | src/hooks/useFetchData.ts:8 | Absent params are the empty object, which yields no pairs. |
| `FetchHook.FetchRequestUrl` | src/hooks/useFetchData.ts:23-27 | The URL is `url` followed by a query string that parses back to the params' pairs. It is `url` itself exactly when there are none. The request carries basic auth and no body. |
| `FetchHook.FetchOutcome` | src/hooks/useFetchData.ts:28-31 | A 200 returns `data`. Any other resolution throws the message, or `Failed to fetch data` when the message is absent or empty. A rejection is passed on. |
| `FetchHook.QueryFn` | src/hooks/useFetchData.ts:22-32 | The query function GETs the request and classifies the result as `FetchOutcome` says; the browser is logged out exactly when that GET is rejected with 401. |
| `FetchHook.FetchReturnsOnlyOk` | src/hooks/useFetchData.ts:28-31 | Through the client, data is returned exactly for a delivered 200 success envelope. A 201 success envelope still throws. |
| `FetchHook.QueryOptionsDefaults` | src/hooks/useFetchData.ts:20-38 | The caller's options win. Otherwise: one retry, no refetch on focus, stale time 0, `enabled` unless it is false, and the key `[url, params]`. |
| `HookKit.BodyRequest` | src/hooks/usePostData.ts:26-38 | The request of the post and patch hooks carries the URL, the variables as data, and the caller's headers, none when absent; no basic auth. |
| `PostHook.ResponseToast` | src/hooks/usePostData.ts:40-53 | The toast is titled `Success` with the `default` variant exactly on 200 or 201, and `Error` with the `destructive` variant otherwise. Its description is the response's message. |
| `PostHook.PostOutcome` | src/hooks/usePostData.ts:40-54 | A 200 or 201 returns `data`. Any other resolution throws the message or `Failed to post data`. A rejection is passed on. |
| `PostHook.ErrorToast` | src/hooks/usePostData.ts:63-69 | The `onError` toast carries the response body's message when it is non-empty, and `An error occurred` otherwise, which always covers the hook's own errors. |
| `PostHook.MutationFnPost` | src/hooks/usePostData.ts:32-55 | The mutation function gives `PostOutcome` of what the post settled to, and shows exactly one toast (the `ResponseToast`) when the post resolved and none when it was rejected. The browser is logged out exactly when the post is rejected with 401. |
| `PostHook.Mutate` | src/hooks/usePostData.ts:32-71 | One `mutate` gives the outcome, toasts and refetch calls that `PostMutation` specifies. |
| `PostHook.Settle` | src/hooks/usePostData.ts:56-69 | `onSuccess` refetches the listed queries after a returned outcome, and `onError` adds its toast after a thrown one, each only when the caller did not replace it. |
| `PostHook.SuccessToastAndRefetch` | src/hooks/usePostData.ts:40-61 | A success shows one `Success` toast and refetches each listed query once, in order. |
| `PostHook.FailureToastsTwice` | src/hooks/usePostData.ts:49-68 | A non-success resolution shows the response's error toast, then the generic one, and refetches nothing. |
| `PostHook.RejectionToastsOnce` | src/hooks/usePostData.ts:63-69 | A rejected request shows only the `onError` toast. |
| `PostHook.ThroughClient` | src/hooks/usePostData.ts:34-54 | Through the client, the post returns exactly for a delivered success envelope. An error envelope loses its message: the toast has no description, and the hook throws the fallback. |
| `PatchHook.MutationFnPatch` | src/hooks/usePatchData.ts:25-46 | The mutation function PATCHes and hands the settlement to `HandleResponse`, giving `StatusOutcome` with `Failed to update data`; the browser is logged out exactly when the patch is rejected with 401. |
| `PatchHook.HandleResponse` | src/hooks/usePatchData.ts:28-45 | Building one error and tagging it in place gives `StatusOutcome` with `Failed to update data` for every settlement. |
| `PatchHook.PatchErrorNotice` | src/hooks/usePatchData.ts:52-54 | `toast.error` shows the error's message when it has one, and the fallback otherwise. |
| `PatchHook.Mutate` | src/hooks/usePatchData.ts:24-56 | One `mutate` gives the outcome, toast and invalidations that `PatchMutation` specifies. |
| `PatchHook.UnauthorizedToast` | src/hooks/usePatchData.ts:38-54 | A 401 reaching the hook throws `Unauthorized` tagged 401, and that text is toasted. |
| `PatchHook.SuccessInvalidates` | src/hooks/usePatchData.ts:47-51 | A success invalidates each listed query once, in order, and shows nothing. |
| `PatchHook.CallerHandlersReplace` | src/hooks/usePatchData.ts:47-55 | A caller's own `onSuccess` and `onError` replace the invalidations and the toast. |
| `DeleteHook.DeleteRequest` | src/hooks/useDeleteData.ts:23 | The request carries only the URL, with no data and no headers. |
| `DeleteHook.MutationFnDelete` | src/hooks/useDeleteData.ts:22-38 | The mutation function DELETEs and hands the settlement to `HandleResponse`, giving `StatusOutcome` with `Failed to delete data`; the browser is logged out exactly when the delete is rejected with 401. |
| `DeleteHook.HandleResponse` | src/hooks/useDeleteData.ts:25-37 | A fresh error per branch gives `StatusOutcome` with `Failed to delete data` for every settlement. |
| `DeleteHook.DeleteErrorNotice` | src/hooks/useDeleteData.ts:44-46 | `console.error` gets the error's message when it has one, and the fallback otherwise. |
| `DeleteHook.Mutate` | src/hooks/useDeleteData.ts:21-48 | One `mutate` gives the outcome, console line and invalidations that `DeleteMutation` specifies. |
| `DeleteHook.FailureLogsOnce` | src/hooks/useDeleteData.ts:29-46 | A failure writes one console line, the message or fallback, shows no toast and invalidates nothing. |
| `DeleteHook.SuccessInvalidates` | src/hooks/useDeleteData.ts:39-43 | A success invalidates each listed query once, in order. |

## Left out

- The interactive prompts (inquirer), commander, chalk output, and the debug lines at index.js:10-14. Scripted answer lists stand in for the prompts, and an empty line at the URL question submits the default.
- The real file system calls. The abstract tree gives `fs.access`, `fs.rm`, `fs.mkdir` and `fs.writeFile` their success conditions, but no permission errors or other I/O failures.
- `execSync`. Whether the install succeeds is a parameter. Only the command string and its caught failure are modelled.
- The WHATWG URL parser behind `new URL`. It is the predicate `parsesAsUrl`.
- The template texts. They are opaque strings, apart from instance.ts's base-URL slot. The `usePutData` template, which returns the whole response on 200, is carried only as text.
- `Object.keys` and `for...in` order. Key order is the order of the given entry list. `String(value)` of numbers and booleans is the given text.
- Lone surrogates. `encodeURIComponent` throws a URIError on them; strings here are sequences of Unicode scalar values.
- The localStorage and JSON wrappers of src/utils/storage.ts:36-63. The 401 handler's `setItem(key, null)` is modelled directly as writing `"null"`. The value of `StorageEnum.Token` is a parameter, and does not matter because `clear()` follows.
- axios transport, timeouts, header-name normalisation and Promise scheduling. How the backend answers is a parameter. Merging the instance's default headers under the request's own is modelled as a right-biased map merge.
- HttpClient.SentContentType: states the header as the interceptor leaves it, not as it goes on the wire. The axios adapter drops Content-Type for a FormData body, so that the browser can set the multipart boundary, and for a request with no data; that adapter is not part of this model.
- The request interceptor's error handler (instance.ts:24). It only re-rejects an error from an earlier interceptor, and there is none.
- React Query's caching, retries and scheduling, and the toast UI. Their calls are recorded in order as effects.
- The caller's own callbacks. A caller-supplied `mutationFn` is not run, so the model records no outcome and no effects for it; the hook's own `onSuccess` and `onError`, which in the source still run on that function's result unless the caller also replaces them, are therefore not modelled in that case.
- React Query's cache identity. The query key is the pair of URL and params (`FetchHook.QueryOptionsDefaults`); React Query's hashing of that key (object keys sorted, `undefined` values dropped) is not modelled, so two params that differ only in key order or in `undefined` entries are distinct here but share a cache entry in the library.

## Findings

| source | as written | input that shows it | evidently intended | confidence | as-written member | corrected member |
|---|---|---|---|---|---|---|
| index.js:585-589 | The file loop skips a file only when its directory is missing, and a folder answered `skip` is still there. | A project holding only an empty `src/hooks/`, with the folder prompt answered `skip`: `useFetchData.ts` and the other hook templates are written into it. | A folder the user skipped is left alone: its files are neither written nor prompted for (the message "as directory was skipped"). | not executed | `Setup.SkippedFolderStillFilled` | `Setup.IntendedKeepsSkipped` |
| index.js:646-655 | `fs` is `require('fs').promises` (index.js:5), which has no `existsSync`. The call throws, and the catch answers `npm`. | A project containing `yarn.lock`: npm installs the dependencies. | yarn.lock selects yarn, then pnpm-lock.yaml selects pnpm, and npm otherwise. | not executed | `PackageManagers.YarnLockIgnored` | `PackageManagers.DetectPackageManagerIntended` |
