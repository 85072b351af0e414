# urepo OneDrive core, modelled in Dafny

urepo serves a OneDrive drive as a browsable HTTP file listing. It has one
catch-all route. That route asks a small Microsoft Graph client whether the
requested path is a folder. It then answers one of three ways:
- a not-found object;
- a page listing the folder's children (name, size in KiB, date of last change);
- a 307 redirect to the file's direct download URL.

The client keeps its OAuth credentials and a mutable access token. It wraps
every drive call in a "retry once after refreshing the token" policy.

The model has five modules:

- `Outcomes`: `Option`, the exception kinds, and `Outcome<T>`. `Outcome<T>` is Python's "return a value or raise".
- `Remote`: the HTTP side, abstracted.
  - A reply is a status code plus the keys of its JSON body that the code looks at (`error`, `folder`, `value`, `@microsoft.graph.downloadUrl`, `access_token`). The body can also be undecodable, or the request can fail outright (`NoReply`).
  - `Network` is an oracle. It answers successive requests from a script of replies and logs every exchange.
- `PosixPath`: `os.path.join` for two arguments.
- `Storage` (storage/onedrive.py):
  - Pure functions: configuration lookup, root normalisation, URL construction, reply classification and the listing.
  - `Retried`: a pure specification of the retry wrapper, as the trace of exchanges it performs.
  - The class `OneDrive`: constant credentials and a mutable `accessToken`. Its methods are proved against `Retried`. They also keep the invariant `Valid`: the access token is the one most recently issued by the token endpoint, or `""` before any.
- `Api` (server/api.py): `list_or_get_file` as a pure function. It takes the three client results as inputs and returns the response and the client calls made, in order.

The model follows the code as written, including where it is blunter than a clean design would be:
- Only one leading `/` is stripped from the root path, so `//a` becomes `/a`.
- Paths are not sanitised for colons.
- An exception from the client propagates out of the handler. There is no handler of its own that turns it into a 500.
- A `None` download link is redirected to as is, not turned into a 404.
- A `None` listing (a 404 between the two lookups) raises a `TypeError` in the handler.

## Model

| member | source | states |
|---|---|---|
| `PosixPath.Join` | storage/onedrive.py:112 | `os.path.join(a, b)`: the result is empty iff both are; it always ends with `b`; an absolute `b` replaces `a`; otherwise it starts with `a`, with one `/` added only when `a` is non-empty and does not already end in `/` |
| `Storage.FirstMissing` | storage/onedrive.py:35-39 | None iff every key is present; otherwise the first key, in lookup order, that the mapping lacks |
| `Storage.ReadConfig` | storage/onedrive.py:34-41 | succeeds iff all five keys are present, with their values; otherwise raises a KeyError naming an absent configuration key |
| `Storage.InitFromDict` | storage/onedrive.py:34-41 | a missing key raises its KeyError with no request sent and the network untouched; otherwise exactly one token POST with the refresh form of the five values, a client iff that reply carries a token, the client holding that token, the five values (root normalised) and the token invariant; otherwise the refresh's error |
| `Storage.NormaliseRoot` | storage/onedrive.py:26-28 | exactly one leading `/` is removed if present, otherwise the path is unchanged |
| `Storage.NormaliseRootStripsOnce` | storage/onedrive.py:26-28 | `//a` becomes `/a`, `/a` becomes `a`, `a` stays `a` |
| `Storage.OneDrive.constructor` | storage/onedrive.py:22-29 | credentials stored as given, root normalised, `accessToken == ""`, token invariant established |
| `Storage.Open` | storage/onedrive.py:14-31 | construction sends exactly one token request; it yields a client iff the reply carries an access token, and that client holds that token and the given credentials; otherwise it raises the refresh's error |
| `Storage.RefreshForm` | storage/onedrive.py:70-83 | the token form has exactly the seven fields, with the credentials, grant type `refresh_token`, the fixed redirect URI and the fixed scope |
| `Storage.TokenFrom` | storage/onedrive.py:84-88 | a token is obtained iff the reply decodes and has an `access_token` key, whatever the status; that token is the field's value; otherwise it raises |
| `Storage.LatestToken` | storage/onedrive.py:84-88 | the token a client holds after a log of exchanges is `""` or a token that some exchange in the log issued |
| `Storage.LatestTokenAppend` | storage/onedrive.py:88 | an exchange that issues a token makes it the latest; any other exchange leaves the latest token unchanged |
| `Storage.OneDrive.Refresh` | storage/onedrive.py:66-88 | one token request with the refresh form; on success `accessToken` becomes the reply's token, otherwise it raises and `accessToken` keeps its value; credentials are constants; token invariant kept |
| `Remote.Network.Send` | storage/onedrive.py:62-83 | each request (the GET of line 62, the token POST of lines 70-83) gets the next scripted reply and is appended to the log |
| `Storage.OneDrive.Call` | storage/onedrive.py:56-64 | one GET carrying the current access token as bearer; token invariant kept |
| `Storage.Retried` | storage/onedrive.py:101-106 | the first call always happens with the current token. If it returns, it is the only exchange and its result is returned. If it raises, one refresh follows. A refresh that raises propagates with no second call. Otherwise exactly one more call follows, with the new token, and its result (returned or raised) is final. At most three exchanges |
| `Storage.RetryCallBounds` | storage/onedrive.py:101-106 | 1 to 2 calls and at most 1 refresh; a refresh iff the first call raised; a second call iff that refresh succeeded |
| `Storage.LatestTokenAfterCall` | storage/onedrive.py:103 | a call, which issues no token, leaves the latest token unchanged |
| `Storage.LatestTokenAfterFailedRefresh` | storage/onedrive.py:104-105 | a failed call followed by a refresh that issued nothing leaves the latest token unchanged |
| `Storage.LatestTokenAfterRefresh` | storage/onedrive.py:104-106 | a failed call, a refresh issuing a token, and the second call leave that token as the latest |
| `Storage.RetriedTracksLatestToken` | storage/onedrive.py:101-106 | after the wrapper, the token held is the latest one issued in the extended log |
| `Storage.OneDrive.Retrying` | storage/onedrive.py:90-108 | the wrapper's result, new token, logged exchanges and remaining replies are those of `Retried`; token invariant kept |
| `Storage.ItemUrl` | storage/onedrive.py:112-117 | `.../drive/root` exactly when the joined path is empty, otherwise `.../drive/root:/` + path |
| `Storage.ItemUrlInjective` | storage/onedrive.py:114-117 | distinct joined paths are looked up at distinct URLs |
| `Storage.ChildrenUrl` | storage/onedrive.py:133-137 | `.../root/children` exactly when the joined path is empty, otherwise `.../root:/` + path + `:/children` |
| `Storage.ChildrenUrlInjective` | storage/onedrive.py:134-137 | distinct joined paths are listed at distinct URLs |
| `Storage.DownloadUrl` | storage/onedrive.py:159-160 | always the `root:/` form; it equals `is_folder`'s URL iff the joined path is non-empty |
| `Storage.Checked` | storage/onedrive.py:121-124 | a 404 gives None whatever the body; otherwise an undecodable body or an `error` key raises; only a non-404, decodable, error-free reply passes |
| `Storage.ClassifyKind` | storage/onedrive.py:121-129 | None iff 404; True iff the reply passes the checks and has a `folder` key; False iff it passes without one; otherwise the check's error |
| `Storage.OneDrive.IsFolder` | storage/onedrive.py:110-129 | `Retried` with the item URL of `join(root, path)` and `ClassifyKind` |
| `Storage.KiB` | storage/onedrive.py:149 | size in KiB truncated toward zero: for non-negative sizes `k*1024 <= bytes < (k+1)*1024` |
| `Storage.DatePrefix` | storage/onedrive.py:150 | the first 10 characters, or the whole string if shorter |
| `Storage.FileInfoOf` | storage/onedrive.py:147-151 | an entry iff the child has name, size and date; the entry has the child's name, size in KiB and date prefix; otherwise a KeyError names the first missing key in the order name, size, date |
| `Storage.ListingOf` | storage/onedrive.py:146-153 | succeeds iff every child does, with the same length and order, entry *i* being child *i*'s; otherwise the error of the first failing child |
| `Storage.ClassifyListing` | storage/onedrive.py:141-155 | None iff 404; a listing iff the reply passes the checks, has `value` and every child converts, with the children's length and order; a missing `value` raises KeyError; a child lacking a key raises the first failing child's KeyError; otherwise the check's error |
| `Storage.OneDrive.LsFolder` | storage/onedrive.py:131-155 | `Retried` with the children URL of `join(root, path)` and `ClassifyListing` |
| `Storage.ClassifyLink` | storage/onedrive.py:164-169 | None iff 404; otherwise the check's error, or the `@microsoft.graph.downloadUrl` field unchanged, or a KeyError when that field is missing |
| `Storage.OneDrive.GetDownloadLink` | storage/onedrive.py:157-169 | `Retried` with the `root:/` URL of `join(root, path)` and `ClassifyLink` |
| `Api.AsDict` | server/api.py:23 | `_asdict()`: exactly the keys `name`, `size`, `last_update_date`, holding the entry's fields |
| `Api.AsDicts` | server/api.py:23 | `[i._asdict() for i in file_info_list]`: same length and order, entry *i* exactly `AsDict` of FileInfo *i* (only the three keys), which gives FileInfo *i* back |
| `Api.AsDictRoundTrip` | server/api.py:23 | the dictionary gives back the entry it came from |
| `Api.ListOrGetFile` | server/api.py:16-30 | `is_folder` is called first and once. If it raises, that propagates. None gives the returned 404 object and no other call. True calls only `ls_folder` and gives a listing of the same length and order, entry *i* exactly `AsDict` of FileInfo *i* (a None listing raises TypeError). False calls only `get_download_link` and gives a 307 redirect to exactly the returned link, None included. Each response kind holds iff its case holds |
| `Api.ExampleFolderListing` | server/api.py:21-27 | a folder holding `a.txt` of 2048 bytes modified `2023-05-01T10:00:00Z` lists `{name: a.txt, size: 2, last_update_date: 2023-05-01}` |
| `Api.ExampleFileRedirect` | server/api.py:28-30 | a file whose metadata carries a download URL is redirected with 307 to exactly that URL |
| `Api.ExampleMissing` | server/api.py:19-20 | a 404 metadata reply, whatever its body, gives the not-found object and no further call |

## Left out

- HTTP traffic itself (request headers beyond the bearer token, the 3-second timeouts, TLS): every request goes to the `Network` oracle, whose replies are inputs.
- JSON decoding: a body is either undecodable or a record of the keys the code reads. Values of unexpected JSON types are not modelled (a non-numeric `size`, a non-string name, a JSON `null` download URL). Neither are error texts (`RuntimeError(r.text)` is modelled by its kind only).
- `init_from_json` (file reading), `init_from_env` (environment access) and the environment-then-file fallback at server start-up: I/O. `InitFromDict` models their shared path over a map.
- Storage.KiB: models `int(float(size) / 1024)` as exact integer division truncated toward zero. This is exact for sizes below 2^53; float rounding above that is not modelled.
- Concurrency: the route is `async`, and concurrent requests may refresh the shared token at the same time. The model is sequential.
- FastAPI routing, Jinja2 rendering and the `HTTPException`/`RedirectResponse` objects: these are represented by the `Page` variants. What the framework does with an exception raised by the handler (a 500 response) is not modelled.
- The bare `except:` in the retry wrapper also catches interpreter-level exceptions such as KeyboardInterrupt. The model retries on every raised `Error` kind and has no others.
- `client-tools/get_deploy_config.py` (an interactive one-off CLI) and `storage/utils.py` `pretty_size` (floating-point formatting) are not part of this model.
