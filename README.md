# Nexus artifact upload session

A model of the `Upload` session of the `nexus` package. The session publishes
build artifacts to a Nexus 2 or Nexus 3 repository manager with HTTP PUT. It
has three parts.

- **Configuration.** `getBaseURL` builds the base URL from host, server
  generation, repository and Maven group id. `SetBaseURL` stores that URL, and
  `SetArtifactsVersion` stores the version.
- **Registration.** `AddArtifact` validates an artifact description and appends
  it to a list that is kept unique by artifact id. `GetArtifacts` hands out a
  copy of that list.
- **Execution.** `uploadArtifacts` checks that base URL, version and artifacts
  are present, in that order. It then sends three PUTs for each artifact: the
  `.md5` checksum, the `.sha1` checksum, then the file. It stops at the first
  request that fails.

The transport is the recording `httpMock` of the package tests. It is a script
of replies answered in order, plus the list of requests it received.

Files (one module each):

| file | module | contents |
|---|---|---|
| `types.dfy` | `Artifacts` | artifact descriptions, errors, outcomes, requests |
| `base_url.dfy` | `BaseURL` | `getBaseURL`, the group path and its inverse |
| `registry.dfy` | `Registry` | artifact validation and the unique-id insertion |
| `transport.dfy` | `Transport` | the `HttpMock` class and reply scripts |
| `execution.dfy` | `Execution` | an upload run as functions: URLs, plan, stop at first failure |
| `upload.dfy` | `Nexus` | the `Upload` class, its methods, and the package tests as proofs |

The `Upload` class holds `baseURL`, `version` and `artifacts`. Its methods
update these fields in place.

`UploadArtifacts` may modify only the client. So the frame alone proves the
session, and with it the artifact list, unchanged after any upload. Each
method is proved against a pure function:

- `SetBaseURL` against `GetBaseURL`;
- `AddArtifact` against `ValidateArtifact` and `WithArtifact`;
- `UploadArtifacts` against `Execute`.

The lemmas beside those functions state the promised behaviour.

The package tests appear as methods and lemmas whose assertions the verifier
checks. They are `RegistrationScenarios`, `ConfigurationScenarios`,
`UploadNoInitScenarios`, `UploadWorksScenario` and `UploadFailsScenario`, with
the runs `UploadWorksRun` and `UploadFailsRun`. `UploadFailsScenario` also
checks that the artifact stays registered after a failed upload.

Behaviour comes from the calls and expectations in `pkg/nexus/nexus_test.go`.
Where the tests leave a choice open, the model makes its own assumption, and
each one is listed under "## Left out". The artifact URL is
`"http://" + baseURL + ID + "/" + ...`, with no extra `/` after the base URL,
because the base URL already ends in `/`. This is what the expected URLs of
TestUploadWorks show.

## Model

| member | source | states |
|---|---|---|
| BaseURL.GetBaseURL | pkg/nexus/nexus_test.go:58-80 | succeeds exactly when host, repository and group id are non-empty and the version is "nexus2" or "nexus3"; otherwise it reports the first bad argument in the order host, version, repository, group id |
| BaseURL.BaseURLLayout | pkg/nexus/nexus_test.go:58-68 | a base URL is the host, then "/content/repositories/" for nexus2 or "/repository/" for nexus3, then the repository, "/", the group id with dots as slashes, and a trailing "/" |
| BaseURL.GroupPathNoDot | pkg/nexus/nexus_test.go:58-68 | GroupPath: every '.' of the group id becomes '/'; the path has the group id's length, holds no '.', and keeps every other character in place |
| BaseURL.GroupPathRoundTrip | pkg/nexus/nexus_test.go:58-68 | a group id without '/' is recovered from its path |
| BaseURL.BaseURLDots | pkg/nexus/nexus_test.go:58-68 | a '.' in the base URL can only come from host or repository: every dot of the group id became a '/' |
| BaseURL.SensibleBaseURLNexus2 | pkg/nexus/nexus_test.go:58-62 | the Nexus 2 example gives "localhost:8081/nexus/content/repositories/maven-releases/some/group/id/" |
| BaseURL.SensibleBaseURLNexus3 | pkg/nexus/nexus_test.go:64-68 | the Nexus 3 example gives "localhost:8081/repository/maven-releases/some/group/id/" |
| Registry.ValidateArtifact | pkg/nexus/nexus_test.go:27-34 | a description passes exactly when id and file are non-empty; an empty id is reported before an empty file |
| Registry.WithArtifact | pkg/nexus/nexus_test.go:13-43 | a new id is appended at the end with all fields as given; an id already present leaves the list as it is; the old entries stay in place; the ids afterwards are the old ids plus the new one |
| Registry.WithArtifactValid | pkg/nexus/nexus_test.go:36-43 | registering a well-formed artifact keeps the ids unique and every entry well formed |
| Registry.WithArtifactIdempotent | pkg/nexus/nexus_test.go:36-43 | a second registration under an id already present changes nothing |
| Transport.HttpMock.constructor | pkg/nexus/nexus_test.go:147-153 | a mock starts with its reply script, index 0 and no recorded requests |
| Transport.HttpMock.SendRequest | pkg/nexus/nexus_test.go:155-166 | the request is appended to the record; the answer is the reply at the current index; the index advances by one; the script is unchanged |
| Execution.ArtifactNameLayout | pkg/nexus/nexus_test.go:193-196 | ArtifactName: the remote file name is `<ID>-<version>[-<Classifier>].<Type>`; the classifier part is present only for a non-empty classifier (an assumption, see Left out) |
| Execution.ArtifactURLParts | pkg/nexus/nexus_test.go:193-196 | ArtifactURL: the upload URL is "http://", the base URL, the id, '/', the version, '/', then the remote file name |
| Execution.Plan | pkg/nexus/nexus_test.go:173-197 | in a run where nothing fails, artifact i owns the three requests at positions 3i to 3i+2 |
| Execution.PlanAppend | pkg/nexus/nexus_test.go:173-197 | the plan of two artifact lists in a row is the first list's plan followed by the second's |
| Execution.PlanRequestsOfArtifact | pkg/nexus/nexus_test.go:189-196 | the three requests of artifact i are PUTs: to its URL plus ".md5" with the MD5 digest, to its URL plus ".sha1" with the SHA1 digest, then to its URL with the file bytes |
| Execution.Send | pkg/nexus/nexus_test.go:199-216 | requests go out in order and stop right after the first failed reply; it passes exactly when every reply succeeded; a failure names the URL of the last request sent, and every earlier reply was a success |
| Execution.UploadEach | pkg/nexus/nexus_test.go:173-216 | at most three requests per artifact, all PUTs; a failure is a read error or an upload error |
| Execution.Execute | pkg/nexus/nexus_test.go:106-135 | a missing base URL, then a missing version, then an empty artifact list are each reported exactly when they are the first thing missing, and then nothing is sent; every request is a PUT, at most three per artifact |
| Execution.UploadSendsPlanPrefix | pkg/nexus/nexus_test.go:173-216 | whatever the replies, what a run sent is a prefix of the plan: nothing out of order, nothing repeated |
| Execution.UploadEachSplit | pkg/nexus/nexus_test.go:173-216 | after i artifacts whose replies all succeeded, the run is their plan followed by the run of the remaining artifacts on the remaining replies |
| Execution.UploadSucceeds | pkg/nexus/nexus_test.go:173-197 | a run passes exactly when every file can be read and all 3·n replies succeed, and it then sent the whole plan |
| Execution.UploadStopsAtFirstFailure | pkg/nexus/nexus_test.go:199-216 | if reply k is the first failure, the run sent exactly the first k+1 planned requests and failed with the URL of request k |
| Execution.FailsInFirst | pkg/nexus/nexus_test.go:199-216 | a failed reply among the first artifact's three ends the run right after that request |
| Execution.UploadReadFailure | pkg/nexus/nexus_test.go:173-216 | a file that cannot be read stops the run with a read error, after the earlier artifacts' plan and before any request of its own |
| Nexus.Upload.constructor | pkg/nexus/nexus_test.go:13-14 | an empty session has no base URL, no version and no artifacts |
| Nexus.Upload.SetBaseURL | pkg/nexus/nexus_test.go:70-80 | it stores getBaseURL's result when that succeeds; otherwise it returns that error and keeps the previous base URL |
| Nexus.Upload.SetArtifactsVersion | pkg/nexus/nexus_test.go:82-92 | an empty version is refused and the old one kept; any other version is stored |
| Nexus.Upload.ContainsArtifact | pkg/nexus/nexus_test.go:36-43 | returns true exactly when an entry with the artifact's id is registered |
| Nexus.Upload.AddArtifact | pkg/nexus/nexus_test.go:13-43 | returns the validation result; a valid artifact turns the list into WithArtifact of the old list; an invalid one leaves the list unchanged; unique ids are kept |
| Nexus.Upload.GetArtifacts | pkg/nexus/nexus_test.go:45-56 | returns a freshly allocated array holding the registered list, so writes into it cannot reach the session |
| Nexus.Upload.UploadArtifacts | pkg/nexus/nexus_test.go:106-216 | the outcome and the requests appended to the client are those of Execute on the client's pending replies; the client's index advances by the number of requests sent |
| Nexus.UploadEachArtifact | pkg/nexus/nexus_test.go:173-216 | the loop over the artifacts sends exactly what UploadEach does on the client's pending replies and returns its outcome |
| Nexus.PutArtifact | pkg/nexus/nexus_test.go:189-196 | the three PUTs of one artifact go through the client as Send does: .md5, then .sha1, then the file, returning at the first failure |
| Nexus.ConfiguredSession | pkg/nexus/nexus_test.go:180-183 | the session of the upload tests has the Nexus 3 base URL for maven-releases and my.group.id, version "1.0", and the single pom artifact |
| Nexus.ArtifactURLLayout | pkg/nexus/nexus_test.go:193-195 | an artifact URL is "http://", the base URL's parts, the id, "/", the version, "/", and the remote file name |
| Nexus.UploadTestArtifactURL | pkg/nexus/nexus_test.go:193-195 | the test's artifact has the URL "http://localhost:8081/repository/maven-releases/my/group/id/artifact.id/1.0/artifact.id-1.0.pom" |
| Nexus.UploadWorksRun | pkg/nexus/nexus_test.go:173-197 | three successful replies give exactly three PUTs, to the .md5 URL, the .sha1 URL and the file URL of the test, and the run passes |
| Nexus.UploadFailsRun | pkg/nexus/nexus_test.go:199-216 | a failed second reply gives exactly two PUTs, .md5 then .sha1, and fails naming the .sha1 URL |

## Left out

- The MD5 and SHA1 algorithms are library code. They are uninterpreted functions in `Digests`.
- Reading files from disk is replaced by a map from path to bytes. A path missing from the map is a read error.
- The real HTTP client is foreign I/O and is left out. So is `SetOptions` with its credentials (pkg/nexus/nexus_test.go:103-104, 168-171).
- A reply is only success or failure. Status strings such as "404 OK" are not parsed, and a transport error and a non-success status are treated alike.
- Transport.HttpMock.SendRequest: a request past the end of the reply script is answered with a failure, where the Go mock indexes out of range and panics. The records keep the request body too, which the Go mock does not store.
- UploadNoInitScenarios uses the recording mock rather than the always-successful `simpleHttpMock` (pkg/nexus/nexus_test.go:94-104). No request is sent in those cases, so nothing depends on the difference.
- `AddArtifactsFromJSON` is left out. It is a JSON adapter over `AddArtifact` whose code is not available.
- The exact error-message text is left out. Errors are datatype values that tell every case apart.
- The artifact URL always uses the scheme `http://`. A base URL that already carries its own scheme is not recognised.
- Registry.ValidateArtifact: the artifact's Type is not checked. Only id and file are required.
- Registry.ValidateArtifact: reporting an empty id before an empty file is the model's assumption. The test at pkg/nexus/nexus_test.go:27-34 has only the id empty, so it does not fix which error wins when both are empty.
- Nexus.Upload.SetBaseURL / SetArtifactsVersion: keeping the previous value after a refused call is the model's assumption. The tests at pkg/nexus/nexus_test.go:70-92 never read the session after an error.
- BaseURL.GetBaseURL: the order of the checks (host, then version, then repository, then group id) is the model's assumption. Each call at pkg/nexus/nexus_test.go:72-79 has exactly one bad argument, so the tests do not fix which error wins when several arguments are bad.
- Execution.ArtifactName: the `-<Classifier>` segment for a non-empty classifier is the model's assumption. The tests only use an empty classifier.
- Execution.UploadEach: each artifact's file is read once, before its three PUTs, and an unreadable file is a read error. This is the model's assumption; the tests do not exercise file reading.
