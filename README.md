# Azure DevOps provider adapter — a verified model

This project models `AzureDevOpsServiceImpl`, the adapter that maps the Azure DevOps REST API onto generic
provider values: `Repository`, `Branch`, `User` and `SuggestedTask`. The adapter walks the
organization → project → repository / work-item hierarchy one request at a time. It absorbs failures per
branch of that walk and returns whatever it has collected.

How the model is laid out:

- **`Service.AzureDevOpsService`** is the adapter itself. It is a class holding the normalised base URL, the
  token, the identifier hash and a `Transport`.
  - A `Transport` is the HTTP layer. It keeps a queue of canned replies and a log of sent requests: the k-th
    request ever sent receives the k-th reply, and an error or an exhausted queue is a failure.
  - Each method of the adapter is a method of the class. Loops stay loops. A list the source appends to in
    place stays a `ListBuffer` object. Items appended before an exception therefore stay in the caller's list,
    exactly as in the source.
  - Every method is proved against a function in `Walks`: the method's result and the request log it leaves
    equal that function of the log it started from.
- **`Walks`** states each operation as a function of the configuration and the log. Loops become per-element
  step functions, and an `Acc` records the items appended, the log and whether an exception escaped.
- **`Properties`** proves what the adapter promises about those functions, as all-inputs lemmas:
  - which requests each operation may send;
  - the shape of every record it emits;
  - which failures are contained, and which discard earlier results.
- **Pure parts** have their own modules: base-URL normalisation (`BaseUrl`), the `urlparse` host name that
  supplies organisation display names (`UrlHost`), the Basic authorization header (`Auth`, with a base64
  round trip), the `org/project/repo` name format (`RepoNames`) and the work-item type mapper (`Types`).
  `Strings` and `JsonModel` are the helpers these modules need.

Python's `hash` is salted per process, so identifier hashing is a parameter `hash: Json -> int`. The model
keeps `& 0x7FFFFFFF` as the Euclidean remainder modulo 2^31, which is the same for every integer.

Two behaviours of the source are worth stating plainly:

- **Malformed organisation entry.** On the default base, an account entry that is not a dict makes `.get`
  raise inside the organisation loop of `get_repositories`. That exception is not caught per organisation:
  it reaches the outer handler, which returns `[]` and so discards every repository collected before it
  (lines 473-495). `Properties.MalformedOrganizationDiscardsRepositories` states this.
- **Identifier hash.** Repository and user ids come from the built-in `hash`, which is salted per process,
  so the model takes the hash as a parameter and promises nothing about ids across processes.

## Model

| member | source | states |
|---|---|---|
| BaseUrl.NormalizeBaseUrl | openhands/integrations/azure_devops/azure_devops_service.py:44-59 | no base domain (or an empty one) gives `https://dev.azure.com`; a domain not starting with "http" gets `https://` prefixed; an "http…" domain that has no "://" once trailing '/' are removed raises IndexError, and that is the only failure |
| BaseUrl.NormalizeTruncatesToSchemeHost | openhands/integrations/azure_devops/azure_devops_service.py:45-55 | `scheme://host` followed by nothing or by any '/'-path (trailing slashes included) normalises to exactly `scheme://host` |
| BaseUrl.NormalizeKeepsSchemeAndHost | openhands/integrations/azure_devops/azure_devops_service.py:45-55 | for any "http…" domain whose first "://" follows a slash-free scheme, the result is that scheme, "://" and the first '/'-segment after it |
| BaseUrl.NormalizeIdempotent | openhands/integrations/azure_devops/azure_devops_service.py:44-59 | for an "http…" URL `scheme://host` followed by nothing or a '/'-path, normalising the result once more leaves it unchanged |
| BaseUrl.NormalizeTwiceDropsPath | openhands/integrations/azure_devops/azure_devops_service.py:44-59 | outside "http…" domains normalising is not idempotent: `host/path` becomes `https://host/path`, which normalises to `https://host` |
| BaseUrl.NormalizeExampleWithPath | openhands/integrations/azure_devops/azure_devops_service.py:46-53 | the scheme `https`, host `org.visualstudio.com` and path `/project` normalise to `https://org.visualstudio.com` |
| BaseUrl.NormalizeRejectsMissingSeparator | openhands/integrations/azure_devops/azure_devops_service.py:49 | an "http…" domain without "://" (`httpbin.org`) makes the constructor raise IndexError |
| UrlHost.OrgDisplayName | openhands/integrations/azure_devops/azure_devops_service.py:198-212 | the organisation name used in repository and task names never contains '/' |
| UrlHost.OrgNameOnDefaultBase | openhands/integrations/azure_devops/azure_devops_service.py:198-202 | on the default base, the organisation URL `base/name` displays as `name` |
| UrlHost.OrgNameOfDefaultBase | openhands/integrations/azure_devops/azure_devops_service.py:198-202 | the default base itself displays as `DefaultCollection` |
| UrlHost.OrgNameOnCustomHost | openhands/integrations/azure_devops/azure_devops_service.py:203-212 | on a custom base, `scheme://host` displays as the first '.'-label of the lower-cased host |
| UrlHost.OrgNameWithoutHost | openhands/integrations/azure_devops/azure_devops_service.py:203-212 | on a custom base, an organisation URL with no network location displays as `DefaultCollection` |
| Auth.AuthHeaders | openhands/integrations/azure_devops/azure_devops_service.py:69-82 | fails exactly when the token is missing or empty, with AuthenticationError("No Azure DevOps token provided"); otherwise the content type is `application/json` |
| Auth.AuthHeadersCarryToken | openhands/integrations/azure_devops/azure_devops_service.py:76-80 | the authorization header is "Basic " followed by text that base64-decodes to exactly the UTF-8 bytes of ":" + token |
| Auth.Base64RoundTrip | openhands/integrations/azure_devops/azure_devops_service.py:77 | base64 decoding inverts the encoding the header uses, for every byte sequence |
| Types.MapWorkItemTypeToTaskType | openhands/integrations/azure_devops/azure_devops_service.py:437-450 | every work-item type label, known or not, maps to OPEN_ISSUE |
| Types.DistinctKindsCollapse | openhands/integrations/azure_devops/azure_devops_service.py:439-450 | the mapper does tell bug, story, task and unknown labels apart, yet every group maps to the same task type |
| Types.WorkItemKindIgnoresCase | openhands/integrations/azure_devops/azure_devops_service.py:439 | the grouping ignores case: a label and its lower-case form fall in the same group |
| RepoNames.ParseRepoName | openhands/integrations/azure_devops/azure_devops_service.py:543-549 | succeeds exactly when the name splits into three '/'-parts, and then the parts are slash-free and rebuild the name; otherwise ValueError with the format message |
| RepoNames.FullNameRoundTrip | openhands/integrations/azure_devops/azure_devops_service.py:543-549 | a name built from three slash-free parts parses back into exactly those parts |
| RepoNames.ParseAcceptsExactlyFullNames | openhands/integrations/azure_devops/azure_devops_service.py:543-547 | a name parses if and only if it is `org/project/repo` for some slash-free parts |
| Walks.HashId | openhands/integrations/azure_devops/azure_devops_service.py:221-224 | a repository id hashes to a value in [0, 2^31), and fails exactly for unhashable lists and dicts |
| Walks.CommitRepositoryId | openhands/integrations/azure_devops/azure_devops_service.py:379-383 | the repository id taken from a commit URL is a single '/'-segment |
| Walks.WorkItemIds | openhands/integrations/azure_devops/azure_devops_service.py:278 | fails exactly when some WIQL work item is not a dict or has no `id`; otherwise the k-th id is the k-th item's `id`, one per item |
| Service.AzureDevOpsService.Create | openhands/integrations/azure_devops/azure_devops_service.py:28-59 | construction fails exactly when base-URL normalisation raises; otherwise the new service's base URL is the normalised one |
| Service.AzureDevOpsService.MakeRequest | openhands/integrations/azure_devops/azure_devops_service.py:84-107 | without a token nothing is sent and the call fails; otherwise exactly the one request is logged and its reply returned |
| Service.AzureDevOpsService.GetUser | openhands/integrations/azure_devops/azure_devops_service.py:109-172 | the result and the requests sent are those of the connection-data, profile and token-probe fallback chain |
| Service.AzureDevOpsService.AppendRepoEntries | openhands/integrations/azure_devops/azure_devops_service.py:219-233 | appends the repositories of the listing's entries in order, up to the first entry that raises; those before it stay appended |
| Service.AzureDevOpsService.ProcessProject | openhands/integrations/azure_devops/azure_devops_service.py:190-238 | one project: skipped without id or name; otherwise its repositories are appended; a raise leaves the list and log untouched |
| Service.AzureDevOpsService.ProcessProjects | openhands/integrations/azure_devops/azure_devops_service.py:186-238 | the caller's list grows by exactly the repositories of the project walk, and the loop stops where a project raises |
| Service.AzureDevOpsService.OrgRepos | openhands/integrations/azure_devops/azure_devops_service.py:460-469 | one organisation: list its projects, then process them; any failure is absorbed |
| Service.AzureDevOpsService.ProcessOrganization | openhands/integrations/azure_devops/azure_devops_service.py:475-489 | one account entry: skipped without accountName; otherwise that organisation's repositories are appended |
| Service.AzureDevOpsService.AccountRepos | openhands/integrations/azure_devops/azure_devops_service.py:471-495 | default base: accounts, then each organisation; any escaping failure gives [] |
| Service.AzureDevOpsService.GetRepositories | openhands/integrations/azure_devops/azure_devops_service.py:452-495 | the repositories returned and the requests sent are those of the custom-base or account walk |
| Service.AzureDevOpsService.GetRepositoryNameFromId | openhands/integrations/azure_devops/azure_devops_service.py:404-414 | one lookup by id in the work item's organisation and project; the reply's `name`, or none on failure |
| Service.AzureDevOpsService.GetProjectRepositories | openhands/integrations/azure_devops/azure_devops_service.py:416-435 | the truthy repository names of the project, in order, or [] on any failure |
| Service.AzureDevOpsService.GetWorkItemRepositoryAssociation | openhands/integrations/azure_devops/azure_devops_service.py:363-402 | the repository label of the first commit link whose lookup names a repository, else the project's first repository, else none |
| Service.AzureDevOpsService.ProcessWorkItem | openhands/integrations/azure_devops/azure_devops_service.py:326-358 | one work item: appends its task when the association names a repository; a failure is absorbed |
| Service.AzureDevOpsService.ProcessWorkItems | openhands/integrations/azure_devops/azure_devops_service.py:293-361 | the caller's list grows by exactly the tasks of the work-item walk |
| Service.AzureDevOpsService.ProjectWorkItems | openhands/integrations/azure_devops/azure_devops_service.py:266-288 | one project: WIQL query, then its work items; an empty result stops there |
| Service.AzureDevOpsService.WorkItemProject | openhands/integrations/azure_devops/azure_devops_service.py:249-288 | one project entry: skipped without a name; otherwise its tasks are appended |
| Service.AzureDevOpsService.GetWorkItemsForOrganization | openhands/integrations/azure_devops/azure_devops_service.py:240-291 | the caller's list grows by exactly the tasks of the organisation's project walk |
| Service.AzureDevOpsService.TaskOrganization | openhands/integrations/azure_devops/azure_devops_service.py:522-528 | one account entry: skipped without accountName; otherwise that organisation's tasks are appended |
| Service.AzureDevOpsService.AccountTasks | openhands/integrations/azure_devops/azure_devops_service.py:517-530 | default base: accounts, then each organisation; the tasks found before a failure are kept |
| Service.AzureDevOpsService.GetSuggestedTasks | openhands/integrations/azure_devops/azure_devops_service.py:497-536 | the tasks returned and the requests sent are those of the user lookup followed by the work-item walk |
| Service.AzureDevOpsService.GetRepositoryDetailsFromRepoName | openhands/integrations/azure_devops/azure_devops_service.py:538-564 | the result and the requests sent are those of the single-repository lookup |
| Service.AzureDevOpsService.CollectBranches | openhands/integrations/azure_devops/azure_devops_service.py:588-600 | the branches built by the loop are the branches of the ref listing, or none when a ref raises |
| Service.AzureDevOpsService.GetBranches | openhands/integrations/azure_devops/azure_devops_service.py:566-604 | the result and the requests sent are those of the refs lookup |
| Properties.UserWithoutToken | openhands/integrations/azure_devops/azure_devops_service.py:69-72 | without a token `get_user` sends nothing and fails with "Invalid Azure DevOps token" |
| Properties.UserTiers | openhands/integrations/azure_devops/azure_devops_service.py:109-172 | at most three requests (two on the default base); the only failure is the invalid-token error, and a failure with a token comes right after the probe request |
| Properties.UserFallsBackToProbe | openhands/integrations/azure_devops/azure_devops_service.py:134-169 | on the default base, when the profile call fails and the probe answers, the result is the fixed `ado-user` user after exactly those two requests |
| Properties.CustomBaseFallsBackToProbe | openhands/integrations/azure_devops/azure_devops_service.py:114-169 | on a custom base, failed connection-data and profile calls and an answering project probe give the fixed `ado-user` user after exactly those three requests |
| Properties.UserFromConnectionData | openhands/integrations/azure_devops/azure_devops_service.py:114-130 | on a custom base, connection data with a non-empty `authenticatedUser` gives the user after that one request: the masked hash of its id, its display name as login, name and email |
| Properties.UserFromProfile | openhands/integrations/azure_devops/azure_devops_service.py:134-148 | on the default base, a profile with string email and name and a readable avatar path gives the user after that one request: the masked hash of its id, the email as login and email, that avatar |
| Properties.AvatarFromCoreAttributes | openhands/integrations/azure_devops/azure_devops_service.py:142-145 | the avatar is the string at `coreAttributes.Avatar.value.value` |
| Properties.AvatarDefaultsEmpty | openhands/integrations/azure_devops/azure_devops_service.py:142-145 | without `coreAttributes` the avatar is the empty string |
| Properties.RepoEntriesShape | openhands/integrations/azure_devops/azure_devops_service.py:219-233 | at most one repository per entry, each private, with a 31-bit id and named `org/project/…` |
| Properties.RepoEntryOfListing | openhands/integrations/azure_devops/azure_devops_service.py:219-233 | an entry builds exactly when it is a dict with a hashable `id` and a renderable `name`, and is then the private repository `org/project/name` with the masked hash of that id |
| Properties.RepoEntriesInOrder | openhands/integrations/azure_devops/azure_devops_service.py:219-233 | a listing's repositories are its entries' repositories in listing order, one per entry, stopping exactly at the first entry that raises |
| Properties.AllRepoEntriesKept | openhands/integrations/azure_devops/azure_devops_service.py:219-233 | when every entry builds, the project contributes one repository per entry, the k-th from the k-th entry |
| Properties.ListedProjectAppends | openhands/integrations/azure_devops/azure_devops_service.py:190-233 | a project with a truthy id and name whose listing answers appends that listing's repositories after what the list holds, after one request, and the walk continues |
| Properties.ProjectsLoopShape | openhands/integrations/azure_devops/azure_devops_service.py:186-238 | every repository `_process_projects` appends is named under the organisation's display name |
| Properties.ProjectsWithoutIdOrNameSkipped | openhands/integrations/azure_devops/azure_devops_service.py:191-195 | a project without a truthy id or name, wherever it stands among the others, sends nothing, appends nothing, and the walk goes on with the next project |
| Properties.ProjectsLoopKeepsEarlier | openhands/integrations/azure_devops/azure_devops_service.py:186-238 | what the caller's list already holds stays in front, unchanged |
| Properties.FailedProjectContinues | openhands/integrations/azure_devops/azure_devops_service.py:214-238 | a project whose repository listing fails contributes nothing, and the walk goes on with the next project |
| Properties.NonDictOrganizationRaises | openhands/integrations/azure_devops/azure_devops_service.py:475-478 | an account entry that is not a dict makes the organisation loop raise |
| Properties.FailedOrganizationContinues | openhands/integrations/azure_devops/azure_devops_service.py:475-489 | on the default base, an organisation whose project listing fails contributes nothing and the walk continues with the next organisation |
| Properties.ListedOrganizationAppends | openhands/integrations/azure_devops/azure_devops_service.py:475-489 | on the default base, an organisation with a truthy, renderable `accountName` appends its repositories after what the list holds, and the walk continues with the next organisation |
| Properties.NoTokenNoRepositories | openhands/integrations/azure_devops/azure_devops_service.py:452-495 | without a token `get_repositories` sends nothing and returns [] |
| Properties.FailedAccountListingEmpty | openhands/integrations/azure_devops/azure_devops_service.py:471-495 | on the default base, a failed account listing makes `get_repositories` return [] after that one request |
| Properties.MalformedOrganizationDiscardsRepositories | openhands/integrations/azure_devops/azure_devops_service.py:471-495 | such an entry reaches the outer handler, and `get_repositories` returns [] even when repositories were collected |
| Properties.RepoOrgsLoopShape | openhands/integrations/azure_devops/azure_devops_service.py:475-489 | every repository of the organisation loop is private with a 31-bit id |
| Properties.RepositoriesShape | openhands/integrations/azure_devops/azure_devops_service.py:452-495 | every repository returned is private with a 31-bit id; on a custom base each is named under the base's own organisation name |
| Properties.CommitUrlNamesRepository | openhands/integrations/azure_devops/azure_devops_service.py:379-383 | in a commit URL, the segment after the first "repositories" segment is the id used, whatever follows |
| Properties.ScanRequests | openhands/integrations/azure_devops/azure_devops_service.py:371-389 | the relation scan only adds lookups by id in the item's own organisation and project, at most one per relation, and a name it finds is truthy |
| Properties.NoCommitLinkNoLookup | openhands/integrations/azure_devops/azure_devops_service.py:371-376 | relations that are not commit links send nothing and find nothing |
| Properties.FailedLookupMovesOn | openhands/integrations/azure_devops/azure_devops_service.py:385-389 | a failed lookup moves the scan on to the next relation, with only its request added to the log |
| Properties.ScanSkipsNonLinks | openhands/integrations/azure_devops/azure_devops_service.py:371-376 | relations that are not commit links are passed over, with no request |
| Properties.CommitLinkWins | openhands/integrations/azure_devops/azure_devops_service.py:371-389 | when the first commit link's lookup names a repository, that repository's label is the association, after that one lookup and without listing the project's repositories |
| Properties.RepoNamesShape | openhands/integrations/azure_devops/azure_devops_service.py:424-430 | the fallback names are exactly the names held so far followed by the truthy `name` fields of the remaining entries, in listing order |
| Properties.RepoNamesRaise | openhands/integrations/azure_devops/azure_devops_service.py:424-427 | the fallback loop raises exactly when a remaining entry is not a dict |
| Properties.RepoNamesInOrder | openhands/integrations/azure_devops/azure_devops_service.py:424-430 | the fallback loop appends the truthy names of the remaining entries, in listing order |
| Properties.RepoNamesOfDicts | openhands/integrations/azure_devops/azure_devops_service.py:424-430 | on a listing of dicts the fallback loop yields exactly their truthy names |
| Properties.ProjectRepositoriesNames | openhands/integrations/azure_devops/azure_devops_service.py:416-435 | `_get_project_repositories` on a listing of dicts returns their truthy names in order, after that one request |
| Properties.AssociationLabels | openhands/integrations/azure_devops/azure_devops_service.py:363-402 | every label the association returns is `org/project/name` for the item's own organisation and project |
| Properties.AssociationFallback | openhands/integrations/azure_devops/azure_devops_service.py:391-397 | without commit links the association is the project's first repository name, or none when the project has none |
| Properties.ProcessItemShape | openhands/integrations/azure_devops/azure_devops_service.py:326-352 | a work item yields at most one task: an open Azure DevOps issue with the item's id and title ("Untitled Work Item" when missing), in a repository of its project |
| Properties.ItemTask | openhands/integrations/azure_devops/azure_devops_service.py:326-352 | a work item yields a task exactly when its fields are a dict, the association names a repository, its id is an integer and title and type are strings; the task is then the open issue with that id and title in that repository |
| Properties.AssociatedItemAppendsTask | openhands/integrations/azure_devops/azure_devops_service.py:326-352 | an associated, well-formed work item appends exactly its task after what the list holds, and the loop continues with the next item |
| Properties.UnassociatedItemSkipped | openhands/integrations/azure_devops/azure_devops_service.py:333-338 | a work item without an associated repository appends nothing; only the association's requests are added |
| Properties.ProcessItemsLoopOrder | openhands/integrations/azure_devops/azure_devops_service.py:326-358 | the tasks the item loop appends follow the work items' order, each carrying the id of a distinct item |
| Properties.ProcessItemsLoopShape | openhands/integrations/azure_devops/azure_devops_service.py:326-358 | the item loop keeps what the list held, appends at most one task per item, in the items' order and carrying each item's id, each in a repository of the walked project |
| Properties.ProcessWorkItemsShape | openhands/integrations/azure_devops/azure_devops_service.py:293-361 | every task `_process_work_items` appends is an open issue named under the organisation's display name |
| Properties.EmptyWiqlStops | openhands/integrations/azure_devops/azure_devops_service.py:273-275 | a WIQL reply without work items appends nothing and sends nothing more |
| Properties.WiqlHandsIdsOn | openhands/integrations/azure_devops/azure_devops_service.py:268-282 | a WIQL reply listing work items with ids hands exactly those ids to `_process_work_items`, after that one request |
| Properties.DetailsRunItemLoop | openhands/integrations/azure_devops/azure_devops_service.py:301-326 | a details reply listing work items hands them, in order, to the item loop after that one request |
| Properties.ProjectWorkItemsChain | openhands/integrations/azure_devops/azure_devops_service.py:266-358 | one project's tasks are those of the item loop over the details reply, after exactly the WIQL and details requests |
| Properties.WorkItemProjectsLoopShape | openhands/integrations/azure_devops/azure_devops_service.py:249-288 | the project loop keeps earlier tasks and appends only open issues of the organisation |
| Properties.NamedProjectAppendsTasks | openhands/integrations/azure_devops/azure_devops_service.py:249-288 | a project with a string name appends its tasks after what the list holds, and the project loop continues with the next project |
| Properties.WorkItemsForOrgShape | openhands/integrations/azure_devops/azure_devops_service.py:240-291 | every task appended for an organisation is an open issue of that organisation |
| Properties.WorkItemsForOrgLog | openhands/integrations/azure_devops/azure_devops_service.py:240-291 | the organisation walk only adds requests to the log |
| Properties.ProcessWorkItemsLog | openhands/integrations/azure_devops/azure_devops_service.py:293-361 | the work-item walk only adds requests to the log |
| Properties.TaskOrgsLoopKeepsTasks | openhands/integrations/azure_devops/azure_devops_service.py:519-532 | the account loop of `get_suggested_tasks` keeps every task found before a raising entry, and adds only open Azure DevOps issues |
| Properties.ListedTaskOrganizationAppends | openhands/integrations/azure_devops/azure_devops_service.py:519-528 | on the default base, an organisation with a truthy, renderable `accountName` appends its tasks after what the list holds, and the walk continues with the next organisation |
| Properties.NoEmailNoTasks | openhands/integrations/azure_devops/azure_devops_service.py:503-508 | when `get_user` fails or gives no email, the result is [] and nothing is sent after the user lookup |
| Properties.MalformedNameRaisesFirst | openhands/integrations/azure_devops/azure_devops_service.py:543-547 | both single-repository operations raise ValueError if and only if the name is not three '/'-parts, and then before any request |
| Properties.BranchesRequest | openhands/integrations/azure_devops/azure_devops_service.py:575-586 | for a well-formed name, `get_branches` sends exactly the one refs request for that organisation, project and repository, and does not fail |
| Properties.BranchesFailureEmpty | openhands/integrations/azure_devops/azure_devops_service.py:588-604 | a refs request that fails makes `get_branches` return no branches rather than an error |
| Properties.RepositoryDetailsOutcome | openhands/integrations/azure_devops/azure_devops_service.py:553-564 | success returns the very name given, private, with the API's own id; failure is AuthenticationError("Cannot access repository " + name) |
| Properties.BranchesShape | openhands/integrations/azure_devops/azure_devops_service.py:588-598 | at most one branch per ref, each with a non-empty name and never protected |
| Properties.BranchesOfConcatenation | openhands/integrations/azure_devops/azure_devops_service.py:589-600 | branches keep the API's order: the branches of two listings in a row are the first's followed by the second's |
| Properties.HeadRefBranch | openhands/integrations/azure_devops/azure_devops_service.py:590-597 | a ref named `refs/heads/<name>` becomes the unprotected branch `<name>` at its objectId |

## Left out

- The HTTP transport, status-to-exception translation, the `Link` header and logging are left out. A request
  is an abstract descriptor, and its reply is either a decoded body or a failure.
- Exact URL text, `quote` escaping, query strings, API versions and the WIQL query text are left out. A
  request records only the organisation, project, repository, ids or e-mail that it is about.
- Python's `hash` is a parameter, because it is salted per process.
- `str()` of a list or dict inside an f-string is treated as a failure at that point rather than rendered
  with `repr`.
- Pydantic's lax coercions are not modelled. An integer field needs a JSON integer, a string field needs a
  JSON string, and anything else is a validation failure.
- JSON floats are not modelled; numbers are integers.
- Lower-casing is ASCII-only, in the work-item type mapper and in `urlparse` host names.
- `urlparse` is simplified: scheme detection, the `//` network location, user info, brackets, port and zone
  are kept. Unsafe-character stripping and the ValueError for malformed IPv6 hosts are not modelled.
- A base domain that does not start with "http" is prefixed with `https://` and otherwise kept whole, path
  included, as the source does.
- The constructor fields `user_id`, `external_auth_id`, `external_auth_token` and `external_token_manager`
  are stored by the source but never read by the modelled operations, so they are not modelled.
- `search_repositories` always returns [] and `get_latest_token` returns the token unchanged. Neither is
  part of this model.
- `sort` and `app_mode` of `get_repositories` are never read by the source, so they are not parameters.
- Service.AzureDevOpsService.GetRepositoryDetailsFromRepoName: the API's `id` value is kept as given
  (`Native`), without modelling pydantic's validation of that value.
- The file-to-prompt helper elsewhere in the repository is not part of this model.
