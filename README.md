# Presslabs dashboard: a Dafny model of its core logic

The Presslabs dashboard manages WordPress hosting on Kubernetes. An
organization holds projects, and a project holds sites. The system has
four parts, and this project models the logic of each:

- **The browser's resource store** (TypeScript, redux).
  - A generic reducer folds the LIST, GET, CREATE, UPDATE and DESTROY
    replies of the gRPC API into a name-keyed entity table.
  - Action types are derived from gRPC method names such as
    `createOrganization`.
  - A small reducer tracks the requests in flight.
  - The organizations, projects and sites slices add a selected
    organization, a reset on organization deletion and prefix filters.
  - The gRPC-Web transport frames each request with a flag byte and a
    big-endian length, and reads the `grpc-status` trailer.
- **The API server** (Go, gRPC).
  - Resolves fully-qualified names (`orgs/O`, `project/P`, `project/P/site/S`).
  - Builds Kubernetes objects for organizations, projects and sites.
  - Applies field-mask updates to sites.
  - Lists what a user created or is a member of.
  - Maps Kubernetes errors to gRPC status codes.
- **The shared naming and metadata helpers** (`pkg/internal/...`).
  - Component names and label sets.
  - The required-label and required-annotation validators.
  - The admission webhooks, which accept or reject objects with those
    validators.
- **The controllers' syncers.** Each syncer reconciles one Kubernetes
  object in place. Syncers exist for:
  - resource quotas;
  - the MySQL cluster and its secret;
  - the memcached service and stateful set;
  - the WordPress object;
  - the gitea service and deployment;
  - RBAC role bindings.

  The vendored controller-runtime `CreateOrUpdate` writes their results to
  the cluster, and `SetControllerReference` records ownership.

Pure code is modelled as datatypes, functions and lemmas. Code that
mutates objects in place is modelled as classes whose fields the methods
change: the syncers, the site update helpers, `CreateOrUpdate` and the
frame builder. Loops are modelled as methods with loop invariants, each
proved equal to a reference function; the function's properties are then
proved as lemmas. Calls into code outside this model are parameters of
the operations that use them:
- Kubernetes client reads and lookups;
- random string generators;
- `resource.ParseQuantity`;
- the `mergo` pod-spec merge;
- the decoders.

The Kubernetes API server's defaulting of RBAC subjects is modelled,
because the member lookup depends on it (`KubeRbac.DefaultSubject`).

Where the documented behaviour of the store and the code disagree, the
model follows the code. A LIST reply replaces each listed entry's stored
fields rather than keeping the old fields.

## Model

| member | source | states |
|---|---|---|
| `GrpcStore.FindIndex` | app/src/redux/grpc.ts:109 | lodash `findIndex` with `isEqual`: -1 exactly when no in-flight request equals the one given, otherwise the first position holding it |
| `GrpcStore.IsLoading` | app/src/redux/grpc.ts:133-136 | loading exactly when the list of ongoing requests is non-empty |
| `GrpcStore.InvokedAppends` | app/src/redux/grpc.ts:98-104 | INVOKED appends the request at the end, keeps every earlier entry in order, and the store is then loading |
| `GrpcStore.CompletionRemovesFirstEqual` | app/src/redux/grpc.ts:106-122 | SUCCEEDED and FAILED remove the first entry equal to the response's request and nothing else; an unknown request leaves the list as it was |
| `GrpcStore.DuplicateCompletionLeavesOne` | app/src/redux/grpc.ts:109-116 | with the same request in flight twice, one completion leaves exactly one copy, in place |
| `GrpcStore.InvokeThenCompleteRestores` | app/src/redux/grpc.ts:96-122 | invoking a request not yet in flight and then completing it (success or failure) restores the state |
| `GrpcStore.OtherActionsIgnored` | app/src/redux/grpc.ts:124-125 | every other action type leaves the state unchanged |
| `Transport.BigEndian32RoundTrip` | app/src/utils/grpc/transport.ts:92 | `setUint32(…, false)` writes four bytes, most significant first, that read back as the same 32-bit length |
| `Transport.FrameLayout` | app/src/utils/grpc/transport.ts:90-95 | a frame is five bytes longer than the payload: a zero flag byte, the payload length (modulo 2^32) big-endian, then the payload unchanged |
| `Transport.UnframeFrame` | app/src/utils/grpc/transport.ts:90-95 | reading a frame's header and body gives back exactly the payload (payloads under 2^32 bytes) |
| `Transport.FrameRequest` | app/src/utils/grpc/transport.ts:90-95 | the frame is a newly allocated array, so it never aliases the request bytes, and its in-place fill yields exactly the frame of those bytes |
| `Transport.FirstMessage` | app/src/utils/grpc/transport.ts:85-87 | `find` over the parsed chunks: present exactly when some chunk is a message chunk, and then it is one of them |
| `Transport.FirstMessageIsFirst` | app/src/utils/grpc/transport.ts:87 | the chunk found is the first message chunk in parse order |
| `Transport.ParseChunk` | app/src/utils/grpc/transport.ts:81-88 | an empty body yields no chunk; otherwise the first message chunk of the parsed body |
| `Transport.Decide` | app/src/utils/grpc/transport.ts:53-69 | the error callback is chosen exactly when the grpc-status is not OK, with the grpc-message; otherwise the data callback gets the first message's data, or no bytes when there is none |
| `Transport.SetMetadata` | app/src/utils/grpc/transport.ts:77-79 | the common header `key` holds the value afterwards and every other header is unchanged |
| `ApiStore.Words` | app/src/redux/api.ts:203 | lodash `snakeCase` word split: every word produced is a non-empty run of letters and digits; a new word starts at an upper-case letter after a lower-case letter or a digit, and between a letter and a digit |
| `ApiStore.SnakeTokens` | app/src/redux/api.ts:203 | splitting `snakeCase(m)` on `_` gives the lower-cased words of `m`, or the single empty string when `m` has no words |
| `ApiStore.SnakeCaseOfResource` | app/src/redux/api.ts:136 | `snakeCase` leaves each resource name (`organizations`, `projects`, `sites`) unchanged |
| `ApiStore.WordsOfLowerCase` | app/src/redux/api.ts:203 | a run of lower-case letters continues the current word and ends as a single word |
| `ApiStore.WordsSkipLower` | app/src/redux/api.ts:203 | lower-case letters extend the current word without closing it |
| `ApiStore.WordsOfCapitalized` | app/src/redux/api.ts:203 | each capitalised segment of a camel-case name becomes a word of its own |
| `ApiStore.WordsStartLower` | app/src/redux/api.ts:203 | a name starting with a lower-case letter starts its first word with that letter |
| `ApiStore.LowerWordFirst` | app/src/redux/api.ts:203 | a lower-case prefix becomes the first word in progress |
| `ApiStore.CamelCaseWords` | app/src/redux/api.ts:203 | the words of `first` followed by capitalised segments are exactly `first` then those segments |
| `ApiStore.DescriptorInjective` | app/src/redux/api.ts:198-200 | `createActionDescriptor` joins with `_` and never maps two (request, status) pairs to the same descriptor |
| `ApiStore.NamesHaveNoSeparator` | app/src/redux/api.ts:14-26 | request and status names contain no `_`, space or `/` |
| `ApiStore.RequestNameInjective` | app/src/redux/api.ts:14-20 | the five request values are pairwise distinct |
| `ApiStore.StatusNameInjective` | app/src/redux/api.ts:22-26 | the three status values are pairwise distinct |
| `ApiStore.ResourceNameInjective` | app/src/redux/api.ts:28-32 | the three resource values are pairwise distinct |
| `ApiStore.ActionTypesExact` | app/src/redux/api.ts:128-141 | the action-type table has exactly the 15 descriptors as keys, each mapped to `@ <resource> / <descriptor>` |
| `ApiStore.DescriptorCount` | app/src/redux/api.ts:43-63 | there are exactly 15 distinct descriptors |
| `ApiStore.ActionTypesDistinct` | app/src/redux/api.ts:136 | action type strings differ across resources and across descriptors, so no reducer reacts to another resource's actions |
| `ApiStore.TypeStringInjective` | app/src/redux/api.ts:136 | `@ n / d` determines both `n` and `d` when `n` has no space |
| `ApiStore.RequestByKey` | app/src/redux/api.ts:213 | `get(Request, key)`: a request is found only for its own enum key |
| `ApiStore.RequestFromFirstWord` | app/src/redux/api.ts:202-214 | the request of a method is `q` exactly when the first lower-cased word is `q`'s key, or `delete` for DESTROY |
| `ApiStore.ResourceFromLastWord` | app/src/redux/api.ts:216-227 | the resource of a method is `r` exactly when `r` is the plural or singular of its last lower-cased word |
| `ApiStore.RequestFromWords` | app/src/redux/api.ts:202-214 | a method with no words has no request; `delete` maps to DESTROY; otherwise the enum lookup of the first word |
| `ApiStore.ResourceFromWords` | app/src/redux/api.ts:216-227 | a method with no words has no resource; otherwise the resource found for its last word |
| `ApiStore.FindResourceUnique` | app/src/redux/api.ts:223-226 | `find` over the resources succeeds with `r` exactly when `r` matches the plural or singular of the word |
| `ApiStore.PluralSingularMatch` | app/src/redux/api.ts:223-226 | at most one resource matches a word, so the order `find` visits them in does not matter |
| `ApiStore.NameShape` | app/src/redux/api.ts:28-32 | every resource name ends in a single `s` |
| `ApiStore.CamelCaseDerivation` | app/src/redux/api.ts:202-227 | for a camel-case method name, the request comes from its first word and the resource from its last |
| `ApiStore.CreateOrganizationExample` | app/src/redux/api.ts:202-227 | `createOrganization` is a CREATE on `organizations` |
| `ApiStore.DeleteOrganizationExample` | app/src/redux/api.ts:209-210 | `deleteOrganization` is a DESTROY on `organizations` |
| `ApiStore.ListProjectExample` | app/src/redux/api.ts:216-227 | `listProject` is a LIST on `projects` (singular matched) |
| `ApiStore.ListFooExample` | app/src/redux/api.ts:223-226 | `listFoo` has no resource |
| `ApiStore.UpdateProjExample` | app/src/redux/api.ts:223-226 | `updateProj` has no resource: the last word must match a resource's plural or singular exactly |
| `ApiStore.InvalidMethodExample` | app/src/redux/api.ts:213 | `invalidMethod` has no request |
| `ApiStore.StatusFromAction` | app/src/redux/api.ts:229-235 | a status exists exactly for the three grpc action types |
| `ApiStore.EmitSpec` | app/src/redux/api.ts:170-196 | an action is re-emitted exactly when its method names this resource and a known request, and then with type `actionTypes[descriptor]` and the same payload |
| `ApiStore.Overlay` | app/src/redux/api.ts:89-92 | object spread: the entry's fields win, the previous object's other fields stay, the name is the entry's |
| `ApiStore.FoldListKeys` | app/src/redux/api.ts:87-93 | the listed entries fold into a table keyed by name, holding exactly the names listed |
| `ApiStore.ListedWithLast` | app/src/redux/api.ts:87-93 | a field is listed for a name in a longer list exactly when it was listed before or the last entry carries it |
| `ApiStore.FoldListFields` | app/src/redux/api.ts:87-93 | a folded entry has exactly the fields that some listed entry with that name carried |
| `ApiStore.FoldListValues` | app/src/redux/api.ts:87-93 | a field's folded value is the one from the last listed entry with that name carrying it |
| `ApiStore.FoldListSpec` | app/src/redux/api.ts:87-93 | keys, fields and last-writer-wins values of the fold together |
| `ApiStore.ReducePreservesKeys` | app/src/redux/api.ts:77-126 | every action keeps the table keyed by entry name |
| `ApiStore.ReduceList` | app/src/redux/api.ts:81-96 | LIST_SUCCEEDED adds every listed name and keeps entries not listed; a listed name holds exactly the fields of its listed entries, the stored value's other fields are dropped |
| `ApiStore.ReduceEntity` | app/src/redux/api.ts:98-114 | GET/CREATE/UPDATE_SUCCEEDED merge the entry over the stored one under its name and leave every other entry unchanged |
| `ApiStore.ReduceDestroy` | app/src/redux/api.ts:116-122 | DESTROY_SUCCEEDED removes the request's name and nothing else |
| `ApiStore.ReduceOther` | app/src/redux/api.ts:124 | every other action leaves the state unchanged |
| `ApiStore.ReduceListIdempotent` | app/src/redux/api.ts:81-96 | applying the same LIST_SUCCEEDED twice equals applying it once |
| `ApiStore.ReduceEntityIdempotent` | app/src/redux/api.ts:98-114 | applying the same GET/CREATE/UPDATE_SUCCEEDED twice equals applying it once |
| `ApiStore.GetByName` | app/src/redux/api.ts:149-152 | the entry stored under the name, or null exactly when there is none |
| `ApiStore.CountAfterCreate` | app/src/redux/api.ts:153-156 | CREATE_SUCCEEDED for a new name raises `countAll` by one |
| `ApiStore.CountAfterDestroy` | app/src/redux/api.ts:153-156 | DESTROY_SUCCEEDED for a stored name lowers `countAll` by one |
| `OrganizationsStore.SelectSetsCurrent` | app/src/redux/organizations.ts:154-159 | SELECTED records the selected organization's name as current and keeps the entries |
| `OrganizationsStore.OtherActionsKeepCurrent` | app/src/redux/organizations.ts:161-162 | every other action keeps the current name and updates the entries with the generic resource reducer |
| `OrganizationsStore.SelectedIsNoResourceType` | app/src/redux/organizations.ts:88 | the SELECTED type differs from all 15 generic organization action types, so the two reducer branches never overlap |
| `OrganizationsStore.ReducePreservesKeys` | app/src/redux/organizations.ts:152-164 | the organizations reducer keeps the table keyed by entry name |
| `OrganizationsStore.GetCurrent` | app/src/redux/organizations.ts:260-265 | a current organization is returned only when a non-empty current name is set and stored |
| `OrganizationsStore.GetCurrentFinds` | app/src/redux/organizations.ts:260-265 | `find(orgs, {name})`: found exactly when a non-empty current name is set and some stored organization has that name, and then it has that name |
| `OrganizationsStore.InitialHasNoCurrent` | app/src/redux/organizations.ts:147-150 | the initial state has no entries and no current organization |
| `OrganizationsStore.SelectionMetadataAsWritten` | app/src/redux/organizations.ts:237-242 | as written, the call passes one object to the two-parameter `setMetadata`: the key is not `organization` and the value is undefined |
| `OrganizationsStore.SelectionMetadata` | app/src/redux/organizations.ts:237-242 | the intended call: key `organization`, value the selected organization's name |
| `OrganizationsStore.SelectionMetadataAsWrittenMissesHeader` | app/src/redux/organizations.ts:237-242 | as written, selecting an organization leaves the `organization` header as it was |
| `OrganizationsStore.SelectionMetadataSetsHeader` | app/src/redux/organizations.ts:237-242 | the intended call sets the `organization` header to the selected name and changes no other header |
| `ProjectsStore.OrganizationDeleteResets` | app/src/redux/projects.ts:138-140 | an organization's DESTROY_SUCCEEDED empties the projects table |
| `ProjectsStore.ProjectActionsUseGenericReducer` | app/src/redux/projects.ts:142-143 | project actions go through the generic resource reducer |
| `ProjectsStore.GetForOrganization` | app/src/redux/projects.ts:193-196 | `pickBy(projects, {organization})`: exactly the projects whose organization field is the one given, with their values |
| `ProjectsStore.GetForCurrentOrganization` | app/src/redux/projects.ts:201-206 | empty when no organization is current, otherwise the projects of the current organization |
| `ProjectsStore.OrganizationsPartition` | app/src/redux/projects.ts:193-196 | the project sets of two different organizations are disjoint and both within the table |
| `SitesStore.OtherResourcesIgnored` | app/src/redux/sites.ts:136-138 | actions of the other resources leave the sites table unchanged |
| `SitesStore.GetForProject` | app/src/redux/sites.ts:216-219 | exactly the sites whose name starts with the project name, with their values |
| `SitesStore.RawPrefixSelectsSiblingProject` | app/src/redux/sites.ts:218 | the raw prefix test also picks `project/ab/site/x` for project `project/a` |
| `KubeMeta.Object.constructor` | pkg/internal/site/site.go:57-59 | a wrapped object starts with the given name, namespace, labels and annotations |
| `KubeMeta.ComponentNameInjective` | pkg/internal/site/site.go:99-104 | a component with a name format gives different object names for different arguments |
| `KubeMeta.FixedComponentNameIgnoresArgument` | pkg/internal/site/site.go:100-102 | a component with an empty format is named by its fixed object name whatever the argument |
| `KubeMeta.WithComponent` | pkg/internal/site/site.go:87-96 | adds `app.kubernetes.io/name` and `app.kubernetes.io/component` only when the component's app and name are non-empty, keeping every other label |
| `KubeMeta.CollectMissing` | pkg/internal/site/site.go:110-120 | the validation loop over one list of required keys collects exactly the messages of the reference definition, in order |
| `KubeMeta.MissingEmptyIff` | pkg/internal/site/site.go:107-123 | no error exactly when every required key is present with a non-empty value |
| `KubeMeta.MissingMessageInjective` | pkg/internal/site/site.go:112 | `required label "%s" is missing` names its key: equal messages mean equal keys |
| `KubeMeta.MissingReportsKey` | pkg/internal/site/site.go:110-114 | a required key is reported exactly when it is absent or empty |
| `KubeMeta.MissingOnlyListed` | pkg/internal/site/site.go:110-114 | every reported key is a required key that is absent or empty |
| `KubeErrors.ReasonForError` | pkg/apiserver/internal/status/status.go:36-42 | an `APIStatus` error gives its own reason; any other error gives the unknown reason |
| `InternalStatus.FromError` | pkg/apiserver/internal/status/status.go:23-33 | NotFound and AlreadyExists map to the gRPC codes of the same name with fixed messages; every other reason to Internal "internal error" |
| `InternalStatus.Err` | pkg/apiserver/internal/status/status.go:19 | `Status.Err()`: no error exactly for an OK status, otherwise the status itself as an error |
| `InternalStatus.StatusErr` | pkg/apiserver/internal/status/status.go:18-20 | `Error` always returns an error, the one of `FromError` |
| `InternalStatus.ForbiddenAndPlainAreInternal` | pkg/apiserver/internal/status/status.go:25-42 | Forbidden and plain errors become Internal; an already-gRPC NotFound status, not being an `APIStatus`, also becomes Internal |
| `InternalSiteMeta.MetadataLabels` | pkg/internal/site/meta.go:24-26 | sets the site, project and organization labels (from the site's labels, empty when missing) and keeps every other label |
| `InternalSiteMeta.SetMetadata` | pkg/internal/site/meta.go:23-28 | the object's labels become those of `MetadataLabels`, the created-by annotation is set, the name and namespace stay |
| `InternalSiteMeta.ValidateMetadata` | pkg/internal/site/meta.go:31-46 | no error exactly when organization, project and site labels and the created-by annotation are all present and non-empty |
| `InternalSiteMeta.SetMetadataValidates` | pkg/internal/site/meta.go:23-46 | an object given metadata from a site with project and organization labels, a site name and a creator passes validation |
| `InternalSite.Resolve` | pkg/internal/site/site.go:132-144 | succeeds exactly for a clean name matching `project/*/site/*`, giving (site, project) from segments 3 and 1; otherwise the fixed form error |
| `InternalSite.FQName` | pkg/internal/site/site.go:126-128 | `path.Join` of `project/<project>`, `site` and the site name: `project/<p>/site/<s>` for non-empty names, and no empty segment when a name is empty (`project/p/site`, `project/site/s`) |
| `InternalSite.FQNameSegments` | pkg/internal/site/site.go:126-128 | the fully-qualified name of non-empty, slash-free names splits into `project`, the project, `site`, the site |
| `InternalSite.ResolveFQName` | pkg/internal/site/site.go:126-144 | resolving the fully-qualified name of clean, non-empty names gives them back |
| `InternalSite.FQNameOfResolved` | pkg/internal/site/site.go:126-144 | a name that resolves is the fully-qualified name of its parts |
| `InternalSite.ResolveRejectsEmptySegment` | pkg/internal/site/site.go:133-140 | names with an empty project or site segment, such as `project//site/x` and `project/p/site/`, are refused |
| `InternalSite.ResolveRejectsEmptyName` | pkg/internal/site/site.go:126-140 | the fully-qualified name built from an empty project or site name has fewer than four segments and is refused |
| `InternalSite.SiteLabels` | pkg/internal/site/site.go:67-84 | part-of `wordpress`, instance the site name, and the organization and project labels copied only when the site has them |
| `InternalSite.ComponentLabelsExtendLabels` | pkg/internal/site/site.go:87-96 | a component's labels contain the site labels and add only the app name and component keys |
| `InternalSite.ComponentNames` | pkg/internal/site/site.go:34-41 | the four components are named `<site>`, `<site>-mysql`, `<site>-memcached` and `<site>-memcached`; the cluster and its secret differ |
| `InternalSite.ValidateMetadata` | pkg/internal/site/site.go:107-123 | no error exactly when organization and project labels and the created-by annotation are present and non-empty |
| `InternalSite.ProblemsEmptyIff` | pkg/internal/site/site.go:107-123 | the reference definition of the problems is empty exactly in that case |
| `InternalProject.UpdateDisplayName` | pkg/internal/project/project.go:40-46 | the display-name annotation becomes the given name, or the project label when the name is empty; nothing else changes |
| `InternalProject.ProjectLabels` | pkg/internal/project/project.go:59-71 | a project's default labels have the same shape as its namespace's: the project label always, the organization label only when set |
| `InternalProject.ComponentLabels` | pkg/internal/project/project.go:74-83 | component labels extend the project's default labels, as for the project namespace |
| `InternalProject.ProjectComponentName` | pkg/internal/project/project.go:86-91 | component names are formed from the project label exactly as for the project namespace |
| `InternalProject.ValidateMetadata` | pkg/internal/project/project.go:99-120 | no error exactly when organization, project and kind labels are non-empty, the kind is `project`, and the created-by annotation is non-empty |
| `InternalProjectMeta.NamespaceNameInjective` | pkg/internal/project/meta.go:23-25 | `proj-%s`: different projects get different namespace names |
| `InternalProjectMeta.MetadataLabels` | pkg/internal/project/meta.go:29-30 | sets the organization and project labels and keeps every other label |
| `InternalProjectMeta.SetMetadata` | pkg/internal/project/meta.go:28-32 | the object's labels become those of `MetadataLabels`, the created-by annotation is set, the name and namespace stay |
| `InternalProjectMeta.ValidateMetadata` | pkg/internal/project/meta.go:35-50 | no error exactly when organization and project labels and the created-by annotation are present and non-empty |
| `InternalProjectMeta.SetMetadataValidates` | pkg/internal/project/meta.go:28-50 | metadata set from a non-empty project name, organization and creator always validates |
| `InternalProjectNs.DisplayName` | pkg/internal/projectns/projectns.go:68-74 | the display name given, or the project label when it is empty |
| `InternalProjectNs.UpdateDisplayName` | pkg/internal/projectns/projectns.go:68-74 | only the display-name annotation changes, to `DisplayName` |
| `InternalProjectNs.ProjectNsLabels` | pkg/internal/projectns/projectns.go:87-99 | the project label (empty when missing) and the organization label only when the namespace has one |
| `InternalProjectNs.ComponentLabelsExtendLabels` | pkg/internal/projectns/projectns.go:102-111 | component labels contain the namespace's default labels and add only the app name and component keys |
| `InternalProjectNs.ComponentNames` | pkg/internal/projectns/projectns.go:40-65 | the namespace is `proj-<project>` and the other components carry their fixed names |
| `InternalProjectNs.ValidateMetadata` | pkg/internal/projectns/projectns.go:127-148 | no error exactly when organization, project and kind labels are non-empty, the kind is `project`, and the created-by annotation is non-empty |
| `InternalProjectNs.ProblemsEmptyIff` | pkg/internal/projectns/projectns.go:127-148 | the reference definition of the problems is empty exactly in that case |
| `InternalProjectNs.MissingKindReportedTwice` | pkg/internal/projectns/projectns.go:130-139 | a missing kind label is reported both as missing and as not `project` |
| `InternalOrganization.OrganizationLabels` | pkg/internal/organization/organization.go:74-80 | exactly the organization label, empty when the namespace lacks it |
| `InternalOrganization.ComponentLabelsExtendLabels` | pkg/internal/organization/organization.go:83-92 | component labels contain the organization label and add only the app name and component keys |
| `InternalOrganization.ComponentNamesAndNamespaces` | pkg/internal/organization/organization.go:44-61 | the owner role and binding are named after the organization label; the member binding is `members` in the organization's namespace |
| `InternalOrganization.OwnerRoleNamesDistinct` | pkg/internal/organization/organization.go:95-100 | different organizations get different owner cluster roles |
| `InternalOrganization.ValidateMetadata` | pkg/internal/organization/organization.go:119-134 | no error exactly when organization and kind labels and the created-by annotation are present and non-empty |
| `InternalOrganization.ProblemsEmptyIff` | pkg/internal/organization/organization.go:119-134 | the reference definition of the problems is empty exactly in that case |
| `ApiStatus.K8sCode` | pkg/apiserver/status/status.go:19-23 | a gRPC code is mapped exactly for the NotFound, AlreadyExists and Forbidden reasons |
| `ApiStatus.StatusError.constructor` | pkg/apiserver/status/status.go:27-30 | a status error holds its status and its list of underlying errors |
| `ApiStatus.StatusError.Because` | pkg/apiserver/status/status.go:47-50 | appends the causes to the error list, keeps the status and returns the same object |
| `ApiStatus.FromErrorStatus` | pkg/apiserver/status/status.go:53-66 | a Kubernetes `StatusError` with a mapped reason gets that code and its name as message; everything else is Internal "internal error" |
| `ApiStatus.FromError` | pkg/apiserver/status/status.go:53-66 | a new status error whose status is `FromErrorStatus` and whose only cause is the error |
| `ApiStatus.FromErrorCodes` | pkg/apiserver/status/status.go:19-23 | NotFound, AlreadyExists and Forbidden map to NotFound, AlreadyExists and PermissionDenied; every other reason to Internal |
| `ApiStatus.FromErrorNeverOK` | pkg/apiserver/status/status.go:53-66 | a converted error never carries the OK code |
| `ApiStatus.New` | pkg/apiserver/status/status.go:70-72 | a new status error with the code and message and no causes |
| `ApiStatus.InvalidArgumentf` | pkg/apiserver/status/status.go:69-73 | InvalidArgument with the message, no causes |
| `ApiStatus.InvalidArgumentError` | pkg/apiserver/status/status.go:76-78 | InvalidArgument with the code's name as message |
| `ApiStatus.Unauthenticatedf` | pkg/apiserver/status/status.go:81-85 | Unauthenticated with the message, no causes |
| `ApiStatus.UnauthenticatedError` | pkg/apiserver/status/status.go:88-90 | Unauthenticated with the code's name as message |
| `ApiStatus.NotFoundf` | pkg/apiserver/status/status.go:93-97 | NotFound with the message, no causes |
| `ApiStatus.NotFoundError` | pkg/apiserver/status/status.go:100-102 | NotFound with the code's name as message |
| `ApiStatus.InternalErrorf` | pkg/apiserver/status/status.go:105-109 | Internal with the message, no causes |
| `ApiStatus.InternalError` | pkg/apiserver/status/status.go:112-114 | Internal with the code's name as message |
| `ApiErrors.NewApiserverError` | pkg/apiserver/errors/errors.go:52-62 | NotFound (404 "not found") and AlreadyExists (302 "already exists") reasons keep their meaning; every other error is 500 "internal error" |
| `ApiErrors.AgreesWithInternalStatus` | pkg/apiserver/errors/errors.go:20-62 | the message always matches the gRPC conversion of the same error, and the code is one of 404, 302 and 500 |
| `ApiserverSite.Resolve` | pkg/apiserver/internal/site/site.go:14-26 | succeeds exactly for a clean name matching `project/*/site/*`, giving (site, project); otherwise InvalidArgument with the form message |
| `ApiserverSite.SameAsInternal` | pkg/apiserver/internal/site/site.go:14-26 | accepts the same names as the controller-side `Resolve` and gives the same parts |
| `ApiserverSite.WrongShapesRefused` | pkg/apiserver/internal/site/site.go:19-22 | a name not of four segments `project/_/site/_` is refused with InvalidArgument |
| `ApiserverSite.ResolveToObjectKey` | pkg/apiserver/internal/site/site.go:30-49 | a resolve error as it is; a lookup NotFound becomes NotFound "project not found", any other lookup error Internal; otherwise the key (namespace found, site name) |
| `ApiserverSite.RefusedBeforeLookup` | pkg/apiserver/internal/site/site.go:31-34 | a malformed name is refused with InvalidArgument whatever the lookup would answer |
| `ApiserverSite.KeyOfFQName` | pkg/apiserver/internal/site/site.go:30-49 | the key of a fully-qualified name is the project's namespace and the site name |
| `ProjectApi.ResolveName` | pkg/apiserver/controller/project/project.go:43-52 | succeeds exactly for `project/` followed by a non-empty name, which it returns; otherwise InvalidArgument quoting the path |
| `ProjectApi.ResolveParent` | pkg/apiserver/controller/project/project.go:55-64 | succeeds exactly for `orgs/` followed by a non-empty name; a missing prefix and an empty name give their two different messages |
| `ProjectApi.ResolveNamePrefixed` | pkg/apiserver/controller/project/project.go:43-52 | `project/` + a non-empty name resolves to that name |
| `ProjectApi.ResolveParentPrefixed` | pkg/apiserver/controller/project/project.go:55-64 | `orgs/` + a non-empty name resolves to that name |
| `ProjectApi.NewProjectFromK8s` | pkg/apiserver/controller/project/project.go:228-234 | name `project/` + the project label, organization from its label, display name from its annotation |
| `ProjectApi.NewProjectNameResolves` | pkg/apiserver/controller/project/project.go:43-52 | the name of a converted project resolves back to its project label |
| `ProjectApi.CreateProject` | pkg/apiserver/controller/project/project.go:73-106 | the name errors come first, then an empty slug, then the parent error; on success the namespace is named `proj-<name>`, labelled with kind, project and organization, annotated with creator and display name |
| `ProjectApi.CreatedProjectIsValid` | pkg/apiserver/controller/project/project.go:93-106 | the namespace created for a known user passes the project-namespace metadata check |
| `ProjectApi.CreatedProjectReadsBack` | pkg/apiserver/controller/project/project.go:73-112 | the project returned for a named request has the requested name and the parent's organization |
| `ProjectApi.ListProjects` | pkg/apiserver/controller/project/project.go:210-215 | the loop returns exactly the reference list of converted namespaces created by the user |
| `ProjectApi.OwnedByExact` | pkg/apiserver/controller/project/project.go:211-215 | every listed project comes from a namespace created by the user, and every such namespace is listed |
| `ProjectApi.OwnedByNone` | pkg/apiserver/controller/project/project.go:210-215 | a user who created no namespace gets an empty list |
| `SiteApi.Wordpress.constructor` | pkg/apiserver/controller/site/site.go:112-130 | the site object holds the given metadata, domains and image |
| `SiteApi.ContainsString` | pkg/apiserver/controller/site/site.go:43-50 | true exactly when the element occurs in the list |
| `SiteApi.UpdatePrimaryDomain` | pkg/apiserver/controller/site/site.go:162-171 | when the mask is empty or names the primary domain: an empty domain is an error, otherwise it replaces the first domain; nothing else changes |
| `SiteApi.UpdateWordpressImage` | pkg/apiserver/controller/site/site.go:174-179 | never fails; the image is replaced only when the mask is empty or names it |
| `SiteApi.NewSiteFromK8s` | pkg/apiserver/controller/site/site.go:304-311 | the fully-qualified name from the project label and object name, the first domain, the image |
| `SiteApi.CreateSite` | pkg/apiserver/controller/site/site.go:75-130 | parent, lookup, empty domain, prefix, resolve and project checks in the source's order; the object is named by the resolved site in the project's namespace with kind, site, project and organization labels, the creator, one domain and the image; a given name that does not start with the parent is refused with InvalidArgument "parent and project are not matching" |
| `SiteApi.EmptyDomainRefused` | pkg/apiserver/controller/site/site.go:94-96 | an empty primary domain is refused with InvalidArgument once the project is found |
| `SiteApi.PrefixMismatchRefused` | pkg/apiserver/controller/site/site.go:101-103 | a given name that does not start with the parent is refused with InvalidArgument "parent and project are not matching" once the project is found |
| `SiteApi.OtherProjectRefused` | pkg/apiserver/controller/site/site.go:101-110 | a site name under another project is refused with "parent and project are not matching" |
| `SiteApi.CreatedSiteReadsBack` | pkg/apiserver/controller/site/site.go:75-136 | the created object converts back to the requested name, domain and image |
| `SiteApi.CreatedSiteIsValid` | pkg/apiserver/controller/site/site.go:112-130 | the created object passes the site metadata check |
| `SiteApi.SiteMetadataValid` | pkg/apiserver/controller/site/site.go:116-124 | the labels and annotation CreateSite writes satisfy the site's required keys when non-empty |
| `SiteApi.EndpointsAsWritten` | pkg/apiserver/controller/site/site.go:285-302 | as written: an ingress read error becomes a status; any load-balancer address makes the call panic |
| `SiteApi.Endpoints` | pkg/apiserver/controller/site/site.go:295-299 | one endpoint per address, in order, with its IP and host name |
| `SiteApi.GetEndpoints` | pkg/apiserver/controller/site/site.go:285-302 | corrected loop: a read error converted by `status.FromError`, otherwise exactly `Endpoints` of the addresses |
| `SiteApi.OneAddressPanicsAsWritten` | pkg/apiserver/controller/site/site.go:295-299 | a single address makes the code as written panic, where the corrected loop returns it |
| `OrganizationApi.Users` | pkg/apiserver/controller/organization/organization.go:57-66 | the index yields at most one name per subject |
| `OrganizationApi.IndexUsers` | pkg/apiserver/controller/organization/organization.go:57-66 | the indexer loop returns exactly the reference list of user names |
| `OrganizationApi.UsersExact` | pkg/apiserver/controller/organization/organization.go:60-64 | a name is indexed exactly when some subject of the RBAC group and kind `User` carries it |
| `OrganizationApi.CreateOrganization` | pkg/apiserver/controller/organization/organization.go:74-102 | a resolve error is InvalidArgument; an empty name is Internal; otherwise the namespace labelled with kind `organization` and the name, annotated with the creator |
| `OrganizationApi.CreatedOrganizationIsValid` | pkg/apiserver/controller/organization/organization.go:91-102 | the created namespace passes the organization metadata check |
| `OrganizationApi.NewOrganizationFromK8s` | pkg/apiserver/controller/organization/organization.go:234-239 | the fully-qualified organization label and the display-name annotation |
| `OrganizationApi.CreatedOrganizationReadsBack` | pkg/apiserver/controller/organization/organization.go:74-109 | a created organization reads back under the fully-qualified form of its name |
| `OrganizationApi.BoundTo` | pkg/apiserver/controller/organization/organization.go:192-196 | the field selector lists only bindings whose index holds the user |
| `OrganizationApi.BoundToExact` | pkg/apiserver/controller/organization/organization.go:192-196 | a binding is listed exactly when one of its user subjects names the user |
| `OrganizationApi.MemberBindingNeedsOnlyOrgLabel` | pkg/apiserver/controller/organization/organization.go:200 | the `len(list.Labels) > 0` test is implied by a non-empty organization label |
| `OrganizationApi.MemberOrgs` | pkg/apiserver/controller/organization/organization.go:198-203 | at most one organization name per binding |
| `OrganizationApi.CollectMemberOrgs` | pkg/apiserver/controller/organization/organization.go:198-203 | the loop returns exactly the reference list of member organizations |
| `OrganizationApi.MemberOrgsExact` | pkg/apiserver/controller/organization/organization.go:199-202 | an organization is collected exactly when a `members` binding is labelled with it, and never the empty name |
| `OrganizationApi.Selector` | pkg/apiserver/controller/organization/organization.go:207 | the selector text is the fixed prefix, the names joined by ", ", and a closing parenthesis |
| `OrganizationApi.Selected` | pkg/apiserver/controller/organization/organization.go:207-215 | the selector lists at most the namespaces given |
| `OrganizationApi.SelectedExact` | pkg/apiserver/controller/organization/organization.go:207-215 | a namespace is selected exactly when it has kind `organization` and an organization label among the names |
| `OrganizationApi.ListOrganizations` | pkg/apiserver/controller/organization/organization.go:188-224 | the handler returns exactly the selected namespaces converted in order |
| `OrganizationApi.ListedNamespacesExact` | pkg/apiserver/controller/organization/organization.go:188-224 | a user sees exactly the organization namespaces of organizations whose `members` binding lists the user |
| `ProjectFunctions.NamespaceName` | pkg/apis/dashboard/v1alpha1/project_functions.go:13-15 | `proj-`, the organization, `-`, the project name, each at its position |
| `ProjectFunctions.NamespaceNameInjectiveInName` | pkg/apis/dashboard/v1alpha1/project_functions.go:13-15 | within one organization, different projects get different namespaces |
| `ProjectFunctions.NamespaceNameAmbiguous` | pkg/apis/dashboard/v1alpha1/project_functions.go:13-15 | across organizations the name is ambiguous: (`x`, `y-z`) and (`x-y`, `z`) share a namespace |
| `ProjectFunctions.NamespaceKey` | pkg/apis/dashboard/v1alpha1/project_functions.go:18-22 | the namespace key is cluster-scoped and named by `NamespaceName` |
| `ProjectFunctions.DomainName` | pkg/apis/dashboard/v1alpha1/project_functions.go:30-32 | the project name, `-`, the organization, each at its position |
| `ProjectFunctions.GiteaDomain` | pkg/apis/dashboard/v1alpha1/project_functions.go:133-135 | the project's domain name under the Git base domain, starting with the project name |
| `ProjectFunctions.ProjectLabelSet` | pkg/apis/dashboard/v1alpha1/project_functions.go:36-40 | exactly the project label, holding the project name |
| `ProjectFunctions.DeployManagerLabelSet` | pkg/apis/dashboard/v1alpha1/project_functions.go:44-48 | exactly the deploy-manager label, holding the project controller's name |
| `ProjectFunctions.DefaultLabels` | pkg/apis/dashboard/v1alpha1/project_functions.go:52-54 | exactly the two labels, containing both sets merged |
| `ProjectFunctions.ManagedKeys` | pkg/apis/dashboard/v1alpha1/project_functions.go:57-130 | every managed key is in the project's namespace; the Gitea PVC, deployment, service and ingress share `gitea`; `prometheus`, `gitea-conf` and the quota named after the project |
| `ProjectSyncCommon.NamespaceName` | pkg/controller/project/internal/sync/common.go:31-33 | the syncers' namespace name is the resource's `GetNamespaceName` |
| `ProjectSyncCommon.DomainName` | pkg/controller/project/internal/sync/common.go:36-38 | the syncers' domain name is the resource's `GetProjectDomainName` |
| `ProjectSyncCommon.ProjectLabelSet` | pkg/controller/project/internal/sync/common.go:42-46 | the same project label as the resource's helper |
| `ProjectSyncCommon.DeployManagerLabelSet` | pkg/controller/project/internal/sync/common.go:50-54 | the same deploy-manager label as the resource's helper |
| `ProjectSyncCommon.DefaultLabels` | pkg/controller/project/internal/sync/common.go:58-60 | the same two default labels as the resource's helper |
| `KindPredicate.NewKindPredicate` | pkg/internal/predicate/kind.go:33-35 | the predicate filters on the kind given |
| `KindPredicate.IsOfKindMeaning` | pkg/internal/predicate/kind.go:37-39 | an object is of the kind when its kind label equals it, or, for the empty kind, when it has no kind label |
| `KindPredicate.Accepts` | pkg/internal/predicate/kind.go:42-59 | update events are judged on the new object, the other three on their object |
| `KindPredicate.UpdateIgnoresOld` | pkg/internal/predicate/kind.go:52-54 | the old object of an update never matters |
| `KindPredicate.EventsAgree` | pkg/internal/predicate/kind.go:42-59 | create, delete, update (with that new object) and generic events agree on the same object |
| `OrganizationPredicate.IsObjectOrganization` | pkg/controller/organization/predicate.go:28-30 | exactly the objects whose kind label is `organization` |
| `OrganizationPredicate.Accepts` | pkg/controller/organization/predicate.go:33-50 | the organization predicate accepts exactly what a kind predicate for `organization` accepts |
| `Admission.Respond` | pkg/webhook/default_server/project/validating/project_create_handler.go:64-73 | a decoding error is a 400 error response, a validation error a 500 one, otherwise the verdict and reason |
| `ProjectWebhook.Decide` | pkg/webhook/default_server/project/validating/project_create_handler.go:44-54 | non-project namespaces are allowed and skipped; a project failing validation is refused with the problems; otherwise allowed |
| `ProjectWebhook.Handle` | pkg/webhook/default_server/project/validating/project_create_handler.go:59-74 | a decoding error is 400; otherwise the response of the decision |
| `ProjectWebhook.NeverPlainDenial` | pkg/webhook/default_server/project/validating/project_create_handler.go:69-73 | the handler never returns a plain denial: an invalid project is an error response, exactly when validation finds a problem |
| `ProjectWebhook.AdmitsValidProjects` | pkg/webhook/default_server/project/validating/project_create_handler.go:44-74 | a project namespace is admitted exactly when its labels and created-by annotation are valid |
| `OrganizationWebhook.Decide` | pkg/webhook/default_server/organization/validating/organization_create_handler.go:39-49 | non-organization namespaces are allowed and skipped; a failing organization is refused with the problems; otherwise allowed |
| `OrganizationWebhook.Handle` | pkg/webhook/default_server/organization/validating/organization_create_handler.go:54-67 | a decoding error is 400; otherwise the response of the decision |
| `OrganizationWebhook.AdmitsValidOrganizations` | pkg/webhook/default_server/organization/validating/organization_create_handler.go:39-67 | an organization namespace is admitted exactly when its organization label and created-by annotation are present; otherwise the answer is a 500 error |
| `OrganizationWebhook.SkipsOtherKinds` | pkg/webhook/default_server/organization/validating/organization_create_handler.go:40-42 | any other namespace is admitted without validation |
| `SiteWebhook.Decide` | pkg/webhook/default_server/site/validating/site_create_handler.go:38-43 | a site failing validation is refused with the problems; otherwise allowed |
| `SiteWebhook.Handle` | pkg/webhook/default_server/site/validating/site_create_handler.go:48-61 | a decoding error is 400; otherwise the response of the decision |
| `SiteWebhook.AdmitsValidSites` | pkg/webhook/default_server/site/validating/site_create_handler.go:38-61 | a site is admitted exactly when organization and project labels and the created-by annotation are present; otherwise a 500 error with the problems |
| `ControllerUtil.ControllerRef` | vendor/sigs.k8s.io/controller-runtime/pkg/controller/controllerutil/controllerutil.go:48 | the new reference names the owner and its kind and is marked controller and block-owner-deletion |
| `ControllerUtil.OwnedObject.constructor` | vendor/sigs.k8s.io/controller-runtime/pkg/controller/controllerutil/controllerutil.go:36 | an owned object starts with the given owner references |
| `ControllerUtil.SetControllerReference` | vendor/sigs.k8s.io/controller-runtime/pkg/controller/controllerutil/controllerutil.go:36-53 | a kind lookup error is returned with the references untouched; otherwise the controller reference is appended after the existing ones |
| `ControllerUtil.Store.constructor` | vendor/sigs.k8s.io/controller-runtime/pkg/controller/controllerutil/controllerutil.go:69 | the store holds the given objects by key |
| `ControllerUtil.CreateOrUpdateOutcome` | vendor/sigs.k8s.io/controller-runtime/pkg/controller/controllerutil/controllerutil.go:69-120 | Noop leaves the objects alone; Created only for a missing key, storing the transform of the zero object; Updated only when the transform changes the stored object; every error is a Noop |
| `ControllerUtil.CreateOrUpdate` | vendor/sigs.k8s.io/controller-runtime/pkg/controller/controllerutil/controllerutil.go:69-120 | the operation, the error and the new store contents are those of `CreateOrUpdateOutcome` |
| `ControllerUtil.AtMostOneWrite` | vendor/sigs.k8s.io/controller-runtime/pkg/controller/controllerutil/controllerutil.go:69-120 | no object other than the one under the key is created, changed or removed |
| `ControllerUtil.ErrorsAreNoop` | vendor/sigs.k8s.io/controller-runtime/pkg/controller/controllerutil/controllerutil.go:70-102 | every error comes with Noop and unchanged objects; a read error other than NotFound is returned as it is |
| `ControllerUtil.SecondCallIsNoop` | vendor/sigs.k8s.io/controller-runtime/pkg/controller/controllerutil/controllerutil.go:104-118 | with an idempotent transform, a second successful call changes nothing and reports Noop |
| `Quantity.Units` | pkg/controller/project/internal/sync/resource_quota.go:24-28 | a whole number of units, in milli-units |
| `Quantity.Value` | pkg/controller/project/internal/sync/resource_quota.go:37 | `Quantity.Value()`: the quantity rounded up to a whole unit |
| `Quantity.ValueOfUnits` | pkg/controller/project/internal/sync/resource_quota.go:37 | a whole number of units reads back as itself |
| `Quantity.AsInt64` | pkg/controller/site/internal/sync/memcached_statefulset.go:118-121 | `AsInt64` succeeds exactly for a whole quantity within the int64 range, and then gives it back |
| `Quantity.GoDiv` | pkg/controller/site/internal/sync/memcached_statefulset.go:123 | Go's integer division, which truncates toward zero |
| `ProjectQuota.DefaultOrMaxValue` | pkg/controller/project/internal/sync/resource_quota.go:32-42 | the default when the resource is missing, otherwise the existing value unless the default's `Value()` is larger; never below either |
| `ProjectQuota.QuotaHard` | pkg/controller/project/internal/sync/resource_quota.go:60-68 | exactly the five quota keys, each the default-or-max of the existing limits |
| `ProjectQuota.QuotaHardIdempotent` | pkg/controller/project/internal/sync/resource_quota.go:60-68 | applying the quota twice gives the same limits as once |
| `ProjectQuota.QuotaHardOfEmpty` | pkg/controller/project/internal/sync/resource_quota.go:22-30 | a quota with no limits gets exactly the defaults |
| `ProjectQuota.ResourceQuota.constructor` | pkg/controller/project/internal/sync/resource_quota.go:48-53 | the quota object holds the given name, namespace, labels and limits |
| `ProjectQuota.QuotaKey` | pkg/controller/project/internal/sync/resource_quota.go:48-53 | the quota is `presslabs-dashboard` in `proj-<project>` |
| `ProjectQuota.Sync` | pkg/controller/project/internal/sync/resource_quota.go:55-71 | never fails; labels are merged with the component's and the controller's labels, the limits become `QuotaHard` of the old ones |
| `ProjectQuotaLegacy.DefaultOrMaxValue` | pkg/controller/project/sync/resource_quota.go:61-71 | the same choice as the current syncer's |
| `ProjectQuotaLegacy.ResourceQuota.constructor` | pkg/controller/project/sync/resource_quota.go:49 | the legacy quota object holds the given labels, limits and owner references |
| `ProjectQuotaLegacy.T` | pkg/controller/project/sync/resource_quota.go:74-95 | labels become the project's default labels, limits `QuotaHard` of the old ones, and the controller reference is set or its error returned |
| `ProjectQuotaLegacy.GetErrorEventReason` | pkg/controller/project/sync/resource_quota.go:98-103 | `ResourceQuotaFailed` exactly for an error, `ResourceQuotaUpdated` exactly for none |
| `MysqlClusterSecret.Secret.constructor` | pkg/controller/site/internal/sync/mysql_cluster_secret.go:35-40 | the secret holds the given labels, data and string data |
| `MysqlClusterSecret.MissingCredentials` | pkg/controller/site/internal/sync/mysql_cluster_secret.go:47-79 | user and database default to `wordpress`; the passwords are generated only for missing keys; a generator error for a missing key is the result, root password first |
| `MysqlClusterSecret.Fill` | pkg/controller/site/internal/sync/mysql_cluster_secret.go:49-57 | a missing key is added to the string data, a held one leaves it alone |
| `MysqlClusterSecret.BuildStringData` | pkg/controller/site/internal/sync/mysql_cluster_secret.go:47-75 | the four checks compute exactly `MissingCredentials` |
| `MysqlClusterSecret.Sync` | pkg/controller/site/internal/sync/mysql_cluster_secret.go:42-82 | labels are always merged; the data is never touched; an error leaves the string data; otherwise it is replaced only when something is missing |
| `MysqlClusterSecret.HeldCredentialsKept` | pkg/controller/site/internal/sync/mysql_cluster_secret.go:49-75 | no credential already held is written again |
| `MysqlClusterSecret.CompleteSecretUntouched` | pkg/controller/site/internal/sync/mysql_cluster_secret.go:77-79 | a secret holding all four keys gets no string data |
| `MysqlClusterSecret.SecondRunAddsNothing` | pkg/controller/site/internal/sync/mysql_cluster_secret.go:47-79 | once the generated values are stored, a later run adds nothing, whatever the generator does |
| `Labels.Merge` | pkg/controller/site/internal/sync/memcached_service.go:47 | `labels.Merge`: every key of both sets, the second set's value winning where both have one |
| `Labels.RelabelIdempotent` | pkg/controller/organization/internal/sync/member_role_binding.go:36 | relabelling the relabelled labels with the same own and controller labels changes nothing |
| `Labels.RelabelContains` | pkg/controller/site/internal/sync/memcached_service.go:47 | the relabelled object carries every controller label, every own label the controller does not override, and only keys of the three sets |
| `MysqlCluster.Cluster.constructor` | pkg/controller/site/internal/sync/mysql_cluster.go:44-49 | the cluster object holds the given labels, requests, replicas and secret name |
| `MysqlCluster.Setting` | pkg/controller/site/internal/sync/mysql_cluster.go:53-58 | the annotation's text is parsed when present, otherwise the default's |
| `MysqlCluster.Settings` | pkg/controller/site/internal/sync/mysql_cluster.go:53-79 | succeeds exactly when storage, memory and CPU all parse, giving the three parsed values; otherwise the first error in that order |
| `MysqlCluster.Replicas` | pkg/controller/site/internal/sync/mysql_cluster.go:90-92 | never zero, and a non-zero count is kept |
| `MysqlCluster.Sync` | pkg/controller/site/internal/sync/mysql_cluster.go:51-102 | a parse error is returned with the cluster untouched; otherwise labels, exactly the memory and CPU requests, at least one replica, the storage request (other volume requests kept) and the secret `<site>-mysql` are set |
| `MysqlCluster.DefaultsWithoutAnnotations` | pkg/controller/site/internal/sync/mysql_cluster.go:33-40 | without annotations the settings are 8Gi, 512Mi and 200m |
| `MysqlCluster.UnparseableAnnotationFails` | pkg/controller/site/internal/sync/mysql_cluster.go:63-70 | a memory annotation that does not parse fails the sync whatever the others say |
| `KubeService.Service.constructor` | pkg/controller/site/internal/sync/memcached_service.go:37-42 | the service object holds the given state |
| `KubeService.TwoPorts` | pkg/controller/site/internal/sync/memcached_service.go:60-62 | exactly two ports: the existing ones when there are two, otherwise two zero ports |
| `KubeService.SyncSelector` | pkg/controller/site/internal/sync/memcached_service.go:51-58 | blocked exactly when the service exists and its selector differs, keeping that selector; otherwise the selector becomes the wanted one; nothing else changes |
| `MemcachedService.Ports` | pkg/controller/site/internal/sync/memcached_service.go:60-66 | two ports named `memcached` on 11211 and `prometheus` on 9150, other fields kept from `TwoPorts` |
| `MemcachedService.PortsIdempotent` | pkg/controller/site/internal/sync/memcached_service.go:60-66 | fixing the ports twice is fixing them once |
| `MemcachedService.Sync` | pkg/controller/site/internal/sync/memcached_service.go:44-69 | labels merged and cluster IP `None` in every case; the immutability error exactly for an existing service with another selector, which keeps selector and ports; otherwise the stateful set's labels as selector and the two memcached ports |
| `KubePod.SetAsLabelSelector` | pkg/controller/site/internal/sync/memcached_statefulset.go:74 | a selector matching exactly the given labels, with no expressions |
| `KubePod.MergeOutcome` | pkg/controller/site/internal/sync/memcached_statefulset.go:93-102 | an error building or merging the spec is returned with the pod spec untouched; otherwise the merged spec |
| `MemcachedStatefulSet.StatefulSet.constructor` | pkg/controller/site/internal/sync/memcached_statefulset.go:60-65 | the stateful set object holds the given state |
| `MemcachedStatefulSet.MemoryText` | pkg/controller/site/internal/sync/memcached_statefulset.go:108-111 | the memory annotation when present, otherwise `512Mi` |
| `MemcachedStatefulSet.MemoryArgIsMiB` | pkg/controller/site/internal/sync/memcached_statefulset.go:122-123 | the `-m` argument is the memory in whole MiB, rounded down |
| `MemcachedStatefulSet.MemoryArgOfMiB` | pkg/controller/site/internal/sync/memcached_statefulset.go:122-123 | a memory of exactly n MiB gives the argument n |
| `MemcachedStatefulSet.MemcachedPodSpec` | pkg/controller/site/internal/sync/memcached_statefulset.go:106-195 | the parse error, or `Cannot convert … into int64`, or two containers `memcached` and `memcached-exporter` with the memory as request and limit, 100m CPU, `-m <MiB>` and the two ports |
| `MemcachedStatefulSet.MemoryArgumentReadsBack` | pkg/controller/site/internal/sync/memcached_statefulset.go:118-142 | for a memory of n MiB within int64, the spec is built and its `-m` argument reads back as n |
| `MemcachedStatefulSet.ServiceSelectsPods` | pkg/controller/site/internal/sync/memcached_statefulset.go:58 | the pods the stateful set labels carry every label the memcached service selects on |
| `MemcachedStatefulSet.ServiceName` | pkg/controller/site/internal/sync/memcached_statefulset.go:83-85 | the governing service is `<site>-memcached` |
| `MemcachedStatefulSet.Sync` | pkg/controller/site/internal/sync/memcached_statefulset.go:67-103 | labels merged and one replica in every case; a differing selector or then service name on an existing object is an immutability error that keeps both and the template; otherwise the template labels and the merge outcome |
| `MemcachedStatefulSet.SyncIdentity` | pkg/controller/site/internal/sync/memcached_statefulset.go:74-89 | the selector check before the service-name check, each setting on a new object and failing on an existing one |
| `MemcachedStatefulSet.SyncTemplate` | pkg/controller/site/internal/sync/memcached_statefulset.go:91-102 | template labels set, pod spec and error those of `MergeOutcome`, nothing else changed |
| `WordpressSync.Wordpress.constructor` | pkg/controller/site/internal/sync/wordpress.go:35-40 | the Wordpress object holds the given labels and environment |
| `WordpressSync.Env` | pkg/controller/site/internal/sync/wordpress.go:47-89 | exactly five variables: the memcached and MySQL master hosts in the site's namespace, then user, password and database from the `<site>-mysql` secret |
| `WordpressSync.EnvReadsManagedSecret` | pkg/controller/site/internal/sync/wordpress.go:57-88 | every secret-backed variable reads a key the MySQL cluster secret syncer fills, from that syncer's secret |
| `WordpressSync.EnvNamesDistinct` | pkg/controller/site/internal/sync/wordpress.go:47-89 | no variable name is repeated |
| `WordpressSync.Sync` | pkg/controller/site/internal/sync/wordpress.go:42-92 | labels merged with the site's and the controller's; the environment replaced by `Env` |
| `ProjectGiteaService.GiteaPorts` | pkg/controller/project/internal/sync/gitea_service.go:46-56 | two ports, `http` on 80 to the HTTP target and `ssh` on 22 to the SSH target, protocol and node port kept from `TwoPorts` |
| `ProjectGiteaService.GiteaPortsIdempotent` | pkg/controller/project/internal/sync/gitea_service.go:46-56 | fixing the ports twice is fixing them once |
| `ProjectGiteaService.GiteaPortsDistinct` | pkg/controller/project/internal/sync/gitea_service.go:50-56 | the two gitea ports differ in number and in name |
| `ProjectGiteaService.Sync` | pkg/controller/project/internal/sync/gitea_service.go:34-59 | labels replaced by the pod labels; the immutability error exactly for an existing service with another selector, which keeps selector and ports; otherwise the gitea selector and `GiteaPorts` to 8080 and 22 |
| `ProjectNsGiteaService.Sync` | pkg/controller/projectns/internal/sync/gitea_service.go:35-61 | labels merged with the component's and controller's; the immutability error exactly for an existing service whose selector is not the deployment's labels; otherwise that selector and `GiteaPorts` |
| `GiteaDeployment.Deployment.constructor` | pkg/controller/project/internal/sync/gitea_deployment.go:37-42 | the deployment object holds the given state |
| `GiteaDeployment.DeploymentLabels` | pkg/controller/project/internal/sync/gitea_deployment.go:47-48 | the merged labels plus `app.kubernetes.io/version`, which always holds the gitea version |
| `GiteaDeployment.DeploymentLabelsIdempotent` | pkg/controller/project/internal/sync/gitea_deployment.go:47-48 | relabelling twice is relabelling once |
| `GiteaDeployment.Sync` | pkg/controller/project/internal/sync/gitea_deployment.go:44-161 | labels always written; a new deployment gets exactly the component labels as selector, an existing one keeps its selector and fails when its labels differ, leaving the template alone; otherwise the template metadata becomes just the labels and the spec is merged |
| `KubeRbac.ClusterRole` | pkg/controller/organization/internal/sync/member_role_binding.go:46-50 | a reference to the named cluster role in the RBAC API group |
| `KubeRbac.RoleBinding.constructor` | pkg/controller/organization/internal/sync/member_role_binding.go:31 | the role binding object holds the given state |
| `KubeRbac.DefaultSubject` | pkg/apiserver/controller/organization/organization.go:47 | a stored user or group subject without a group gets the RBAC group, which the member lookup tests; kind and name never change, other subjects are kept |
| `KubeRbac.DefaultSubjects` | pkg/apiserver/controller/organization/organization.go:46-47 | every subject of the list is defaulted, in order |
| `OrganizationMemberBinding.MemberSubjects` | pkg/controller/organization/internal/sync/member_role_binding.go:38-45 | an existing binding keeps its subjects; a new one gets the creator appended as a user after them |
| `OrganizationMemberBinding.CreatorAddedOnce` | pkg/controller/organization/internal/sync/member_role_binding.go:38-45 | once created, a later sync does not add the creator again |
| `OrganizationMemberBinding.Sync` | pkg/controller/organization/internal/sync/member_role_binding.go:33-53 | labels merged with the organization's and the controller's, subjects those of `MemberSubjects` with the `created-by` annotation, role the organization member cluster role |
| `OrganizationMemberBinding.SecondSyncChangesNothing` | pkg/controller/organization/internal/sync/member_role_binding.go:36-50 | a second sync on the binding the first one wrote, now created, leaves its labels and subjects as they are; the role is the same constant |
| `OrganizationMemberBinding.CreatorFindsOrganization` | pkg/controller/organization/internal/sync/member_role_binding.go:36-45 | once the new binding is stored, listing the creator's organizations finds this organization |
| `ProjectMemberBinding.BindingLabels` | pkg/controller/project/internal/sync/member_role_binding.go:34-35 | the merged labels plus `presslabs.com/kind: project-member-list`, keeping the project label unless the controller overrides it |
| `ProjectMemberBinding.Sync` | pkg/controller/project/internal/sync/member_role_binding.go:31-52 | labels from `BindingLabels`, the creator appended only to a new binding, role the project member cluster role |
| `PrometheusRoleBinding.PrometheusSubjects` | pkg/controller/projectns/internal/sync/prometheus_role_binding.go:44-49 | exactly one subject, the `prometheus` service account |
| `PrometheusRoleBinding.Sync` | pkg/controller/projectns/internal/sync/prometheus_role_binding.go:32-52 | labels merged; the prometheus cluster role set only on a new binding, an existing one keeps its role; the subjects replaced by the service account |
| `PrometheusRoleBinding.SecondSyncChangesNothing` | pkg/controller/projectns/internal/sync/prometheus_role_binding.go:34 | a second sync leaves the labels as the first one left them; with `Sync`'s own contract (role kept once created, same subjects) the second run changes nothing |
| `Transport.BigEndian32` | app/src/utils/grpc/transport.ts:92 | the length prefix is four bytes |
| `Transport.FromBigEndian32` | app/src/utils/grpc/transport.ts:92 | four bytes read back as a number below 2^32 |
| `ApiStore.WordsFrom` | app/src/redux/api.ts:203 | the word scanner of `snakeCase`, which breaks at non-alphanumeric characters and at every `WordBreak`, only ever produces words |
| `ApiStore.WordsSkipDigits` | app/src/redux/api.ts:203 | digits extend a current word that ends in a digit |
| `ApiStore.DigitsSplitWords` | app/src/redux/api.ts:203 | digits form words of their own: `get2Sites` splits into `get`, `2`, `Sites` |
| `ApiStore.LowerAll` | app/src/redux/api.ts:203 | every word lower-cased, in order |
| `ApiStore.LowerIdempotent` | app/src/redux/api.ts:203 | lower-casing a word twice is lower-casing it once |
| `ApiStore.MapInjective` | app/src/redux/api.ts:198-200 | any set of (request, status) pairs has as many descriptors as pairs |
| `Text.Lower` | app/src/redux/api.ts:203 | same length, each character lower-cased |
| `Text.Split` | pkg/internal/site/site.go:142 | `strings.Split`: at least one piece, none holding the separator |
| `Text.SplitNoSeparator` | pkg/internal/site/site.go:142 | a string without the separator splits into itself alone |
| `Text.SplitAfterPiece` | pkg/internal/site/site.go:142 | a leading piece and separator split off as the first piece |
| `Text.PieceUnique` | pkg/internal/site/site.go:142 | a piece without the separator, then the separator, fixes both halves |
| `Text.SplitJoin` | pkg/internal/site/site.go:126-142 | splitting pieces joined with a separator none of them holds gives the pieces back |
| `Text.JoinSplit` | pkg/internal/site/site.go:126-142 | joining the pieces of a split gives the string back |
| `Text.Join4` | pkg/internal/site/site.go:126 | a four-part join is the parts with the separator between them |
| `Text.NatToDecimalDigits` | pkg/controller/site/internal/sync/memcached_statefulset.go:142 | the decimal form of a natural number is a non-empty run of digits worth that number |
| `Text.FormatIntRoundTrip` | pkg/controller/site/internal/sync/memcached_statefulset.go:142 | `strconv.FormatInt(n, 10)` reads back as n and holds only digits after an optional leading minus |
| `Paths.Segments` | pkg/internal/site/site.go:133 | a path splits into at least one slash-free segment |
| `Paths.DotDotRun` | pkg/internal/site/site.go:133 | the leading `..` run is no longer than the path |
| `Paths.FirstSegment` | pkg/internal/site/site.go:133 | a rooted path starts with an empty segment; `.` is the one segment `.` |
| `Paths.CleanRelative` | pkg/internal/site/site.go:133 | a relative path not starting with `..` is unchanged by `path.Clean` exactly when every segment is clean |
| `KubeMeta.Missing` | pkg/internal/site/site.go:110-120 | at most one message per required key |
| `Admission.AsError` | pkg/internal/site/site.go:122 | no error exactly for no problems; otherwise the aggregate carries every problem |
| `ProjectApi.OwnedBy` | pkg/apiserver/controller/project/project.go:210-215 | at most one project per listed namespace |
| `ProjectFunctions.OrganizationName` | pkg/apis/dashboard/v1alpha1/project_functions.go:24-27 | a project's organization is the namespace it lives in |
| `ProjectFunctions.ManagedKey` | pkg/apis/dashboard/v1alpha1/project_functions.go:57-130 | every managed object lives in the project's namespace under its own name |
| `ApiStore.Reduce` | app/src/redux/api.ts:76-126 | `createReducer`'s reducer; what it does to the table is stated by `ReduceList`, `ReduceEntity`, `ReduceDestroy`, `ReduceOther` and the idempotence lemmas |
| `ApiStore.SnakeCase` | app/src/redux/api.ts:203 | lodash `snakeCase`: the lower-cased words joined by `_`; `SnakeTokens` states that splitting it on `_` gives back those words |
| `ApiStore.RequestFromMethod` | app/src/redux/api.ts:202-214 | `getRequestTypeFromMethod`; `RequestFromFirstWord` states which request each method name yields |
| `ApiStore.ResourceFromMethod` | app/src/redux/api.ts:216-227 | `getResourceFromMethod`; `ResourceFromLastWord` states which resource each method name yields |
| `ApiStore.EmitResourceAction` | app/src/redux/api.ts:170-196 | `emitResourceAction`, at most one action; `EmitSpec` states when it emits and what |
| `ApiStore.CreateActionTypes` | app/src/redux/api.ts:128-141 | `createActionTypes`; `ActionTypesExact`, `DescriptorCount` and `ActionTypesDistinct` state its 15 keys and distinct values |
| `GrpcStore.Reduce` | app/src/redux/grpc.ts:96-127 | the in-flight request reducer; `InvokedAppends`, `CompletionRemovesFirstEqual` and `OtherActionsIgnored` state its cases |
| `OrganizationsStore.Reduce` | app/src/redux/organizations.ts:152-164 | SELECTED sets `current`, every other action goes to the generic reducer; stated by `SelectSetsCurrent` and `OtherActionsKeepCurrent` |
| `ProjectsStore.Reduce` | app/src/redux/projects.ts:134-145 | an organization's DESTROY_SUCCEEDED resets, every other action goes to the generic reducer; stated by `OrganizationDeleteResets` and `ProjectActionsUseGenericReducer` |
| `SitesStore.Reduce` | app/src/redux/sites.ts:134-138 | the generic reducer for `sites`; `OtherResourcesIgnored` states that other resources' actions leave it alone |
| `Transport.Frame` | app/src/utils/grpc/transport.ts:90-95 | the bytes `frameRequest` returns; `FrameLayout` states their layout and `FrameRequest` that the in-place method builds them |
| `Transport.Unframe` | app/src/utils/grpc/transport.ts:90-95 | reads a frame's header and body back, the inverse `UnframeFrame` proves of `Frame` |
| `InternalSite.ComponentLabels` | pkg/internal/site/site.go:87-96 | a component's labels; `ComponentLabelsExtendLabels` states they extend the site labels with the non-empty component fields only |
| `InternalSite.SiteComponentName` | pkg/internal/site/site.go:99-104 | `ComponentName`; `ComponentNames` states each component's name |
| `InternalProjectNs.ComponentLabels` | pkg/internal/projectns/projectns.go:102-111 | a component's labels; `ComponentLabelsExtendLabels` states they extend the namespace labels |
| `InternalProjectNs.ProjectNsComponentName` | pkg/internal/projectns/projectns.go:114-119 | `ComponentName`; `ComponentNames` states each component's name |
| `InternalOrganization.ComponentNamespace` | pkg/internal/organization/organization.go:102-107 | `ComponentNamespace`; `ComponentNamesAndNamespaces` states each component's namespace |
| `InternalOrganization.OrgComponentName` | pkg/internal/organization/organization.go:94-99 | `ComponentName`; `ComponentNamesAndNamespaces` states each component's name |
| `InternalProjectMeta.GetNamespaceName` | pkg/internal/project/meta.go:23-25 | `proj-<project>`; `NamespaceNameInjective` states that different projects get different names |
| `ApiErrors.ErrorMessage` | pkg/apiserver/errors/errors.go:47-49 | `Error()` returns the message; `AgreesWithInternalStatus` states it matches the gRPC conversion |

## Left out

- The redux sagas and callbacks are not modelled; they are effect and concurrency plumbing. This covers `decideOrganizationContext`, `handleFormSubmission`, `performRequest`, authentication, data fetching, routing and the toaster.
- The HTTP request of `createTransport` is not modelled; it is network I/O. Its non-200 branch is not modelled either. Only the `grpc-status` decision on a received reply is modelled.
- The gRPC chunk parser is foreign code. Its list of chunks is a parameter; only the choice of the first message chunk and the empty-buffer case are modelled.
- lodash `parseInt` of the `grpc-status` header is foreign code. The header is taken already parsed: absent, a number, or NaN.
- `ApiStore.Words`: lodash `snakeCase` is modelled on ASCII names only. Words split at non-alphanumeric characters, at an upper-case letter after a lower-case letter or digit, and between a letter and a digit. Acronym runs (`HTTPSites` as `HTTP`, `Sites`), Unicode and the removal of apostrophes before the split (`don't` as `dont`) are not modelled; RPC method names hold no apostrophe.
- The `pluralize` library is modelled by its `s`-suffix rule, which covers the three resource names. Irregular plurals are not modelled.
- In the generic reducer, a GET, CREATE or UPDATE success without a single-entity reply, or a DESTROY success without a reply payload, would throw a TypeError in the source. The model leaves the table unchanged instead.
- lodash `get(acc, entry.name)` is modelled as a literal key lookup. Its path syntax for `.` and `[` in names is not modelled.
- The API server handlers that only read, update or delete through the Kubernetes client are not modelled; they are I/O. Their pure parts are modelled: name resolution, field-mask updates, conversions and list filters.
- Kubernetes client calls and lookups are parameters: `projectns.Lookup`, the role-binding and namespace lists, the ingress read and the client errors. `projectns.Lookup`'s `Items[0]` on an empty list is therefore not modelled.
- The gRPC metadata helpers, authentication middleware, gcloud calls and server wiring are not modelled; they are I/O.
- In `ProjectApi.CreateProject`, the slug of the display name (`slug.Make`) is a parameter.
- In `OrganizationApi.CreateOrganization`, the slug of the display name (`slug.Make`) is a parameter.
- `SiteApi.CreateSite`: the site name `generateNameFromDomain` derives from the primary domain (`publicsuffix` and a random suffix) is the parameter `generated`. Its two panics are not modelled: on a domain with no registrable part, such as `localhost` or `com`, and on a failure of the random generator.
- `OrganizationApi.CreateOrganization`: it does not set a display name. The organization file of this snapshot has no `UpdateDisplayName`.
- `InternalSite.FQName` drops empty elements as `path.Join` does, but does not clean `.` and `..` names or names holding a slash; the lemmas about it require clean, slash-free names.
- The symbols `project.FQName`, `projectns.NamespaceName`, `organization.Resolve`, `organization.FQName`, `organization.Wrap`, the gitea components of the project namespace helper, and the `project.Namespace` and `project.ResourceQuota` components the resource-quota syncer names are not part of this model. Where they are needed, the model either writes out their evident form (`project/<name>`, `proj-<name>`), borrows the project namespace helper's components of the same name (`ProjectQuota.QuotaKey`), or takes them as parameters.
- `OrganizationApi.Selected`: an empty membership list gives the selector text `…in ()`. The Kubernetes parser reads that as the set holding the empty string. The model treats it as the empty set, so it does not capture organizations labelled with an empty name.
- `SiteApi.UpdatePrimaryDomain` requires a non-empty domain list when it replaces the first domain. The source indexes `Domains[0]` and would panic otherwise.
- `SiteApi.NewSiteFromK8s` requires a non-empty domain list, for the same reason.
- `GiteaDeployment.Sync` requires an existing deployment to have a selector. The source dereferences it without a check.
- `GiteaDeployment.Sync`: the volumes, init container, probes and resources of the generated gitea pod spec are not modelled. The spec is a parameter.
- `MemcachedStatefulSet.MemcachedPodSpec`: the probes are not modelled. Containers carry name, image, pull policy, requests, limits, command, arguments, env and ports.
- `MemcachedStatefulSet.MemoryArgIsMiB` covers non-negative memory only. A negative quantity would be divided with Go's truncation (`Quantity.GoDiv`), which the lemma does not cover.
- The `mergo.Merge` call with the pod-spec transformers is foreign code and is a parameter.
- `Quantity.Value`: `resource.ParseQuantity` is a parameter, and quantities are held in milli-units. Sub-milli precision and formatting are not modelled.
- In `MysqlClusterSecret.Sync`, the random password generator is a parameter (one result for each password).
- Set-based label selector requirements are kept as opaque text.
- Nil maps and empty maps are the same value in this model. `labels.Equals` treats them alike, and so do the syncers.
- `InternalProjectMeta.SetMetadata`: the source panics when the object's labels or annotations map is nil; the model treats a nil map as empty and always succeeds.
- `InternalSiteMeta.SetMetadata`: the source panics when the object's labels or annotations map is nil; the model treats a nil map as empty and always succeeds.
- `InternalProject.UpdateDisplayName`: the source panics when the project's annotations map is nil; the model treats it as empty and always succeeds.
- `InternalProjectNs.UpdateDisplayName`: the source panics when the namespace's annotations map is nil; the model treats it as empty and always succeeds.
- `ControllerUtil.SetControllerReference`: the branch for an owner that is not a `runtime.Object` is not modelled. The owner is always one here.
- `ControllerUtil.CreateOrUpdate` writes under the given key. The caller supplies the zero object `zero` that the transform starts from when the key is missing; the source builds it itself as an empty object carrying only the key's name and namespace, and no contract states that. Name and namespace changes made by the transform, and the kind of the stored object, are not modelled.
- The syncers' `controllerLabels`, `getSiteLabels`, `giteaPodLabels` and `giteaLabels` are not part of this model. They are parameters.
- The fixed-shape syncers are not modelled: Prometheus, service monitors, limit range, PVC, ingress, service accounts, namespace, owner cluster role, SMTP secret and the older builders other than the resource quota. They only assign constants or duplicate the modelled ones.
- Protobuf code, generated code and test suites are not modelled.
- The three-word method name `callProcedureOnProject` is not stated as an example lemma. The general lemmas about `Words` cover it.

## Findings

| source | as written | input that shows it | evidently intended | confidence | as-written member | corrected member |
|---|---|---|---|---|---|---|
| app/src/redux/organizations.ts:237-242 | `setMetadata` takes a key and a value, but the saga passes one `{key, value}` object as the key and no value, so the `organization` header is never set | selecting any organization, e.g. `acme` | the request metadata holds `organization: acme` after the selection | not executed | `OrganizationsStore.SelectionMetadataAsWritten`, `OrganizationsStore.SelectionMetadataAsWrittenMissesHeader` | `OrganizationsStore.SelectionMetadata`, `OrganizationsStore.SelectionMetadataSetsHeader` |
| pkg/apiserver/controller/site/site.go:295-299 | `make([]*sites.Endpoint, n)` fills the slice with nil references and the loop writes fields through them, so the call panics | an ingress with one load-balancer address | one endpoint per address, with its IP and host name | not executed | `SiteApi.EndpointsAsWritten`, `SiteApi.OneAddressPanicsAsWritten` | `SiteApi.GetEndpoints`, `SiteApi.Endpoints` |
