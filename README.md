# Jira Terraform provider: resource lifecycle model

This project models the lifecycle functions of the three resources of a
Terraform provider for Jira: `jira_user`, `jira_group` and
`jira_group_membership`. Each resource has the Terraform operations create,
read, delete, a no-op update and a pass-through import. The model covers
what these functions do to Terraform's resource data, given what the Jira
client answers:

- which remote call each function makes, and with which arguments;
- how a 404 is told apart from other failures;
- when the id is cleared to `""`, which stops Terraform tracking the resource;
- how a membership id is split into `groupName:accountId`;
- how the user's group list is searched;
- how attribute writes are collected into one error list;
- how create chains into read.

Layout, one module per file:

- `jira.dfy` (`Jira`): the records the client returns. Also the `Client`
  datatype. Each call it makes (`User.Get/Create/Delete`,
  `Group.Create/Bulk/Delete/Add/Remove`) is a function from its arguments to
  a `Reply`: `Ok(record)`, `NotFound` or `Err`.
- `diag.dfy` (`Diag`): errors, and the diagnostics a lifecycle function
  returns. `Append` is `multierror.Append(...).ErrorOrNil()`.
- `schema.dfy` (`Schema`): `ResourceData`, a class with a mutable `id` and
  attribute map, plus its `SetId`/`Set`. The fields whose `HasChange` holds
  are a set, and whether the schema accepts a `Set` is a function
  (`Coercion`). `State` is a value snapshot of the id and attributes.
  `SetAll` is a run of `Set` calls, and its lemmas describe the aggregated
  projection.
- `strings.dfy` (`Strings`): `strings.Split` on a one-character separator,
  with the join/split inverse lemmas.
- `user.dfy`, `group.dfy`, `group_membership.dfy`: one module per resource.
  Each Go lifecycle function appears twice. It is a pure function from the
  old state and the client's answers to an `Outcome` (new state plus
  diagnostics). It is also a method, operating on the `ResourceData` it is
  given, with the source's statements and loop, proved to reach exactly
  that outcome.

Behaviour of the code worth knowing:

- There is no encode function for membership ids. Create stores only the
  group name returned by `Group.Add` as the id. The read it chains into then
  splits that id. Without a `:` this indexes past the end of the split (a Go
  panic). The model makes that panic a distinct outcome, `IndexOutOfRange`,
  instead of excluding such ids with a precondition. `CreateStoresGroupNameOnly`
  proves the consequence: a membership create with a `:`-free group name
  always ends in that panic.
- `Values[0]` on a group page with a nonzero `Total` and no values panics
  the same way. It is modelled the same way, as `IndexOutOfRange`.
- A create whose confirming read finds nothing (a 404, a zero total, or the
  group missing from the user's list) reports success with the id cleared.
  There is no "created but not found" error. Create does not validate
  required fields either.
- Decoding a malformed membership id is a panic, not an error value.
- A 404 answer to a create call is an ordinary error. Only read and delete
  have a not-found branch.
- On a 404 the id is cleared and the attributes are left as they were. The
  model does not clear them itself.
- `readUser` writes `account_id`, `account_type`, `display_name` and
  `active`, but the user schema declares only `email`. Likewise
  `readGroup` writes `group_id`, but the group schema declares only
  `name`. The Terraform SDK refuses to `Set` a key the schema does not
  declare. With that coercion (`DeclaredOnly`), `ReadUnderDeclaredSchema`
  shows what each read returns after a successful fetch: the user read
  reports the four undeclared keys, the group read reports `group_id`.

## Model

| member | source | states |
|---|---|---|
| Diag.Append | internal/provider/resource_jira_user.go:80-88 | the aggregated error is empty exactly when every write returned nil, and never longer than the number of writes |
| Diag.AppendMembers | internal/provider/resource_jira_user.go:80-88 | the aggregated errors are exactly the non-nil write results |
| Diag.AppendConcat | internal/provider/resource_jira_user.go:80-88 | aggregation keeps order: the errors of two runs of write results are the errors of the first run followed by those of the second |
| Strings.Split | internal/provider/resource_jira_group_membership.go:128 | split never returns an empty list; it has two or more parts exactly when the separator occurs; no part contains the separator |
| Strings.JoinSplit | internal/provider/resource_jira_group_membership.go:128 | joining the parts with the separator gives the original string |
| Strings.SplitJoin | internal/provider/resource_jira_group_membership.go:128 | splitting a join of separator-free parts gives back exactly those parts |
| Strings.SplitPrefix | internal/provider/resource_jira_group_membership.go:128 | a separator-free prefix becomes the start of the first part |
| Schema.SetAll | internal/provider/resource_jira_user.go:80-86 | every write is attempted, in order; each returns an error exactly when the schema refuses it; the id is untouched |
| Schema.SetAllAttrs | internal/provider/resource_jira_user.go:80-86 | after the writes, the attributes are the old ones overridden by exactly the accepted writes |
| Schema.AcceptedDistinct | internal/provider/resource_jira_user.go:80-86 | with distinct keys, each accepted write is stored, each refused key is not, and no other key is stored |
| Schema.SetAllProjects | internal/provider/resource_jira_user.go:80-86 | with distinct keys, accepted writes are stored and every other attribute keeps its old presence and value |
| Schema.SetAllIdempotent | internal/provider/resource_jira_user.go:80-86 | repeating the same writes changes neither the state nor the errors |
| Schema.SetAllErrors | internal/provider/resource_jira_user.go:80-88 | the read's error is empty iff every write was accepted, and it names every refused key |
| Schema.NoopUpdate | internal/provider/resource_jira_user.go:18 | update succeeds, changes nothing and calls nothing remote |
| Schema.ImportStatePassthrough | internal/provider/resource_jira_user.go:20-22 | import hands back the same resource data, id kept |
| Schema.ResourceData.constructor | internal/provider/resource_jira_user.go:35 | resource data starts with the given id, attributes, changed fields and schema coercion |
| Schema.ResourceData.SetId | internal/provider/resource_jira_user.go:53 | `SetId` replaces the id and leaves the attributes alone |
| Schema.ResourceData.Set | internal/provider/resource_jira_user.go:80 | `Set` stores the value iff the schema accepts it, returns an error otherwise, and never touches the id |
| UserResource.Read | internal/provider/resource_jira_user.go:68-89 | read fetches by the current id with no expansion; a 404 clears the id with no diagnostics; another failure is returned with the state unchanged; a fetch keeps the id; read never panics |
| UserResource.ReadProjects | internal/provider/resource_jira_user.go:80-88 | a fetched user is written to exactly the five attributes, everything else unchanged; the read fails iff a write was refused |
| UserResource.ReadUnderDeclaredSchema | internal/provider/resource_jira_user.go:80-86 | under a schema declaring only `email`, a successful fetch reports `account_id`, `account_type`, `display_name` and `active` as refused |
| UserResource.DeclaredSchemaResults | internal/provider/resource_jira_user.go:80-86 | under that schema, the five write results are: refused, refused, accepted, refused, refused |
| UserResource.ReadIdempotent | internal/provider/resource_jira_user.go:68-89 | unless the user was not found, a second read with the same answers yields the same outcome |
| UserResource.Create | internal/provider/resource_jira_user.go:35-56 | create sends the expanded email; any failure, a 404 included, is returned with the state unchanged; success stores the returned account id and returns exactly what read returns |
| UserResource.CreateIdentity | internal/provider/resource_jira_user.go:53-55 | after create the id is the old one (on failure), the new account id, or empty; a confirming read that gets a 404 leaves an empty id and success |
| UserResource.Expand | internal/provider/resource_jira_user.go:58-66 | a non-empty payload email was copied from the configured email, and only when it changed; a changed configured email is copied |
| UserResource.ExpandOnlyChanged | internal/provider/resource_jira_user.go:58-66 | the payload's email is empty unless the email changed, and otherwise depends only on the configured email |
| UserResource.Delete | internal/provider/resource_jira_user.go:91-104 | delete by the current id: a 404 clears the id and succeeds; another failure is returned with the id unchanged; success leaves the id; attributes are never touched |
| UserResource.ReadUser | internal/provider/resource_jira_user.go:68-89 | the statement-by-statement read on the resource data reaches exactly `Read`'s outcome |
| UserResource.CreateUser | internal/provider/resource_jira_user.go:35-56 | the create on the resource data reaches exactly `Create`'s outcome |
| UserResource.DeleteUser | internal/provider/resource_jira_user.go:91-104 | the delete on the resource data reaches exactly `Delete`'s outcome |
| GroupResource.Read | internal/provider/resource_jira_group.go:66-93 | read looks up exactly the current id (start 0, at most 1); a 404 or a zero total clears the id with no diagnostics; another failure is returned; a nonzero total with no values panics; the id is never set to anything new |
| GroupResource.ReadProjects | internal/provider/resource_jira_group.go:85-92 | only the first value is projected, to exactly `group_id` and `name`; the id is kept; the read fails iff a write was refused |
| GroupResource.ReadPanicsOnlyOnEmptyPage | internal/provider/resource_jira_group.go:80-85 | read panics exactly when the page has a nonzero total and no values |
| GroupResource.ReadUnderDeclaredSchema | internal/provider/resource_jira_group.go:87-90 | under a schema declaring only `name`, a found group reports `group_id` as refused |
| GroupResource.ReadIdempotent | internal/provider/resource_jira_group.go:66-93 | unless read stopped tracking, a second read with the same answers yields the same outcome |
| GroupResource.Create | internal/provider/resource_jira_group.go:35-54 | create sends the expanded name; any failure is returned with the state unchanged; success stores the returned name and returns exactly what read returns |
| GroupResource.CreateIdentity | internal/provider/resource_jira_group.go:51-53 | after create the id is the old one (on failure), the returned name, or empty; a confirming lookup that gets a 404 or a zero total leaves an empty id and success |
| GroupResource.Expand | internal/provider/resource_jira_group.go:56-64 | a non-empty payload name was copied from the configured name, and only when it changed; a changed configured name is copied |
| GroupResource.ExpandOnlyChanged | internal/provider/resource_jira_group.go:56-64 | the payload's name is empty unless the name changed, and otherwise depends only on the configured name |
| GroupResource.Delete | internal/provider/resource_jira_group.go:95-108 | delete by the current id: a 404 clears the id and succeeds; another failure is returned with the id unchanged; success leaves the id; attributes are never touched |
| GroupResource.ReadGroup | internal/provider/resource_jira_group.go:66-93 | the statement-by-statement read on the resource data reaches exactly `Read`'s outcome |
| GroupResource.CreateGroup | internal/provider/resource_jira_group.go:35-54 | the create on the resource data reaches exactly `Create`'s outcome |
| GroupResource.DeleteGroup | internal/provider/resource_jira_group.go:95-108 | the delete on the resource data reaches exactly `Delete`'s outcome |
| GroupMembershipResource.Expand | internal/provider/resource_jira_group_membership.go:63-75 | each non-empty payload field was copied from its own configured field, and only when that field changed; each changed configured field is copied |
| GroupMembershipResource.ExpandOnlyChanged | internal/provider/resource_jira_group_membership.go:63-75 | each payload field is empty unless its own field changed, and otherwise depends only on its own configured value |
| GroupMembershipResource.GroupNameAccountIDFromID | internal/provider/resource_jira_group_membership.go:127-130 | needs a `:` in the id; returns two `:`-free strings that, joined by `:`, form a prefix of the id that ends at its end or at the next `:` |
| GroupMembershipResource.DecodeRoundTrip | internal/provider/resource_jira_group_membership.go:127-130 | decoding `g:a` gives exactly `(g, a)` when neither contains `:` |
| GroupMembershipResource.DecodeDropsExtra | internal/provider/resource_jira_group_membership.go:128-129 | decoding `g:a:rest` gives `(g, a)` whatever `rest` is |
| GroupMembershipResource.Read | internal/provider/resource_jira_group_membership.go:77-109 | read panics on an id without `:`; otherwise it fetches the decoded account with groups expanded; a 404 clears the id with no diagnostics; another failure is returned unchanged; after a fetch the id is kept iff the decoded group name is in the user's group list, otherwise cleared with no error |
| GroupMembershipResource.ReadProjects | internal/provider/resource_jira_group_membership.go:103-108 | a found membership writes exactly `group_name` and `account_id` from the decoded id; the id is kept; the read fails iff a write was refused |
| GroupMembershipResource.ReadIdempotent | internal/provider/resource_jira_group_membership.go:77-109 | unless read stopped tracking, a second read with the same answers yields the same outcome |
| GroupMembershipResource.Create | internal/provider/resource_jira_group_membership.go:46-61 | create adds the expanded group name and account id; a failure is returned with the state unchanged; success stores the returned group name alone and returns exactly what read returns |
| GroupMembershipResource.CreateStoresGroupNameOnly | internal/provider/resource_jira_group_membership.go:58-60 | with a returned group name that has no `:`, create ends in the index-out-of-range panic with that name as the id; a successful create needs a `:` in the returned name |
| GroupMembershipResource.Delete | internal/provider/resource_jira_group_membership.go:111-125 | delete panics on an id without `:`; otherwise it removes the decoded pair: a 404 clears the id and succeeds, another failure is returned unchanged, success leaves the id |
| GroupMembershipResource.ReadGroupMembership | internal/provider/resource_jira_group_membership.go:77-109 | the read on the resource data, with the source's search loop and `break`, reaches exactly `Read`'s outcome |
| GroupMembershipResource.CreateGroupMembership | internal/provider/resource_jira_group_membership.go:46-61 | the create on the resource data reaches exactly `Create`'s outcome |
| GroupMembershipResource.DeleteGroupMembership | internal/provider/resource_jira_group_membership.go:111-125 | the delete on the resource data reaches exactly `Delete`'s outcome |

## Left out

- `provider.go`: provider construction and credential wiring are not part of
  this model.
- HTTP, authentication and the go-atlassian client. Each remote call is a
  function parameter returning `Ok`, `NotFound` (a 404) or `Err` (any other
  response).
- Transport errors with a nil response. In Go, `resp.StatusCode` then
  dereferences nil and panics. The model assumes every failure comes with a
  response, so `Err` stands for a non-404 status.
- Schema declarations and `ForceNew`: `HasChange` is a set of field names
  given as input. Whether `Set` accepts a value is the abstract `Coercion`.
  `DeclaredOnly` approximates the SDK's refusal of undeclared keys. The SDK's
  other type checks are not modelled.
- `rd.Get(key).(string)`: the type assertion panics on a non-string value.
  The model returns `""` for an unset or non-string value (a missing value
  gives `""` in Go as well). These fields are declared as strings, so the
  panic cannot arise through the schema.
- Import: Terraform's "then run read" after `ImportStatePassthrough` is
  done by Terraform itself, which is not modelled. It is the resource's
  `Read` applied to the kept id.
- Diagnostic formatting. Diagnostics are a list of errors; the empty list
  is success.
- The paging arguments of `Group.Bulk` (0, 1) are passed unchanged. What
  the server does with them is left to the `Reply` it gives.
- `context.Context`, cancellation and concurrency: the code does not use
  them beyond passing them on.
- Clearing the attributes on a 404: neither the source nor the model does
  it, because Terraform drops the state of an instance whose id is empty.
