/** The remote side: the records the Jira client returns and the calls
    the three resources make, each reduced to a value-level outcome. */
module Jira {

  /** The outcome of one remote call: a record, a 404 response, or any
      other failed response. */
  datatype Reply<+T> =
    | Ok(value: T)
    | NotFound(message: string)
    | Err(message: string)

  /** A group as the client returns it (`Name`, `GroupID`). */
  datatype GroupRecord = GroupRecord(name: string, groupId: string)

  /** A user as the client returns it; `groups` is `Groups.Items`, filled
      in when the call asks to expand "groups". */
  datatype UserRecord = UserRecord(
    accountId: string,
    accountType: string,
    email: string,
    displayName: string,
    active: bool,
    groups: seq<GroupRecord>)

  /** One page of a bulk group lookup: the server's `Total` and the page's `Values`. */
  datatype GroupPage = GroupPage(total: int, values: seq<GroupRecord>)

  /** The operations of the client the resources call: `User.Get(accountId,
      expand)`, `User.Create(email)`, `User.Delete(accountId)`,
      `Group.Create(name)`, `Group.Bulk(names, startAt, maxResults)`,
      `Group.Delete(name)`, `Group.Add(groupName, accountId)` and
      `Group.Remove(groupName, accountId)`. */
  datatype Client = Client(
    userGet: (string, seq<string>) -> Reply<UserRecord>,
    userCreate: string -> Reply<UserRecord>,
    userDelete: string -> Reply<()>,
    groupCreate: string -> Reply<GroupRecord>,
    groupBulk: (seq<string>, int, int) -> Reply<GroupPage>,
    groupDelete: string -> Reply<()>,
    groupAdd: (string, string) -> Reply<GroupRecord>,
    groupRemove: (string, string) -> Reply<()>)
}
