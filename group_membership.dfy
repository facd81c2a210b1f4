/** The `jira_group_membership` resource: add a user to a group, read the
    membership back from the user's group list, remove it. Its id is
    meant to be "groupName:accountId". */
module GroupMembershipResource {
  import opened Diag
  import opened Jira
  import opened Schema
  import opened Strings

  /** The create payload (`groupMembershipScheme`). */
  datatype MembershipPayload = MembershipPayload(groupName: string, accountId: string)

  /** `expandGroupMembership`: each field from the configuration when it
      has changed, otherwise the empty string; it has no error path. */
  function Expand(attrs: map<string, Value>, changed: set<string>): (p: MembershipPayload)
    ensures p.groupName != "" ==>
      "group_name" in changed && "group_name" in attrs && attrs["group_name"] == Str(p.groupName)
    ensures "group_name" in changed && "group_name" in attrs && attrs["group_name"].Str? ==>
      p.groupName == attrs["group_name"].s
    ensures p.accountId != "" ==>
      "account_id" in changed && "account_id" in attrs && attrs["account_id"] == Str(p.accountId)
    ensures "account_id" in changed && "account_id" in attrs && attrs["account_id"].Str? ==>
      p.accountId == attrs["account_id"].s
  {
    MembershipPayload(
      if "group_name" in changed then GetString(attrs, "group_name") else "",
      if "account_id" in changed then GetString(attrs, "account_id") else "")
  }

  /** `groupNameAccountIDFromID`: the first two `:`-separated components
      of the id. Indexing the second component needs a `:` in the id;
      components after the second are dropped. */
  function GroupNameAccountIDFromID(id: string): (r: (string, string))
    requires ':' in id
    ensures ':' !in r.0 && ':' !in r.1
    ensures r.0 + [':'] + r.1 <= id
    ensures |id| == |r.0| + 1 + |r.1| || id[|r.0| + 1 + |r.1|] == ':'
  {
    var components := Split(id, ':');
    JoinSplit(id, ':');
    JoinLayout(components[1..], ':');
    assert components[1..][0] == components[1];
    (components[0], components[1])
  }

  /** Each payload field is empty unless its own field changed, and
      otherwise depends only on its own configured value. */
  lemma ExpandOnlyChanged(a1: map<string, Value>, a2: map<string, Value>, changed: set<string>)
    ensures "group_name" !in changed ==> Expand(a1, changed).groupName == ""
    ensures "account_id" !in changed ==> Expand(a1, changed).accountId == ""
    ensures GetString(a1, "group_name") == GetString(a2, "group_name") ==>
      Expand(a1, changed).groupName == Expand(a2, changed).groupName
    ensures GetString(a1, "account_id") == GetString(a2, "account_id") ==>
      Expand(a1, changed).accountId == Expand(a2, changed).accountId
  {
  }

  /** Whether the user's group list holds a group with this name. */
  predicate InGroupList(groups: seq<GroupRecord>, name: string) {
    exists i | 0 <= i < |groups| :: groups[i].name == name
  }

  /** The two attribute writes `readGroupMembership` makes, in order. */
  function Writes(groupName: string, accountId: string): seq<(string, Value)> {
    [("group_name", Str(groupName)), ("account_id", Str(accountId))]
  }

  /** `readGroupMembership`: decode the id (a panic without `:`), fetch
      the user with its groups; a 404 or a group list without the group
      stops tracking, another failure is passed on, otherwise the two
      decoded keys are written back. */
  function Read(s: State, accepts: Coercion, api: Client): (r: Outcome)
    ensures r.state.id == s.id || r.state.id == ""
    ensures ':' !in s.id ==> r == Outcome(s, IndexOutOfRange)
    ensures ':' in s.id ==>
      var keys := GroupNameAccountIDFromID(s.id); var reply := api.userGet(keys.1, ["groups"]);
      && (reply.NotFound? ==> r == Outcome(s.(id := ""), Report([])))
      && (reply.Err? ==> r == Outcome(s, Report([ApiError(reply.message)])))
      && (reply.Ok? ==> (r.state.id == s.id <==> InGroupList(reply.value.groups, keys.0)))
      && (reply.Ok? && !InGroupList(reply.value.groups, keys.0) ==> r == Outcome(s.(id := ""), Report([])))
  {
    if ':' !in s.id then Outcome(s, IndexOutOfRange)
    else
      var (groupName, accountId) := GroupNameAccountIDFromID(s.id);
      match api.userGet(accountId, ["groups"])
      case NotFound(_) => Outcome(s.(id := ""), Report([]))
      case Err(m) => Outcome(s, Report([ApiError(m)]))
      case Ok(user) =>
        if !InGroupList(user.groups, groupName) then Outcome(s.(id := ""), Report([]))
        else
          var (s', results) := SetAll(s, accepts, Writes(groupName, accountId));
          Outcome(s', Report(Append(results)))
  }

  /** `createGroupMembership`: add the user to the group; success stores
      the returned group name alone as the id and returns whatever the
      chained read returns. */
  function Create(s: State, changed: set<string>, accepts: Coercion, api: Client): (r: Outcome)
    ensures var p := Expand(s.attrs, changed); var reply := api.groupAdd(p.groupName, p.accountId);
      !reply.Ok? ==> r == Outcome(s, Report([ApiError(reply.message)]))
    ensures var p := Expand(s.attrs, changed); var reply := api.groupAdd(p.groupName, p.accountId);
      reply.Ok? ==> r == Read(s.(id := reply.value.name), accepts, api)
  {
    var membership := Expand(s.attrs, changed);
    var reply := api.groupAdd(membership.groupName, membership.accountId);
    match reply
    case Ok(group) => Read(s.(id := group.name), accepts, api)
    case _ => Outcome(s, Report([ApiError(reply.message)]))
  }

  /** `deleteGroupMembership`: decode the id (a panic without `:`) and
      remove the user from the group; a 404 counts as removed. */
  function Delete(s: State, api: Client): (r: Outcome)
    ensures r.state.attrs == s.attrs
    ensures ':' !in s.id ==> r == Outcome(s, IndexOutOfRange)
    ensures ':' in s.id ==>
      var keys := GroupNameAccountIDFromID(s.id); var reply := api.groupRemove(keys.0, keys.1);
      && (reply.NotFound? ==> r == Outcome(s.(id := ""), Report([])))
      && (reply.Err? ==> r == Outcome(s, Report([ApiError(reply.message)])))
      && (reply.Ok? ==> r == Outcome(s, Report([])))
  {
    if ':' !in s.id then Outcome(s, IndexOutOfRange)
    else
      var (groupName, accountId) := GroupNameAccountIDFromID(s.id);
      match api.groupRemove(groupName, accountId)
      case NotFound(_) => Outcome(s.(id := ""), Report([]))
      case Err(m) => Outcome(s, Report([ApiError(m)]))
      case Ok(_) => Outcome(s, Report([]))
  }

  /** Decoding "g:a" gives back `g` and `a` when neither holds a `:`. */
  lemma DecodeRoundTrip(g: string, a: string)
    requires ':' !in g && ':' !in a
    ensures ':' in g + [':'] + a
    ensures GroupNameAccountIDFromID(g + [':'] + a) == (g, a)
  {
    assert (g + [':'] + a)[|g|] == ':';
    var parts := [g, a];
    assert Join(parts, ':') == g + [':'] + a by {
      assert parts[1..] == [a];
    }
    SplitJoin(parts, ':');
  }

  /** Components after the second are silently dropped: "g:a:rest"
      decodes to `g` and `a`, whatever `rest` is. */
  lemma DecodeDropsExtra(g: string, a: string, rest: string)
    requires ':' !in g && ':' !in a
    ensures ':' in g + [':'] + a + [':'] + rest
    ensures GroupNameAccountIDFromID(g + [':'] + a + [':'] + rest) == (g, a)
  {
    var id := g + [':'] + a + [':'] + rest;
    assert id[|g|] == ':';
    var tail := a + [':'] + rest;
    assert id == g + ([':'] + tail);
    SplitPrefix(g, [':'] + tail, ':');
    SplitAfterSeparator(tail, ':');
    assert tail == a + ([':'] + rest);
    SplitPrefix(a, [':'] + rest, ':');
    SplitAfterSeparator(rest, ':');
    assert g + "" == g && a + "" == a;
    assert Split(tail, ':')[0] == a;
    assert Split(id, ':')[0] == g;
    assert Split(id, ':')[1] == Split(tail, ':')[0];
  }

  /** Membership create stores the returned group name as the id, so the
      chained read panics unless that name itself holds a `:`. */
  lemma CreateStoresGroupNameOnly(s: State, changed: set<string>, accepts: Coercion, api: Client)
    requires var p := Expand(s.attrs, changed); api.groupAdd(p.groupName, p.accountId).Ok?
    ensures var p := Expand(s.attrs, changed); var name := api.groupAdd(p.groupName, p.accountId).value.name;
      ':' !in name ==> Create(s, changed, accepts, api) == Outcome(State(name, s.attrs), IndexOutOfRange)
    ensures var p := Expand(s.attrs, changed); var name := api.groupAdd(p.groupName, p.accountId).value.name;
      Create(s, changed, accepts, api).diags.Succeeded() ==> ':' in name
  {
  }

  /** A user found with the group is projected onto exactly `group_name`
      and `account_id`, taken from the decoded id; the id is kept, and the
      read fails iff one of the two writes was refused. */
  lemma ReadProjects(s: State, accepts: Coercion, api: Client)
    requires ':' in s.id
    requires var keys := GroupNameAccountIDFromID(s.id); var reply := api.userGet(keys.1, ["groups"]);
      reply.Ok? && InGroupList(reply.value.groups, keys.0)
    ensures var keys := GroupNameAccountIDFromID(s.id); var r := Read(s, accepts, api); var ws := Writes(keys.0, keys.1);
      && r.state.id == s.id
      && Projected(s.attrs, r.state.attrs, accepts, ws)
      && (r.diags.Succeeded() <==> forall i | 0 <= i < |ws| :: accepts(ws[i].0, ws[i].1))
  {
    var keys := GroupNameAccountIDFromID(s.id);
    var ws := Writes(keys.0, keys.1);
    assert Read(s, accepts, api) == Outcome(SetAll(s, accepts, ws).0, Report(Append(SetAll(s, accepts, ws).1)));
    SetAllProjects(s, accepts, ws);
    SetAllErrors(s, accepts, ws);
  }

  /** Reading again converges: unless read stopped tracking, a second
      read with the same remote answers changes nothing more. */
  lemma ReadIdempotent(s: State, accepts: Coercion, api: Client)
    requires Read(s, accepts, api).state.id != ""
    ensures Read(Read(s, accepts, api).state, accepts, api) == Read(s, accepts, api)
  {
    if ':' in s.id {
      var keys := GroupNameAccountIDFromID(s.id);
      var reply := api.userGet(keys.1, ["groups"]);
      if reply.Ok? && InGroupList(reply.value.groups, keys.0) {
        var ws := Writes(keys.0, keys.1);
        assert Read(s, accepts, api) == Outcome(SetAll(s, accepts, ws).0, Report(Append(SetAll(s, accepts, ws).1)));
        SetAllIdempotent(s, accepts, ws);
      }
    }
  }

  /** `readGroupMembership` on the resource data. */
  method ReadGroupMembership(rd: ResourceData, api: Client) returns (d: Diagnostics)
    modifies rd
    ensures Outcome(rd.Snapshot(), d) == Read(old(rd.Snapshot()), rd.accepts, api)
  {
    if ':' !in rd.id {
      // `components[1]` of a one-component split
      return IndexOutOfRange;
    }
    var keys := GroupNameAccountIDFromID(rd.id);
    var groupName, accountId := keys.0, keys.1;
    var reply := api.userGet(accountId, ["groups"]);
    match reply {
      case NotFound(_) =>
        rd.SetId("");
        return Report([]);
      case Err(m) =>
        return Report([ApiError(m)]);
      case Ok(user) =>
        var items := user.groups;
        var found := false;
        var i := 0;
        while i < |items|
          invariant 0 <= i <= |items|
          invariant forall j | 0 <= j < i :: items[j].name != groupName
        {
          if items[i].name == groupName {
            found := true;
            break;
          }
          i := i + 1;
        }
        assert found <==> InGroupList(items, groupName);
        if !found {
          rd.SetId("");
          return Report([]);
        }
        ghost var s0 := rd.Snapshot();
        var w1, w2 := ("group_name", Str(groupName)), ("account_id", Str(accountId));
        var e1 := rd.Set(w1);
        SetAllSnoc(s0, rd.accepts, [], w1);
        var e2 := rd.Set(w2);
        SetAllSnoc(s0, rd.accepts, [w1], w2);
        assert [w1] + [w2] == Writes(groupName, accountId);
        d := Report(Append([e1, e2]));
    }
  }

  /** `createGroupMembership` on the resource data. */
  method CreateGroupMembership(rd: ResourceData, api: Client) returns (d: Diagnostics)
    modifies rd
    ensures Outcome(rd.Snapshot(), d) == Create(old(rd.Snapshot()), rd.changed, rd.accepts, api)
  {
    var membership := Expand(rd.attrs, rd.changed);
    var reply := api.groupAdd(membership.groupName, membership.accountId);
    if !reply.Ok? {
      return Report([ApiError(reply.message)]);
    }
    rd.SetId(reply.value.name);
    d := ReadGroupMembership(rd, api);
  }

  /** `deleteGroupMembership` on the resource data. */
  method DeleteGroupMembership(rd: ResourceData, api: Client) returns (d: Diagnostics)
    modifies rd
    ensures Outcome(rd.Snapshot(), d) == Delete(old(rd.Snapshot()), api)
  {
    if ':' !in rd.id {
      // `components[1]` of a one-component split
      return IndexOutOfRange;
    }
    var keys := GroupNameAccountIDFromID(rd.id);
    var reply := api.groupRemove(keys.0, keys.1);
    match reply {
      case NotFound(_) =>
        rd.SetId("");
        d := Report([]);
      case Err(m) =>
        d := Report([ApiError(m)]);
      case Ok(_) =>
        d := Report([]);
    }
  }
}
