/** The `jira_group` resource: create a group by name, read it back with
    a one-name bulk lookup, delete it; update is a no-op. */
module GroupResource {
  import opened Diag
  import opened Jira
  import opened Schema

  /** The create payload: only the group name is sent. */
  datatype GroupPayload = GroupPayload(name: string)

  /** `expandGroup`: the name from the configuration when it has changed,
      otherwise the empty string; it has no error path. */
  function Expand(attrs: map<string, Value>, changed: set<string>): (p: GroupPayload)
    ensures p.name != "" ==> "name" in changed && "name" in attrs && attrs["name"] == Str(p.name)
    ensures "name" in changed && "name" in attrs && attrs["name"].Str? ==> p.name == attrs["name"].s
  {
    GroupPayload(if "name" in changed then GetString(attrs, "name") else "")
  }

  /** The two attribute writes `readGroup` makes, in order. */
  function Writes(g: GroupRecord): seq<(string, Value)> {
    [("group_id", Str(g.groupId)), ("name", Str(g.name))]
  }

  /** The lookup `readGroup` makes: the one name equal to the current id,
      starting at 0, at most one result. */
  function Lookup(s: State, api: Client): Reply<GroupPage> {
    api.groupBulk([s.id], 0, 1)
  }

  /** `readGroup`: a 404 or a zero total stops tracking, another failure
      is passed on, otherwise the first value is projected, which panics
      when the page holds no values. */
  function Read(s: State, accepts: Coercion, api: Client): (r: Outcome)
    ensures r.state.id == s.id || r.state.id == ""
    ensures Lookup(s, api).NotFound? ==> r == Outcome(s.(id := ""), Report([]))
    ensures Lookup(s, api).Err? ==> r == Outcome(s, Report([ApiError(Lookup(s, api).message)]))
    ensures Lookup(s, api).Ok? && Lookup(s, api).value.total == 0 ==> r == Outcome(s.(id := ""), Report([]))
    ensures Lookup(s, api).Ok? && Lookup(s, api).value.total != 0 && Lookup(s, api).value.values == [] ==>
      r == Outcome(s, IndexOutOfRange)
    ensures r.state.attrs == s.attrs ||
      (Lookup(s, api).Ok? && Lookup(s, api).value.total != 0 && Lookup(s, api).value.values != [])
  {
    match Lookup(s, api)
    case NotFound(_) => Outcome(s.(id := ""), Report([]))
    case Err(m) => Outcome(s, Report([ApiError(m)]))
    case Ok(page) =>
      if page.total == 0 then Outcome(s.(id := ""), Report([]))
      else if page.values == [] then Outcome(s, IndexOutOfRange)
      else
        var (s', results) := SetAll(s, accepts, Writes(page.values[0]));
        Outcome(s', Report(Append(results)))
  }

  /** `createGroup`: create from the expanded payload; success stores the
      returned group name and returns whatever the chained read returns. */
  function Create(s: State, changed: set<string>, accepts: Coercion, api: Client): (r: Outcome)
    ensures var reply := api.groupCreate(Expand(s.attrs, changed).name);
      !reply.Ok? ==> r == Outcome(s, Report([ApiError(reply.message)]))
    ensures var reply := api.groupCreate(Expand(s.attrs, changed).name);
      reply.Ok? ==> r == Read(s.(id := reply.value.name), accepts, api)
  {
    var reply := api.groupCreate(Expand(s.attrs, changed).name);
    match reply
    case Ok(created) => Read(s.(id := created.name), accepts, api)
    case _ => Outcome(s, Report([ApiError(reply.message)]))
  }

  /** `deleteGroup`: delete by the current id; a 404 counts as deleted. */
  function Delete(s: State, api: Client): (r: Outcome)
    ensures r.state.attrs == s.attrs
    ensures api.groupDelete(s.id).NotFound? ==> r == Outcome(s.(id := ""), Report([]))
    ensures api.groupDelete(s.id).Err? ==> r == Outcome(s, Report([ApiError(api.groupDelete(s.id).message)]))
    ensures api.groupDelete(s.id).Ok? ==> r == Outcome(s, Report([]))
  {
    match api.groupDelete(s.id)
    case NotFound(_) => Outcome(s.(id := ""), Report([]))
    case Err(m) => Outcome(s, Report([ApiError(m)]))
    case Ok(_) => Outcome(s, Report([]))
  }

  /** The payload depends on the configured name only when it changed. */
  lemma ExpandOnlyChanged(a1: map<string, Value>, a2: map<string, Value>, changed: set<string>)
    ensures "name" !in changed ==> Expand(a1, changed) == Expand(a2, changed) == GroupPayload("")
    ensures "name" in changed && GetString(a1, "name") == GetString(a2, "name") ==>
      Expand(a1, changed) == Expand(a2, changed)
  {
  }

  /** A page with a value is projected from its first value only, onto
      exactly `group_id` and `name`; the id is kept, and the read fails
      iff one of the two writes was refused. */
  lemma ReadProjects(s: State, accepts: Coercion, api: Client)
    requires Lookup(s, api).Ok? && Lookup(s, api).value.total != 0 && Lookup(s, api).value.values != []
    ensures var r := Read(s, accepts, api); var ws := Writes(Lookup(s, api).value.values[0]);
      && r.state.id == s.id
      && Projected(s.attrs, r.state.attrs, accepts, ws)
      && (r.diags.Succeeded() <==> forall i | 0 <= i < |ws| :: accepts(ws[i].0, ws[i].1))
  {
    var ws := Writes(Lookup(s, api).value.values[0]);
    SetAllProjects(s, accepts, ws);
    SetAllErrors(s, accepts, ws);
  }

  /** Read panics exactly when the page has a nonzero total and no
      values; a remote that never answers so never makes read panic. */
  lemma ReadPanicsOnlyOnEmptyPage(s: State, accepts: Coercion, api: Client)
    ensures Read(s, accepts, api).diags.IndexOutOfRange? <==>
      Lookup(s, api).Ok? && Lookup(s, api).value.total != 0 && Lookup(s, api).value.values == []
  {
  }

  /** Under the resource's declared schema (only "name"), a found group
      is reported with `group_id` refused. */
  lemma ReadUnderDeclaredSchema(s: State, api: Client)
    requires Lookup(s, api).Ok? && Lookup(s, api).value.total != 0 && Lookup(s, api).value.values != []
    ensures Read(s, DeclaredOnly({"name"}), api).diags == Report([AttributeError("group_id")])
  {
  }

  /** Reading again converges: unless read stopped tracking, a second
      read with the same remote answers changes nothing more. */
  lemma ReadIdempotent(s: State, accepts: Coercion, api: Client)
    requires Read(s, accepts, api).state.id != ""
    ensures Read(Read(s, accepts, api).state, accepts, api) == Read(s, accepts, api)
  {
    if Lookup(s, api).Ok? && Lookup(s, api).value.total != 0 && Lookup(s, api).value.values != [] {
      SetAllIdempotent(s, accepts, Writes(Lookup(s, api).value.values[0]));
    }
  }

  /** The id after create is the old one (create failed), the returned
      name (read kept it) or empty (read found nothing); a confirming
      lookup that gets a 404 or a zero total is reported as success. */
  lemma CreateIdentity(s: State, changed: set<string>, accepts: Coercion, api: Client)
    ensures var reply := api.groupCreate(Expand(s.attrs, changed).name); var r := Create(s, changed, accepts, api);
      && (!reply.Ok? ==> r.state.id == s.id && !r.diags.Succeeded())
      && (reply.Ok? ==> r.state.id in {reply.value.name, ""})
      && (reply.Ok? ==> var look := api.groupBulk([reply.value.name], 0, 1);
            look.NotFound? || (look.Ok? && look.value.total == 0) ==>
              r.state.id == "" && r.diags.Succeeded())
  {
  }

  /** `readGroup` on the resource data. */
  method ReadGroup(rd: ResourceData, api: Client) returns (d: Diagnostics)
    modifies rd
    ensures Outcome(rd.Snapshot(), d) == Read(old(rd.Snapshot()), rd.accepts, api)
  {
    var reply := api.groupBulk([rd.id], 0, 1);
    match reply {
      case NotFound(_) =>
        rd.SetId("");
        return Report([]);
      case Err(m) =>
        return Report([ApiError(m)]);
      case Ok(groups) =>
        if groups.total == 0 {
          rd.SetId("");
          return Report([]);
        }
        if groups.values == [] {
          return IndexOutOfRange;
        }
        var group := groups.values[0];
        ghost var s0 := rd.Snapshot();
        var w1, w2 := ("group_id", Str(group.groupId)), ("name", Str(group.name));
        var e1 := rd.Set(w1);
        SetAllSnoc(s0, rd.accepts, [], w1);
        var e2 := rd.Set(w2);
        SetAllSnoc(s0, rd.accepts, [w1], w2);
        assert [w1] + [w2] == Writes(group);
        d := Report(Append([e1, e2]));
    }
  }

  /** `createGroup` on the resource data. */
  method CreateGroup(rd: ResourceData, api: Client) returns (d: Diagnostics)
    modifies rd
    ensures Outcome(rd.Snapshot(), d) == Create(old(rd.Snapshot()), rd.changed, rd.accepts, api)
  {
    var group := Expand(rd.attrs, rd.changed);
    var reply := api.groupCreate(group.name);
    if !reply.Ok? {
      return Report([ApiError(reply.message)]);
    }
    rd.SetId(reply.value.name);
    d := ReadGroup(rd, api);
  }

  /** `deleteGroup` on the resource data. */
  method DeleteGroup(rd: ResourceData, api: Client) returns (d: Diagnostics)
    modifies rd
    ensures Outcome(rd.Snapshot(), d) == Delete(old(rd.Snapshot()), api)
  {
    var reply := api.groupDelete(rd.id);
    match reply {
      case NotFound(_) =>
        rd.SetId("");
        d := Report([]);
      case Err(m) =>
        d := Report([ApiError(m)]);
      case Ok(_) =>
        d := Report([]);
    }
  }
}
