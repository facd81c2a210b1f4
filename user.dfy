/** The `jira_user` resource: create a user from an email, read it back
    by account id, delete it; update is a no-op. */
module UserResource {
  import opened Diag
  import opened Jira
  import opened Schema

  /** The create payload: only the email address is sent. */
  datatype UserPayload = UserPayload(email: string)

  /** `expandUser`: the email from the configuration when it has changed,
      otherwise the empty string; it has no error path. */
  function Expand(attrs: map<string, Value>, changed: set<string>): (p: UserPayload)
    ensures p.email != "" ==> "email" in changed && "email" in attrs && attrs["email"] == Str(p.email)
    ensures "email" in changed && "email" in attrs && attrs["email"].Str? ==> p.email == attrs["email"].s
  {
    UserPayload(if "email" in changed then GetString(attrs, "email") else "")
  }

  /** The five attribute writes `readUser` makes, in order. */
  function Writes(u: UserRecord): seq<(string, Value)> {
    [ ("account_id", Str(u.accountId)),
      ("account_type", Str(u.accountType)),
      ("email", Str(u.email)),
      ("display_name", Str(u.displayName)),
      ("active", Bool(u.active)) ]
  }

  /** `readUser`: fetch by the current id (no expansion); a 404 stops
      tracking, another failure is passed on, a record is projected. */
  function Read(s: State, accepts: Coercion, api: Client): (r: Outcome)
    ensures r.diags.Report?
    ensures r.state.attrs == s.attrs || api.userGet(s.id, []).Ok?
    ensures api.userGet(s.id, []).NotFound? ==> r == Outcome(s.(id := ""), Report([]))
    ensures api.userGet(s.id, []).Err? ==> r == Outcome(s, Report([ApiError(api.userGet(s.id, []).message)]))
    ensures api.userGet(s.id, []).Ok? ==> r.state.id == s.id
  {
    match api.userGet(s.id, [])
    case NotFound(_) => Outcome(s.(id := ""), Report([]))
    case Err(m) => Outcome(s, Report([ApiError(m)]))
    case Ok(user) =>
      var (s', results) := SetAll(s, accepts, Writes(user));
      Outcome(s', Report(Append(results)))
  }

  /** `createUser`: create from the expanded payload; success stores the
      new account id and returns whatever the chained read returns. */
  function Create(s: State, changed: set<string>, accepts: Coercion, api: Client): (r: Outcome)
    ensures var reply := api.userCreate(Expand(s.attrs, changed).email);
      !reply.Ok? ==> r == Outcome(s, Report([ApiError(reply.message)]))
    ensures var reply := api.userCreate(Expand(s.attrs, changed).email);
      reply.Ok? ==> r == Read(s.(id := reply.value.accountId), accepts, api)
  {
    var reply := api.userCreate(Expand(s.attrs, changed).email);
    match reply
    case Ok(created) => Read(s.(id := created.accountId), accepts, api)
    case _ => Outcome(s, Report([ApiError(reply.message)]))
  }

  /** `deleteUser`: delete by the current id; a 404 counts as deleted. */
  function Delete(s: State, api: Client): (r: Outcome)
    ensures r.state.attrs == s.attrs
    ensures api.userDelete(s.id).NotFound? ==> r == Outcome(s.(id := ""), Report([]))
    ensures api.userDelete(s.id).Err? ==> r == Outcome(s, Report([ApiError(api.userDelete(s.id).message)]))
    ensures api.userDelete(s.id).Ok? ==> r == Outcome(s, Report([]))
  {
    match api.userDelete(s.id)
    case NotFound(_) => Outcome(s.(id := ""), Report([]))
    case Err(m) => Outcome(s, Report([ApiError(m)]))
    case Ok(_) => Outcome(s, Report([]))
  }

  /** The payload depends on the configured email only when it changed. */
  lemma ExpandOnlyChanged(a1: map<string, Value>, a2: map<string, Value>, changed: set<string>)
    ensures "email" !in changed ==> Expand(a1, changed) == Expand(a2, changed) == UserPayload("")
    ensures "email" in changed && GetString(a1, "email") == GetString(a2, "email") ==>
      Expand(a1, changed) == Expand(a2, changed)
  {
  }

  /** A fetched user is projected onto exactly the five attributes:
      each accepted write is stored, everything else is as it was, the
      id is kept, and the read fails iff some write was refused. */
  lemma ReadProjects(s: State, accepts: Coercion, api: Client)
    requires api.userGet(s.id, []).Ok?
    ensures var r := Read(s, accepts, api); var ws := Writes(api.userGet(s.id, []).value);
      && r.state.id == s.id
      && Projected(s.attrs, r.state.attrs, accepts, ws)
      && (r.diags.Succeeded() <==> forall i | 0 <= i < |ws| :: accepts(ws[i].0, ws[i].1))
  {
    var ws := Writes(api.userGet(s.id, []).value);
    SetAllProjects(s, accepts, ws);
    SetAllErrors(s, accepts, ws);
  }

  /** Under the resource's declared schema (only "email"), a fetched
      user is reported with the four undeclared keys refused, in order. */
  lemma ReadUnderDeclaredSchema(s: State, api: Client)
    requires api.userGet(s.id, []).Ok?
    ensures Read(s, DeclaredOnly({"email"}), api).diags == Report([
      AttributeError("account_id"), AttributeError("account_type"),
      AttributeError("display_name"), AttributeError("active")])
  {
    var e1, e2, e4, e5 := AttributeError("account_id"), AttributeError("account_type"),
      AttributeError("display_name"), AttributeError("active");
    var u := api.userGet(s.id, []).value;
    var rs := SetAll(s, DeclaredOnly({"email"}), Writes(u)).1;
    assert Read(s, DeclaredOnly({"email"}), api).diags == Report(Append(rs));
    DeclaredSchemaResults(s, u);
    assert Append(rs) == [e1, e2, e4, e5] by {
      AppendCons(Some(e5), []);
      AppendCons(Some(e4), [Some(e5)]);
      AppendCons(None, [Some(e4), Some(e5)]);
      AppendCons(Some(e2), [None, Some(e4), Some(e5)]);
      AppendCons(Some(e1), [Some(e2), None, Some(e4), Some(e5)]);
    }
  }

  /** The five write results under that schema: only `email` is accepted. */
  lemma DeclaredSchemaResults(s: State, u: UserRecord)
    ensures SetAll(s, DeclaredOnly({"email"}), Writes(u)).1 == [
      Some(AttributeError("account_id")), Some(AttributeError("account_type")), None,
      Some(AttributeError("display_name")), Some(AttributeError("active"))]
  {
  }

  /** Reading again converges: unless the user was found missing, a
      second read with the same remote answers changes nothing more. */
  lemma ReadIdempotent(s: State, accepts: Coercion, api: Client)
    requires !api.userGet(s.id, []).NotFound?
    ensures Read(Read(s, accepts, api).state, accepts, api) == Read(s, accepts, api)
  {
    if api.userGet(s.id, []).Ok? {
      SetAllIdempotent(s, accepts, Writes(api.userGet(s.id, []).value));
    }
  }

  /** The id after create is the old one (create failed), the new account
      id (read kept it) or empty (read found nothing); a confirming read
      that finds nothing is reported as success. */
  lemma CreateIdentity(s: State, changed: set<string>, accepts: Coercion, api: Client)
    ensures var reply := api.userCreate(Expand(s.attrs, changed).email); var r := Create(s, changed, accepts, api);
      && (!reply.Ok? ==> r.state.id == s.id && !r.diags.Succeeded())
      && (reply.Ok? ==> r.state.id in {reply.value.accountId, ""})
      && (reply.Ok? && api.userGet(reply.value.accountId, []).NotFound? ==>
            r.state.id == "" && r.diags.Succeeded())
  {
  }

  /** `readUser` on the resource data. */
  method ReadUser(rd: ResourceData, api: Client) returns (d: Diagnostics)
    modifies rd
    ensures Outcome(rd.Snapshot(), d) == Read(old(rd.Snapshot()), rd.accepts, api)
  {
    var reply := api.userGet(rd.id, []);
    match reply {
      case NotFound(_) =>
        rd.SetId("");
        d := Report([]);
      case Err(m) =>
        d := Report([ApiError(m)]);
      case Ok(user) =>
        ghost var s0 := rd.Snapshot();
        ghost var done: seq<(string, Value)> := [];
        var w1, w2, w3, w4, w5 := ("account_id", Str(user.accountId)), ("account_type", Str(user.accountType)),
          ("email", Str(user.email)), ("display_name", Str(user.displayName)), ("active", Bool(user.active));
        var e1 := rd.Set(w1);
        SetAllSnoc(s0, rd.accepts, done, w1);
        done := done + [w1];
        var e2 := rd.Set(w2);
        SetAllSnoc(s0, rd.accepts, done, w2);
        done := done + [w2];
        var e3 := rd.Set(w3);
        SetAllSnoc(s0, rd.accepts, done, w3);
        done := done + [w3];
        var e4 := rd.Set(w4);
        SetAllSnoc(s0, rd.accepts, done, w4);
        done := done + [w4];
        var e5 := rd.Set(w5);
        SetAllSnoc(s0, rd.accepts, done, w5);
        done := done + [w5];
        assert done == Writes(user);
        assert [e1, e2, e3, e4, e5] == SetAll(s0, rd.accepts, done).1;
        d := Report(Append([e1, e2, e3, e4, e5]));
    }
  }

  /** `createUser` on the resource data. */
  method CreateUser(rd: ResourceData, api: Client) returns (d: Diagnostics)
    modifies rd
    ensures Outcome(rd.Snapshot(), d) == Create(old(rd.Snapshot()), rd.changed, rd.accepts, api)
  {
    var user := Expand(rd.attrs, rd.changed);
    var reply := api.userCreate(user.email);
    if !reply.Ok? {
      return Report([ApiError(reply.message)]);
    }
    rd.SetId(reply.value.accountId);
    d := ReadUser(rd, api);
  }

  /** `deleteUser` on the resource data. */
  method DeleteUser(rd: ResourceData, api: Client) returns (d: Diagnostics)
    modifies rd
    ensures Outcome(rd.Snapshot(), d) == Delete(old(rd.Snapshot()), api)
  {
    var reply := api.userDelete(rd.id);
    match reply {
      case NotFound(_) =>
        rd.SetId("");
        d := Report([]);
      case Err(m) =>
        d := Report([ApiError(m)]);
      case Ok(_) =>
        d := Report([]);
    }
  }
}
