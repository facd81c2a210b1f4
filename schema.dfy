/** Terraform's `schema.ResourceData` as the three resources use it: a
    mutable id, an attribute map written by `Set`, the `HasChange` flags
    and `Get` of the planned configuration. */
module Schema {
  import opened Diag

  /** An attribute value: the resources store strings and one boolean. */
  datatype Value = Str(s: string) | Bool(b: bool)

  /** The part of a resource instance the lifecycle functions change:
      its durable id ("" means not tracked) and its attributes. */
  datatype State = State(id: string, attrs: map<string, Value>)

  /** A lifecycle function's effect: the new state and the diagnostics. */
  datatype Outcome = Outcome(state: State, diags: Diagnostics)

  /** Whether `Set(key, v)` is accepted (the schema's key and type
      checks, left abstract). */
  type Coercion = (string, Value) -> bool

  /** The coercion of a schema declaring exactly `keys`: the SDK refuses
      to set any other key. */
  function DeclaredOnly(keys: set<string>): Coercion {
    (k: string, v: Value) => k in keys
  }

  /** `rd.Get(key).(string)`: the string under `key`, or Go's zero value. */
  function GetString(attrs: map<string, Value>, key: string): string {
    if key in attrs && attrs[key].Str? then attrs[key].s else ""
  }

  /** The error `rd.Set(w.0, w.1)` returns: nil when the write is accepted. */
  function WriteResult(accepts: Coercion, w: (string, Value)): Option<Error> {
    if accepts(w.0, w.1) then None else Some(AttributeError(w.0))
  }

  /** One `rd.Set(key, v)`: a refused write leaves the state as it was. */
  function SetAttr(s: State, accepts: Coercion, w: (string, Value)): State {
    if accepts(w.0, w.1) then s.(attrs := s.attrs[w.0 := w.1]) else s
  }

  /** The writes `rd.Set(w1) ... rd.Set(wn)` made one after the other,
      with the error each one returned. */
  function SetAll(s: State, accepts: Coercion, writes: seq<(string, Value)>): (r: (State, seq<Option<Error>>))
    ensures r.0.id == s.id
    ensures |r.1| == |writes|
    ensures forall i | 0 <= i < |writes| :: r.1[i] == WriteResult(accepts, writes[i])
    decreases |writes|
  {
    if writes == [] then (s, [])
    else
      var last := writes[|writes| - 1];
      var prefix := SetAll(s, accepts, writes[..|writes| - 1]);
      (SetAttr(prefix.0, accepts, last), prefix.1 + [WriteResult(accepts, last)])
  }

  /** The accepted writes as a map: a later write to a key wins. */
  function Accepted(accepts: Coercion, writes: seq<(string, Value)>): map<string, Value>
    decreases |writes|
  {
    if writes == [] then map[]
    else
      var last := writes[|writes| - 1];
      var prior := Accepted(accepts, writes[..|writes| - 1]);
      if accepts(last.0, last.1) then prior[last.0 := last.1] else prior
  }

  /** Keys of a list of writes are pairwise distinct. */
  predicate DistinctKeys(writes: seq<(string, Value)>) {
    forall i, j | 0 <= i < j < |writes| :: writes[i].0 != writes[j].0
  }

  /** After all writes are attempted, the attributes are the old ones
      overridden by exactly the accepted writes. */
  lemma {:induction false} SetAllAttrs(s: State, accepts: Coercion, writes: seq<(string, Value)>)
    ensures SetAll(s, accepts, writes).0 == State(s.id, s.attrs + Accepted(accepts, writes))
    decreases |writes|
  {
    if writes == [] {
      assert s.attrs + map[] == s.attrs;
    } else {
      var last := writes[|writes| - 1];
      var prefix := writes[..|writes| - 1];
      SetAllAttrs(s, accepts, prefix);
      if accepts(last.0, last.1) {
        assert (s.attrs + Accepted(accepts, prefix))[last.0 := last.1]
            == s.attrs + Accepted(accepts, prefix)[last.0 := last.1];
      }
    }
  }

  /** With distinct keys, every accepted write is visible, every refused
      key is absent from the accepted map, and nothing else is in it. */
  lemma {:induction false} AcceptedDistinct(accepts: Coercion, writes: seq<(string, Value)>)
    requires DistinctKeys(writes)
    ensures forall i | 0 <= i < |writes| && accepts(writes[i].0, writes[i].1) ::
      writes[i].0 in Accepted(accepts, writes) && Accepted(accepts, writes)[writes[i].0] == writes[i].1
    ensures forall i | 0 <= i < |writes| && !accepts(writes[i].0, writes[i].1) ::
      writes[i].0 !in Accepted(accepts, writes)
    ensures forall k | k in Accepted(accepts, writes) :: exists i | 0 <= i < |writes| :: writes[i].0 == k
    decreases |writes|
  {
    if writes != [] {
      var prefix := writes[..|writes| - 1];
      assert forall i | 0 <= i < |prefix| :: prefix[i] == writes[i];
      AcceptedDistinct(accepts, prefix);
    }
  }

  /** The keys some accepted write sets. */
  function AcceptedKeys(accepts: Coercion, writes: seq<(string, Value)>): set<string> {
    set i | 0 <= i < |writes| && accepts(writes[i].0, writes[i].1) :: writes[i].0
  }

  /** `after` is `before` with every accepted write stored and every
      other key (refused or never written) exactly as it was. */
  ghost predicate Projected(before: map<string, Value>, after: map<string, Value>, accepts: Coercion, writes: seq<(string, Value)>) {
    && (forall i | 0 <= i < |writes| && accepts(writes[i].0, writes[i].1) ::
          writes[i].0 in after && after[writes[i].0] == writes[i].1)
    && (forall k | k !in AcceptedKeys(accepts, writes) ::
          (k in after <==> k in before) && (k in before ==> after[k] == before[k]))
  }

  /** Writes to distinct keys project onto the attributes as `Projected` says. */
  lemma {:induction false} SetAllProjects(s: State, accepts: Coercion, writes: seq<(string, Value)>)
    requires DistinctKeys(writes)
    ensures Projected(s.attrs, SetAll(s, accepts, writes).0.attrs, accepts, writes)
  {
    SetAllAttrs(s, accepts, writes);
    AcceptedDistinct(accepts, writes);
  }

  /** Running the same writes twice leaves what running them once leaves. */
  lemma SetAllIdempotent(s: State, accepts: Coercion, writes: seq<(string, Value)>)
    ensures SetAll(SetAll(s, accepts, writes).0, accepts, writes) == SetAll(s, accepts, writes)
  {
    var once := SetAll(s, accepts, writes);
    SetAllAttrs(s, accepts, writes);
    SetAllAttrs(once.0, accepts, writes);
    var a := Accepted(accepts, writes);
    assert s.attrs + a + a == s.attrs + a;
    var twice := SetAll(once.0, accepts, writes);
    assert twice.1 == once.1;
  }

  /** The aggregated error of the writes is empty exactly when every
      write was accepted, and names each refused key. */
  lemma SetAllErrors(s: State, accepts: Coercion, writes: seq<(string, Value)>)
    ensures Append(SetAll(s, accepts, writes).1) == [] <==>
      forall i | 0 <= i < |writes| :: accepts(writes[i].0, writes[i].1)
    ensures forall i | 0 <= i < |writes| && !accepts(writes[i].0, writes[i].1) ::
      AttributeError(writes[i].0) in Append(SetAll(s, accepts, writes).1)
  {
    var rs := SetAll(s, accepts, writes).1;
    AppendMembers(rs);
    forall i | 0 <= i < |writes| && !accepts(writes[i].0, writes[i].1)
      ensures AttributeError(writes[i].0) in Append(rs)
    {
      assert rs[i] == Some(AttributeError(writes[i].0));
    }
  }

  /** One more write at the end extends the state and the error list. */
  lemma SetAllSnoc(s: State, accepts: Coercion, writes: seq<(string, Value)>, w: (string, Value))
    ensures SetAll(s, accepts, writes + [w]) ==
      (SetAttr(SetAll(s, accepts, writes).0, accepts, w), SetAll(s, accepts, writes).1 + [WriteResult(accepts, w)])
  {
  }

  /** `schema.NoopContext`, every resource's update: no remote call and
      no change to the resource data. */
  method NoopUpdate(rd: ResourceData) returns (d: Diagnostics)
    ensures d.Succeeded()
  {
    d := Report([]);
  }

  /** `schema.ImportStatePassthroughContext`: the imported instance is
      the given one, with its id kept; Terraform reads it next. */
  method ImportStatePassthrough(rd: ResourceData) returns (imported: seq<ResourceData>)
    ensures imported == [rd]
  {
    imported := [rd];
  }

  class ResourceData {
    var id: string
    var attrs: map<string, Value>
    /** The keys for which `HasChange` holds in this call. */
    const changed: set<string>
    /** Which writes the schema accepts. */
    const accepts: Coercion

    constructor (id: string, attrs: map<string, Value>, changed: set<string>, accepts: Coercion)
      ensures this.id == id && this.attrs == attrs
      ensures this.changed == changed && this.accepts == accepts
    {
      this.id := id;
      this.attrs := attrs;
      this.changed := changed;
      this.accepts := accepts;
    }

    function Snapshot(): State
      reads this
    {
      State(id, attrs)
    }

    /** `rd.SetId(v)`. */
    method SetId(v: string)
      modifies this
      ensures id == v && attrs == old(attrs)
    {
      id := v;
    }

    /** `rd.Set(w.0, w.1)`. */
    method Set(w: (string, Value)) returns (err: Option<Error>)
      modifies this
      ensures Snapshot() == SetAttr(old(Snapshot()), accepts, w)
      ensures err == WriteResult(accepts, w)
    {
      if accepts(w.0, w.1) {
        attrs := attrs[w.0 := w.1];
        err := None;
      } else {
        err := Some(AttributeError(w.0));
      }
    }
  }
}
