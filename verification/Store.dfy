// Policy and sig-rate records: data objects replaced by destroying the old ones and creating a
// new one.
module Store {
  import opened Results
  import opened Policy
  import opened Labels
  import opened TokenModel

  function DataObject(name: string, v: Value): Object {
    Object(Data, Some(name), true, None, [], Some(v))
  }

  // ------------------------------------------------------------------------------------------
  // The calls as state transitions
  // ------------------------------------------------------------------------------------------

  // First match of a search, then its value; none when nothing matches.
  function LoadData(env: Env, t: TokenState, name: string): Ran<Option<Value>> {
    var f := Find(env, t, Data, name);
    if f.res.Err? then Ran(Err(f.res.error), f.st)
    else if f.res.value == [] then Ran(Ok(None), f.st)
    else
      var g := GetValue(env, f.st, f.res.value[0]);
      if g.res.Ok? && g.res.value.None? then Ran(Err(ObjectNotFound), g.st) else g
  }

  function DestroyAll(env: Env, t: TokenState, hs: seq<Handle>): Ran<()>
    decreases |hs|
  {
    if hs == [] then Ran(Ok(()), t)
    else
      var d := Destroy(env, t, hs[0]);
      if d.res.Err? then d else DestroyAll(env, d.st, hs[1..])
  }

  function Replace(env: Env, t: TokenState, hs: seq<Handle>, obj: Object): Ran<Handle> {
    var d := DestroyAll(env, t, hs);
    if d.res.Err? then Ran(Err(d.res.error), d.st) else Create(env, d.st, obj)
  }

  function SaveData(env: Env, t: TokenState, name: string, v: Value): Ran<Handle> {
    var f := Find(env, t, Data, name);
    if f.res.Err? then Ran(Err(f.res.error), f.st) else Replace(env, f.st, f.res.value, DataObject(name, v))
  }

  function AsPolicy(v: Option<Value>): Result<HsmPolicy> {
    match v
    case None => Ok(PERMISSIVE)
    case Some(PolicyJson(p)) => Ok(p)
    case _ => Err(Serialization)
  }

  function AsCounter(v: Option<Value>): Result<seq<nat>> {
    match v
    case None => Ok([])
    case Some(SigRateJson(ts)) => Ok(ts)
    case _ => Err(Serialization)
  }

  function LoadPolicy(env: Env, t: TokenState, id: string): Ran<HsmPolicy> {
    var l := LoadData(env, t, ObjectLabel(id, PolicySuffix));
    Ran(if l.res.Ok? then AsPolicy(l.res.value) else Err(l.res.error), l.st)
  }

  function LoadSigrate(env: Env, t: TokenState, id: string): Ran<seq<nat>> {
    var l := LoadData(env, t, ObjectLabel(id, SigRateSuffix));
    Ran(if l.res.Ok? then AsCounter(l.res.value) else Err(l.res.error), l.st)
  }

  // ------------------------------------------------------------------------------------------
  // The code
  // ------------------------------------------------------------------------------------------

  method LoadValue(session: Token, name: string) returns (r: Result<Option<Value>>)
    modifies session
    ensures Ran(r, session.State()) == LoadData(session.env, old(session.State()), name)
  {
    var found := session.FindObjects(Data, name);
    if found.Err? {
      return Err(found.error);
    }
    if found.value == [] {
      return Ok(None);
    }
    r := session.GetAttributeValue(found.value[0]);
    if r.Ok? && r.value.None? {
      r := Err(ObjectNotFound);
    }
  }

  method LoadPolicyFrom(session: Token, id: string) returns (r: Result<HsmPolicy>)
    modifies session
    ensures Ran(r, session.State()) == LoadPolicy(session.env, old(session.State()), id)
  {
    var v := LoadValue(session, ObjectLabel(id, PolicySuffix));
    r := if v.Ok? then AsPolicy(v.value) else Err(v.error);
  }

  method LoadSigrateFrom(session: Token, id: string) returns (r: Result<seq<nat>>)
    modifies session
    ensures Ran(r, session.State()) == LoadSigrate(session.env, old(session.State()), id)
  {
    var v := LoadValue(session, ObjectLabel(id, SigRateSuffix));
    r := if v.Ok? then AsCounter(v.value) else Err(v.error);
  }

  // The body `save_policy` and `save_sigrate` share.
  method SaveValue(session: Token, name: string, v: Value) returns (r: Result<Handle>)
    modifies session
    ensures Ran(r, session.State()) == SaveData(session.env, old(session.State()), name, v)
  {
    var found := session.FindObjects(Data, name);
    if found.Err? {
      return Err(found.error);
    }
    var existing := found.value;
    ghost var start := session.State();
    for k := 0 to |existing|
      invariant DestroyAll(session.env, start, existing)
             == DestroyAll(session.env, session.State(), existing[k..])
    {
      var d := session.DestroyObject(existing[k]);
      assert existing[k..][1..] == existing[k + 1..];
      if d.Err? {
        return Err(d.error);
      }
    }
    r := session.CreateObject(Object(Data, Some(name), true, None, [], Some(v)));
  }

  // ------------------------------------------------------------------------------------------
  // What replacing guarantees
  // ------------------------------------------------------------------------------------------

  function Handles(hs: seq<Handle>): set<Handle> {
    set h | h in hs
  }

  ghost predicate Distinct(hs: seq<Handle>) {
    forall i, j :: 0 <= i < j < |hs| ==> hs[i] != hs[j]
  }

  // Everything except the records under `name`.
  function Others(objs: map<Handle, Object>, name: string): map<Handle, Object> {
    objs - Matching(objs, Data, name)
  }

  // A run of destroys removes a prefix of the list, all of it when it succeeds.
  lemma {:induction false} DestroyAllRemoves(env: Env, t: TokenState, hs: seq<Handle>) returns (k: nat)
    requires Distinct(hs) && forall h :: h in hs ==> h in t.objs
    ensures k <= |hs|
    ensures var d := DestroyAll(env, t, hs);
            && d.st.objs == t.objs - Handles(hs[..k])
            && d.st.next == t.next && d.st.log == t.log && d.st.ticks >= t.ticks
            && (d.res.Ok? ==> k == |hs|)
            && (d.res.Err? ==> k < |hs| && d.res.error == Refused && t.ticks < d.st.ticks && env.fails(d.st.ticks - 1))
    decreases |hs|
  {
    if hs == [] {
      k := 0;
    } else {
      var d := Destroy(env, t, hs[0]);
      if d.res.Err? {
        k := 0;
      } else {
        var j := DestroyAllRemoves(env, d.st, hs[1..]);
        k := j + 1;
        RemoveOneMore(t.objs, hs, j);
      }
    }
  }

  lemma RemoveOneMore(objs: map<Handle, Object>, hs: seq<Handle>, j: nat)
    requires j < |hs|
    ensures objs - {hs[0]} - Handles(hs[1..][..j]) == objs - Handles(hs[..j + 1])
  {
    assert hs[..j + 1] == [hs[0]] + hs[1..][..j];
    assert Handles(hs[..j + 1]) == {hs[0]} + Handles(hs[1..][..j]);
  }

  lemma {:induction false} DestroyAllRefused(env: Env, t: TokenState, hs: seq<Handle>)
    ensures DestroyAll(env, t, hs).res.Err? ==> DestroyAll(env, t, hs).res.error == Refused
    decreases |hs|
  {
    if hs != [] {
      DestroyAllRefused(env, Destroy(env, t, hs[0]).st, hs[1..]);
    }
  }

  lemma SaveRefused(env: Env, t: TokenState, name: string, v: Value)
    ensures SaveData(env, t, name, v).res.Err? ==> SaveData(env, t, name, v).res.error == Refused
  {
    var f := Find(env, t, Data, name);
    if f.res.Ok? {
      DestroyAllRefused(env, f.st, f.res.value);
    }
  }

  // The whole effect of a save. It touches only records under its name, and a refused call is
  // the last one it makes. A save that succeeds leaves exactly one record, the new one, however
  // many were there before. A save that fails removed some of the old ones.
  lemma SaveEffect(env: Env, t: TokenState, name: string, v: Value)
    requires Valid(t) && Enumerates(env)
    ensures Replaced(env, t, name, v, SaveData(env, t, name, v))
  {
    var f := Find(env, t, Data, name);
    if f.res.Ok? {
      assert Lists(f.res.value, Matching(t.objs, Data, name));
      assert Handles(f.res.value) == Matching(t.objs, Data, name);
      ReplaceEffect(env, f.st, f.res.value, name, v);
    }
  }

  ghost predicate Replaced(env: Env, t: TokenState, name: string, v: Value, s: Ran<Handle>) {
    && Valid(s.st) && s.st.log == t.log && s.st.next >= t.next && s.st.ticks >= t.ticks
    && Others(s.st.objs, name) == Others(t.objs, name)
    && (s.res.Ok? ==>
          && s.res.value == t.next
          && s.st.objs == Others(t.objs, name)[t.next := Object(Data, Some(name), true, None, [], Some(v))]
          && Matching(s.st.objs, Data, name) == {t.next})
    && (s.res.Err? ==>
          && s.res.error == Refused && t.ticks < s.st.ticks && env.fails(s.st.ticks - 1)
          && Matching(s.st.objs, Data, name) <= Matching(t.objs, Data, name)
          && s.st.objs.Keys <= t.objs.Keys)
  }

  lemma ReplaceEffect(env: Env, t: TokenState, hs: seq<Handle>, name: string, v: Value)
    requires Valid(t) && Distinct(hs) && Handles(hs) == Matching(t.objs, Data, name)
    ensures Replaced(env, t, name, v, Replace(env, t, hs, DataObject(name, v)))
  {
    var gone := DestroyRecords(env, t, hs, name);
    RemoveRecords(t.objs, name, gone);
    var d := DestroyAll(env, t, hs);
    if d.res.Ok? {
      CreateReplaces(env, t, d.st, name, v);
    }
  }

  // Creating the new record once the old ones are gone.
  lemma CreateReplaces(env: Env, t: TokenState, u: TokenState, name: string, v: Value)
    requires Valid(t) && u.objs == Others(t.objs, name) && Matching(u.objs, Data, name) == {}
    requires u.next == t.next && u.log == t.log && u.ticks >= t.ticks
    ensures Replaced(env, t, name, v, Create(env, u, DataObject(name, v)))
  {
    AddRecord(u.objs, name, v, t.next);
  }

  lemma DestroyRecords(env: Env, t: TokenState, hs: seq<Handle>, name: string) returns (gone: set<Handle>)
    requires Distinct(hs) && Handles(hs) == Matching(t.objs, Data, name)
    ensures gone <= Matching(t.objs, Data, name)
    ensures var d := DestroyAll(env, t, hs);
            && d.st.objs == t.objs - gone
            && d.st.next == t.next && d.st.log == t.log && d.st.ticks >= t.ticks
            && (d.res.Ok? ==> gone == Matching(t.objs, Data, name))
            && (d.res.Err? ==> d.res.error == Refused && t.ticks < d.st.ticks && env.fails(d.st.ticks - 1))
  {
    assert forall h :: h in hs ==> h in Handles(hs);
    var k := DestroyAllRemoves(env, t, hs);
    gone := Handles(hs[..k]);
    assert forall h :: h in hs[..k] ==> h in Handles(hs);
    if k == |hs| {
      assert hs[..k] == hs;
    }
  }

  lemma RemoveRecords(objs: map<Handle, Object>, name: string, gone: set<Handle>)
    requires gone <= Matching(objs, Data, name)
    ensures Matching(objs - gone, Data, name) == Matching(objs, Data, name) - gone
    ensures Others(objs - gone, name) == Others(objs, name)
  {
  }

  lemma AddRecord(objs: map<Handle, Object>, name: string, v: Value, h: Handle)
    requires Matching(objs, Data, name) == {} && h !in objs
    ensures Others(objs, name) == objs
    ensures Matching(objs[h := DataObject(name, v)], Data, name) == {h}
    ensures Others(objs[h := DataObject(name, v)], name) == objs
  {
    var objs' := objs[h := DataObject(name, v)];
    assert forall x :: x in Matching(objs', Data, name) && x != h ==> x in Matching(objs, Data, name);
  }

  // Read after replace: wherever the records are still those of the save, a load returns the
  // saved value or is refused by the token.
  lemma ReplaceThenRead(env: Env, t: TokenState, name: string, v: Value, u: TokenState)
    requires Valid(t) && Enumerates(env)
    requires SaveData(env, t, name, v).res.Ok?
    requires Matching(u.objs, Data, name) == Matching(SaveData(env, t, name, v).st.objs, Data, name)
    requires t.next in u.objs && u.objs[t.next] == DataObject(name, v)
    ensures LoadData(env, u, name).res == Ok(Some(v))
         || (LoadData(env, u, name).res == Err(Refused) && (env.fails(u.ticks) || env.fails(u.ticks + 1)))
  {
    SaveEffect(env, t, name, v);
    OrderOfOne(env, u.ticks, t.next);
  }

  lemma OrderOfOne(env: Env, k: nat, h: Handle)
    requires Enumerates(env)
    ensures env.order(k, {h}) == [h]
  {
    assert Lists(env.order(k, {h}), {h});
    assert env.order(k, {h})[0] in env.order(k, {h});
  }

  lemma OrderOfNone(env: Env, k: nat)
    requires Enumerates(env)
    ensures env.order(k, {}) == []
  {
    assert Lists(env.order(k, {}), {});
  }

  // The records under a name, all of them.
  function RecordsOf(objs: map<Handle, Object>, name: string): map<Handle, Object> {
    map h | h in Matching(objs, Data, name) :: objs[h]
  }

  // A load that is not refused returns the value of one of the records, or none if there is none.
  lemma LoadSees(env: Env, t: TokenState, name: string)
    requires Enumerates(env)
    ensures var l, rs := LoadData(env, t, name), RecordsOf(t.objs, name);
            && (l.res == Ok(None) ==> rs == map[])
            && (l.res.Ok? && l.res.value.Some? ==> exists h :: h in rs && rs[h].value == l.res.value)
  {
    var hs := env.order(t.ticks, Matching(t.objs, Data, name));
    assert Lists(hs, Matching(t.objs, Data, name));
    if hs != [] {
      assert hs[0] in hs;
      assert hs[0] in RecordsOf(t.objs, name);
    }
  }

  // A load makes one call when there is no record and two when there is one; unless one of them
  // is refused it returns what is stored.
  lemma LoadOne(env: Env, t: TokenState, name: string)
    requires Enumerates(env)
    ensures var l, found := LoadData(env, t, name).res, Matching(t.objs, Data, name);
            && (found == {} ==> l == if Served(env, t.ticks, 1) then Ok(None) else Err(Refused))
            && (forall h :: found == {h} ==>
                  l == if !Served(env, t.ticks, 2) then Err(Refused)
                       else if t.objs[h].value.None? then Err(ObjectNotFound) else Ok(t.objs[h].value))
  {
    OrderOfNone(env, t.ticks);
    forall h | Matching(t.objs, Data, name) == {h}
      ensures LoadData(env, t, name).res ==
              if !Served(env, t.ticks, 2) then Err(Refused)
              else if t.objs[h].value.None? then Err(ObjectNotFound) else Ok(t.objs[h].value)
    {
      assert h in Matching(t.objs, Data, name);
      OrderOfOne(env, t.ticks, h);
    }
  }

  // The policy in force is the stored one, or none at all where nothing is stored.
  lemma StoredPolicy(env: Env, t: TokenState, id: string)
    requires Enumerates(env)
    ensures var r, found := LoadPolicy(env, t, id).res, Matching(t.objs, Data, "emvault.v1." + id + ".policy");
            && (found == {} ==>
                  r == if Served(env, t.ticks, 1) then Ok(HsmPolicy(None, None, None)) else Err(Refused))
            && (forall h :: found == {h} ==>
                  if !Served(env, t.ticks, 2) then r == Err(Refused)
                  else match t.objs[h].value
                       case Some(PolicyJson(p)) => r == Ok(p)
                       case Some(_) => r == Err(Serialization)
                       case None => r == Err(ObjectNotFound))
            && (r.Ok? && found != {} ==> exists h :: h in found && t.objs[h].value == Some(PolicyJson(r.value)))
  {
    LabelText(id);
    LoadOne(env, t, ObjectLabel(id, PolicySuffix));
    LoadSees(env, t, ObjectLabel(id, PolicySuffix));
    var hs := env.order(t.ticks, Matching(t.objs, Data, ObjectLabel(id, PolicySuffix)));
    assert Lists(hs, Matching(t.objs, Data, ObjectLabel(id, PolicySuffix)));
  }

  // And so is the list of the counter.
  lemma StoredSigrate(env: Env, t: TokenState, id: string)
    requires Enumerates(env)
    ensures var r, found := LoadSigrate(env, t, id).res, Matching(t.objs, Data, "emvault.v1." + id + ".sigrate");
            && (found == {} ==> r == if Served(env, t.ticks, 1) then Ok([]) else Err(Refused))
            && (forall h :: found == {h} ==>
                  if !Served(env, t.ticks, 2) then r == Err(Refused)
                  else match t.objs[h].value
                       case Some(SigRateJson(ts)) => r == Ok(ts)
                       case Some(_) => r == Err(Serialization)
                       case None => r == Err(ObjectNotFound))
            && (r.Ok? && found != {} ==> exists h :: h in found && t.objs[h].value == Some(SigRateJson(r.value)))
  {
    LabelText(id);
    LoadOne(env, t, ObjectLabel(id, SigRateSuffix));
    LoadSees(env, t, ObjectLabel(id, SigRateSuffix));
    var hs := env.order(t.ticks, Matching(t.objs, Data, ObjectLabel(id, SigRateSuffix)));
    assert Lists(hs, Matching(t.objs, Data, ObjectLabel(id, SigRateSuffix)));
  }

  // With at most one record, what it returns is determined by the record.
  lemma SameRecordSameLoad(env: Env, t: TokenState, u: TokenState, name: string)
    requires Enumerates(env) && RecordsOf(t.objs, name) == RecordsOf(u.objs, name)
    requires |Matching(t.objs, Data, name)| <= 1
    ensures var l, m := LoadData(env, t, name), LoadData(env, u, name);
            l.res == Err(Refused) || m.res == Err(Refused) || l.res == m.res
  {
    var found := Matching(t.objs, Data, name);
    assert RecordsOf(t.objs, name).Keys == found == Matching(u.objs, Data, name);
    if found == {} {
      OrderOfNone(env, t.ticks);
      OrderOfNone(env, u.ticks);
    } else {
      var h := OnlyMember(found);
      OrderOfOne(env, t.ticks, h);
      OrderOfOne(env, u.ticks, h);
      assert RecordsOf(t.objs, name)[h] == RecordsOf(u.objs, name)[h];
    }
  }

  lemma OnlyMember(a: set<Handle>) returns (h: Handle)
    requires a != {} && |a| <= 1
    ensures a == {h}
  {
    h :| h in a;
    if a != {h} {
      ProperSubsetOfOne({h}, a);
    }
  }

  // From at most one record, whatever call fails, a save leaves the new record, the old one, or
  // none; the last only if a destroy succeeded and the create was refused.
  lemma SaveIsOldNewOrNone(env: Env, t: TokenState, name: string, v: Value)
    requires Valid(t) && Enumerates(env) && |Matching(t.objs, Data, name)| <= 1
    ensures var s := SaveData(env, t, name, v);
            RecordsOf(s.st.objs, name) ==
            if s.res.Ok? then map[t.next := DataObject(name, v)]
            else if Matching(s.st.objs, Data, name) == Matching(t.objs, Data, name) then RecordsOf(t.objs, name)
            else map[]
  {
    var s := SaveData(env, t, name, v);
    SaveEffect(env, t, name, v);
    var before, after := Matching(t.objs, Data, name), Matching(s.st.objs, Data, name);
    if s.res.Err? && after != before {
      assert after < before;
      ProperSubsetOfOne(after, before);
    } else if s.res.Err? {
      SaveKeepsObjects(env, t, name, v);
    }
  }

  lemma ProperSubsetOfOne(a: set<Handle>, b: set<Handle>)
    requires a < b && |b| <= 1
    ensures a == {}
  {
    var x :| x in b && x !in a;
    assert |b - {x}| == 0;
    assert a <= b - {x};
  }

  // No call changes an object it leaves in place.
  lemma SaveKeepsObjects(env: Env, t: TokenState, name: string, v: Value)
    requires Valid(t) && Enumerates(env)
    ensures var s := SaveData(env, t, name, v);
            forall h :: h in t.objs && h in s.st.objs ==> s.st.objs[h] == t.objs[h]
  {
    var f := Find(env, t, Data, name);
    if f.res.Ok? {
      assert Lists(f.res.value, Matching(t.objs, Data, name));
      var _ := DestroyAllRemoves(env, f.st, f.res.value);
    }
  }

  // Saving one record leaves the records of every other namespace alone.
  lemma NamespacesSeparate(env: Env, t: TokenState, a: string, s: Suffix, b: string, u: Suffix, v: Value)
    requires Valid(t) && Enumerates(env) && (a != b || s != u)
    ensures var x := SaveData(env, t, ObjectLabel(a, s), v).st;
            RecordsOf(x.objs, ObjectLabel(b, u)) == RecordsOf(t.objs, ObjectLabel(b, u))
  {
    var x, m, n := SaveData(env, t, ObjectLabel(a, s), v).st, ObjectLabel(a, s), ObjectLabel(b, u);
    if m == n {
      ObjectLabelInjective(a, s, b, u);
    }
    SaveEffect(env, t, m, v);
    OthersMatch(t.objs, x.objs, m, n);
  }

  lemma OthersMatch(a: map<Handle, Object>, b: map<Handle, Object>, m: string, n: string)
    requires m != n && Others(a, m) == Others(b, m)
    ensures Matching(a, Data, n) == Matching(b, Data, n)
    ensures forall h :: h in Matching(a, Data, n) ==> a[h] == b[h]
    ensures RecordsOf(a, n) == RecordsOf(b, n)
  {
    forall h | h in Matching(a, Data, n)
      ensures h in b && a[h] == b[h]
    {
      assert h in Others(a, m);
      assert Others(a, m)[h] == Others(b, m)[h];
    }
    forall h | h in Matching(b, Data, n)
      ensures h in a && a[h] == b[h]
    {
      assert h in Others(b, m);
      assert Others(a, m)[h] == Others(b, m)[h];
    }
  }
}
