// The attribute-based backend: derivation inside the token, key lookup, and the key ceremony.
module Backend {
  import opened Results
  import opened Bip32
  import opened Labels
  import opened TokenModel
  import Der
  import Store

  // ------------------------------------------------------------------------------------------
  // Paths
  // ------------------------------------------------------------------------------------------

  function DerivePath(env: Env, t: TokenState, h: Handle, path: Path): Ran<Handle>
    decreases |path|
  {
    if path == [] then Ran(Ok(h), t)
    else
      var d := DeriveChild(env, t, h, path[0]);
      if d.res.Err? then d else DerivePath(env, d.st, d.res.value, path[1..])
  }

  method DeriveAlong(session: Token, master: Handle, path: Path) returns (r: Result<Handle>)
    modifies session
    ensures Ran(r, session.State()) == DerivePath(session.env, old(session.State()), master, path)
  {
    var current := master;
    ghost var start := session.State();
    for k := 0 to |path|
      invariant DerivePath(session.env, start, master, path)
             == DerivePath(session.env, session.State(), current, path[k..])
    {
      var d := session.DeriveChildKey(current, path[k]);
      assert path[k..][0] == path[k] && path[k..][1..] == path[k + 1..];
      if d.Err? {
        return d;
      }
      current := d.value;
    }
    return Ok(current);
  }

  // Deriving along p and then along q is deriving along p + q.
  lemma {:induction false} DeriveConcat(env: Env, t: TokenState, h: Handle, p: Path, q: Path)
    ensures var d := DerivePath(env, t, h, p);
            DerivePath(env, t, h, p + q) == if d.res.Err? then d else DerivePath(env, d.st, d.res.value, q)
    decreases |p|
  {
    if p == [] {
      assert p + q == q;
    } else {
      assert (p + q)[0] == p[0] && (p + q)[1..] == p[1..] + q;
      var d := DeriveChild(env, t, h, p[0]);
      if d.res.Ok? {
        DeriveConcat(env, d.st, d.res.value, p[1..], q);
      }
    }
  }

  // A key that lives in this session only.
  ghost predicate SessionKey(o: Object) {
    o.kind == PrivateKey && o.name == None && !o.onToken && o.key.Some? && o.value == None
  }

  // From t to u nothing that existed was touched; new objects are session keys with new handles;
  // signatures were only appended to the log.
  ghost predicate Grows(t: TokenState, u: TokenState) {
    && Valid(u) && t.next <= u.next && t.ticks <= u.ticks && t.log <= u.log
    && (forall h :: h in t.objs ==> h in u.objs && u.objs[h] == t.objs[h])
    && (forall h :: h in u.objs && h !in t.objs ==> t.next <= h && SessionKey(u.objs[h]))
  }

  lemma GrowsTransitive(t: TokenState, u: TokenState, v: TokenState)
    requires Grows(t, u) && Grows(u, v)
    ensures Grows(t, v)
  {
    assert t.log <= u.log <= v.log;
  }

  ghost predicate NoneFails(env: Env, t: TokenState, u: TokenState) {
    forall k :: t.ticks <= k < u.ticks ==> !env.fails(k)
  }

  // A derivation that succeeds leaves one session object per segment, the intermediate ones
  // included, and its handle denotes the key at the end of the path.
  lemma DeriveEffect(env: Env, t: TokenState, h: Handle, path: Path)
    requires Valid(t) && h in t.objs && t.objs[h].key.Some?
    ensures var d := DerivePath(env, t, h, path);
            Grows(t, d.st) && d.st.log == t.log
    ensures var d := DerivePath(env, t, h, path);
            d.res.Ok? ==>
              && d.res.value in d.st.objs
              && d.st.objs[d.res.value].key == Some(Descend(t.objs[h].key.value, path))
              && d.res.value == (if path == [] then h else t.next + |path| - 1)
              && d.st.next == t.next + |path| && |d.st.objs| == |t.objs| + |path|
              && d.st.ticks == t.ticks + |path|
    ensures var d := DerivePath(env, t, h, path);
            d.res.Err? ==> d.res.error == Refused && t.ticks < d.st.ticks && env.fails(d.st.ticks - 1)
  {
    DeriveGrows(env, t, h, path);
    DeriveCounts(env, t, h, path);
    DeriveRefused(env, t, h, path);
    DeriveDenotes(env, t, h, path);
  }

  lemma {:induction false} DeriveGrows(env: Env, t: TokenState, h: Handle, path: Path)
    requires Valid(t) && h in t.objs && t.objs[h].key.Some?
    ensures Grows(t, DerivePath(env, t, h, path).st)
    decreases |path|
  {
    if path != [] {
      DeriveChildEffect(env, t, h, path[0]);
      var c := DeriveChild(env, t, h, path[0]);
      if c.res.Ok? {
        DeriveGrows(env, c.st, c.res.value, path[1..]);
        GrowsTransitive(t, c.st, DerivePath(env, t, h, path).st);
      }
    }
  }

  lemma {:induction false} DeriveCounts(env: Env, t: TokenState, h: Handle, path: Path)
    requires Valid(t) && h in t.objs && t.objs[h].key.Some?
    ensures var d := DerivePath(env, t, h, path);
            && d.st.log == t.log
            && (d.res.Ok? ==>
                  && d.st.next == t.next + |path| && |d.st.objs| == |t.objs| + |path|
                  && d.st.ticks == t.ticks + |path|)
    decreases |path|
  {
    if path != [] {
      DeriveChildCounts(env, t, h, path[0]);
      var c := DeriveChild(env, t, h, path[0]);
      if c.res.Ok? {
        DeriveCounts(env, c.st, c.res.value, path[1..]);
      }
    }
  }

  lemma {:induction false} DeriveRefused(env: Env, t: TokenState, h: Handle, path: Path)
    requires Valid(t) && h in t.objs && t.objs[h].key.Some?
    ensures var d := DerivePath(env, t, h, path);
            d.res.Err? ==> d.res.error == Refused && t.ticks < d.st.ticks && env.fails(d.st.ticks - 1)
    decreases |path|
  {
    if path != [] {
      DeriveChildCounts(env, t, h, path[0]);
      var c := DeriveChild(env, t, h, path[0]);
      if c.res.Ok? {
        DeriveRefused(env, c.st, c.res.value, path[1..]);
      }
    }
  }

  // Whatever the handle, a derivation fails with no other error.
  lemma {:induction false} DeriveOnlyRefused(env: Env, t: TokenState, h: Handle, path: Path)
    ensures DerivePath(env, t, h, path).res.Err? ==> DerivePath(env, t, h, path).res.error == Refused
    decreases |path|
  {
    if path != [] {
      var d := DeriveChild(env, t, h, path[0]);
      if d.res.Ok? {
        DeriveOnlyRefused(env, d.st, d.res.value, path[1..]);
      }
    }
  }

  // From a key it fails only when one of its calls is refused.
  lemma {:induction false} DeriveOkIff(env: Env, t: TokenState, h: Handle, path: Path)
    requires Valid(t) && h in t.objs && t.objs[h].key.Some?
    ensures DerivePath(env, t, h, path).res.Ok? <==> Served(env, t.ticks, |path|)
    decreases |path|
  {
    if path != [] {
      DeriveChildCounts(env, t, h, path[0]);
      var c := DeriveChild(env, t, h, path[0]);
      if c.res.Ok? {
        DeriveOkIff(env, c.st, c.res.value, path[1..]);
      }
    }
  }

  lemma DeriveChildCounts(env: Env, t: TokenState, h: Handle, child: Segment)
    requires Valid(t) && h in t.objs && t.objs[h].key.Some?
    ensures var c := DeriveChild(env, t, h, child);
            && Valid(c.st) && c.st.log == t.log && c.st.ticks == t.ticks + 1
            && (c.res.Ok? ==>
                  && c.res.value in c.st.objs && c.st.objs[c.res.value].key.Some?
                  && c.st.next == t.next + 1 && |c.st.objs| == |t.objs| + 1)
            && (c.res.Err? ==> c.res.error == Refused) && (c.res.Err? <==> env.fails(t.ticks))
  {
    DeriveChildEffect(env, t, h, child);
  }

  lemma {:induction false} DeriveDenotes(env: Env, t: TokenState, h: Handle, path: Path)
    requires Valid(t) && h in t.objs && t.objs[h].key.Some?
    ensures var d := DerivePath(env, t, h, path);
            d.res.Ok? ==>
              && d.res.value in d.st.objs
              && d.st.objs[d.res.value].key == Some(Descend(t.objs[h].key.value, path))
              && d.res.value == (if path == [] then h else t.next + |path| - 1)
    decreases |path|
  {
    var k := t.objs[h].key.value;
    if path == [] {
      assert k.path + [] == k.path;
    } else {
      DeriveChildEffect(env, t, h, path[0]);
      var c := DeriveChild(env, t, h, path[0]);
      if c.res.Ok? {
        DeriveDenotes(env, c.st, c.res.value, path[1..]);
        assert k.path + [path[0]] + path[1..] == k.path + path;
      }
    }
  }

  lemma DeriveChildEffect(env: Env, t: TokenState, h: Handle, child: Segment)
    requires Valid(t) && h in t.objs && t.objs[h].key.Some?
    ensures var c := DeriveChild(env, t, h, child);
            && Grows(t, c.st) && c.st.log == t.log && c.st.ticks == t.ticks + 1
            && (c.res.Ok? ==>
                  && c.res.value == t.next && c.st.next == t.next + 1 && t.next in c.st.objs
                  && c.st.objs[t.next].key == Some(Descend(t.objs[h].key.value, [child]))
                  && |c.st.objs| == |t.objs| + 1)
            && (c.res.Err? ==> c.res.error == Refused && env.fails(t.ticks) && c.st == Tick(t))
  {
    ChildWordRoundTrip(child);
  }

  // ------------------------------------------------------------------------------------------
  // Reading keys
  // ------------------------------------------------------------------------------------------

  // The part of an extended public key the model keeps.
  datatype Xpub = Xpub(point: seq<byte>, child: Segment)

  function ParseEcPoint(env: Env, input: seq<byte>): Result<seq<byte>> {
    var d := Der.DecodeLenient(input);
    if d.Err? then d else if env.onCurve(d.value) then d else Err(BadEcPoint)
  }

  function ReadXpub(env: Env, t: TokenState, h: Handle): Ran<Xpub> {
    var g := GetKey(env, t, h);
    if g.res.Err? then Ran(Err(g.res.error), g.st)
    else
      var p := ParseEcPoint(env, env.point(g.res.value.0));
      var c := DecodeChild(g.res.value.1);
      Ran(if p.Err? then Err(p.error) else if c.Err? then Err(c.error) else Ok(Xpub(p.value, c.value)), g.st)
  }

  // Hashes the public key of the handle it is given, whichever key that is.
  function MasterFingerprint(env: Env, t: TokenState, h: Handle): Ran<nat> {
    var g := GetKey(env, t, h);
    if g.res.Err? then Ran(Err(g.res.error), g.st)
    else
      var p := ParseEcPoint(env, env.point(g.res.value.0));
      Ran(if p.Err? then Err(p.error) else Ok(env.fingerprint(g.res.value.0)), g.st)
  }

  method ReadXpubOf(session: Token, h: Handle) returns (r: Result<Xpub>)
    modifies session
    ensures Ran(r, session.State()) == ReadXpub(session.env, old(session.State()), h)
  {
    var g := session.GetKeyAttributes(h);
    if g.Err? {
      return Err(g.error);
    }
    var p := ParseEcPoint(session.env, session.env.point(g.value.0));
    if p.Err? {
      return Err(p.error);
    }
    var c := DecodeChild(g.value.1);
    return if c.Err? then Err(c.error) else Ok(Xpub(p.value, c.value));
  }

  method FingerprintOf(session: Token, h: Handle) returns (r: Result<nat>)
    modifies session
    ensures Ran(r, session.State()) == MasterFingerprint(session.env, old(session.State()), h)
  {
    var g := session.GetKeyAttributes(h);
    if g.Err? {
      return Err(g.error);
    }
    var p := ParseEcPoint(session.env, session.env.point(g.value.0));
    return if p.Err? then Err(p.error) else Ok(session.env.fingerprint(g.value.0));
  }

  // What is read back of a key: the content of its point, which must lie on the curve, and the
  // child number its word stands for.
  lemma ReadXpubIff(env: Env, t: TokenState, h: Handle)
    requires h in t.objs && t.objs[h].key.Some?
    ensures var r, p := ReadXpub(env, t, h).res, Der.DecodeLenient(env.point(t.objs[h].key.value));
            && (r.Ok? <==> Served(env, t.ticks, 1) && p.Ok? && env.onCurve(p.value) && |t.objs[h].word| == 4)
            && (r.Ok? ==> r.value.point == p.value && EncodeChild(r.value.child) == t.objs[h].word)
  {
    if |t.objs[h].word| == 4 {
      ChildWordReadBack(t.objs[h].word);
    }
  }

  // The last segment of a derivation is what the extended public key reports as child number.
  lemma ReadBackLastSegment(env: Env, t: TokenState, h: Handle, path: Path)
    requires Valid(t) && h in t.objs && t.objs[h].key.Some? && path != []
    ensures var d := DerivePath(env, t, h, path);
            d.res.Ok? && ReadXpub(env, d.st, d.res.value).res.Ok? ==>
              ReadXpub(env, d.st, d.res.value).res.value.child == path[|path| - 1]
  {
    var p, c := path[..|path| - 1], path[|path| - 1];
    assert path == p + [c];
    DeriveConcat(env, t, h, p, [c]);
    ChildWordRoundTrip(c);
  }

  // ------------------------------------------------------------------------------------------
  // The master key and the ceremony
  // ------------------------------------------------------------------------------------------

  datatype MasterKey = MasterKey(handle: Handle, fingerprint: nat)

  function SeedBuffer(seed: seq<byte>): seq<byte> {
    if |seed| == 64 then seed else seq(64, _ => 0)
  }

  function ZeroSeed(): (z: seq<byte>)
    ensures |z| == 64 && forall k :: 0 <= k < 64 ==> z[k] == 0
  {
    seq(64, _ => 0)
  }

  // The master of a seed; an empty one stands for 64 zero bytes.
  ghost function SeedMaster(env: Env, seed: seq<byte>): nat {
    env.masterOf(if seed == [] then ZeroSeed() else seed)
  }

  function SeedObject(seed: seq<byte>): Object {
    Object(SecretKey, None, false, None, [], Some(Opaque(SeedBuffer(seed))))
  }

  // Reading the new master back, once the derivation is done.
  function DescribeMaster(env: Env, t: TokenState, h: Handle): Ran<MasterKey> {
    var x := ReadXpub(env, t, h);
    if x.res.Err? then Ran(Err(x.res.error), x.st)
    else
      var f := MasterFingerprint(env, x.st, h);
      Ran(if f.res.Err? then Err(f.res.error) else Ok(MasterKey(h, f.res.value)), f.st)
  }

  // The derivation from a temporary seed object, which is destroyed on a best-effort basis.
  function DeriveFromBase(env: Env, t: TokenState, seed: seq<byte>, name: string): Ran<Handle> {
    var base := Create(env, t, SeedObject(seed));
    if base.res.Err? then base
    else
      var m := DeriveMaster(env, base.st, base.res.value, MasterTemplateLabel(name));
      Ran(m.res, Destroy(env, m.st, base.res.value).st)
  }

  function DeriveMasterKey(env: Env, t: TokenState, seed: seq<byte>, name: string): Ran<MasterKey> {
    if seed != [] && |seed| != 64 then Ran(Err(BadSeedLength), t)
    else
      var m := DeriveFromBase(env, t, seed, name);
      if m.res.Err? then Ran(Err(m.res.error), m.st) else DescribeMaster(env, m.st, m.res.value)
  }

  method MakeMasterKey(session: Token, seed: seq<byte>, name: string) returns (r: Result<MasterKey>)
    modifies session
    ensures Ran(r, session.State()) == DeriveMasterKey(session.env, old(session.State()), seed, name)
  {
    if seed != [] && |seed| != 64 {
      return Err(BadSeedLength);
    }
    var buffer: seq<byte> := ZeroSeed();
    if |seed| == 64 {
      buffer := seed;
    }
    assert buffer == SeedBuffer(seed);
    var base := session.CreateObject(Object(SecretKey, None, false, None, [], Some(Opaque(buffer))));
    if base.Err? {
      return Err(base.error);
    }
    var made := session.DeriveMasterKey(base.value, MasterTemplateLabel(name));
    var _ := session.DestroyObject(base.value);
    if made.Err? {
      return Err(made.error);
    }
    var x := ReadXpubOf(session, made.value);
    if x.Err? {
      return Err(x.error);
    }
    var f := FingerprintOf(session, made.value);
    return if f.Err? then Err(f.error) else Ok(MasterKey(made.value, f.value));
  }

  // The one object the call may leave on the token: the master, under the template's label.
  ghost predicate IsMaster(env: Env, o: Object, seed: seq<byte>, name: string) {
    && o.kind == PrivateKey && o.onToken && o.name == Some(MasterTemplateLabel(name))
    && o.key == Some(Key(SeedMaster(env, seed), []))
  }

  // From t to u: earlier objects survive, nothing is signed, and what is new is the master, a
  // session key, or the seed object, whose handle is the first one given out.
  ghost predicate Ceremony(env: Env, t: TokenState, u: TokenState, seed: seq<byte>, name: string) {
    && Valid(u) && t.next <= u.next && t.ticks <= u.ticks && u.log == t.log
    && (forall h :: h in t.objs ==> h in u.objs && u.objs[h] == t.objs[h])
    && (forall h :: h in u.objs && h !in t.objs ==>
          || (h == t.next && u.objs[h] == SeedObject(seed))
          || IsMaster(env, u.objs[h], seed, name)
          || SessionKey(u.objs[h]))
  }

  lemma DeriveFromBaseEffect(env: Env, t: TokenState, seed: seq<byte>, name: string)
    requires Valid(t) && (seed == [] || |seed| == 64)
    ensures var m := DeriveFromBase(env, t, seed, name);
            && Ceremony(env, t, m.st, seed, name)
            && (!env.fails(t.ticks + 2) ==> t.next !in m.st.objs)
            && (m.res.Ok? ==>
                  && m.res.value == t.next + 1 && t.next + 1 in m.st.objs
                  && IsMaster(env, m.st.objs[t.next + 1], seed, name))
  {
    var base := Create(env, t, SeedObject(seed));
    assert SeedBuffer(seed) == if seed == [] then ZeroSeed() else seed;
    if base.res.Ok? {
      var m := DeriveMaster(env, base.st, t.next, MasterTemplateLabel(name));
      assert m.st.ticks == t.ticks + 2;
      assert m.res.Ok? ==> IsMaster(env, m.st.objs[t.next + 1], seed, name);
    }
  }

  // Unless the token refuses the destroy itself, the seed object is gone whether or not the
  // derivation succeeded. The fingerprint is that of the seed's master.
  lemma MasterKeyEffect(env: Env, t: TokenState, seed: seq<byte>, name: string)
    requires Valid(t)
    ensures var m := DeriveMasterKey(env, t, seed, name);
            && Ceremony(env, t, m.st, seed, name)
            && (!env.fails(t.ticks + 2) ==> t.next !in m.st.objs)
    ensures var m := DeriveMasterKey(env, t, seed, name);
            m.res.Ok? ==>
              && m.res.value.handle == t.next + 1 && t.next + 1 in m.st.objs
              && IsMaster(env, m.st.objs[t.next + 1], seed, name)
              && m.res.value.fingerprint == env.fingerprint(Key(SeedMaster(env, seed), []))
    ensures seed != [] && |seed| != 64 ==> DeriveMasterKey(env, t, seed, name) == Ran(Err(BadSeedLength), t)
  {
    if seed == [] || |seed| == 64 {
      DeriveFromBaseEffect(env, t, seed, name);
      var m := DeriveFromBase(env, t, seed, name);
      if m.res.Ok? {
        DescribeMasterReads(env, m.st, m.res.value);
      }
    }
  }

  lemma DescribeMasterReads(env: Env, t: TokenState, h: Handle)
    requires h in t.objs && t.objs[h].key.Some?
    ensures var d := DescribeMaster(env, t, h);
            && d.st.objs == t.objs && d.st.next == t.next && d.st.log == t.log && d.st.ticks >= t.ticks
            && (d.res.Ok? ==> d.res.value == MasterKey(h, env.fingerprint(t.objs[h].key.value)))
  {
  }

  // What a signer keeps about its key.
  datatype Loaded = Loaded(handle: Handle, fingerprint: nat)

  function DeriveFromSeed(env: Env, t: TokenState, id: string, path: Path, seed: seq<byte>): Ran<Loaded> {
    var m := DeriveMasterKey(env, t, seed, ObjectLabel(id, PrivSuffix));
    if m.res.Err? then Ran(Err(m.res.error), m.st) else DeriveFederation(env, m.st, m.res.value, path)
  }

  function DeriveFederation(env: Env, t: TokenState, m: MasterKey, path: Path): Ran<Loaded> {
    var d := DerivePath(env, t, m.handle, path);
    if d.res.Err? then Ran(Err(d.res.error), d.st)
    else
      var x := ReadXpub(env, d.st, d.res.value);
      Ran(if x.res.Err? then Err(x.res.error) else Ok(Loaded(d.res.value, m.fingerprint)), x.st)
  }

  function FindKeyByLabel(env: Env, t: TokenState, id: string): Ran<Option<Handle>> {
    var f := Find(env, t, PrivateKey, ObjectLabel(id, PrivSuffix));
    if f.res.Err? then Ran(Err(f.res.error), f.st)
    else if f.res.value == [] then Ran(Ok(None), f.st)
    else if |f.res.value| != 1 then Ran(Err(Ambiguous(|f.res.value|)), f.st)
    else Ran(Ok(Some(f.res.value[0])), f.st)
  }

  function Load(env: Env, t: TokenState, id: string): Ran<Loaded> {
    var f := FindKeyByLabel(env, t, id);
    if f.res.Err? then Ran(Err(f.res.error), f.st)
    else if f.res.value.None? then Ran(Err(ObjectNotFound), f.st)
    else
      var x := ReadXpub(env, f.st, f.res.value.value);
      if x.res.Err? then Ran(Err(x.res.error), x.st)
      else
        var g := MasterFingerprint(env, x.st, f.res.value.value);
        Ran(if g.res.Err? then Err(g.res.error) else Ok(Loaded(f.res.value.value, g.res.value)), g.st)
  }

  // `derive_from_seed`, up to the fields the model drops.
  method DeriveSigner(session: Token, id: string, path: Path, seed: seq<byte>) returns (r: Result<Loaded>)
    modifies session
    ensures Ran(r, session.State()) == DeriveFromSeed(session.env, old(session.State()), id, path, seed)
  {
    var master := MakeMasterKey(session, seed, ObjectLabel(id, PrivSuffix));
    if master.Err? {
      return Err(master.error);
    }
    var final := DeriveAlong(session, master.value.handle, path);
    if final.Err? {
      return Err(final.error);
    }
    var x := ReadXpubOf(session, final.value);
    return if x.Err? then Err(x.error) else Ok(Loaded(final.value, master.value.fingerprint));
  }

  // `load`, with the lookup of `find_key_by_label`.
  method LoadSigner(session: Token, id: string) returns (r: Result<Loaded>)
    modifies session
    ensures Ran(r, session.State()) == Load(session.env, old(session.State()), id)
  {
    var found := session.FindObjects(PrivateKey, ObjectLabel(id, PrivSuffix));
    if found.Err? {
      return Err(found.error);
    }
    if found.value == [] {
      return Err(ObjectNotFound);
    }
    if |found.value| != 1 {
      return Err(Ambiguous(|found.value|));
    }
    var x := ReadXpubOf(session, found.value[0]);
    if x.Err? {
      return Err(x.error);
    }
    var f := FingerprintOf(session, found.value[0]);
    return if f.Err? then Err(f.error) else Ok(Loaded(found.value[0], f.value));
  }

  // After a ceremony the signer's handle denotes the key at the federation path of the seed's
  // master, and its fingerprint is that master's. Nothing that was on the token is lost.
  lemma CeremonyEffect(env: Env, t: TokenState, id: string, path: Path, seed: seq<byte>)
    requires Valid(t)
    ensures Ceremony(env, t, DeriveFromSeed(env, t, id, path, seed).st, seed, ObjectLabel(id, PrivSuffix))
    ensures var d := DeriveFromSeed(env, t, id, path, seed);
            var master := env.masterOf(if seed == [] then ZeroSeed() else seed);
            d.res.Ok? ==>
              && (seed == [] || |seed| == 64)
              && d.res.value.handle in d.st.objs
              && d.st.objs[d.res.value.handle].key == Some(Key(master, path))
              && d.res.value.fingerprint == env.fingerprint(Key(master, []))
    ensures seed != [] && |seed| != 64 ==> DeriveFromSeed(env, t, id, path, seed) == Ran(Err(BadSeedLength), t)
  {
    var name := ObjectLabel(id, PrivSuffix);
    MasterKeyEffect(env, t, seed, name);
    var m := DeriveMasterKey(env, t, seed, name);
    if m.res.Ok? {
      DeriveFederationEffect(env, m.st, m.res.value, path);
      CeremonyGrows(env, t, m.st, DeriveFederation(env, m.st, m.res.value, path).st, seed, name);
    }
  }

  lemma DeriveFederationEffect(env: Env, t: TokenState, m: MasterKey, path: Path)
    requires Valid(t) && m.handle in t.objs && t.objs[m.handle].key.Some?
    requires t.objs[m.handle].key.value.path == []
    ensures var d := DeriveFederation(env, t, m, path);
            && Grows(t, d.st) && d.st.log == t.log
            && (d.res.Ok? ==>
                  && d.res.value.fingerprint == m.fingerprint && d.res.value.handle in d.st.objs
                  && d.st.objs[d.res.value.handle].key == Some(Key(t.objs[m.handle].key.value.master, path)))
  {
    DeriveEffect(env, t, m.handle, path);
    assert [] + path == path;
  }

  lemma CeremonyGrows(env: Env, t: TokenState, u: TokenState, v: TokenState, seed: seq<byte>, name: string)
    requires Ceremony(env, t, u, seed, name) && Grows(u, v) && v.log == u.log
    ensures Ceremony(env, t, v, seed, name)
  {
  }

  // The template appends "/priv" to a label that is already complete, so a ceremony adds nothing
  // that any lookup asks for: for every label and every token the matches stay what they were.
  lemma CeremonyHidden(env: Env, t: TokenState, id: string, path: Path, seed: seq<byte>, other: string)
    requires Valid(t)
    ensures var u, name := DeriveFromSeed(env, t, id, path, seed).st, ObjectLabel(other, PrivSuffix);
            Matching(u.objs, PrivateKey, name) == Matching(t.objs, PrivateKey, name)
  {
    CeremonyEffect(env, t, id, path, seed);
    MasterLabelNeverLookedUp(id, other, PrivSuffix);
  }

  // So a load after the ceremony looks up what a load before it would have: the key that was
  // there, several, or none, and then "not found".
  lemma LoadMissesCeremony(env: Env, t: TokenState, id: string, path: Path, seed: seq<byte>, other: string)
    requires Valid(t) && Enumerates(env)
    ensures var u := DeriveFromSeed(env, t, id, path, seed).st;
            && (!env.fails(t.ticks) && !env.fails(u.ticks) ==>
                  FindKeyByLabel(env, u, other).res == FindKeyByLabel(env, t, other).res)
            && (Matching(t.objs, PrivateKey, ObjectLabel(other, PrivSuffix)) == {} ==>
                  Load(env, u, other).res == Err(if env.fails(u.ticks) then Refused else ObjectNotFound))
  {
    var u := DeriveFromSeed(env, t, id, path, seed).st;
    CeremonyHidden(env, t, id, path, seed, other);
    LookupDecided(env, t, other);
    LookupDecided(env, u, other);
  }

  // A lookup depends on the matches alone, not on how they are listed.
  lemma LookupDecided(env: Env, t: TokenState, id: string)
    requires Enumerates(env)
    ensures var found := Matching(t.objs, PrivateKey, ObjectLabel(id, PrivSuffix));
            var f := FindKeyByLabel(env, t, id).res;
            !env.fails(t.ticks) ==>
              if found == {} then f == Ok(None)
              else if |found| > 1 then f == Err(Ambiguous(|found|))
              else f.Ok? && f.value.Some? && found == {f.value.value}
  {
    var found := Matching(t.objs, PrivateKey, ObjectLabel(id, PrivSuffix));
    var hs := env.order(t.ticks, found);
    assert Lists(hs, found);
    if |found| == 1 {
      assert hs == [hs[0]] && hs[0] in hs;
      assert forall h :: h in found ==> h in hs;
    }
  }

  // A loaded signer carries the fingerprint of the key it loaded, which is the master's exactly
  // when the two public keys share a fingerprint.
  lemma LoadFingerprint(env: Env, t: TokenState, id: string)
    requires Enumerates(env)
    ensures var l := Load(env, t, id);
            && l.st.objs == t.objs
            && (l.res.Ok? ==>
                  && Matching(t.objs, PrivateKey, ObjectLabel(id, PrivSuffix)) == {l.res.value.handle}
                  && t.objs[l.res.value.handle].key.Some?
                  && l.res.value.fingerprint == env.fingerprint(t.objs[l.res.value.handle].key.value))
  {
    var found := Matching(t.objs, PrivateKey, ObjectLabel(id, PrivSuffix));
    var hs := env.order(t.ticks, found);
    assert Lists(hs, found);
    if |hs| == 1 {
      assert hs[0] in hs;
      assert forall h :: h in found ==> h in hs;
    }
  }

  // ------------------------------------------------------------------------------------------
  // Removal
  // ------------------------------------------------------------------------------------------

  function DeleteNamed(env: Env, t: TokenState, kind: ObjectClass, name: string): Ran<()> {
    var f := Find(env, t, kind, name);
    if f.res.Err? then Ran(Err(f.res.error), f.st) else Store.DestroyAll(env, f.st, f.res.value)
  }

  function DeleteKey(env: Env, t: TokenState, id: string): Ran<()> {
    var d := DeleteNamed(env, t, PrivateKey, ObjectLabel(id, PrivSuffix));
    if d.res.Err? then d else DeleteNamed(env, d.st, PublicKey, ObjectLabel(id, PubSuffix))
  }

  method DeleteKeyObjects(session: Token, id: string) returns (r: Result<()>)
    modifies session
    ensures Ran(r, session.State()) == DeleteKey(session.env, old(session.State()), id)
  {
    r := DeleteNamedObjects(session, PrivateKey, ObjectLabel(id, PrivSuffix));
    if r.Ok? {
      r := DeleteNamedObjects(session, PublicKey, ObjectLabel(id, PubSuffix));
    }
  }

  method DeleteNamedObjects(session: Token, kind: ObjectClass, name: string) returns (r: Result<()>)
    modifies session
    ensures Ran(r, session.State()) == DeleteNamed(session.env, old(session.State()), kind, name)
  {
    var found := session.FindObjects(kind, name);
    if found.Err? {
      return Err(found.error);
    }
    ghost var start := session.State();
    for k := 0 to |found.value|
      invariant Store.DestroyAll(session.env, start, found.value)
             == Store.DestroyAll(session.env, session.State(), found.value[k..])
    {
      var d := session.DestroyObject(found.value[k]);
      assert found.value[k..][1..] == found.value[k + 1..];
      if d.Err? {
        return d;
      }
    }
    return Ok(());
  }

  // A deletion removes only the two kinds of key object under the label, and all of them when it
  // succeeds; every other object, the policy and the counter included, stays as it was.
  lemma DeleteKeyEffect(env: Env, t: TokenState, id: string) returns (gone: set<Handle>)
    requires Enumerates(env)
    ensures var mine := Matching(t.objs, PrivateKey, ObjectLabel(id, PrivSuffix))
                      + Matching(t.objs, PublicKey, ObjectLabel(id, PubSuffix));
            && gone <= mine && DeleteKey(env, t, id).st.objs == t.objs - gone
            && (DeleteKey(env, t, id).res.Ok? ==> gone == mine)
  {
    var a, b := ObjectLabel(id, PrivSuffix), ObjectLabel(id, PubSuffix);
    gone := DeleteNamedEffect(env, t, PrivateKey, a);
    var d := DeleteNamed(env, t, PrivateKey, a);
    if d.res.Ok? {
      var rest := DeleteNamedEffect(env, d.st, PublicKey, b);
      RemoveTwice(t.objs, a, b, gone, rest);
      gone := gone + rest;
    }
  }

  lemma RemoveTwice(objs: map<Handle, Object>, a: string, b: string, x: set<Handle>, y: set<Handle>)
    requires x <= Matching(objs, PrivateKey, a)
    ensures Matching(objs - x, PublicKey, b) == Matching(objs, PublicKey, b)
    ensures objs - x - y == objs - (x + y)
  {
  }

  lemma DeleteNamedEffect(env: Env, t: TokenState, kind: ObjectClass, name: string) returns (gone: set<Handle>)
    requires Enumerates(env)
    ensures gone <= Matching(t.objs, kind, name) && DeleteNamed(env, t, kind, name).st.objs == t.objs - gone
    ensures DeleteNamed(env, t, kind, name).res.Ok? ==> gone == Matching(t.objs, kind, name)
  {
    var f := Find(env, t, kind, name);
    gone := {};
    if f.res.Ok? {
      var hs := f.res.value;
      assert Lists(hs, Matching(t.objs, kind, name));
      var k := Store.DestroyAllRemoves(env, f.st, hs);
      gone := Store.Handles(hs[..k]);
      assert forall h :: h in hs[..k] ==> h in hs;
      assert k == |hs| ==> hs[..k] == hs;
    }
  }
}
