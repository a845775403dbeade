// A PKCS#11 token behind one session: its objects, its calls, and the calls that fail.
module TokenModel {
  import opened Results
  import opened Bip32
  import opened Policy

  datatype ObjectClass = PrivateKey | PublicKey | SecretKey | Data

  // Contents of a data object. The two JSON documents decode to what was encoded; any other
  // bytes decode to neither.
  datatype Value = PolicyJson(policy: HsmPolicy) | SigRateJson(timestamps: seq<nat>) | Opaque(bytes: seq<byte>)

  // `word` is the mechanism parameter the key was derived with, read back as the child index.
  datatype Object = Object(
    kind: ObjectClass,
    name: Option<string>,
    onToken: bool,
    key: Option<Key>,
    word: seq<byte>,
    value: Option<Value>)

  type Message = seq<byte>
  type Handle = nat

  datatype Scheme = EcdsaScheme | SchnorrScheme

  // One signature the token, or the backend's Schnorr service, produced.
  datatype SignCall = SignCall(scheme: Scheme, key: Key, message: Message)

  datatype TokenState = TokenState(objs: map<Handle, Object>, next: Handle, ticks: nat, log: seq<SignCall>)

  // How a backend's Schnorr signer names the key: by session handle, or by label and full path.
  datatype Taproot = NoTaproot | ByHandle | ByName

  // Everything the code cannot decide. Call number k is refused iff fails(k); clock(k) is the
  // time in Unix seconds at call k; order is how the search of call k lists its matches;
  // ecdsa and schnorr are the signing primitives, with the call number in the role of the nonce;
  // remote is the key a by-name Schnorr service finds under a label and a full path. masterOf
  // names the master a seed gives; point is a key's CKA_EC_POINT payload, onCurve what the
  // curve library accepts, fingerprint the first four bytes of a public key's hash.
  datatype Env = Env(
    fails: nat -> bool,
    order: (nat, set<Handle>) -> seq<Handle>,
    clock: nat -> nat,
    ecdsa: (Key, Message, nat) -> seq<byte>,
    schnorr: (Key, Message, nat) -> seq<byte>,
    remote: (string, Path) -> Key,
    masterOf: seq<byte> -> nat,
    point: Key -> seq<byte>,
    onCurve: seq<byte> -> bool,
    fingerprint: Key -> nat,
    segwit: bool,
    taproot: Taproot)

  // A search returns each match once.
  ghost predicate Enumerates(env: Env) {
    forall k: nat, hs: set<Handle> :: Lists(env.order(k, hs), hs)
  }

  ghost predicate Lists(s: seq<Handle>, hs: set<Handle>) {
    && (forall h :: h in s <==> h in hs)
    && |s| == |hs|
    && (forall i, j :: 0 <= i < j < |s| ==> s[i] != s[j])
  }

  ghost predicate ClockMonotone(env: Env) {
    forall i: nat, j: nat :: i <= j ==> env.clock(i) <= env.clock(j)
  }

  // The n calls from call k on are not refused.
  predicate Served(env: Env, k: nat, n: nat) {
    forall i :: k <= i < k + n ==> !env.fails(i)
  }

  // Handles are handed out in increasing order and never reused.
  ghost predicate Valid(t: TokenState) {
    forall h :: h in t.objs ==> h < t.next
  }

  datatype Ran<+T> = Ran(res: Result<T>, st: TokenState)

  function Tick(t: TokenState): TokenState {
    t.(ticks := t.ticks + 1)
  }

  function Matching(objs: map<Handle, Object>, kind: ObjectClass, name: string): set<Handle> {
    set h | h in objs && objs[h].kind == kind && objs[h].name == Some(name)
  }

  function Find(env: Env, t: TokenState, kind: ObjectClass, name: string): Ran<seq<Handle>> {
    if env.fails(t.ticks) then Ran(Err(Refused), Tick(t))
    else Ran(Ok(env.order(t.ticks, Matching(t.objs, kind, name))), Tick(t))
  }

  function GetValue(env: Env, t: TokenState, h: Handle): Ran<Option<Value>> {
    if env.fails(t.ticks) || h !in t.objs then Ran(Err(Refused), Tick(t))
    else Ran(Ok(t.objs[h].value), Tick(t))
  }

  function Create(env: Env, t: TokenState, obj: Object): Ran<Handle> {
    if env.fails(t.ticks) then Ran(Err(Refused), Tick(t))
    else Ran(Ok(t.next), Tick(t).(objs := t.objs[t.next := obj], next := t.next + 1))
  }

  function Destroy(env: Env, t: TokenState, h: Handle): Ran<()> {
    if env.fails(t.ticks) || h !in t.objs then Ran(Err(Refused), Tick(t))
    else Ran(Ok(()), Tick(t).(objs := t.objs - {h}))
  }

  function ChildObject(k: Key, word: seq<byte>): Object {
    Object(PrivateKey, None, false, Some(k), word, None)
  }

  // `C_DeriveKey` with the child mechanism: the token reads the child number out of the word.
  function DeriveChild(env: Env, t: TokenState, parent: Handle, child: Segment): Ran<Handle> {
    var word := EncodeChild(child);
    if env.fails(t.ticks) || parent !in t.objs || t.objs[parent].key.None? || DecodeChild(word).Err? then
      Ran(Err(Refused), Tick(t))
    else
      var key := Descend(t.objs[parent].key.value, [DecodeChild(word).value]);
      Create(env, t, ChildObject(key, word))
  }

  // `C_DeriveKey` with the master mechanism, from a base key that holds the seed.
  function DeriveMaster(env: Env, t: TokenState, base: Handle, name: string): Ran<Handle> {
    if env.fails(t.ticks) || base !in t.objs then Ran(Err(Refused), Tick(t))
    else
      match t.objs[base].value
      case Some(Opaque(seed)) =>
        Create(env, t, Object(PrivateKey, Some(name), true, Some(Key(env.masterOf(seed), [])), [0, 0, 0, 0], None))
      case _ => Ran(Err(Refused), Tick(t))
  }

  // The key attributes a handle answers with: the key and its derivation word.
  function GetKey(env: Env, t: TokenState, h: Handle): Ran<(Key, seq<byte>)> {
    if env.fails(t.ticks) || h !in t.objs || t.objs[h].key.None? then Ran(Err(Refused), Tick(t))
    else Ran(Ok((t.objs[h].key.value, t.objs[h].word)), Tick(t))
  }

  function SignRaw(env: Env, t: TokenState, h: Handle, msg: Message): Ran<seq<byte>> {
    if env.fails(t.ticks) || h !in t.objs || t.objs[h].key.None? then Ran(Err(Refused), Tick(t))
    else
      var key := t.objs[h].key.value;
      Ran(Ok(env.ecdsa(key, msg, t.ticks)), Tick(t).(log := t.log + [SignCall(EcdsaScheme, key, msg)]))
  }

  // `sign_schnorr`: the transport is the backend's own.
  function SignSchnorr(env: Env, t: TokenState, h: Handle, name: string, path: Path, msg: Message): Ran<seq<byte>> {
    if env.fails(t.ticks) || env.taproot.NoTaproot? then Ran(Err(Refused), Tick(t))
    else if env.taproot.ByHandle? && (h !in t.objs || t.objs[h].key.None?) then Ran(Err(Refused), Tick(t))
    else
      var key := if env.taproot.ByName? then env.remote(name, path) else t.objs[h].key.value;
      Ran(Ok(env.schnorr(key, msg, t.ticks)), Tick(t).(log := t.log + [SignCall(SchnorrScheme, key, msg)]))
  }

  // The session object the code calls into. Every call is one transition of the state above.
  class Token {
    const env: Env
    var objs: map<Handle, Object>
    var next: Handle
    var ticks: nat
    var log: seq<SignCall>

    constructor (env: Env, t: TokenState)
      ensures this.env == env && State() == t
    {
      this.env := env;
      objs, next, ticks, log := t.objs, t.next, t.ticks, t.log;
    }

    function State(): TokenState
      reads this
    {
      TokenState(objs, next, ticks, log)
    }

    method FindObjects(kind: ObjectClass, name: string) returns (r: Result<seq<Handle>>)
      modifies this
      ensures Ran(r, State()) == Find(env, old(State()), kind, name)
    {
      var call := ticks;
      ticks := ticks + 1;
      if env.fails(call) {
        return Err(Refused);
      }
      return Ok(env.order(call, Matching(objs, kind, name)));
    }

    method GetAttributeValue(h: Handle) returns (r: Result<Option<Value>>)
      modifies this
      ensures Ran(r, State()) == GetValue(env, old(State()), h)
    {
      var call := ticks;
      ticks := ticks + 1;
      if env.fails(call) || h !in objs {
        return Err(Refused);
      }
      return Ok(objs[h].value);
    }

    method CreateObject(obj: Object) returns (r: Result<Handle>)
      modifies this
      ensures Ran(r, State()) == Create(env, old(State()), obj)
    {
      var call := ticks;
      ticks := ticks + 1;
      if env.fails(call) {
        return Err(Refused);
      }
      objs := objs[next := obj];
      next := next + 1;
      return Ok(next - 1);
    }

    method DestroyObject(h: Handle) returns (r: Result<()>)
      modifies this
      ensures Ran(r, State()) == Destroy(env, old(State()), h)
    {
      var call := ticks;
      ticks := ticks + 1;
      if env.fails(call) || h !in objs {
        return Err(Refused);
      }
      objs := objs - {h};
      return Ok(());
    }

    method DeriveChildKey(parent: Handle, child: Segment) returns (r: Result<Handle>)
      modifies this
      ensures Ran(r, State()) == DeriveChild(env, old(State()), parent, child)
    {
      var word := EncodeChild(child);
      if parent !in objs || objs[parent].key.None? || DecodeChild(word).Err? {
        ticks := ticks + 1;
        return Err(Refused);
      }
      var key := Descend(objs[parent].key.value, [DecodeChild(word).value]);
      r := CreateObject(ChildObject(key, word));
    }

    method DeriveMasterKey(base: Handle, name: string) returns (r: Result<Handle>)
      modifies this
      ensures Ran(r, State()) == DeriveMaster(env, old(State()), base, name)
    {
      if base !in objs {
        ticks := ticks + 1;
        return Err(Refused);
      }
      match objs[base].value {
        case Some(Opaque(seed)) =>
          r := CreateObject(
            Object(PrivateKey, Some(name), true, Some(Key(env.masterOf(seed), [])), [0, 0, 0, 0], None));
        case _ =>
          ticks := ticks + 1;
          r := Err(Refused);
      }
    }

    method GetKeyAttributes(h: Handle) returns (r: Result<(Key, seq<byte>)>)
      modifies this
      ensures Ran(r, State()) == GetKey(env, old(State()), h)
    {
      var call := ticks;
      ticks := ticks + 1;
      if env.fails(call) || h !in objs || objs[h].key.None? {
        return Err(Refused);
      }
      return Ok((objs[h].key.value, objs[h].word));
    }

    method Sign(h: Handle, msg: Message) returns (r: Result<seq<byte>>)
      modifies this
      ensures Ran(r, State()) == SignRaw(env, old(State()), h, msg)
    {
      var call := ticks;
      ticks := ticks + 1;
      if env.fails(call) || h !in objs || objs[h].key.None? {
        return Err(Refused);
      }
      var key := objs[h].key.value;
      log := log + [SignCall(EcdsaScheme, key, msg)];
      return Ok(env.ecdsa(key, msg, call));
    }

    method SchnorrSign(h: Handle, name: string, path: Path, msg: Message) returns (r: Result<seq<byte>>)
      modifies this
      ensures Ran(r, State()) == SignSchnorr(env, old(State()), h, name, path, msg)
    {
      var call := ticks;
      ticks := ticks + 1;
      if env.fails(call) || env.taproot.NoTaproot? {
        return Err(Refused);
      }
      if env.taproot.ByHandle? && (h !in objs || objs[h].key.None?) {
        return Err(Refused);
      }
      var key := if env.taproot.ByName? then env.remote(name, path) else objs[h].key.value;
      log := log + [SignCall(SchnorrScheme, key, msg)];
      return Ok(env.schnorr(key, msg, call));
    }
  }
}
