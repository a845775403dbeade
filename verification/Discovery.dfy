// Reading a fleet from the `EMVAULT_FLEET_*` environment variables.
module Discovery {
  import opened Results
  import opened Bip32
  import opened Policy
  import opened Text
  import opened Fleet

  // The environment variables whose values are text.
  type Vars = map<string, string>

  // Code the scan calls that is not modelled: the path and hex parsers, and the registrars.
  datatype Plugins = Plugins(
    path: string -> Option<Path>,
    hex: string -> Option<seq<byte>>,
    registrars: map<string, MemberEnv -> Option<Factory>>)

  const STEM := "EMVAULT_FLEET_"
  const NETWORK_KEY := "EMVAULT_FLEET_NETWORK"

  function FKey(i: nat, field: string): string {
    STEM + Decimal(i) + ['_'] + field
  }

  // `opt`: an empty value counts as absent.
  function Opt(vars: Vars, key: string): Option<string> {
    if key in vars && vars[key] != "" then Some(vars[key]) else None
  }

  function Req(vars: Vars, i: nat, field: string): Result<string> {
    var v := Opt(vars, FKey(i, field));
    if v.None? then Err(MissingField(i, field)) else Ok(v.value)
  }

  function ParseSlot(vars: Vars, i: nat): Result<Slot> {
    var name, id := Opt(vars, FKey(i, "SLOT")), Opt(vars, FKey(i, "SLOT_ID"));
    if name.Some? then Ok(Label(name.value))
    else if id.None? then Err(MissingField(i, "SLOT"))
    else if !CanParseU64(id.value) then Err(BadField(i, "SLOT_ID"))
    else Ok(SlotId(ParseU64(id.value)))
  }

  function ParseKeyInit(x: Plugins, text: string, i: nat): Result<KeyInit> {
    var s := Trim(text);
    if Lower(s) == "load" then Ok(LoadKey)
    else if s == "" || Lower(s) == "shim" then Ok(DeriveFromSeed([]))
    else if "seed:" <= s then
      var seed := x.hex(s[5..]);
      if seed.None? then Err(BadField(i, "KEY")) else Ok(DeriveFromSeed(seed.value))
    else Err(BadField(i, "KEY"))
  }

  function ParseNetwork(text: string): Result<Network> {
    var s := Lower(Trim(text));
    if s == "bitcoin" || s == "mainnet" then Ok(Bitcoin)
    else if s == "testnet" then Ok(Testnet)
    else if s == "signet" then Ok(Signet)
    else if s == "regtest" then Ok(Regtest)
    else Err(UnknownNetwork)
  }

  function FleetNetwork(vars: Vars): Result<Network> {
    var v := Opt(vars, NETWORK_KEY);
    ParseNetwork(if v.Some? then v.value else "testnet")
  }

  predicate HasVendor(vars: Vars, i: nat) {
    Opt(vars, FKey(i, "VENDOR")).Some?
  }

  // What the variables with index i describe, or the first thing wrong with them.
  function MemberAt(x: Plugins, vars: Vars, network: Network, i: nat): Result<FleetMember>
    requires HasVendor(vars, i)
  {
    var vendor := Opt(vars, FKey(i, "VENDOR")).value;
    var name, library, slot, pin, pathText :=
      Req(vars, i, "LABEL"), Req(vars, i, "LIB"), ParseSlot(vars, i), Req(vars, i, "PIN"), Req(vars, i, "PATH");
    if name.Err? then Err(name.error)
    else if library.Err? then Err(library.error)
    else if slot.Err? then Err(slot.error)
    else if pin.Err? then Err(pin.error)
    else if pathText.Err? then Err(pathText.error)
    else if x.path(pathText.value).None? then Err(BadField(i, "PATH"))
    else
      var key := Opt(vars, FKey(i, "KEY"));
      var init := ParseKeyInit(x, if key.Some? then key.value else "shim", i);
      if init.Err? then Err(init.error)
      else if vendor !in x.registrars then Err(UnknownVendor)
      else
        var spec := MemberEnv(vendor, name.value, library.value, slot.value, pin.value, x.path(pathText.value).value,
                              network, init.value);
        var factory := x.registrars[vendor](spec);
        if factory.None? then Err(Rejected) else Ok(FleetMember(spec, factory.value))
  }

  // How the networks are called.
  function NetworkName(n: Network): string {
    match n
    case Bitcoin => "bitcoin"
    case Testnet => "testnet"
    case Signet => "signet"
    case Regtest => "regtest"
  }

  // A text names a network, in any case and with blanks around it, if and only if it is the
  // network's name, or "mainnet" for the first.
  lemma NetworkNames(text: string, n: Network)
    ensures ParseNetwork(text) == Ok(n) <==>
              Lower(Trim(text)) == NetworkName(n) || (n == Bitcoin && Lower(Trim(text)) == "mainnet")
  {
  }

  // Without the variable, or with an empty one, the fleet is on testnet.
  lemma NetworkRead(vars: Vars)
    ensures FleetNetwork(vars) ==
              if IsSet(vars, "EMVAULT_FLEET_NETWORK") then ParseNetwork(vars["EMVAULT_FLEET_NETWORK"]) else Ok(Testnet)
  {
    var s := "testnet";
    assert !IsWhite(s[0]) && !IsWhite(s[6]);
    assert Trim(s) == s && Lower(s) == s;
  }

  // What a key field asks for.
  lemma KeyInits(x: Plugins, text: string, i: nat)
    ensures var s, r := Trim(text), ParseKeyInit(x, text, i);
            && (r == Ok(LoadKey) <==> Lower(s) == "load")
            && (s == "" || Lower(s) == "shim" ==> r == Ok(DeriveFromSeed([])))
            && (forall h :: s == "seed:" + h ==>
                  r == if x.hex(h).Some? then Ok(DeriveFromSeed(x.hex(h).value)) else Err(BadField(i, "KEY")))
            && (r.Ok? ==> Lower(s) == "load" || Lower(s) == "shim" || s == "" || "seed:" <= s)
  {
    var s := Trim(text);
    forall h | s == "seed:" + h
      ensures s[5..] == h && Lower(s) != "load" && Lower(s) != "shim"
    {
      assert Lower(s)[4] == ':';
    }
  }

  // ------------------------------------------------------------------------------------------
  // Names of variables
  // ------------------------------------------------------------------------------------------

  // No two (index, field) pairs share a variable, and none shares it with the network.
  lemma FKeyInjective(i: nat, f: string, j: nat, g: string)
    requires FKey(i, f) == FKey(j, g)
    ensures i == j && f == g
  {
    assert FKey(i, f)[|STEM|..] == Decimal(i) + ['_'] + f;
    assert FKey(j, g)[|STEM|..] == Decimal(j) + ['_'] + g;
    FirstSeparator(Decimal(i), Decimal(j), '_', f, g);
    DecimalInjective(i, j);
  }

  // The variable of field f with index i is named by the index in digits.
  lemma FKeyText(i: nat, f: string, d: string)
    requires Numeral(d, i)
    ensures FKey(i, f) == "EMVAULT_FLEET_" + d + "_" + f
  {
    NumeralIsDecimal(d, i);
  }

  lemma FKeyNotNetwork(i: nat, f: string)
    ensures FKey(i, f) != NETWORK_KEY
  {
    assert FKey(i, f)[|STEM|] == Decimal(i)[0];
    assert NETWORK_KEY[|STEM|] == 'N';
  }

  // ------------------------------------------------------------------------------------------
  // The scan
  // ------------------------------------------------------------------------------------------

  // The vendor variables the scan may still come to.
  ghost function VendorsFrom(vars: Vars, i: nat): set<string> {
    set key | key in vars && exists j: nat :: i <= j && key == FKey(j, "VENDOR")
  }

  lemma VendorsShrink(vars: Vars, i: nat)
    requires HasVendor(vars, i)
    ensures VendorsFrom(vars, i + 1) < VendorsFrom(vars, i)
  {
    var key := FKey(i, "VENDOR");
    assert key in VendorsFrom(vars, i);
    if key in VendorsFrom(vars, i + 1) {
      var j: nat :| i + 1 <= j && key == FKey(j, "VENDOR");
      FKeyInjective(i, "VENDOR", j, "VENDOR");
    }
  }

  // Members 0 to n - 1 were described and parsed.
  ghost predicate Parsed(x: Plugins, vars: Vars, network: Network, ms: seq<FleetMember>) {
    forall i :: 0 <= i < |ms| ==> HasVendor(vars, i) && MemberAt(x, vars, network, i) == Ok(ms[i])
  }

  lemma ParsedMore(x: Plugins, vars: Vars, network: Network, ms: seq<FleetMember>, m: FleetMember)
    requires Parsed(x, vars, network, ms) && HasVendor(vars, |ms|) && MemberAt(x, vars, network, |ms|) == Ok(m)
    ensures Parsed(x, vars, network, ms + [m])
  {
  }

  // The scan parsed exactly `ms`: it came to a gap there, or to a member it cannot accept.
  ghost predicate EndsAfter(x: Plugins, vars: Vars, network: Network, ms: seq<FleetMember>,
                            r: Result<seq<FleetMember>>) {
    && Parsed(x, vars, network, ms)
    && (if HasVendor(vars, |ms|) then
          var m := MemberAt(x, vars, network, |ms|);
          m.Err? && r == Err(m.error)
        else r == if ms == [] then Err(NoMembers) else Ok(ms))
  }

  // The answer of the scan: all members up to the first gap, or the first error.
  ghost predicate Discovered(x: Plugins, vars: Vars, r: Result<seq<FleetMember>>) {
    var network := FleetNetwork(vars);
    if network.Err? then r == Err(network.error)
    else exists ms: seq<FleetMember> :: EndsAfter(x, vars, network.value, ms, r)
  }

  // The loop ends on every environment: each turn uses up a vendor variable.
  method FromEnv(x: Plugins, vars: Vars) returns (r: Result<seq<FleetMember>>)
    ensures Discovered(x, vars, r)
  {
    var network := FleetNetwork(vars);
    if network.Err? {
      return Err(network.error);
    }
    var members: seq<FleetMember> := [];
    var i := 0;
    while Opt(vars, FKey(i, "VENDOR")).Some?
      invariant |members| == i && Parsed(x, vars, network.value, members)
      decreases VendorsFrom(vars, i)
    {
      var m := ReadMember(x, vars, network.value, i);
      if m.Err? {
        assert EndsAfter(x, vars, network.value, members, Err(m.error));
        return Err(m.error);
      }
      ParsedMore(x, vars, network.value, members, m.value);
      members := members + [m.value];
      VendorsShrink(vars, i);
      i := i + 1;
    }
    r := if members == [] then Err(NoMembers) else Ok(members);
    assert EndsAfter(x, vars, network.value, members, r);
  }

  // A variable is set to a text that is not empty.
  predicate IsSet(vars: Vars, key: string) {
    key in vars && vars[key] != ""
  }

  // The fields of a member are the values of the variables that begin with `stem`.
  ghost predicate ReadFrom(x: Plugins, vars: Vars, network: Network, stem: string, m: MemberEnv) {
    && IsSet(vars, stem + "_VENDOR") && m.vendor == vars[stem + "_VENDOR"]
    && IsSet(vars, stem + "_LABEL") && m.name == vars[stem + "_LABEL"]
    && IsSet(vars, stem + "_LIB") && m.library == vars[stem + "_LIB"]
    && IsSet(vars, stem + "_PIN") && m.pin == vars[stem + "_PIN"]
    && IsSet(vars, stem + "_PATH") && x.path(vars[stem + "_PATH"]) == Some(m.path)
    && (if IsSet(vars, stem + "_SLOT") then m.slot == Label(vars[stem + "_SLOT"])
        else
          && IsSet(vars, stem + "_SLOT_ID") && CanParseU64(vars[stem + "_SLOT_ID"])
          && m.slot == SlotId(ParseU64(vars[stem + "_SLOT_ID"])))
    && (if IsSet(vars, stem + "_KEY") then ParseKeyInit(x, vars[stem + "_KEY"], 0) == Ok(m.keyInit)
        else m.keyInit == DeriveFromSeed([]))
    && m.network == network
  }

  lemma MemberReads(x: Plugins, vars: Vars, network: Network, i: nat, d: string)
    requires Numeral(d, i) && HasVendor(vars, i) && MemberAt(x, vars, network, i).Ok?
    ensures ReadFrom(x, vars, network, "EMVAULT_FLEET_" + d, MemberAt(x, vars, network, i).value.spec)
  {
    var stem := "EMVAULT_FLEET_" + d;
    FieldNames(i, d);
    if !IsSet(vars, stem + "_KEY") {
      ShimIsEmpty(x, i);
    } else {
      KeyInitIndex(x, vars[stem + "_KEY"], i);
    }
  }

  lemma FieldNames(i: nat, d: string)
    requires Numeral(d, i)
    ensures var stem := "EMVAULT_FLEET_" + d;
            && FKey(i, "VENDOR") == stem + "_VENDOR" && FKey(i, "LABEL") == stem + "_LABEL"
            && FKey(i, "LIB") == stem + "_LIB" && FKey(i, "PIN") == stem + "_PIN"
            && FKey(i, "PATH") == stem + "_PATH" && FKey(i, "SLOT") == stem + "_SLOT"
            && FKey(i, "SLOT_ID") == stem + "_SLOT_ID" && FKey(i, "KEY") == stem + "_KEY"
  {
    FieldName(i, d, "VENDOR", "_VENDOR");
    FieldName(i, d, "LABEL", "_LABEL");
    FieldName(i, d, "LIB", "_LIB");
    FieldName(i, d, "PIN", "_PIN");
    FieldName(i, d, "PATH", "_PATH");
    FieldName(i, d, "SLOT", "_SLOT");
    FieldName(i, d, "SLOT_ID", "_SLOT_ID");
    FieldName(i, d, "KEY", "_KEY");
  }

  lemma FieldName(i: nat, d: string, f: string, g: string)
    requires Numeral(d, i) && g == "_" + f
    ensures FKey(i, f) == "EMVAULT_FLEET_" + d + g
  {
    FKeyText(i, f, d);
    assert "EMVAULT_FLEET_" + d + "_" + f == "EMVAULT_FLEET_" + d + ("_" + f);
  }

  // The index is used in messages only.
  lemma KeyInitIndex(x: Plugins, text: string, i: nat)
    ensures ParseKeyInit(x, text, i).Ok? ==> ParseKeyInit(x, text, 0) == ParseKeyInit(x, text, i)
  {
  }

  lemma ShimIsEmpty(x: Plugins, i: nat)
    ensures ParseKeyInit(x, "shim", i) == Ok(DeriveFromSeed([]))
  {
    var s := "shim";
    assert !IsWhite(s[0]) && !IsWhite(s[3]);
    assert Trim(s) == s && Lower(s) == s;
  }

  // On success there is a member for every index below the first gap, and at least one: member i
  // is what the variables EMVAULT_FLEET_i_... say, and the vendor of the next index is not set.
  lemma OkReachesFirstGap(x: Plugins, vars: Vars, r: Result<seq<FleetMember>>)
    requires Discovered(x, vars, r) && r.Ok?
    ensures r.value != [] && !HasVendor(vars, |r.value|)
    ensures FleetNetwork(vars).Ok? && Parsed(x, vars, FleetNetwork(vars).value, r.value)
    ensures forall i, d :: 0 <= i < |r.value| && Numeral(d, i) ==>
              ReadFrom(x, vars, FleetNetwork(vars).value, "EMVAULT_FLEET_" + d, r.value[i].spec)
    ensures forall d :: Numeral(d, |r.value|) ==> !IsSet(vars, "EMVAULT_FLEET_" + d + "_VENDOR")
  {
    var network := FleetNetwork(vars).value;
    var ms: seq<FleetMember> :| EndsAfter(x, vars, network, ms, r);
    assert ms == r.value;
    forall i, d | 0 <= i < |ms| && Numeral(d, i)
      ensures ReadFrom(x, vars, network, "EMVAULT_FLEET_" + d, ms[i].spec)
    {
      MemberReads(x, vars, network, i, d);
    }
    forall d | Numeral(d, |ms|)
      ensures !IsSet(vars, "EMVAULT_FLEET_" + d + "_VENDOR")
    {
      FieldNames(|ms|, d);
    }
  }

  // The body of the loop.
  method ReadMember(x: Plugins, vars: Vars, network: Network, i: nat) returns (r: Result<FleetMember>)
    requires HasVendor(vars, i)
    ensures r == MemberAt(x, vars, network, i)
  {
    var vendor := Opt(vars, FKey(i, "VENDOR")).value;
    var name := Req(vars, i, "LABEL");
    if name.Err? {
      return Err(name.error);
    }
    var library := Req(vars, i, "LIB");
    if library.Err? {
      return Err(library.error);
    }
    var slot := ParseSlot(vars, i);
    if slot.Err? {
      return Err(slot.error);
    }
    var pin := Req(vars, i, "PIN");
    if pin.Err? {
      return Err(pin.error);
    }
    var pathText := Req(vars, i, "PATH");
    if pathText.Err? {
      return Err(pathText.error);
    }
    var path := x.path(pathText.value);
    if path.None? {
      return Err(BadField(i, "PATH"));
    }
    var key := Opt(vars, FKey(i, "KEY"));
    var init := ParseKeyInit(x, if key.Some? then key.value else "shim", i);
    if init.Err? {
      return Err(init.error);
    }
    var spec := MemberEnv(vendor, name.value, library.value, slot.value, pin.value, path.value, network, init.value);
    if spec.vendor !in x.registrars {
      return Err(UnknownVendor);
    }
    var factory := x.registrars[spec.vendor](spec);
    if factory.None? {
      return Err(Rejected);
    }
    return Ok(FleetMember(spec, factory.value));
  }

  // ------------------------------------------------------------------------------------------
  // What the answer depends on
  // ------------------------------------------------------------------------------------------

  // The variables with index i read the same in both environments.
  ghost predicate AgreeAt(a: Vars, b: Vars, i: nat) {
    forall f: string :: Opt(a, FKey(i, f)) == Opt(b, FKey(i, f))
  }

  // A member is built from the variables with its own index and the network, nothing else.
  lemma MemberDependsOnIndex(x: Plugins, a: Vars, b: Vars, network: Network, i: nat)
    requires AgreeAt(a, b, i)
    ensures HasVendor(a, i) <==> HasVendor(b, i)
    ensures HasVendor(a, i) ==> MemberAt(x, a, network, i) == MemberAt(x, b, network, i)
  {
    assert Opt(a, FKey(i, "VENDOR")) == Opt(b, FKey(i, "VENDOR"));
    assert Opt(a, FKey(i, "LABEL")) == Opt(b, FKey(i, "LABEL"));
    assert Opt(a, FKey(i, "LIB")) == Opt(b, FKey(i, "LIB"));
    assert Opt(a, FKey(i, "SLOT")) == Opt(b, FKey(i, "SLOT"));
    assert Opt(a, FKey(i, "SLOT_ID")) == Opt(b, FKey(i, "SLOT_ID"));
    assert Opt(a, FKey(i, "PIN")) == Opt(b, FKey(i, "PIN"));
    assert Opt(a, FKey(i, "PATH")) == Opt(b, FKey(i, "PATH"));
    assert Opt(a, FKey(i, "KEY")) == Opt(b, FKey(i, "KEY"));
  }

  // Writing a variable of one index leaves every other member and the network alone.
  lemma WritingElsewhere(x: Plugins, vars: Vars, i: nat, j: nat, f: string, value: string, network: Network)
    requires i != j
    ensures var vars' := vars[FKey(j, f) := value];
            && FleetNetwork(vars') == FleetNetwork(vars)
            && (HasVendor(vars', i) <==> HasVendor(vars, i))
            && (HasVendor(vars, i) ==> MemberAt(x, vars', network, i) == MemberAt(x, vars, network, i))
  {
    var vars' := vars[FKey(j, f) := value];
    FKeyNotNetwork(j, f);
    forall g: string
      ensures Opt(vars', FKey(i, g)) == Opt(vars, FKey(i, g))
    {
      if FKey(i, g) == FKey(j, f) {
        FKeyInjective(i, g, j, f);
      }
    }
    MemberDependsOnIndex(x, vars', vars, network, i);
  }

  // The answer is determined, and by no more than the variables up to the first gap: whatever is
  // set beyond the gap, or anywhere else in the environment, is ignored.
  lemma ScanStopsAtGap(x: Plugins, a: Vars, b: Vars, n: nat, r: Result<seq<FleetMember>>, s: Result<seq<FleetMember>>)
    requires Opt(a, NETWORK_KEY) == Opt(b, NETWORK_KEY) && !HasVendor(a, n)
    requires forall i: nat :: i <= n ==> AgreeAt(a, b, i)
    requires Discovered(x, a, r) && Discovered(x, b, s)
    ensures r == s
  {
    var network := FleetNetwork(a);
    if network.Ok? {
      forall i: nat | i <= n
        ensures HasVendor(a, i) <==> HasVendor(b, i)
        ensures HasVendor(a, i) ==> MemberAt(x, a, network.value, i) == MemberAt(x, b, network.value, i)
      {
        assert AgreeAt(a, b, i);
        MemberDependsOnIndex(x, a, b, network.value, i);
      }
      SameAnswer(x, a, b, n, network.value, r, s);
    }
  }

  lemma SameAnswer(x: Plugins, a: Vars, b: Vars, n: nat, network: Network, r: Result<seq<FleetMember>>,
                   s: Result<seq<FleetMember>>)
    requires FleetNetwork(a) == FleetNetwork(b) == Ok(network) && !HasVendor(a, n)
    requires SameMembers(x, a, b, n, network)
    requires Discovered(x, a, r) && Discovered(x, b, s)
    ensures r == s
  {
    var ms: seq<FleetMember> :| EndsAfter(x, a, network, ms, r);
    var ns: seq<FleetMember> :| EndsAfter(x, b, network, ns, s);
    assert |ms| <= n;
    NotBeyond(x, a, b, n, network, ms, r, ns);
    NotBeyond(x, b, a, n, network, ns, s, ms);
    assert ms == ns;
  }

  ghost predicate SameMembers(x: Plugins, a: Vars, b: Vars, n: nat, network: Network) {
    forall i: nat :: i <= n ==>
      && (HasVendor(a, i) <==> HasVendor(b, i))
      && (HasVendor(a, i) ==> MemberAt(x, a, network, i) == MemberAt(x, b, network, i))
  }

  // A scan that ended after `ms` bounds what the other one can have parsed.
  lemma NotBeyond(x: Plugins, a: Vars, b: Vars, n: nat, network: Network, ms: seq<FleetMember>,
                  r: Result<seq<FleetMember>>, ns: seq<FleetMember>)
    requires SameMembers(x, a, b, n, network) && |ms| <= n
    requires EndsAfter(x, a, network, ms, r) && Parsed(x, b, network, ns)
    ensures |ns| <= |ms|
    ensures forall i :: 0 <= i < |ns| ==> ns[i] == ms[i]
  {
    forall i | 0 <= i < |ns|
      ensures ns[i] == ms[i]
    {
      assert MemberAt(x, a, network, i) == MemberAt(x, b, network, i);
    }
  }

  // ------------------------------------------------------------------------------------------
  // Writing a fleet down and reading it back
  // ------------------------------------------------------------------------------------------

  // The values of one member's variables; those left empty are not set.
  datatype Entry = Entry(vendor: string, name: string, library: string, slot: Slot, pin: string, path: string,
                         key: string)

  function Fields(e: Entry): map<string, string> {
    map[
      "VENDOR" := e.vendor,
      "LABEL" := e.name,
      "LIB" := e.library,
      (if e.slot.Label? then "SLOT" else "SLOT_ID") := if e.slot.Label? then e.slot.text else Decimal(e.slot.id),
      "PIN" := e.pin,
      "PATH" := e.path,
      "KEY" := e.key]
  }

  // A field of some entry, and the variable that holds it.
  type FieldKey = (nat, string)

  function KeyName(k: FieldKey): string {
    FKey(k.0, k.1)
  }

  function AllFields(es: seq<Entry>): map<FieldKey, string> {
    map i: nat, f: string | i < |es| && f in Fields(es[i]) :: (i, f) := Fields(es[i])[f]
  }

  ghost predicate Injective(name: FieldKey -> string) {
    forall a, b :: name(a) == name(b) ==> a == b
  }

  function Rename(m: map<FieldKey, string>, name: FieldKey -> string): Vars
    requires Injective(name)
  {
    map k | k in m :: name(k) := m[k]
  }

  lemma RenameReads(m: map<FieldKey, string>, name: FieldKey -> string, k: FieldKey)
    requires Injective(name)
    ensures name(k) in Rename(m, name) <==> k in m
    ensures k in m ==> Rename(m, name)[name(k)] == m[k]
  {
  }

  lemma KeyNameInjective()
    ensures Injective(KeyName)
  {
    forall a: FieldKey, b: FieldKey | KeyName(a) == KeyName(b)
      ensures a == b
    {
      FKeyInjective(a.0, a.1, b.0, b.1);
    }
  }

  // The variables of all entries, each under its own index.
  function Describe(es: seq<Entry>): Vars {
    KeyNameInjective();
    Rename(AllFields(es), KeyName)
  }

  // The member an entry stands for, if every parser and the registrar accept it.
  predicate Acceptable(x: Plugins, e: Entry, network: Network) {
    && e.vendor != "" && e.name != "" && e.library != "" && e.pin != "" && e.path != ""
    && (e.slot.Label? ==> e.slot.text != "")
    && x.path(e.path).Some? && ParseKeyInit(x, e.key, 0).Ok?
    && e.vendor in x.registrars && x.registrars[e.vendor](SpecOf(x, e, network)).Some?
  }

  function SpecOf(x: Plugins, e: Entry, network: Network): MemberEnv
    requires x.path(e.path).Some? && ParseKeyInit(x, e.key, 0).Ok?
  {
    MemberEnv(e.vendor, e.name, e.library, e.slot, e.pin, x.path(e.path).value, network,
              ParseKeyInit(x, e.key, 0).value)
  }

  function MemberOf(x: Plugins, e: Entry, network: Network): FleetMember
    requires Acceptable(x, e, network)
  {
    FleetMember(SpecOf(x, e, network), x.registrars[e.vendor](SpecOf(x, e, network)).value)
  }

  // No variable of one entry hides one of another, nor the network.
  lemma DescribeReads(es: seq<Entry>, i: nat, f: string)
    ensures i < |es| ==> Opt(Describe(es), FKey(i, f)) == Opt(Fields(es[i]), f)
    ensures i >= |es| ==> FKey(i, f) !in Describe(es)
  {
    KeyNameInjective();
    RenameReads(AllFields(es), KeyName, (i, f));
    assert KeyName((i, f)) == FKey(i, f);
  }

  lemma NetworkUnwritten(es: seq<Entry>)
    ensures NETWORK_KEY !in Describe(es)
  {
    KeyNameInjective();
    forall k: FieldKey
      ensures KeyName(k) != NETWORK_KEY
    {
      FKeyNotNetwork(k.0, k.1);
    }
  }

  // The variables with this index, written in digits, read as the entry's fields.
  ghost predicate Holds(vars: Vars, e: Entry, d: string) {
    forall f: string :: Opt(vars, "EMVAULT_FLEET_" + d + "_" + f) == Opt(Fields(e), f)
  }

  ghost predicate HoldsAt(vars: Vars, e: Entry, i: nat) {
    forall f: string :: Opt(vars, FKey(i, f)) == Opt(Fields(e), f)
  }

  lemma HoldsNumeral(vars: Vars, e: Entry, i: nat, d: string)
    requires Numeral(d, i)
    ensures Holds(vars, e, d) <==> HoldsAt(vars, e, i)
  {
    forall f: string
      ensures FKey(i, f) == "EMVAULT_FLEET_" + d + "_" + f
    {
      FKeyText(i, f, d);
    }
    if Holds(vars, e, d) {
      forall f: string
        ensures Opt(vars, FKey(i, f)) == Opt(Fields(e), f)
      {
        assert Opt(vars, "EMVAULT_FLEET_" + d + "_" + f) == Opt(Fields(e), f);
      }
    }
    if HoldsAt(vars, e, i) {
      forall f: string
        ensures Opt(vars, "EMVAULT_FLEET_" + d + "_" + f) == Opt(Fields(e), f)
      {
        assert Opt(vars, FKey(i, f)) == Opt(Fields(e), f);
      }
    }
  }

  lemma HeldMember(x: Plugins, e: Entry, vars: Vars, network: Network, i: nat)
    requires Acceptable(x, e, network) && HoldsAt(vars, e, i)
    ensures HasVendor(vars, i) && MemberAt(x, vars, network, i) == Ok(MemberOf(x, e, network))
  {
    HeldFields(e, vars, i);
    HeldSlot(e, vars, i);
    KeyInitWritten(x, e.key, i);
  }

  lemma HeldFields(e: Entry, vars: Vars, i: nat)
    requires HoldsAt(vars, e, i)
    ensures Opt(vars, FKey(i, "VENDOR")) == if e.vendor != "" then Some(e.vendor) else None
    ensures Opt(vars, FKey(i, "LABEL")) == if e.name != "" then Some(e.name) else None
    ensures Opt(vars, FKey(i, "LIB")) == if e.library != "" then Some(e.library) else None
    ensures Opt(vars, FKey(i, "PIN")) == if e.pin != "" then Some(e.pin) else None
    ensures Opt(vars, FKey(i, "PATH")) == if e.path != "" then Some(e.path) else None
    ensures Opt(vars, FKey(i, "KEY")) == if e.key != "" then Some(e.key) else None
  {
  }

  lemma HeldSlot(e: Entry, vars: Vars, i: nat)
    requires HoldsAt(vars, e, i) && (e.slot.Label? ==> e.slot.text != "")
    ensures ParseSlot(vars, i) == Ok(e.slot)
  {
    assert Opt(vars, FKey(i, "SLOT")) == Opt(Fields(e), "SLOT");
    assert Opt(vars, FKey(i, "SLOT_ID")) == Opt(Fields(e), "SLOT_ID");
    if e.slot.SlotId? {
      ParseDecimal(e.slot.id);
    }
  }

  // An absent key field means the shim, as an empty one does.
  lemma KeyInitWritten(x: Plugins, key: string, i: nat)
    requires ParseKeyInit(x, key, 0).Ok?
    ensures ParseKeyInit(x, if key != "" then key else "shim", i) == ParseKeyInit(x, key, 0)
  {
    if key == "" {
      ShimIsEmpty(x, i);
    }
  }

  function MembersOf(x: Plugins, es: seq<Entry>, network: Network): (ms: seq<FleetMember>)
    requires forall i :: 0 <= i < |es| ==> Acceptable(x, es[i], network)
    ensures |ms| == |es| && forall i :: 0 <= i < |es| ==> ms[i] == MemberOf(x, es[i], network)
  {
    seq(|es|, i requires 0 <= i < |es| => MemberOf(x, es[i], network))
  }

  // The environment holds the entries from index 0 on, and no vendor after the last.
  ghost predicate Describes(vars: Vars, es: seq<Entry>) {
    && (forall i, d :: 0 <= i < |es| && Numeral(d, i) ==> Holds(vars, es[i], d))
    && (forall d :: Numeral(d, |es|) ==> !IsSet(vars, "EMVAULT_FLEET_" + d + "_VENDOR"))
  }

  // The variables of all entries make such an environment: none hides another, nor the network.
  lemma WrittenDescribes(es: seq<Entry>, network: string)
    ensures Describes(Describe(es)[NETWORK_KEY := network], es) && NETWORK_KEY !in Describe(es)
  {
    forall i, d | 0 <= i < |es| && Numeral(d, i)
      ensures Holds(Describe(es)[NETWORK_KEY := network], es[i], d)
    {
      WrittenHolds(es, network, i);
      HoldsNumeral(Describe(es)[NETWORK_KEY := network], es[i], i, d);
    }
    forall d | Numeral(d, |es|)
      ensures FKey(|es|, "VENDOR") == "EMVAULT_FLEET_" + d + "_VENDOR"
    {
      FieldNames(|es|, d);
    }
    DescribeReads(es, |es|, "VENDOR");
    FKeyNotNetwork(|es|, "VENDOR");
    NetworkUnwritten(es);
  }

  lemma WrittenHolds(es: seq<Entry>, network: string, i: nat)
    requires i < |es|
    ensures HoldsAt(Describe(es)[NETWORK_KEY := network], es[i], i)
  {
    forall f: string {
      WrittenReads(es, network, i, f);
    }
  }

  lemma WrittenReads(es: seq<Entry>, network: string, i: nat, f: string)
    requires i < |es|
    ensures Opt(Describe(es)[NETWORK_KEY := network], FKey(i, f)) == Opt(Fields(es[i]), f)
  {
    DescribeReads(es, i, f);
    FKeyNotNetwork(i, f);
  }

  // Reading back what was written, in an environment with any other variables: a fleet of
  // acceptable entries is discovered as it was described.
  lemma DescribedIsDiscovered(x: Plugins, es: seq<Entry>, vars: Vars, network: Network, r: Result<seq<FleetMember>>)
    requires es != [] && FleetNetwork(vars) == Ok(network) && Describes(vars, es)
    requires forall i :: 0 <= i < |es| ==> Acceptable(x, es[i], network)
    requires Discovered(x, vars, r)
    ensures r == Ok(MembersOf(x, es, network))
  {
    DescribedParses(x, es, vars, network);
    DecimalIsNumeral(|es|);
    FieldNames(|es|, Decimal(|es|));
    ParsedToGap(x, vars, network, MembersOf(x, es, network), r);
  }

  lemma DescribedParses(x: Plugins, es: seq<Entry>, vars: Vars, network: Network)
    requires Describes(vars, es)
    requires forall i :: 0 <= i < |es| ==> Acceptable(x, es[i], network)
    ensures Parsed(x, vars, network, MembersOf(x, es, network))
  {
    forall i | 0 <= i < |es|
      ensures HasVendor(vars, i) && MemberAt(x, vars, network, i) == Ok(MemberOf(x, es[i], network))
    {
      DecimalIsNumeral(i);
      HoldsNumeral(vars, es[i], i, Decimal(i));
      HeldMember(x, es[i], vars, network, i);
    }
  }

  lemma ParsedToGap(x: Plugins, vars: Vars, network: Network, ms: seq<FleetMember>, r: Result<seq<FleetMember>>)
    requires ms != [] && FleetNetwork(vars) == Ok(network)
    requires Parsed(x, vars, network, ms) && !HasVendor(vars, |ms|) && Discovered(x, vars, r)
    ensures r == Ok(ms)
  {
    assert EndsAfter(x, vars, network, ms, Ok(ms));
    SameAnswer(x, vars, vars, |ms|, network, r, Ok(ms));
  }
}
