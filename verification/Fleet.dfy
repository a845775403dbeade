// Fleets: the guard against two cosigners with one key, and discovery from the environment.
module Fleet {
  import opened Results
  import opened Bip32
  import opened Policy
  import opened Text

  datatype Slot = Label(text: string) | SlotId(id: u64)
  datatype KeyInit = DeriveFromSeed(seed: seq<byte>) | LoadKey

  // The parsed fields of one cosigner.
  datatype MemberEnv = MemberEnv(
    vendor: string,
    name: string,
    library: string,
    slot: Slot,
    pin: string,
    path: Path,
    network: Network,
    keyInit: KeyInit)

  // The factory is an opaque token the vendor's registrar hands out.
  type Factory = nat
  datatype FleetMember = FleetMember(spec: MemberEnv, makeBackend: Factory)

  // ------------------------------------------------------------------------------------------
  // The identity two cosigners must not share
  // ------------------------------------------------------------------------------------------

  function SlotText(s: Slot): string {
    match s
    case Label(l) => "label=" + l
    case SlotId(id) => "slot_id=" + Decimal(id)
  }

  function SegmentText(c: Segment): string {
    Decimal(c.index) + if c.Hardened? then "'" else ""
  }

  function PathText(p: Path): string {
    if p == [] then ""
    else if |p| == 1 then SegmentText(p[0])
    else SegmentText(p[0]) + ['/'] + PathText(p[1..])
  }

  function Prefix(vendor: string, library: string): string {
    vendor + ['|'] + library + ['|']
  }

  function IdentityText(vendor: string, library: string, slot: Slot, path: Path): string {
    Prefix(vendor, library) + SlotText(slot) + ['|'] + PathText(path)
  }

  function Identity(m: FleetMember): string {
    IdentityText(m.spec.vendor, m.spec.library, m.spec.slot, m.spec.path)
  }

  // The identity spelled out.
  lemma IdentitySpelled(m: FleetMember, d: string)
    requires m.spec.slot.SlotId? ==> Numeral(d, m.spec.slot.id)
    ensures var slot := if m.spec.slot.Label? then "label=" + m.spec.slot.text else "slot_id=" + d;
            Identity(m) == m.spec.vendor + "|" + m.spec.library + "|" + slot + "|" + PathText(m.spec.path)
  {
    if m.spec.slot.SlotId? {
      NumeralIsDecimal(d, m.spec.slot.id);
    }
  }

  // A path is its segments in order with slashes between them, each an index in digits, with an
  // apostrophe if hardened.
  lemma PathSpelled(p: Path, c: Segment, d: string)
    requires Numeral(d, c.index)
    ensures var text := d + if c.Hardened? then "'" else "";
            PathText([c]) == text && (p != [] ==> PathText([c] + p) == text + "/" + PathText(p))
  {
    NumeralIsDecimal(d, c.index);
    assert p != [] ==> ([c] + p)[1..] == p;
  }

  predicate SamePlace(a: FleetMember, b: FleetMember) {
    && a.spec.vendor == b.spec.vendor && a.spec.library == b.spec.library
    && a.spec.slot == b.spec.slot && a.spec.path == b.spec.path
  }

  lemma {:induction false} PathCharacters(p: Path)
    ensures forall c :: c in PathText(p) ==> IsDigit(c) || c == '\'' || c == '/'
  {
    if |p| > 1 {
      PathCharacters(p[1..]);
    }
  }

  lemma SegmentInjective(a: Segment, b: Segment)
    requires SegmentText(a) == SegmentText(b)
    ensures a == b
  {
    var s, t := SegmentText(a), SegmentText(b);
    var d, e := Decimal(a.index), Decimal(b.index);
    assert s[|s| - 1] == if a.Hardened? then '\'' else d[|d| - 1];
    assert t[|t| - 1] == if b.Hardened? then '\'' else e[|e| - 1];
    assert d == s[..|d|] && e == t[..|e|];
    DecimalInjective(a.index, b.index);
  }

  lemma PathSlash(p: Path)
    ensures '/' in PathText(p) <==> |p| > 1
  {
  }

  lemma {:induction false} PathInjective(p: Path, q: Path)
    requires PathText(p) == PathText(q)
    ensures p == q
    decreases |p|
  {
    PathSlash(p);
    PathSlash(q);
    if |p| > 1 && |q| > 1 {
      FirstSeparator(SegmentText(p[0]), SegmentText(q[0]), '/', PathText(p[1..]), PathText(q[1..]));
      SegmentInjective(p[0], q[0]);
      PathInjective(p[1..], q[1..]);
      assert p == [p[0]] + p[1..] && q == [q[0]] + q[1..];
    } else if |p| == 1 && |q| == 1 {
      SegmentInjective(p[0], q[0]);
    }
  }

  lemma SlotInjective(a: Slot, b: Slot)
    requires SlotText(a) == SlotText(b)
    ensures a == b
  {
    var s, t := SlotText(a), SlotText(b);
    assert s[0] == t[0];
    if a.Label? {
      assert s[6..] == a.text && t[6..] == b.text;
    } else {
      assert s[8..] == Decimal(a.id) && t[8..] == Decimal(b.id);
      DecimalInjective(a.id, b.id);
    }
  }

  // Two different (vendor, library) pairs that some slots give the same identity: either they
  // join to the same text, or one of them reads like the other followed by a slot label.
  predicate Confusable(v: string, l: string, w: string, k: string) {
    var x, y := Prefix(v, l), Prefix(w, k);
    (v != w || l != k) && (x == y || x + "label=" <= y || y + "label=" <= x)
  }

  // The identity separates all slots and paths of two (vendor, library) pairs exactly when the
  // pairs are not confusable.
  lemma IdentityInjectiveIff(v: string, l: string, w: string, k: string)
    ensures !Confusable(v, l, w, k)
       <==> forall s, p, t, q :: IdentityText(v, l, s, p) == IdentityText(w, k, t, q)
              ==> v == w && l == k && s == t && p == q
  {
    if Confusable(v, l, w, k) {
      var s, t := Collide(v, l, w, k);
      assert IdentityText(v, l, s, []) == IdentityText(w, k, t, []);
    } else {
      forall s, p, t, q | IdentityText(v, l, s, p) == IdentityText(w, k, t, q)
        ensures v == w && l == k && s == t && p == q
      {
        IdentityInjective(v, l, s, p, w, k, t, q);
      }
    }
  }

  lemma Collide(v: string, l: string, w: string, k: string) returns (s: Slot, t: Slot)
    requires Confusable(v, l, w, k)
    ensures forall p :: IdentityText(v, l, s, p) == IdentityText(w, k, t, p)
  {
    var x, y := Prefix(v, l), Prefix(w, k);
    if x == y {
      s, t := Label(""), Label("");
    } else if x + "label=" <= y {
      var rest := y[|x| + 6..];
      s, t := Label(rest + "label="), Label("");
      assert y == x + "label=" + rest;
      assert x + ("label=" + (rest + "label=")) == y + ("label=" + "");
    } else {
      var rest := x[|y| + 6..];
      s, t := Label(""), Label(rest + "label=");
      assert x == y + "label=" + rest;
      assert y + ("label=" + (rest + "label=")) == x + ("label=" + "");
    }
  }

  lemma IdentityInjective(v: string, l: string, s: Slot, p: Path, w: string, k: string, t: Slot, q: Path)
    requires !Confusable(v, l, w, k)
    requires IdentityText(v, l, s, p) == IdentityText(w, k, t, q)
    ensures v == w && l == k && s == t && p == q
  {
    var x, y := Prefix(v, l), Prefix(w, k);
    PathCharacters(p);
    PathCharacters(q);
    LastSeparator(x + SlotText(s), y + SlotText(t), '|', PathText(p), PathText(q));
    PathInjective(p, q);
    if |x| < |y| {
      OverlapIsLabel(x, s, y, t);
    } else if |y| < |x| {
      OverlapIsLabel(y, t, x, s);
    } else {
      assert x == (x + SlotText(s))[..|x|] && y == (y + SlotText(t))[..|y|];
      assert SlotText(s) == (x + SlotText(s))[|x|..] && SlotText(t) == (y + SlotText(t))[|y|..];
      SlotInjective(s, t);
    }
  }

  lemma NoBarEarly(s: Slot)
    ensures forall i :: 0 <= i < |SlotText(s)| && (s.SlotId? || i < 6) ==> SlotText(s)[i] != '|'
  {
    if s.SlotId? {
      assert forall c :: c in Decimal(s.id) ==> IsDigit(c);
      assert forall c :: c in "slot_id=" ==> c != '|';
    } else {
      assert forall i :: 0 <= i < 6 ==> SlotText(s)[i] == "label="[i];
    }
  }

  // Where the longer prefix reaches into the other member's slot, that slot is a label.
  lemma OverlapIsLabel(x: string, s: Slot, y: string, t: Slot)
    requires |x| < |y| && y[|y| - 1] == '|' && x + SlotText(s) == y + SlotText(t)
    ensures x + "label=" <= y
  {
    var u := SlotText(s);
    var n := Overlap(x, u, y, SlotText(t));
    NoBarEarly(s);
    assert u[n - 1] == y[|y| - 1];
    assert u[..n][..6] == "label=";
  }

  lemma Overlap(x: string, u: string, y: string, v: string) returns (n: nat)
    requires |x| < |y| && x + u == y + v
    ensures 0 < n <= |u| && n == |y| - |x| && y == x + u[..n]
  {
    n := |y| - |x|;
    assert y == (y + v)[..|y|] == (x + u)[..|y|];
  }

  // Without bars in vendors and libraries nothing is confusable.
  lemma NoBarsNotConfusable(v: string, l: string, w: string, k: string)
    requires '|' !in v && '|' !in l && '|' !in w && '|' !in k
    ensures !Confusable(v, l, w, k)
  {
    var x, y := Prefix(v, l), Prefix(w, k);
    if x <= y {
      PrefixWithoutBars(v, l, w, k, y[|x|..]);
    }
    if y <= x {
      PrefixWithoutBars(w, k, v, l, x[|y|..]);
    }
  }

  lemma PrefixWithoutBars(v: string, l: string, w: string, k: string, rest: string)
    requires '|' !in v && '|' !in l && '|' !in w && '|' !in k
    requires Prefix(v, l) + rest == Prefix(w, k)
    ensures v == w && l == k && rest == ""
  {
    assert Prefix(v, l) + rest == v + ['|'] + (l + ['|'] + rest);
    assert Prefix(w, k) == w + ['|'] + (k + ['|'] + "");
    FirstSeparator(v, w, '|', l + ['|'] + rest, k + ['|'] + "");
    FirstSeparator(l, k, '|', rest, "");
  }

  ghost predicate Unconfusable(ms: seq<FleetMember>) {
    forall i, j :: 0 <= i < j < |ms| ==>
      !Confusable(ms[i].spec.vendor, ms[i].spec.library, ms[j].spec.vendor, ms[j].spec.library)
  }

  predicate Collides(ms: seq<FleetMember>, i: nat, j: nat) {
    i < j < |ms| && Identity(ms[i]) == Identity(ms[j])
  }

  ghost predicate FirstCollision(ms: seq<FleetMember>, i: nat, j: nat) {
    && Collides(ms, i, j)
    && forall a: nat, b: nat :: a < i || (a == i && b < j) ==> !Collides(ms, a, b)
  }

  // A rejection names the first colliding pair in lexicographic order.
  method Validate(members: seq<FleetMember>) returns (r: Result<()>)
    ensures r.Ok? <==> forall i: nat, j: nat :: !Collides(members, i, j)
    ensures r.Err? ==> r.error.Degenerate? && FirstCollision(members, r.error.first, r.error.second)
  {
    for i := 0 to |members|
      invariant forall a: nat, b: nat :: a < i ==> !Collides(members, a, b)
    {
      for j := i + 1 to |members|
        invariant forall a: nat, b: nat :: a < i || (a == i && b < j) ==> !Collides(members, a, b)
      {
        if Identity(members[i]) == Identity(members[j]) {
          assert Collides(members, i, j);
          return Err(Degenerate(i, j));
        }
      }
    }
    return Ok(());
  }

  // Members that share vendor, library, slot and path always collide; in a fleet with no
  // confusable members nothing else does, so the guard rejects exactly the degenerate fleets and
  // the pair it names is a degenerate one.
  lemma CollisionMeaning(ms: seq<FleetMember>, i: nat, j: nat)
    requires i < j < |ms|
    ensures SamePlace(ms[i], ms[j]) ==> Collides(ms, i, j)
    ensures Unconfusable(ms) ==> (Collides(ms, i, j) <==> SamePlace(ms[i], ms[j]))
  {
    if Unconfusable(ms) && Collides(ms, i, j) {
      CollisionIsReal(ms[i], ms[j]);
    }
  }

  lemma CollisionIsReal(a: FleetMember, b: FleetMember)
    requires Identity(a) == Identity(b)
    requires !Confusable(a.spec.vendor, a.spec.library, b.spec.vendor, b.spec.library)
    ensures SamePlace(a, b)
  {
    IdentityInjective(a.spec.vendor, a.spec.library, a.spec.slot, a.spec.path,
                      b.spec.vendor, b.spec.library, b.spec.slot, b.spec.path);
  }
}
