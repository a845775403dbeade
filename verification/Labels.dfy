// The names EmVault gives its token objects.
module Labels {

  const PREFIX: string := "emvault.v1"

  datatype Suffix = PrivSuffix | PubSuffix | PolicySuffix | SigRateSuffix

  function SuffixText(s: Suffix): string {
    match s
    case PrivSuffix => "priv"
    case PubSuffix => "pub"
    case PolicySuffix => "policy"
    case SigRateSuffix => "sigrate"
  }

  // `{PREFIX}.{label}.{suffix}`
  function ObjectLabel(name: string, s: Suffix): string {
    PREFIX + "." + name + "." + SuffixText(s)
  }

  // The names on the token, spelled out.
  lemma LabelText(name: string)
    ensures ObjectLabel(name, PrivSuffix) == "emvault.v1." + name + ".priv"
    ensures ObjectLabel(name, PubSuffix) == "emvault.v1." + name + ".pub"
    ensures ObjectLabel(name, PolicySuffix) == "emvault.v1." + name + ".policy"
    ensures ObjectLabel(name, SigRateSuffix) == "emvault.v1." + name + ".sigrate"
    ensures MasterTemplateLabel(ObjectLabel(name, PrivSuffix)) == "emvault.v1." + name + ".priv/priv"
  {
    LabelEnds(name, PrivSuffix, ".priv");
    LabelEnds(name, PubSuffix, ".pub");
    LabelEnds(name, PolicySuffix, ".policy");
    LabelEnds(name, SigRateSuffix, ".sigrate");
    assert ".priv/priv" == ".priv" + "/priv";
  }

  lemma LabelEnds(name: string, s: Suffix, end: string)
    requires end == "." + SuffixText(s)
    ensures ObjectLabel(name, s) == "emvault.v1." + name + end
  {
    assert "emvault.v1" + "." == "emvault.v1.";
  }

  // The label `derive_master_key` stores when it is handed `given`.
  function MasterTemplateLabel(given: string): string {
    given + "/priv"
  }

  // The four namespaces are disjoint and each is injective in the label, for any labels at all:
  // dots or slashes inside a label cannot move an object into another namespace.
  lemma {:induction false} ObjectLabelInjective(a: string, s: Suffix, b: string, t: Suffix)
    requires ObjectLabel(a, s) == ObjectLabel(b, t)
    ensures a == b && s == t
  {
    var x, y := ObjectLabel(a, s), ObjectLabel(b, t);
    LastCharacter(a, s);
    LastCharacter(b, t);
    Middle(PREFIX + ".", a, "." + SuffixText(s));
    Middle(PREFIX + ".", b, "." + SuffixText(s));
    assert x == PREFIX + "." + a + ("." + SuffixText(s));
    assert y == PREFIX + "." + b + ("." + SuffixText(t));
  }

  // The last character of a name tells its namespace.
  lemma LastCharacter(a: string, s: Suffix)
    ensures var x := ObjectLabel(a, s);
            x[|x| - 1] == if s.PrivSuffix? then 'v' else if s.PubSuffix? then 'b'
                          else if s.PolicySuffix? then 'y' else 'e'
  {
  }

  lemma Middle(head: string, middle: string, tail: string)
    ensures var s := head + middle + tail;
            s[|head|..|s| - |tail|] == middle
  {
  }

  // What key creation writes is never a label the lookup asks for.
  lemma MasterLabelNeverLookedUp(a: string, b: string, s: Suffix)
    ensures MasterTemplateLabel(ObjectLabel(a, PrivSuffix)) != ObjectLabel(b, s)
  {
    var x, y := MasterTemplateLabel(ObjectLabel(a, PrivSuffix)), ObjectLabel(b, s);
    assert x[|x| - 5] == '/' && x[|x| - 1] == 'v';
    var t := "." + SuffixText(s);
    assert y == PREFIX + "." + b + t;
    assert y[|y| - |t|..] == t;
    assert y[|y| - 1] == t[|t| - 1];
    if s == PrivSuffix {
      assert y[|y| - 5] == t[0];
    }
  }
}
