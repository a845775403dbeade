// The HSM-resident policy and its check against an unsigned transaction.
module Policy {
  import opened Results

  datatype Network = Bitcoin | Testnet | Signet | Regtest

  type Script = seq<byte>

  // An address of a whitelist entry, with the networks it is valid on.
  datatype Address = Address(script: Script, networks: set<Network>)

  datatype HsmPolicy = HsmPolicy(
    perTransactionLimit: Option<u64>,
    maxSignaturesPerHour: Option<u32>,
    destinationWhitelist: Option<seq<Address>>)

  const PERMISSIVE := HsmPolicy(None, None, None)

  datatype TxOut = TxOut(value: u64, script: Script)

  // `body` stands for everything but the outputs.
  datatype UnsignedTx = UnsignedTx(body: seq<byte>, outputs: seq<TxOut>)

  const AMOUNT_MAX: nat := 0xFFFF_FFFF_FFFF_FFFF

  function Total(outs: seq<TxOut>): nat {
    if outs == [] then 0 else Total(outs[..|outs| - 1]) + outs[|outs| - 1].value
  }

  // The amounts add up: one output is worth its value, and outputs together what their parts are.
  lemma {:induction false} TotalIsSum(a: seq<TxOut>, b: seq<TxOut>, o: TxOut)
    ensures Total([]) == 0 && Total([o]) == o.value && Total(a + b) == Total(a) + Total(b)
    decreases |b|
  {
    assert [o][..0] == [];
    if b == [] {
      assert a + b == a;
    } else {
      TotalIsSum(a, b[..|b| - 1], o);
      assert (a + b)[..|a + b| - 1] == a + b[..|b| - 1];
    }
  }

  predicate Listed(whitelist: seq<Address>, s: Script) {
    exists i :: 0 <= i < |whitelist| && whitelist[i].script == s
  }

  // What the policy promises about a transaction it lets through.
  predicate Permits(p: HsmPolicy, tx: UnsignedTx, network: Network) {
    && (p.perTransactionLimit.Some? ==> Total(tx.outputs) <= p.perTransactionLimit.value)
    && (p.destinationWhitelist.Some? ==>
          var w := p.destinationWhitelist.value;
          && (forall i :: 0 <= i < |w| ==> network in w[i].networks)
          && (forall i :: 0 <= i < |tx.outputs| ==> Listed(w, tx.outputs[i].script)))
  }

  // The verdict, with the rule that decides a rejection.
  function Verdict(p: HsmPolicy, tx: UnsignedTx, network: Network): (r: Result<()>)
    ensures r.Ok? <==> Permits(p, tx, network)
  {
    if p.perTransactionLimit.Some? && Total(tx.outputs) > AMOUNT_MAX then Err(AmountPanic)
    else if p.perTransactionLimit.Some? && Total(tx.outputs) > p.perTransactionLimit.value then Err(PolicyViolation)
    else if p.destinationWhitelist.None? then Ok(())
    else
      var w := p.destinationWhitelist.value;
      if exists i :: 0 <= i < |w| && network !in w[i].networks then Err(OffNetwork)
      else if exists i :: 0 <= i < |tx.outputs| && !Listed(w, tx.outputs[i].script) then Err(PolicyViolation)
      else Ok(())
  }

  lemma {:induction false} TotalPrefix(outs: seq<TxOut>, k: nat)
    requires k <= |outs|
    ensures Total(outs[..k]) <= Total(outs)
    decreases |outs|
  {
    if k == |outs| {
      assert outs[..k] == outs;
    } else {
      TotalPrefix(outs[..|outs| - 1], k);
      assert outs[..|outs| - 1][..k] == outs[..k];
    }
  }

  // `check_against_psbt`: the amounts are folded with an addition that panics past the amount
  // type, the whitelist is bound to the network entry by entry, and each output is looked up.
  method CheckAgainstPsbt(p: HsmPolicy, tx: UnsignedTx, network: Network) returns (r: Result<()>)
    ensures r == Verdict(p, tx, network)
  {
    if p.perTransactionLimit.Some? {
      var total: nat := 0;
      for k := 0 to |tx.outputs|
        invariant total == Total(tx.outputs[..k]) && total <= AMOUNT_MAX
      {
        total := total + tx.outputs[k].value;
        assert tx.outputs[..k + 1][..k] == tx.outputs[..k];
        if total > AMOUNT_MAX {
          TotalPrefix(tx.outputs, k + 1);
          return Err(AmountPanic);
        }
      }
      assert tx.outputs[..|tx.outputs|] == tx.outputs;
      if total > p.perTransactionLimit.value {
        return Err(PolicyViolation);
      }
    }
    if p.destinationWhitelist.Some? {
      var w := p.destinationWhitelist.value;
      var allowed: seq<Script> := [];
      for k := 0 to |w|
        invariant |allowed| == k
        invariant forall j :: 0 <= j < k ==> network in w[j].networks && allowed[j] == w[j].script
      {
        if network !in w[k].networks {
          return Err(OffNetwork);
        }
        allowed := allowed + [w[k].script];
      }
      for k := 0 to |tx.outputs|
        invariant forall j :: 0 <= j < k ==> Listed(w, tx.outputs[j].script)
      {
        if tx.outputs[k].script !in allowed {
          return Err(PolicyViolation);
        }
      }
    }
    return Ok(());
  }
}
