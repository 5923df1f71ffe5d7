/** Values that several packages exchange: coinbase output snapshots, dust entries and
    PPLNS members, plus the usual Option and Result datatypes. */
module Shared {

  datatype Option<+T> = None | Some(value: T)

  datatype Result<+T> = Success(value: T) | Failure(error: string)

  datatype OutputKind = Member | OperatorFee | PlatformFee | DustBucket

  /** One coinbase output: who is paid, how much, and why.  `pubkey` is set on member outputs only. */
  datatype CoinbaseOutput = CoinbaseOutput(address: string, sats: nat, kind: OutputKind, pubkey: Option<string>)

  /** A sub-threshold member and the sats owed to them out of the dust bucket. */
  datatype DustEntry = DustEntry(pubkey: string, owed: nat)

  datatype PplnsMember = PplnsMember(pubkey: string, address: string, weight: int)

  function SumSats(outs: seq<CoinbaseOutput>): nat {
    if outs == [] then 0 else outs[0].sats + SumSats(outs[1..])
  }

  function SumOwed(entries: seq<DustEntry>): nat {
    if entries == [] then 0 else entries[0].owed + SumOwed(entries[1..])
  }

  lemma SumSatsConcat(a: seq<CoinbaseOutput>, b: seq<CoinbaseOutput>)
    ensures SumSats(a + b) == SumSats(a) + SumSats(b)
  {
    if a == [] {
      assert a + b == b;
    } else {
      assert (a + b)[1..] == a[1..] + b;
    }
  }

  lemma SumOwedConcat(a: seq<DustEntry>, b: seq<DustEntry>)
    ensures SumOwed(a + b) == SumOwed(a) + SumOwed(b)
  {
    if a == [] {
      assert a + b == b;
    } else {
      assert (a + b)[1..] == a[1..] + b;
    }
  }

  lemma {:induction false} ConcatAssociative<T>(a: seq<T>, b: seq<T>, c: seq<T>)
    ensures (a + b) + c == a + (b + c)
  {}

  lemma {:induction false} ConsTail<T>(s: seq<T>)
    requires s != []
    ensures [s[0]] + s[1..] == s
  {}
}
