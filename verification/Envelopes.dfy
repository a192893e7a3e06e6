/** The transactions `createLandingAccount` builds (lib/landing/landing.ts), as ledger transactions. */
module Envelopes {
  import opened Prelude
  import opened Ledger
  import Bridge

  /** `seqNo` is the sequence read before building; `memo` is the anchor's memo id on an off-ramp payment. */
  datatype Plan = Plan(bridge: Id, seqNo: nat, dest: Party, amount: nat, memo: nat, abortable: bool)

  predicate Proper(p: Plan) {
    p.bridge != SPONSOR && p.dest != Acct(p.bridge)
  }

  /** Drop the trustline, merge into the sponsor. */
  function MergeBack(b: Id): seq<Op> {
    [Op(b, TrustDrop), Op(b, Merge(SPONSOR))]
  }

  function ForwardTx(p: Plan): Tx {
    Tx(p.bridge, p.seqNo + 1, [Op(p.bridge, Pay(p.dest, p.amount))], p.memo)
  }

  function CleanupTx(p: Plan): Tx {
    Tx(p.bridge, p.seqNo + 2, MergeBack(p.bridge), 0)
  }

  function AbortTx(p: Plan): Tx {
    Tx(p.bridge, p.seqNo + 1, MergeBack(p.bridge), 0)
  }

  function TxOf(p: Plan, k: Bridge.Kind): Tx {
    match k case Forward => ForwardTx(p) case Abort => AbortTx(p) case Cleanup => CleanupTx(p)
  }

  function CreateTx(b: Id, sponsorSeq: nat): Tx {
    Tx(SPONSOR, sponsorSeq + 1,
       [Op(SPONSOR, BeginSponsor(b)), Op(SPONSOR, Create(b)), Op(b, TrustAdd), Op(b, EndSponsor)], 0)
  }

  function UndoTx(b: Id, sponsorSeq: nat): Tx {
    Tx(SPONSOR, sponsorSeq + 1, MergeBack(b), 0)
  }

  /** The last two operations: master weight 1, every threshold 2, and the sponsorship closed. */
  function LockTail(b: Id): seq<Op> {
    [Op(b, SetWeights(1, 2, 2, 2))] + ([Op(b, EndSponsor)] + [])
  }

  function LockOps(p: Plan): seq<Op> {
    var abort := if p.abortable then [Op(p.bridge, SetSigner(AbortTx(p), 1))] + LockTail(p.bridge)
        else LockTail(p.bridge);
    [Op(SPONSOR, BeginSponsor(p.bridge))]
    + ([Op(p.bridge, SetSigner(ForwardTx(p), 1))]
       + ([Op(p.bridge, SetSigner(CleanupTx(p), 1))] + abort))
  }

  function LockTx(p: Plan, sponsorSeq: nat): Tx {
    Tx(SPONSOR, sponsorSeq + 1, LockOps(p), 0)
  }
}
