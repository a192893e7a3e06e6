/**
 lib/landing/landing.ts: submitting, retrying and building a landing account against a ledger that
 everybody else keeps using. The RPC is truthful but may lose sight of transactions and may fail at
 any call; `Interfere` lets the world take any number of steps.
 */
module Landing {
  import opened Prelude
  import opened Ledger
  import opened Envelopes
  import opened Replay
  import opened Authority
  import opened Setup

  datatype SendStatus = Pending | BadSeq | Rejected

  datatype PollStatus = Success | Failed | NotFound

  /** `badSeq` is what /txBadSeq/ finds in the message: only a first send that was refused says so. */
  datatype LandingError = SubmitFailed(badSeq: bool) | SimulationFailed | Unreachable | HookRefused | KindMissing

  datatype Kind = Onramp(contract: nat, amount: nat) | Offramp(treasury: Id, memoId: nat, amount: nat)

  function PlanFor(key: Id, seqNo: nat, kind: Kind, abortable: bool): Plan {
    match kind
    case Onramp(c, amount) => Plan(key, seqNo, Contract(c), amount, 0, abortable)
    case Offramp(t, m, amount) => Plan(key, seqNo, Acct(t), amount, m, abortable)
  }

  predicate ProperKind(key: Id, kind: Kind) {
    kind.Offramp? ==> kind.treasury != key
  }

  /**
   What the anchor conversation does with the key: the sequences of the transactions it asks to sign, and its
   answer.
   */
  datatype Hook = Hook(challenges: seq<nat>, answer: Option<Kind>)

  /** The landing key's secret material. */
  class Keypair {
    const secretKey: array<nat>
    const secretSeed: array<nat>

    constructor (secretKey: array<nat>, secretSeed: array<nat>)
      ensures this.secretKey == secretKey && this.secretSeed == secretSeed
    {
      this.secretKey, this.secretSeed := secretKey, secretSeed;
    }

    ghost predicate Wiped()
      reads secretKey, secretSeed
    {
      && (forall i | 0 <= i < secretKey.Length :: secretKey[i] == 0)
      && (forall i | 0 <= i < secretSeed.Length :: secretSeed[i] == 0)
    }

    method Wipe()
      modifies secretKey, secretSeed
      ensures Wiped()
    {
      Fill(secretKey);
      Fill(secretSeed);
    }

    static method Fill(buffer: array<nat>)
      modifies buffer
      ensures forall i | 0 <= i < buffer.Length :: buffer[i] == 0
    {
      for i := 0 to buffer.Length
        invariant forall j | 0 <= j < i :: buffer[j] == 0
      {
        buffer[i] := 0;
      }
    }
  }

  // --- what was asked and answered --------------------------------------------------------------

  /** One call of the network and its answer. */
  datatype Note =
    | Sent(tx: Tx, status: SendStatus)
    | Relayed(envelope: Tx, accepted: bool)
    | Polled(hash: Tx, found: PollStatus)
    | Read(account: Id, there: bool)
    | Simulated(ok: bool)

  predicate Bad(n: Note) {
    match n
    case Sent(_, status) => !status.Pending?
    case Relayed(_, accepted) => !accepted
    case Polled(_, found) => !found.Success?
    case Read(_, there) => !there
    case Simulated(ok) => !ok
  }

  /** Something was answered in the negative since. */
  ghost predicate Trouble(before: seq<Note>, journal: seq<Note>) {
    before <= journal && exists i | |before| <= i < |journal| :: Bad(journal[i])
  }

  lemma TroubleGrows(a: seq<Note>, b: seq<Note>, c: seq<Note>)
    requires a <= b <= c && (Trouble(a, b) || Trouble(b, c))
    ensures Trouble(a, c)
  {
    if Trouble(a, b) {
      var i :| |a| <= i < |b| && Bad(b[i]);
      assert Bad(c[i]);
    }
  }

  ghost predicate Tells(before: seq<Note>, journal: seq<Note>, n: Note) {
    before <= journal && exists i | |before| <= i < |journal| :: journal[i] == n
  }

  /** Two broadcasts of it were accepted, one after the other. */
  ghost predicate SentTwice(before: seq<Note>, journal: seq<Note>, tx: Tx) {
    exists i, j | |before| <= i < j < |journal| :: journal[i] == Sent(tx, Pending) && journal[j] == Sent(tx, Pending)
  }

  /** Neither its success nor the account was seen since. */
  ghost predicate Unseen(before: seq<Note>, journal: seq<Note>, tx: Tx, key: Id) {
    before <= journal
    && forall i | |before| <= i < |journal| :: journal[i] != Polled(tx, Success) && journal[i] != Read(key, true)
  }

  lemma UnseenTwice(a: seq<Note>, b: seq<Note>, c: seq<Note>, tx: Tx, key: Id)
    requires Unseen(a, b, tx, key) && Unseen(b, c, tx, key)
    ensures Unseen(a, c, tx, key)
  {
  }

  /** A submission ends in failure only by a refusal, an included failure, or two broadcasts that were lost sight of. */
  ghost predicate GaveUp(before: seq<Note>, journal: seq<Note>, tx: Tx) {
    || Tells(before, journal, Sent(tx, BadSeq)) || Tells(before, journal, Sent(tx, Rejected))
    || Tells(before, journal, Polled(tx, Failed))
    || SentTwice(before, journal, tx)
  }

  class Network {
    var ledger: State
    /** Transactions acting for the landing account that were handed to the network. */
    var sent: set<Tx>
    const key: Id
    ghost var journal: seq<Note>

    constructor (ledger: State, key: Id)
      ensures this.ledger == ledger && this.key == key && sent == {} && journal == []
    {
      this.ledger, this.key, sent, journal := ledger, key, {}, [];
    }

    /**
     The world goes on. Before the plan is returned it is limited to what was broadcast for the account; after
     that to nothing.
     */
    method Interfere(ghost limited: bool := true) returns (ghost steps: seq<Step>)
      modifies `ledger
      ensures limited ==> World(steps, key, sent)
      ensures ledger == Run(old(ledger), steps)
    {
      steps := [];
    }

    method GetAccount(i: Id) returns (seqNo: Option<nat>)
      modifies `journal
      ensures journal == old(journal) + [Read(i, seqNo.Some?)]
      ensures seqNo.Some? ==> Exists(ledger, i) && seqNo.value == ledger.accts[i].value.seqNo
    {
      var up: bool := *;
      seqNo := if up && Exists(ledger, i) then Some(ledger.accts[i].value.seqNo) else None;
      journal := journal + [Read(i, seqNo.Some?)];
    }

    /** The footprint simulation of an on-ramp forward. */
    method Simulate() returns (ok: bool)
      modifies `journal
      ensures journal == old(journal) + [Simulated(ok)]
    {
      ok := *;
      journal := journal + [Simulated(ok)];
    }

    /** The relay takes the envelope and broadcasts it, or refuses to fee-bump it. */
    method SendXdr(envelope: Tx) returns (accepted: bool)
      modifies `sent, `journal
      ensures sent == old(sent) + {envelope} && journal == old(journal) + [Relayed(envelope, accepted)]
    {
      accepted := *;
      sent := sent + {envelope};
      journal := journal + [Relayed(envelope, accepted)];
    }

    /** Pre-flight checks and broadcast; inclusion is up to the network. */
    method SendTransaction(tx: Tx) returns (r: SendStatus)
      modifies `sent, `journal
      ensures sent == old(sent) + {tx} && journal == old(journal) + [Sent(tx, r)]
      ensures r.BadSeq? ==> Exists(ledger, tx.source) && !SeqOk(ledger, tx)
    {
      sent := sent + {tx};
      var refused: bool := *;
      if refused {
        r := if Exists(ledger, tx.source) && !SeqOk(ledger, tx) then BadSeq else Rejected;
      } else {
        r := Pending;
      }
      journal := journal + [Sent(tx, r)];
    }

    method PollTransaction(tx: Tx) returns (r: PollStatus)
      modifies `journal
      ensures journal == old(journal) + [Polled(tx, r)]
      ensures r.Success? ==> Applied(tx, true) in ledger.log
      ensures r.Failed? ==> Applied(tx, false) in ledger.log
    {
      var seen: bool := *;
      r := if seen && Applied(tx, true) in ledger.log then Success
           else if seen && Applied(tx, false) in ledger.log then Failed
           else NotFound;
      journal := journal + [Polled(tx, r)];
    }

    /**
     Send, wait, look at the world when the RPC lost sight of it, re-broadcast once. `landed` tells
     whether the caller passed the check "does the account exist".
     */
    method Submit(tx: Tx, landed: bool, ghost limited: bool := true)
        returns (r: Result<Tx, LandingError>, ghost steps: seq<Step>)
      modifies this
      ensures sent == old(sent) + {tx} && ledger == Run(old(ledger), steps)
      ensures limited ==> World(steps, key, sent)
      ensures r.Ok? ==> r.value == tx && (Applied(tx, true) in ledger.log || (landed && Exists(ledger, key)))
      ensures r.Err? ==> r.error.SubmitFailed?
      ensures r.Err? && r.error.badSeq ==> ledger == old(ledger) && Exists(ledger, tx.source) && !SeqOk(ledger, tx)
      ensures old(journal) < journal && journal[|old(journal)|] in {Sent(tx, Pending), Sent(tx, BadSeq),
          Sent(tx, Rejected)}
      ensures r.Err? ==> GaveUp(old(journal), journal, tx) && Trouble(old(journal), journal)
      ensures r.Err? && r.error.badSeq <==> journal[|old(journal)|] == Sent(tx, BadSeq)
      ensures r.Err? ==> Unseen(old(journal), journal, tx, key)
    {
      ghost var told := journal;
      var status, polled;
      status, polled, steps := SendAndWait(tx, limited);
      if status != Pending { return Err(SubmitFailed(status == BadSeq)), steps; }
      if polled.Success? { return Ok(tx), steps; }
      if polled.NotFound? {
        if landed {
          var there := GetAccount(key);
          if there.Some? { return Ok(tx), steps; }
        }
        ghost var sofar, first := journal, steps;
        r, steps := Resend(tx, landed, limited);
        Twice(told, sofar, journal, tx);
        if r.Err? { UnseenTwice(told, sofar, journal, tx, key); }
        RunAppend(old(ledger), first, steps);
        steps := first + steps;
        return;
      }
      assert Bad(journal[|told| + 1]);
      return Err(SubmitFailed(false)), steps;
    }

    /** One broadcast, and the wait for it when it was accepted. */
    method SendAndWait(tx: Tx, ghost limited: bool) returns (status: SendStatus, polled: PollStatus, ghost steps: seq<Step>)
      modifies this
      ensures sent == old(sent) + {tx} && ledger == Run(old(ledger), steps)
      ensures limited ==> World(steps, key, sent)
      ensures journal ==
              old(journal) + [Sent(tx, status)] + (if status == Pending then [Polled(tx, polled)] else [])
      ensures status != Pending ==> ledger == old(ledger) && polled == NotFound
      ensures status == BadSeq ==> Exists(ledger, tx.source) && !SeqOk(ledger, tx)
      ensures polled.Success? ==> Applied(tx, true) in ledger.log
    {
      steps, polled := [], NotFound;
      status := SendTransaction(tx);
      if status == Pending {
        steps := Interfere(limited);
        polled := PollTransaction(tx);
      }
    }

    /**
     The re-broadcast of what was lost sight of, and did not show on the ledger: the same envelope, so it lands
     once or comes back as a duplicate.
     */
    method Resend(tx: Tx, landed: bool, ghost limited: bool)
        returns (r: Result<Tx, LandingError>, ghost steps: seq<Step>)
      requires landed ==> journal != [] && journal[|journal| - 1] == Read(key, false)
      modifies this
      ensures sent == old(sent) + {tx} && ledger == Run(old(ledger), steps)
      ensures limited ==> World(steps, key, sent)
      ensures r.Ok? ==> r.value == tx && (Applied(tx, true) in ledger.log || (landed && Exists(ledger, key)))
      ensures r.Err? ==> r.error == SubmitFailed(false)
      ensures old(journal) < journal
      ensures r.Err? ==> Unseen(old(journal), journal, tx, key)
      ensures journal[|old(journal)|] in {Sent(tx, Pending), Sent(tx, BadSeq), Sent(tx, Rejected)}
    {
      var again, polled;
      again, polled, steps := SendAndWait(tx, limited);
      if polled.Success? { return Ok(tx), steps; }
      if again == Pending && landed {
        var there := GetAccount(key);
        if there.Some? { return Ok(tx), steps; }
      }
      return Err(SubmitFailed(false)), steps;
    }

    /**
     Build against the sponsor's current sequence, rebuild on a first-send txBadSeq, three times at
     most. Of everything broadcast only the last can ever be in the ledger, now or later.
     */
    method SubmitSponsored(build: nat -> Tx, landed: bool)
      returns (r: Result<Tx, LandingError>, ghost steps: seq<Step>, ghost last: Tx)
      requires Builds(build, key) && NoneOf(build, sent, ledger)
      requires key != SPONSOR && key < |ledger.accts| && Shut(ledger, key) && Setups(sent, key)
      modifies this
      ensures World(steps, key, sent) && ledger == Run(old(ledger), steps)
      ensures old(sent) <= sent && Built(sent - old(sent), build)
      ensures forall tx <- sent - old(sent) :: tx == last || Dead(ledger, tx)
      ensures r.Ok? ==> r.value == last && last in sent - old(sent)
                        && (Applied(last, true) in ledger.log || (landed && Exists(ledger, key)))
      ensures old(journal) <= journal
      ensures r.Err? ==> Reason(r.error, old(journal), journal, last, sent - old(sent))
    {
      steps := [];
      last := build(0);
      var attempt := 1;
      assert sent - old(sent) == {};
      while true
        invariant 1 <= attempt <= 3
        invariant old(journal) <= journal && |sent - old(sent)| == attempt - 1
        invariant World(steps, key, sent) && ledger == Run(old(ledger), steps)
        invariant old(sent) <= sent && Built(sent - old(sent), build) && AllDead(ledger, sent - old(sent))
        invariant Setups(sent, key)
        decreases 3 - attempt
      {
        ghost var tried, told := sent, journal;
        ghost var more, tx;
        r, more, tx := Attempt(build, landed, old(sent), old(ledger), steps);
        Goes(old(ledger), steps, more, key, tried, sent, tried - old(sent));
        steps := steps + more;
        last := tx;
        if r.Err? { Later(old(journal), told, journal, tx); }
        if r.Ok? || !r.error.SubmitFailed? || !r.error.badSeq || attempt == 3 { break; }
        attempt := attempt + 1;
      }
    }

    /**
     One round: read the sponsor's sequence, build, submit. A bad sequence at the first broadcast means that the
     build never entered and never will.
     */
    method Attempt(build: nat -> Tx, landed: bool, ghost sent0: set<Tx>, ghost start: State, ghost before: seq<Step>)
      returns (r: Result<Tx, LandingError>, ghost steps: seq<Step>, ghost tx: Tx)
      requires Builds(build, key) && NoneOf(build, sent0, start)
      requires sent0 <= sent && Built(sent - sent0, build) && AllDead(ledger, sent - sent0)
      requires key != SPONSOR && key < |start.accts| && Shut(start, key) && Setups(sent, key)
      requires World(before, key, sent) && ledger == Run(start, before)
      modifies this
      ensures World(steps, key, sent) && ledger == Run(old(ledger), steps) && Setups(sent, key)
      ensures old(sent) <= sent && Built(sent - sent0, build) && AllDead(ledger, old(sent) - sent0)
      ensures sent == old(sent) || (tx !in old(sent) && sent == old(sent) + {tx})
      ensures r.Ok? ==> r.value == tx && tx !in old(sent) && tx in sent
                        && (Applied(tx, true) in ledger.log || (landed && Exists(ledger, key)))
      ensures old(journal) <= journal
      ensures r.Err? ==> Trouble(old(journal), journal)
      ensures r.Err? ==>
                || (r.error.Unreachable? && Tells(old(journal), journal, Read(SPONSOR, false)))
                || (r.error.SubmitFailed? && tx in sent && GaveUp(old(journal), journal, tx))
      ensures r.Err? && r.error.SubmitFailed? && r.error.badSeq ==> tx !in old(sent) && Dead(ledger, tx)
    {
      tx := build(0);
      steps := Interfere();
      Goes(start, before, steps, key, sent, sent, sent - sent0);
      var seqNo := GetAccount(SPONSOR);
      assert journal[|journal| - 1] == Read(SPONSOR, seqNo.Some?);
      if seqNo.None? { return Err(Unreachable), steps, tx; }
      var built := build(seqNo.value);
      tx := built;
      FreshSlot(ledger, sent - sent0, tx);
      UnsentNeverEnters(start, before + steps, key, sent, tx);
      WorldKeepsShut(start, before + steps, key, sent);
      BuiltMore(sent - sent0, build, seqNo.value);
      assert sent + {tx} - sent0 == (sent - sent0) + {tx};
      ghost var tried, told := sent, journal;
      ghost var more;
      r, more := Broadcast(built, landed);
      Goes(old(ledger), steps, more, key, tried, sent, tried - sent0);
      steps := steps + more;
      if r.Err? { Retold(old(journal), told, journal, tx); }
    }

    /** One build, submitted. */
    method Broadcast(tx: Tx, landed: bool) returns (r: Result<Tx, LandingError>, ghost steps: seq<Step>)
      requires tx.source == SPONSOR && tx.seqNo == Floor(ledger, SPONSOR) + 1 && PartyTo(tx, key) && tx !in sent
      requires key != SPONSOR && key < |ledger.accts| && Shut(ledger, key) && Setups(sent, key)
          && tx !in Entered(ledger.log)
      requires Exists(ledger, SPONSOR) && IsSetup(tx, key)
      modifies this
      ensures sent == old(sent) + {tx} && World(steps, key, sent) && ledger == Run(old(ledger), steps)
          && Setups(sent, key)
      ensures r.Ok? ==> r.value == tx && (Applied(tx, true) in ledger.log || (landed && Exists(ledger, key)))
      ensures r.Err? ==> r.error.SubmitFailed? && (r.error.badSeq ==> Dead(ledger, tx))
      ensures old(journal) <= journal
      ensures r.Err? ==> GaveUp(old(journal), journal, tx) && Trouble(old(journal), journal)
    {
      steps := Interfere();
      UnsentNeverEnters(old(ledger), steps, key, sent, tx);
      RunAdvances(old(ledger), steps);
      assert Floor(old(ledger), SPONSOR) <= Floor(ledger, SPONSOR);
      ghost var more;
      ghost var tried := sent;
      r, more := Submit(tx, landed);
      Goes(old(ledger), steps, more, key, tried, sent, {});
      steps := steps + more;
    }

    /**
     A pre-authorized envelope: through the relay first, directly when the relay refuses it. Reported
     success means that this envelope applied; a lost reply is reported as a failure whatever happened.
     The hash the relay returns is that of the envelope it was given.
     */
    method SubmitPreauthorized(envelope: Tx) returns (r: Result<Tx, LandingError>, ghost steps: seq<Step>)
      modifies this
      ensures sent == old(sent) + {envelope} && ledger == Run(old(ledger), steps)
      ensures r.Ok? ==> r.value == envelope && Applied(envelope, true) in ledger.log
      ensures r.Err? ==> r.error.SubmitFailed?
      ensures |journal| > |old(journal)| + 1 && old(journal) <= journal
      ensures var (asked, next) := (journal[|old(journal)|], journal[|old(journal)| + 1]);
              && asked in {Relayed(envelope, true), Relayed(envelope, false)}
              && (if asked.accepted then next.Polled? && next.hash == envelope && (r.Ok? <==> next.found.Success?)
                  else next.Sent? && next.tx == envelope && (r.Err? ==> GaveUp(old(journal), journal, envelope)))
    {
      var accepted := SendXdr(envelope);
      if accepted {
        steps := Interfere(false);
        var polled := PollTransaction(envelope);
        return if polled.Success? then Ok(envelope) else Err(SubmitFailed(false)), steps;
      }
      r, steps := Submit(envelope, false, false);
    }

    /**
     The anchor conversation before the lock. The key signs sequence-0 challenges only: anything else
     is refused, and the refusal ends the conversation.
     */
    method BeforeLock(hook: Hook) returns (kind: Option<Kind>, challengesSigned: nat, ghost steps: seq<Step>)
      modifies `ledger
      ensures World(steps, key, sent) && ledger == Run(old(ledger), steps)
      ensures challengesSigned <= |hook.challenges| && forall i | 0 <= i < challengesSigned :: hook.challenges[i] == 0
      ensures challengesSigned < |hook.challenges| ==> hook.challenges[challengesSigned] != 0 && kind.None?
      ensures challengesSigned == |hook.challenges| ==> kind == hook.answer
    {
      kind, challengesSigned := None, 0;
      steps := Interfere();
      while challengesSigned < |hook.challenges|
        invariant challengesSigned <= |hook.challenges| && forall i | 0 <= i < challengesSigned ::
            hook.challenges[i] == 0
      {
        if hook.challenges[challengesSigned] != 0 { return; }
        challengesSigned := challengesSigned + 1;
      }
      kind := hook.answer;
    }

    /** Step A: the sponsored creation. Whatever comes of it, the account is missing, or as created. */
    method CreateBridge() returns (r: Result<Tx, LandingError>, ghost steps: seq<Step>)
      requires Untouchable(ledger, key) && sent == {}
      modifies this
      ensures World(steps, key, sent) && ledger == Run(old(ledger), steps)
      ensures CreatesOnly(sent, key) && PreLock(ledger, key) && |ledger.accts| == |old(ledger).accts|
      ensures old(journal) <= journal
      ensures r.Err? ==> Trouble(old(journal), journal) && (r.error.SubmitFailed? || r.error.Unreachable?)
      ensures r.Ok? ==> Exists(ledger, key)
    {
      NothingActedYet(ledger, key);
      forall n: nat ensures PartyTo(CreateTx(key, n), key) && IsSetup(CreateTx(key, n), key) {
        assert CreateTx(key, n).ops[2].src == key;
      }
      var build := (n: nat) => CreateTx(key, n);
      ghost var last;
      r, steps, last := SubmitSponsored(build, true);
      assert CreatesOnly(sent, key) by {
        assert sent - {} == sent;
        forall tx <- sent ensures exists n: nat :: tx == CreateTx(key, n) {
          var n: nat :| tx == build(n);
          assert tx == CreateTx(key, n);
        }
      }
      WorldKeepsPreLock(old(ledger), steps, key, sent);
    }

    /**
     Step C: the lock. From an account that waits for it, reported success means that it is locked and nothing
     has used it since, with the trustline if it had one.
     */
    method LockBridge(p: Plan) returns (r: Result<Tx, LandingError>, ghost steps: seq<Step>)
      requires Proper(p) && p.bridge == key && CreatesOnly(sent, key)
      requires key < |ledger.accts| && Shut(ledger, key)
      requires forall n: nat :: LockTx(p, n) !in Entered(ledger.log)
      modifies this
      ensures World(steps, key, sent) && ledger == Run(old(ledger), steps)
      ensures old(sent) <= sent && SetupOnly(sent, p)
      ensures Unlocked(old(ledger), p) ==> Locking(ledger, p) && SameOrigin(old(ledger), ledger, key)
      ensures r.Ok? && Unlocked(old(ledger), p) ==> Locked(ledger, p)
      ensures old(journal) <= journal
      ensures r.Err? ==> Trouble(old(journal), journal) && (r.error.SubmitFailed? || r.error.Unreachable?)
    {
      CreatesAreSetups(sent, key);
      forall n: nat ensures PartyTo(LockTx(p, n), key) && LockTx(p, n) !in sent && IsSetup(LockTx(p, n), key) {
        assert LockTx(p, n).ops[1].src == key;
        LockIsNoCreate(p, n, sent);
      }
      var build := (n: nat) => LockTx(p, n);
      ghost var last;
      r, steps, last := SubmitSponsored(build, false);
      assert SetupOnly(sent, p) by {
        forall tx <- sent ensures exists n: nat :: tx == CreateTx(key, n) || tx == LockTx(p, n) {
          if tx in old(sent) {
            var n: nat :| tx == CreateTx(key, n);
          } else {
            assert tx in sent - old(sent);
            var n: nat :| tx == build(n);
            assert tx == LockTx(p, n);
          }
        }
      }
      if Unlocked(old(ledger), p) {
        WorldKeepsLocking(old(ledger), steps, p, sent);
      }
    }

    /** The anchor refused before anything was locked: try to merge the account back; never fails the caller. */
    method Undo() returns (undone: bool)
      modifies this
      ensures undone ==> exists n: nat :: Applied(UndoTx(key, n), true) in ledger.log
      ensures forall tx <- sent - old(sent) :: exists n: nat :: tx == UndoTx(key, n)
      ensures UndoTried(old(journal), journal, key) && (!undone ==> Trouble(old(journal), journal))
    {
      var sponsorSeq := GetAccount(SPONSOR);
      ghost var told := journal;
      assert journal[|old(journal)|] == Read(SPONSOR, sponsorSeq.Some?);
      if sponsorSeq.None? { return false; }
      var merged, steps := Submit(UndoTx(key, sponsorSeq.value), false);
      assert journal[|told|].Sent? && journal[|told|].tx == UndoTx(key, sponsorSeq.value);
      if merged.Err? { TroubleGrows(old(journal), told, journal); }
      return merged.Ok?;
    }

    /** The sequence read, the envelopes for it, the lock. */
    method BuildAndLock(kind: Kind, abortable: bool, ghost start: State, ghost before: seq<Step>)
      returns (r: Result<Plan, LandingError>, ghost after: seq<Step>)
      requires Untouchable(start, key) && World(before, key, sent) && ledger == Run(start, before)
      requires CreatesOnly(sent, key) && PreLock(ledger, key) && |ledger.accts| == |start.accts|
          && ProperKind(key, kind)
      modifies this
      ensures old(sent) <= sent && World(after, key, sent) && ledger == Run(old(ledger), after)
      ensures old(journal) <= journal
      ensures r.Ok? ==>
                Exists(old(ledger), key) && Ready(ledger, key, old(ledger).accts[key].value.seqNo, kind,
                    abortable, sent)
      ensures r.Ok? ==> r.value == PlanFor(key, old(ledger).accts[key].value.seqNo, kind, abortable)
      ensures r.Ok? && kind.Onramp? ==> Tells(old(journal), journal, Simulated(true))
      ensures r.Err? ==> Trouble(old(journal), journal) && !r.error.HookRefused?
      ensures r.Err? ==> CreatesOnly(sent, key) || exists p :: LockFailed(ledger, p, key, sent)
    {
      after := [];
      var seqNo := GetAccount(key);
      assert journal[|journal| - 1] == Read(key, seqNo.Some?);
      if seqNo.None? { return Err(Unreachable), []; }
      if kind.Onramp? {
        var simulated := Simulate();
        assert journal[|journal| - 1] == Simulated(simulated);
        if !simulated { return Err(SimulationFailed), []; }
        assert Tells(old(journal), journal, Simulated(true));
      }
      var p := PlanFor(key, seqNo.value, kind, abortable);
      ghost var creates, asked := sent, journal;
      NoLockYet(start, ledger, before, p, creates);
      var locked, locking := LockBridge(p);
      after := locking;
      if kind.Onramp? { StillTold(old(journal), asked, journal, Simulated(true)); }
      assert Locking(ledger, p);
      if locked.Err? {
        TroubleGrows(old(journal), asked, journal);
        assert LockFailed(ledger, p, key, sent);
        return Err(locked.error), after;
      }
      Goes(start, before, locking, key, creates, sent, {});
      EnvelopesUnused(start, ledger, before + locking, p, sent);
      LockedMeansPreauthorized(ledger, key, seqNo.value, kind, abortable);
      return Ok(p), after;
    }

    /** The creation and the anchor conversation, which ends in what the envelopes are for. */
    method Prepare(known: Option<Kind>, hook: Option<Hook>) returns (r: Result<Kind, LandingError>,
        ghost steps: seq<Step>)
      requires Untouchable(ledger, key) && sent == {}
      modifies this
      ensures old(journal) <= journal
      ensures r.Ok? ==> Asked(known, hook) == Some(r.value) && !Refuses(hook)
      ensures r.Ok? ==> CreatesOnly(sent, key) && PreLock(ledger, key) && |ledger.accts| == |old(ledger).accts|
                        && World(steps, key, sent) && ledger == Run(old(ledger), steps)
      ensures r.Err? ==> CreatesOrUndo(sent, key)
      ensures r.Err? ==> Trouble(old(journal), journal) || Refuses(hook) || (hook.None? && known.None?)
      ensures Refuses(hook) ==> r == Err(HookRefused) || Trouble(old(journal), journal)
      ensures r == Err(HookRefused) ==> Refuses(hook) && UndoTried(old(journal), journal, key)
    {
      ghost var start, told := ledger, journal;
      var created;
      created, steps := CreateBridge();
      if created.Err? { return Err(created.error), steps; }
      var kind := known;
      if hook.Some? {
        ghost var made := ledger;
        ghost var talk;
        var signed;
        kind, signed, talk := BeforeLock(hook.value);
        WorldKeepsPreLock(made, talk, key, sent);
        RunAppend(start, steps, talk);
        steps := steps + talk;
        if kind.None? {
          ghost var creates := sent;
          var undone := Undo();
          UndoAdds(creates, sent, key);
          assert UndoTried(told, journal, key);
          return Err(HookRefused), steps;
        }
      }
      r := if kind.Some? then Ok(kind.value) else Err(KindMissing);
    }

    /**
     Create, talk to the anchor, read the sequence, build the envelopes for it, lock, wipe. A returned plan is
     for the sequence read and for what the anchor asked, and Ready says what it is worth. The key is gone on every
     path; without a plan something was refused, and either only creations and the merge back were broadcast, or the
     account is locked or waits for it.
     */
    method CreateLandingAccount(landing: Keypair, known: Option<Kind>, hook: Option<Hook>, abortable: bool)
      returns (r: Result<Plan, LandingError>, ghost before: seq<Step>, ghost after: seq<Step>)
      requires Untouchable(ledger, key) && sent == {}
      requires Asked(known, hook).Some? ==> ProperKind(key, Asked(known, hook).value)
      modifies this, landing.secretKey, landing.secretSeed
      ensures landing.Wiped()
      ensures r.Ok? ==> Asked(known, hook).Some? && !Refuses(hook)
      ensures r.Ok? ==>
                var (kind, atRead) := (Asked(known, hook).value, Run(old(ledger), before));
                && ledger == Run(atRead, after) && World(before, key, sent) && World(after, key, sent)
                && Exists(atRead, key) && r.value == PlanFor(key, atRead.accts[key].value.seqNo, kind, abortable)
                && Ready(ledger, key, atRead.accts[key].value.seqNo, kind, abortable, sent)
                && (kind.Onramp? ==> Tells(old(journal), journal, Simulated(true)))
      ensures r.Err? ==> CreatesOrUndo(sent, key) || exists p :: LockFailed(ledger, p, key, sent)
      ensures r.Err? ==> Trouble(old(journal), journal) || Refuses(hook) || (hook.None? && known.None?)
      ensures Refuses(hook) ==> r == Err(HookRefused) || Trouble(old(journal), journal)
      ensures r == Err(HookRefused) ==> Refuses(hook) && UndoTried(old(journal), journal, key)
    {
      var kind;
      kind, before := Prepare(known, hook);
      after := [];
      if kind.Err? {
        landing.Wipe();
        return Err(kind.error), before, after;
      }
      ghost var talked, asked := sent, journal;
      var plan;
      plan, after := BuildAndLock(kind.value, abortable, old(ledger), before);
      landing.Wipe();
      if Tells(asked, journal, Simulated(true)) { ToldBefore(old(journal), asked, journal, Simulated(true)); }
      WorldAppend(before, [], key, talked, sent);
      assert before + [] == before;
      if plan.Err? {
        TroubleGrows(old(journal), asked, journal);
        return Err(plan.error), before, after;
      }
      return Ok(plan.value), before, after;
    }
  }

  /** What the account is for: what the anchor answers, or what was known without asking it. */
  function Asked(known: Option<Kind>, hook: Option<Hook>): Option<Kind> {
    if hook.Some? then hook.value.answer else known
  }

  /** The conversation ends without an answer. */
  ghost predicate Refuses(hook: Option<Hook>) {
    hook.Some? && (hook.value.answer.None? || exists i | 0 <= i < |hook.value.challenges| ::
        hook.value.challenges[i] != 0)
  }

  /**
   The locked account's signers, spelled out: the payment with its memo and the abort at the next sequence number, the
   cleanup after it, each with weight 1; the master key has weight 1 and everything needs 2.
   */
  ghost predicate Preauthorized(l: State, key: Id, seqNo: nat, to: Party, amount: nat, memo: nat, abortable: bool) {
    var payment := Tx(key, seqNo + 1, [Op(key, Pay(to, amount))], memo);
    var cleanup := Tx(key, seqNo + 2, [Op(key, TrustDrop), Op(key, Merge(SPONSOR))], 0);
    var abort := Tx(key, seqNo + 1, [Op(key, TrustDrop), Op(key, Merge(SPONSOR))], 0);
    && Exists(l, key)
    && var a := l.accts[key].value;
       && a.signers.Keys == {payment, cleanup} + (if abortable then {abort} else {})
       && (forall h <- a.signers :: a.signers[h] == 1)
       && a.master == 1 && a.low == 2 && a.med == 2 && a.high == 2 && a.seqNo == seqNo
  }

  /**
   What is handed over: the account is locked at that sequence with exactly the envelopes for what the anchor asked,
   none of them ever used; and it has a trustline exactly when it was our creation that made it.
   */
  ghost predicate Ready(l: State, key: Id, seqNo: nat, kind: Kind, abortable: bool, sent: set<Tx>) {
    var p := PlanFor(key, seqNo, kind, abortable);
    && SetupOnly(sent, p) && Locked(l, p) && Logged(l, p, OpenTracker(l, p).bridge)
    && (l.accts[key].value.trust <==> OursCreated(l, key))
    && seqNo % 0x1_0000_0000 == 0
    && match kind
       case Onramp(c, amount) => Preauthorized(l, key, seqNo, Contract(c), amount, 0, abortable)
       case Offramp(t, m, amount) => Preauthorized(l, key, seqNo, Acct(t), amount, m, abortable)
  }

  lemma LockedMeansPreauthorized(l: State, key: Id, seqNo: nat, kind: Kind, abortable: bool)
    requires Locked(l, PlanFor(key, seqNo, kind, abortable))
    ensures match kind
            case Onramp(c, amount) => Preauthorized(l, key, seqNo, Contract(c), amount, 0, abortable)
            case Offramp(t, m, amount) => Preauthorized(l, key, seqNo, Acct(t), amount, m, abortable)
  {
    var p := PlanFor(key, seqNo, kind, abortable);
    var a := l.accts[key].value;
    assert MergeBack(key) == [Op(key, TrustDrop), Op(key, Merge(SPONSOR))];
    if a.trust {
      assert a.signers == SignersLeft(p, OpenTracker(l, p).bridge);
    } else {
      assert a.signers == LockedAccount(a, p).signers;
    }
    assert a.signers.Keys == {ForwardTx(p), CleanupTx(p)} + (if abortable then {AbortTx(p)} else {});
  }

  /** The merge back was broadcast, unless the sponsor could not be read. */
  ghost predicate UndoTried(before: seq<Note>, journal: seq<Note>, key: Id) {
    before <= journal
    && (Tells(before, journal, Read(SPONSOR, false))
        || exists i, n: nat | |before| <= i < |journal| :: journal[i].Sent? && journal[i].tx == UndoTx(key, n))
  }

  /** After a first broadcast that was accepted and lost sight of, a second one. */
  lemma Twice(told: seq<Note>, sofar: seq<Note>, journal: seq<Note>, tx: Tx)
    requires |told| + 1 < |sofar| && told <= sofar < journal
    requires sofar[|told|] == Sent(tx, Pending) && Bad(sofar[|told| + 1])
    requires journal[|sofar|] in {Sent(tx, Pending), Sent(tx, BadSeq), Sent(tx, Rejected)}
    ensures GaveUp(told, journal, tx) && Trouble(told, journal)
  {
    assert journal[|told|] == sofar[|told|] && journal[|told| + 1] == sofar[|told| + 1];
    assert Tells(told, journal, journal[|sofar|]);
  }

  ghost predicate AllDead(l: State, txs: set<Tx>) {
    forall tx <- txs :: Dead(l, tx)
  }

  ghost predicate Built(txs: set<Tx>, build: nat -> Tx) {
    forall tx <- txs :: exists n: nat :: tx == build(n)
  }

  lemma BuiltMore(txs: set<Tx>, build: nat -> Tx, n: nat)
    requires Built(txs, build)
    ensures Built(txs + {build(n)}, build)
  {
  }

  /** One run after another, with more broadcast meanwhile. */
  lemma Goes(l: State, steps: seq<Step>, more: seq<Step>, key: Id, sent: set<Tx>, sent': set<Tx>, dead: set<Tx>)
    requires World(steps, key, sent) && World(more, key, sent') && sent <= sent' && AllDead(Run(l, steps), dead)
    ensures World(steps + more, key, sent') && Run(l, steps + more) == Run(Run(l, steps), more)
    ensures AllDead(Run(l, steps + more), dead)
  {
    RunAppend(l, steps, more);
    WorldAppend(steps, more, key, sent, sent');
    KeepDead(Run(l, steps), more, dead);
  }

  /** Transactions of the setup, sourced by the sponsor at the sequence number they are built for. */
  ghost predicate Builds(build: nat -> Tx, key: Id) {
    forall n: nat ::
      build(n).source == SPONSOR && build(n).seqNo == n + 1 && PartyTo(build(n), key) && IsSetup(build(n), key)
  }

  ghost predicate NoneOf(build: nat -> Tx, sent: set<Tx>, l: State) {
    forall n: nat :: build(n) !in sent && build(n) !in Entered(l.log)
  }

  /**
   Why a sponsored submission failed: the sponsor could not be read, the last build was given up, or all three
   collided.
   */
  ghost predicate Reason(e: LandingError, before: seq<Note>, journal: seq<Note>, last: Tx, tried: set<Tx>) {
    && Trouble(before, journal)
    && match e
       case Unreachable => Tells(before, journal, Read(SPONSOR, false))
       case SubmitFailed(badSeq) => GaveUp(before, journal, last) && (badSeq ==> |tried| == 3)
       case _ => false
  }

  /** What was told since a later moment was told since an earlier one. */
  lemma Later(a: seq<Note>, b: seq<Note>, c: seq<Note>, tx: Tx)
    requires a <= b <= c && Trouble(b, c)
    ensures Trouble(a, c)
    ensures GaveUp(b, c, tx) ==> GaveUp(a, c, tx)
    ensures Tells(b, c, Read(SPONSOR, false)) ==> Tells(a, c, Read(SPONSOR, false))
  {
    TroubleGrows(a, b, c);
  }

  lemma ToldBefore(a: seq<Note>, b: seq<Note>, c: seq<Note>, n: Note)
    requires a <= b <= c && Tells(b, c, n)
    ensures Tells(a, c, n)
  {
  }

  lemma StillTold(a: seq<Note>, b: seq<Note>, c: seq<Note>, n: Note)
    requires a <= b <= c && Tells(a, b, n)
    ensures Tells(a, c, n)
  {
    var i :| |a| <= i < |b| && b[i] == n;
    assert c[i] == n;
  }

  lemma Retold(a: seq<Note>, b: seq<Note>, c: seq<Note>, tx: Tx)
    requires a <= b <= c && GaveUp(b, c, tx) && Trouble(b, c)
    ensures GaveUp(a, c, tx) && Trouble(a, c)
  {
    TroubleGrows(a, b, c);
  }

  lemma CreatesAreSetups(sent: set<Tx>, key: Id)
    requires CreatesOnly(sent, key)
    ensures Setups(sent, key)
  {
  }

  lemma NoLockYet(start: State, l: State, steps: seq<Step>, p: Plan, creates: set<Tx>)
    requires Untouchable(start, p.bridge) && World(steps, p.bridge, creates) && l == Run(start, steps)
    requires CreatesOnly(creates, p.bridge)
    ensures forall n: nat :: LockTx(p, n) !in Entered(l.log) && Applied(LockTx(p, n), true) !in l.log
  {
    CreatesAreSetups(creates, p.bridge);
    forall n: nat ensures LockTx(p, n) !in Entered(l.log) && Applied(LockTx(p, n), true) !in l.log {
      assert PartyTo(LockTx(p, n), p.bridge) by { assert LockTx(p, n).ops[1].src == p.bridge; }
      LockIsNoCreate(p, n, creates);
      UnsentNeverEnters(start, steps, p.bridge, creates, LockTx(p, n));
      AppliedEntered(l.log, LockTx(p, n), true);
    }
  }

  /** Before the lock nothing is broadcast for the account but its creation and its merge back. */
  ghost predicate CreatesOrUndo(sent: set<Tx>, key: Id) {
    forall tx <- sent :: exists n: nat :: tx == CreateTx(key, n) || tx == UndoTx(key, n)
  }

  lemma UndoAdds(creates: set<Tx>, sent: set<Tx>, key: Id)
    requires CreatesOnly(creates, key) && forall tx <- sent - creates :: exists n: nat :: tx == UndoTx(key, n)
    ensures CreatesOrUndo(sent, key)
  {
    forall tx <- sent ensures exists n: nat :: tx == CreateTx(key, n) || tx == UndoTx(key, n) {
      if tx in creates {
        var n: nat :| tx == CreateTx(key, n);
      } else {
        assert tx in sent - creates;
        var n: nat :| tx == UndoTx(key, n);
      }
    }
  }

  /** A lock that was not reported as a success has taken hold or not, and nothing else can have happened. */
  ghost predicate LockFailed(l: State, p: Plan, key: Id, sent: set<Tx>) {
    p.bridge == key && SetupOnly(sent, p) && Locking(l, p)
  }

  /** A fresh key: no account, and nothing ever acted for it. */
  ghost predicate Untouchable(l: State, key: Id) {
    key != SPONSOR && key < |l.accts| && !Exists(l, key) && forall tx <- Entered(l.log) :: !PartyTo(tx, key)
  }

  lemma LockIsNoCreate(p: Plan, n: nat, creates: set<Tx>)
    requires CreatesOnly(creates, p.bridge)
    ensures LockTx(p, n) !in creates
  {
  }

  lemma {:induction false} AppliedEntered(log: seq<Event>, tx: Tx, ok: bool)
    ensures Applied(tx, ok) in log ==> tx in Entered(log)
  {
    if log != [] {
      assert log == log[..|log| - 1] + [log[|log| - 1]];
      AppliedEntered(log[..|log| - 1], tx, ok);
    }
  }

  lemma NothingActedYet(l: State, key: Id)
    requires !Exists(l, key) && forall tx <- Entered(l.log) :: !PartyTo(tx, key)
    ensures PreLock(l, key)
    ensures forall n: nat :: CreateTx(key, n) !in Entered(l.log)
  {
    forall n: nat ensures CreateTx(key, n) !in Entered(l.log) && Applied(CreateTx(key, n), true) !in l.log {
      assert CreateTx(key, n).ops[2].src == key;
      AppliedEntered(l.log, CreateTx(key, n), true);
    }
  }

  lemma SetupOnlyAreSetups(sent: set<Tx>, p: Plan)
    requires SetupOnly(sent, p) && Proper(p)
    ensures Setups(sent, p.bridge)
  {
    forall tx <- sent ensures IsSetup(tx, p.bridge) {
      var n: nat :| tx == CreateTx(p.bridge, n) || tx == LockTx(p, n);
    }
  }

  /** The pre-authorized envelopes have not been handed to anyone when the plan is returned. */
  lemma EnvelopesUnused(start: State, l: State, steps: seq<Step>, p: Plan, sent: set<Tx>)
    requires Untouchable(start, p.bridge) && World(steps, p.bridge, sent) && l == Run(start, steps)
    requires Proper(p) && SetupOnly(sent, p)
    ensures Logged(l, p, OpenTracker(l, p).bridge)
  {
    SetupOnlyAreSetups(sent, p);
    forall k ensures Applied(TxOf(p, k), true) !in l.log {
      assert TxOf(p, k).source != SPONSOR;
      UnsentNeverEnters(start, steps, p.bridge, sent, TxOf(p, k));
      AppliedEntered(l.log, TxOf(p, k), true);
    }
  }

  lemma KeepDead(l: State, steps: seq<Step>, txs: set<Tx>)
    requires forall tx <- txs :: Dead(l, tx)
    ensures forall tx <- txs :: Dead(Run(l, steps), tx)
  {
    forall tx <- txs ensures Dead(Run(l, steps), tx) { DeadStaysDead(l, tx, steps); }
  }

  /** A transaction at the next sequence number is none of the dead ones. */
  lemma FreshSlot(l: State, dead: set<Tx>, tx: Tx)
    requires forall t <- dead :: Dead(l, t)
    requires Floor(l, tx.source) < tx.seqNo
    ensures tx !in dead
  {
  }
}
