/**
 The execution lease on an AgentRun row: three conditional updates that decide by their row count. Who
 holds the lease when is recorded as claims, one for every grant and renewal; a release ends the claims
 of its owner. The theorem is about the rows: a worker that ignores a lost lease is not stopped by them.
 */
module RunLeases {
  import opened Common

  const MINIMUM_LEASE: int := 3

  datatype LeaseRow = LeaseRow(running: bool, owner: Option<string>, expiresAt: Option<Time>, heartbeatAt: Option<Time>)

  /** The owner may act as the only executor from start until just before end. */
  datatype Claim = Claim(owner: string, start: Time, end: Time)

  datatype Operation =
    | Acquire(owner: string, seconds: int)
    | Renew(owner: string, seconds: int)
    | Release(owner: string)
    | Finish

  datatype Ledger = Ledger(row: LeaseRow, claims: seq<Claim>)

  predicate Holds(row: LeaseRow, owner: string, now: Time) {
    row.owner == Some(owner) && row.expiresAt.Some? && now < row.expiresAt.value
  }

  /** The WHERE clause of acquire. */
  predicate Acquirable(row: LeaseRow, owner: string, now: Time) {
    row.running && (row.owner.None? || row.expiresAt.None? || row.expiresAt.value <= now || row.owner == Some(owner))
  }

  function Held(row: LeaseRow, owner: string, now: Time, seconds: int): LeaseRow {
    row.(owner := Some(owner), expiresAt := Some(now + seconds), heartbeatAt := Some(now))
  }

  function EndClaims(claims: seq<Claim>, owner: string, now: Time): (r: seq<Claim>)
    ensures |r| == |claims|
    ensures forall i :: 0 <= i < |claims| ==>
              r[i] == if claims[i].owner == owner && now < claims[i].end then claims[i].(end := now) else claims[i]
  {
    seq(|claims|, i requires 0 <= i < |claims| =>
      if claims[i].owner == owner && now < claims[i].end then claims[i].(end := now) else claims[i])
  }

  /** The effect of one operation at one time; a refused one changes nothing. */
  function Applied(l: Ledger, op: Operation, now: Time): Ledger {
    match op
    case Acquire(owner, seconds) =>
      if owner != "" && MINIMUM_LEASE <= seconds && Acquirable(l.row, owner, now)
      then Ledger(Held(l.row, owner, now, seconds), l.claims + [Claim(owner, now, now + seconds)]) else l
    case Renew(owner, seconds) =>
      if l.row.running && Holds(l.row, owner, now)
      then Ledger(Held(l.row, owner, now, seconds), l.claims + [Claim(owner, now, now + seconds)]) else l
    case Release(owner) =>
      if l.row.owner == Some(owner)
      then Ledger(l.row.(owner := None, expiresAt := None, heartbeatAt := None), EndClaims(l.claims, owner, now)) else l
    case Finish => l.(row := l.row.(running := false))
  }

  function Replay(l: Ledger, ops: seq<(Time, Operation)>): Ledger
    decreases |ops|
  {
    if ops == [] then l
    else Applied(Replay(l, ops[..|ops| - 1]), ops[|ops| - 1].1, ops[|ops| - 1].0)
  }

  // ---------------------------------------------------------------- the row and its methods

  class RunLease {
    var running: bool
    var leaseOwner: Option<string>
    var leaseExpiresAt: Option<Time>
    var leaseHeartbeatAt: Option<Time>
    ghost var claims: seq<Claim>

    constructor ()
      ensures Now() == Ledger(LeaseRow(true, None, None, None), [])
    {
      running, leaseOwner, leaseExpiresAt, leaseHeartbeatAt := true, None, None, None;
      claims := [];
    }

    ghost function Now(): Ledger
      reads this
    {
      Ledger(LeaseRow(running, leaseOwner, leaseExpiresAt, leaseHeartbeatAt), claims)
    }

    /** None stands for the ValueError of a blank owner or a lease under three seconds. */
    method AcquireLease(owner: string, seconds: int, now: Time) returns (acquired: Option<bool>)
      modifies this
      ensures Now() == Applied(old(Now()), Acquire(owner, seconds), now)
      ensures acquired.None? <==> owner == "" || seconds < MINIMUM_LEASE
      ensures acquired == Some(true) <==>
                && acquired.Some? && old(running)
                && (old(leaseOwner).None? || old(leaseOwner) == Some(owner)
                    || old(leaseExpiresAt).None? || old(leaseExpiresAt).value <= now)
    {
      if owner == "" || seconds < MINIMUM_LEASE {
        return None;
      }
      if running && (leaseOwner.None? || leaseExpiresAt.None? || leaseExpiresAt.value <= now || leaseOwner == Some(owner)) {
        leaseOwner, leaseExpiresAt, leaseHeartbeatAt := Some(owner), Some(now + seconds), Some(now);
        claims := claims + [Claim(owner, now, now + seconds)];
        return Some(true);
      }
      return Some(false);
    }

    method RenewLease(owner: string, seconds: int, now: Time) returns (renewed: bool)
      modifies this
      ensures Now() == Applied(old(Now()), Renew(owner, seconds), now)
      ensures renewed <==>
                && old(running) && old(leaseOwner) == Some(owner)
                && old(leaseExpiresAt).Some? && now < old(leaseExpiresAt).value
    {
      renewed := running && leaseOwner == Some(owner) && leaseExpiresAt.Some? && leaseExpiresAt.value > now;
      if renewed {
        leaseExpiresAt, leaseHeartbeatAt := Some(now + seconds), Some(now);
        claims := claims + [Claim(owner, now, now + seconds)];
      }
    }

    method ReleaseLease(owner: string, ghost now: Time) returns (released: bool)
      modifies this
      ensures Now() == Applied(old(Now()), Release(owner), now)
      ensures released <==> old(leaseOwner) == Some(owner)
      ensures !released ==> Now() == old(Now())
    {
      released := leaseOwner == Some(owner);
      if released {
        leaseOwner, leaseExpiresAt, leaseHeartbeatAt := None, None, None;
        claims := EndClaims(claims, owner, now);
      }
    }
  }

  // ---------------------------------------------------------------- exclusion over all histories

  /** Claims of different owners never share a moment. */
  predicate Exclusive(claims: seq<Claim>) {
    forall i, j :: 0 <= i < |claims| && 0 <= j < |claims| && claims[i].owner != claims[j].owner ==>
      claims[i].end <= claims[j].start || claims[j].end <= claims[i].start
  }

  /** The current owner's claims end with the row's expiry, everybody else's have ended. */
  predicate LedgerOk(l: Ledger, now: Time) {
    && (l.row.owner.Some? <==> l.row.expiresAt.Some?)
    && (forall i :: 0 <= i < |l.claims| ==>
          && l.claims[i].start <= now && l.claims[i].start <= l.claims[i].end
          && l.claims[i].end <= if Some(l.claims[i].owner) == l.row.owner then l.row.expiresAt.value else now)
    && Exclusive(l.claims)
  }

  /** The operation does not move the expiry of a lease that its own holder still has to an earlier time. */
  predicate DoesNotShorten(row: LeaseRow, op: Operation, now: Time) {
    (op.Acquire? || op.Renew?) && row.owner == Some(op.owner) && row.expiresAt.Some? ==>
      row.expiresAt.value <= now + op.seconds
  }

  lemma LaterIsStillOk(l: Ledger, now: Time, later: Time)
    requires LedgerOk(l, now) && now <= later
    ensures LedgerOk(l, later)
  {
  }

  lemma AppliedKeepsLedgerOk(l: Ledger, op: Operation, now: Time)
    requires LedgerOk(l, now) && DoesNotShorten(l.row, op, now) && (op.Renew? ==> 0 <= op.seconds)
    ensures LedgerOk(Applied(l, op, now), now)
  {
  }

  /** Times do not decrease, and no operation shortens the lease its holder has at that point. */
  predicate Orderly(l: Ledger, ops: seq<(Time, Operation)>)
    decreases |ops|
  {
    ops == [] ||
    var last := |ops| - 1;
    && Orderly(l, ops[..last])
    && (last > 0 ==> ops[last - 1].0 <= ops[last].0)
    && (ops[last].1.Renew? ==> 0 <= ops[last].1.seconds)
    && DoesNotShorten(Replay(l, ops[..last]).row, ops[last].1, ops[last].0)
  }

  function Free(): Ledger { Ledger(LeaseRow(true, None, None, None), []) }

  lemma {:induction false} LedgerStaysOk(ops: seq<(Time, Operation)>)
    requires Orderly(Free(), ops) && ops != []
    ensures LedgerOk(Replay(Free(), ops), ops[|ops| - 1].0)
    decreases |ops|
  {
    var last := |ops| - 1;
    if last > 0 {
      LedgerStaysOk(ops[..last]);
      LaterIsStillOk(Replay(Free(), ops[..last]), ops[last - 1].0, ops[last].0);
    }
    AppliedKeepsLedgerOk(Replay(Free(), ops[..last]), ops[last].1, ops[last].0);
  }

  /** No two owners ever hold the lease of a run at the same moment. */
  lemma LeasesAreExclusive(ops: seq<(Time, Operation)>)
    requires Orderly(Free(), ops)
    ensures Exclusive(Replay(Free(), ops).claims)
  {
    if ops != [] { LedgerStaysOk(ops); }
  }

  /** All operations use one lease length, at nondecreasing times. */
  predicate OneLength(ops: seq<(Time, Operation)>, seconds: nat) {
    && (forall i :: 0 <= i < |ops| && (ops[i].1.Acquire? || ops[i].1.Renew?) ==> ops[i].1.seconds == seconds)
    && (forall i :: 0 < i < |ops| ==> ops[i - 1].0 <= ops[i].0)
  }

  lemma {:induction false} OneLengthIsOrderly(ops: seq<(Time, Operation)>, seconds: nat)
    requires OneLength(ops, seconds)
    ensures Orderly(Free(), ops)
    ensures ops != [] ==>
              var row := Replay(Free(), ops).row; row.expiresAt.Some? ==> row.expiresAt.value <= ops[|ops| - 1].0 + seconds
    decreases |ops|
  {
    if ops != [] {
      var last := |ops| - 1;
      OneLengthIsOrderly(ops[..last], seconds);
    }
  }

  /** With one lease length and a clock that does not go back, leases exclude each other. */
  lemma OneLengthIsExclusive(ops: seq<(Time, Operation)>, seconds: nat)
    requires OneLength(ops, seconds)
    ensures Exclusive(Replay(Free(), ops).claims)
  {
    OneLengthIsOrderly(ops, seconds);
    LeasesAreExclusive(ops);
  }

  /** The holder's own claim is what the row's expiry stands for. */
  predicate HolderClaims(l: Ledger) {
    l.row.owner.Some? ==>
      l.row.expiresAt.Some? && Claimed(l.claims, l.row.owner.value, l.row.expiresAt.value)
  }

  predicate Claimed(claims: seq<Claim>, owner: string, end: Time) {
    exists i :: 0 <= i < |claims| && claims[i].owner == owner && claims[i].end == end
  }

  lemma {:induction false} HolderAlwaysClaims(ops: seq<(Time, Operation)>)
    ensures HolderClaims(Replay(Free(), ops))
    decreases |ops|
  {
    if ops != [] {
      var last := |ops| - 1;
      var before, after := Replay(Free(), ops[..last]), Replay(Free(), ops);
      HolderAlwaysClaims(ops[..last]);
      if after != before && (ops[last].1.Acquire? || ops[last].1.Renew?) {
        assert after.claims[|before.claims|] == Claim(ops[last].1.owner, ops[last].0, ops[last].0 + ops[last].1.seconds);
      }
    }
  }

  /** Nobody else's claim is still in force. */
  predicate NobodyElse(claims: seq<Claim>, owner: string, now: Time) {
    forall i :: 0 <= i < |claims| && claims[i].owner != owner ==> claims[i].end <= now
  }

  /** The owner has a claim in force. */
  predicate StillClaims(claims: seq<Claim>, owner: string, now: Time) {
    exists i :: 0 <= i < |claims| && claims[i].owner == owner && now < claims[i].end
  }

  lemma {:induction false} ReachableLedger(ops: seq<(Time, Operation)>, now: Time)
    requires Orderly(Free(), ops) && (ops != [] ==> ops[|ops| - 1].0 <= now)
    ensures LedgerOk(Replay(Free(), ops), now) && HolderClaims(Replay(Free(), ops))
  {
    HolderAlwaysClaims(ops);
    if ops != [] {
      LedgerStaysOk(ops);
      LaterIsStillOk(Replay(Free(), ops), ops[|ops| - 1].0, now);
    }
  }

  /**
   After any orderly history an owner is granted the lease of a running run exactly when nobody else's claim
   is still in force, be it released, expired or never there; the claim is for the asked time from now on.
   */
  lemma {:induction false} GrantedUnlessClaimed(ops: seq<(Time, Operation)>, now: Time, owner: string, seconds: int)
    requires Orderly(Free(), ops) && (ops != [] ==> ops[|ops| - 1].0 <= now)
    requires owner != "" && MINIMUM_LEASE <= seconds
    ensures var before, after := Replay(Free(), ops), Applied(Replay(Free(), ops), Acquire(owner, seconds), now);
            if before.row.running && NobodyElse(before.claims, owner, now) then
              after.claims == before.claims + [Claim(owner, now, now + seconds)] && after.row.owner == Some(owner)
            else after == before
  {
    ReachableLedger(ops, now);
  }

  /** After any orderly history a running run's lease is renewed exactly for an owner whose claim is still in force. */
  lemma {:induction false} RenewedWhileClaimed(ops: seq<(Time, Operation)>, now: Time, owner: string, seconds: int)
    requires Orderly(Free(), ops) && (ops != [] ==> ops[|ops| - 1].0 <= now)
    ensures var before, after := Replay(Free(), ops), Applied(Replay(Free(), ops), Renew(owner, seconds), now);
            if before.row.running && StillClaims(before.claims, owner, now) then
              after.claims == before.claims + [Claim(owner, now, now + seconds)] && after.row.owner == Some(owner)
            else after == before
  {
    ReachableLedger(ops, now);
  }

  lemma ShortenedClaimOverlaps(l: Ledger, now: Time, op: Operation, other: string, seconds: int)
    requires l.row.running && HolderClaims(l) && LedgerOk(l, now) && !DoesNotShorten(l.row, op, now) && now < l.row.expiresAt.value
    requires if op.Acquire? then MINIMUM_LEASE <= op.seconds && op.owner != "" else 0 <= op.seconds
    requires other != "" && other != op.owner && MINIMUM_LEASE <= seconds
    ensures !Exclusive(Applied(Applied(l, op, now), Acquire(other, seconds), now + op.seconds).claims)
  {
    var i :| 0 <= i < |l.claims| && l.claims[i].owner == op.owner && l.claims[i].end == l.row.expiresAt.value;
    var l1 := Applied(l, op, now);
    assert l1.row.expiresAt == Some(now + op.seconds) && l1.claims[i] == l.claims[i] && l1.row.running;
    var l2 := Applied(l1, Acquire(other, seconds), now + op.seconds);
    assert l2.claims[i] == l.claims[i];
    assert l2.claims[|l1.claims|] == Claim(other, now + op.seconds, now + op.seconds + seconds);
  }

  /**
   The condition is exact: after any orderly history, one step that shortens its holder's lease lets any
   other owner in while the holder still has time it was promised.
   */
  lemma {:induction false} ShorteningLetsAnotherIn(ops: seq<(Time, Operation)>, now: Time, op: Operation,
      other: string, seconds: int)
    requires Orderly(Free(), ops) && (ops != [] ==> ops[|ops| - 1].0 <= now)
    requires var row := Replay(Free(), ops).row; row.running && !DoesNotShorten(row, op, now) && now < row.expiresAt.value
    requires if op.Acquire? then MINIMUM_LEASE <= op.seconds && op.owner != "" else 0 <= op.seconds
    requires other != "" && other != op.owner && MINIMUM_LEASE <= seconds
    ensures !Exclusive(Applied(Applied(Replay(Free(), ops), op, now), Acquire(other, seconds), now + op.seconds).claims)
  {
    ReachableLedger(ops, now);
    ShortenedClaimOverlaps(Replay(Free(), ops), now, op, other, seconds);
  }

  /** Once a run is finished nothing is granted or extended on it again. */
  lemma {:induction false} NothingGrantedAfterFinish(l: Ledger, ops: seq<(Time, Operation)>)
    requires !l.row.running
    ensures var end := Replay(l, ops);
            && !end.row.running && |end.claims| == |l.claims|
            && (end.row.expiresAt == l.row.expiresAt || end.row.expiresAt.None?)
            && (forall i :: 0 <= i < |l.claims| ==> end.claims[i].end <= l.claims[i].end)
    decreases |ops|
  {
    if ops != [] { NothingGrantedAfterFinish(l, ops[..|ops| - 1]); }
  }
}
