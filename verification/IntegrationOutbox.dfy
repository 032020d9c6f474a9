/**
  One row of the candidate integration outbox: the durable side effect of an accepted task.

  The generation is checked before the status, so a delivered row may still be suppressed later; it is
  never delivered again.
*/
module IntegrationOutbox {
  import opened Prelude

  /** A lease token; the random ids of the system are never drawn twice. */
  type Token = nat

  const MAX_ATTEMPTS: nat := 5

  datatype RowStatus = Ready | Processing | Retrying | Delivered | Suppressed | Parked

  datatype Row = Row(
    generation: nat,
    status: RowStatus,
    attempts: nat,
    token: Option<Token>,
    claimedAt: Option<int>)

  function NewRow(generation: nat): (row: Row) {
    Row(generation, Ready, 0, None, None)
  }

  predicate GenerationMoved(row: Row, control: nat, generation: nat) {
    row.generation != generation || control != generation
  }

  function ClaimDispatchTxn(row: Row, control: nat, generation: nat, leaseSeconds: nat, token: Token, now: int)
    : (r: (Row, Option<Token>))
  {
    if GenerationMoved(row, control, generation) then (row.(status := Suppressed), None)
    else if row.status.Delivered? || row.status.Suppressed? || row.status.Parked? then (row, None)
    else if row.status.Processing? && row.claimedAt.Some? && row.claimedAt.value + leaseSeconds > now then (row, None)
    else (row.(status := Processing, attempts := row.attempts + 1, token := Some(token), claimedAt := Some(now)),
          Some(token))
  }

  function CompleteDispatchTxn(row: Row, control: nat, generation: nat, token: Token, succeeded: bool)
    : (r: (Row, bool))
  {
    if GenerationMoved(row, control, generation) then (row.(status := Suppressed), false)
    else if !row.status.Processing? || row.token != Some(token) then (row, false)
    else if succeeded then (row.(status := Delivered, token := None), true)
    else
      var attempts := if row.attempts < 1 then 1 else row.attempts;
      (row.(status := if attempts >= MAX_ATTEMPTS then Parked else Retrying, token := None), true)
  }

  function RedriveTxn(row: Row, generation: nat): (r: (Row, bool)) {
    if row.generation != generation || !row.status.Parked? then (row, false)
    else (row.(status := Ready, attempts := 0), true)
  }

  function ParkMalformedTxn(row: Row, generation: nat): (r: (Row, bool)) {
    if row.generation != generation || Settled(row) || row.status.Parked? then (row, false)
    else (row.(status := Parked, token := None), true)
  }

  datatype RowOp =
    | ClaimDispatch(generation: nat, leaseSeconds: nat, token: Token)
    | CompleteDispatch(generation: nat, token: Token, succeeded: bool)
    | Redrive(generation: nat)
    | ParkMalformed(generation: nat)

  function RowAfter(row: Row, op: RowOp, control: nat, now: int): (row': Row) {
    match op
    case ClaimDispatch(g, lease, token) => ClaimDispatchTxn(row, control, g, lease, token, now).0
    case CompleteDispatch(g, token, succeeded) => CompleteDispatchTxn(row, control, g, token, succeeded).0
    case Redrive(g) => RedriveTxn(row, g).0
    case ParkMalformed(g) => ParkMalformedTxn(row, g).0
  }

  /** The side effect will never be claimed again. */
  predicate Settled(row: Row) {
    row.status.Delivered? || row.status.Suppressed?
  }

  // ----- when each step is granted -----

  /** The caller, the row and the account are in one generation. */
  predicate SameGeneration(row: Row, control: nat, generation: nat) {
    row.generation == generation && control == generation
  }

  /**
    A lease is granted exactly, within one generation, on a row that waits, or that somebody has worked on for
    the lease time. A call across generations suppresses the row; any other refusal leaves it alone.
  */
  lemma DispatchGrantedIff(row: Row, control: nat, generation: nat, leaseSeconds: nat, token: Token, now: int)
    ensures var (row', lease) := ClaimDispatchTxn(row, control, generation, leaseSeconds, token, now);
            && (lease.Some? <==>
                  && SameGeneration(row, control, generation)
                  && (|| row.status == Ready || row.status == Retrying
                      || (row.status == Processing
                          && (row.claimedAt.None? || row.claimedAt.value + leaseSeconds <= now))))
            && (lease.Some? ==>
                  && lease == Some(token)
                  && row' == Row(row.generation, Processing, row.attempts + 1, Some(token), Some(now)))
            && (lease.None? ==>
                  row' == if SameGeneration(row, control, generation) then row else row.(status := Suppressed))
  {
  }

  /** An outcome is recorded exactly for the token that the row is being worked on under, within one generation. */
  lemma OutcomeRecordedIff(row: Row, control: nat, generation: nat, token: Token, succeeded: bool)
    ensures var (row', recorded) := CompleteDispatchTxn(row, control, generation, token, succeeded);
            && (recorded <==>
                  SameGeneration(row, control, generation) && row.status == Processing && row.token == Some(token))
            && (recorded ==>
                  && row' == row.(status := row'.status, token := None)
                  && (row'.status == Delivered <==> succeeded)
                  && (row'.status == Parked <==> !succeeded && row.attempts >= 5)
                  && (row'.status == Retrying <==> !succeeded && row.attempts < 5))
            && (!recorded ==>
                  row' == if SameGeneration(row, control, generation) then row else row.(status := Suppressed))
  {
  }

  /** A redrive wakes exactly a parked row of the generation, with its attempts forgotten. */
  lemma RedrivenIff(row: Row, generation: nat)
    ensures var (row', moved) := RedriveTxn(row, generation);
            && (moved <==> row.generation == generation && row.status == Parked)
            && row' == if moved then row.(status := Ready, attempts := 0) else row
  {
  }

  /** A malformed row of the generation is parked exactly if it is not at rest already. */
  lemma MalformedParkedIff(row: Row, generation: nat)
    ensures var (row', parked) := ParkMalformedTxn(row, generation);
            && (parked <==> row.generation == generation && row.status in {Ready, Processing, Retrying})
            && row' == if parked then row.(status := Parked, token := None) else row
  {
  }

  /** The row as it is stored, changed in place by each delivery transaction. */
  class OutboxDocument {
    var row: Row

    constructor (generation: nat)
      ensures row == NewRow(generation)
    {
      row := Row(generation, Ready, 0, None, None);
    }

    method Claim(control: nat, generation: nat, leaseSeconds: nat, token: Token, now: int)
      returns (lease: Option<Token>)
      modifies this
      ensures (row, lease) == ClaimDispatchTxn(old(row), control, generation, leaseSeconds, token, now)
    {
      if row.generation != generation || control != generation {
        row := row.(status := Suppressed);
        return None;
      }
      if row.status in {Delivered, Suppressed, Parked} {
        return None;
      }
      if row.status == Processing {
        if row.claimedAt.Some? && row.claimedAt.value + leaseSeconds > now {
          return None;
        }
      }
      row := row.(status := Processing);
      row := row.(attempts := row.attempts + 1);
      row := row.(token := Some(token), claimedAt := Some(now));
      return Some(token);
    }

    method Complete(control: nat, generation: nat, token: Token, succeeded: bool) returns (recorded: bool)
      modifies this
      ensures (row, recorded) == CompleteDispatchTxn(old(row), control, generation, token, succeeded)
    {
      if row.generation != generation || control != generation {
        row := row.(status := Suppressed);
        return false;
      }
      if row.status != Processing || row.token != Some(token) {
        return false;
      }
      row := row.(token := None);
      if succeeded {
        row := row.(status := Delivered);
        return true;
      }
      var attempts := row.attempts;
      if attempts < 1 {
        attempts := 1;
      }
      row := row.(status := if attempts >= MAX_ATTEMPTS then Parked else Retrying);
      return true;
    }

    method RedriveDeadLetter(generation: nat) returns (moved: bool)
      modifies this
      ensures (row, moved) == RedriveTxn(old(row), generation)
    {
      if row.generation != generation || row.status != Parked {
        return false;
      }
      row := row.(status := Ready, attempts := 0);
      return true;
    }

    method DeadLetterMalformed(generation: nat) returns (parked: bool)
      modifies this
      ensures (row, parked) == ParkMalformedTxn(old(row), generation)
    {
      if row.generation != generation || row.status in {Delivered, Suppressed, Parked} {
        return false;
      }
      row := row.(status := Parked);
      row := row.(token := None);
      return true;
    }
  }
}
