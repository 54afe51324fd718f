/**
 * The in-memory stand-in for the ledger client that other services use in
 * their tests (mock/mock.go). Each access token that has been granted points
 * owns an initial balance and the list of debits requested against it; a
 * debit is an object shared between that list and the caller that requested
 * it, so accepting or finalizing it through the caller's handle changes the
 * balance the mock reports.
 */
module MockLedger {
  import opened Wrappers
  import opened Client

  const DebitAlreadyFinalizedMessage := "already finalized"

  /** The state of one debit, as a value. */
  datatype DebitState = DebitState(amount: int, isFinalized: bool, isAccepted: bool)

  /** A debit weighs on the balance unless it was finalized without being accepted. */
  predicate Counts(d: DebitState)
  {
    !(d.isFinalized && !d.isAccepted)
  }

  /** The available balance: the initial balance less every debit that counts. */
  function Available(initial: int, debits: seq<DebitState>): int
    decreases |debits|
  {
    if debits == [] then initial
    else
      var last := debits[|debits| - 1];
      Available(initial, debits[..|debits| - 1]) - (if Counts(last) then last.amount else 0)
  }

  /** A freshly requested (pending) debit lowers the available balance by its amount. */
  lemma AvailableAppendPending(initial: int, debits: seq<DebitState>, amount: int)
    ensures Available(initial, debits + [DebitState(amount, false, false)]) == Available(initial, debits) - amount
  {
    assert (debits + [DebitState(amount, false, false)])[..|debits|] == debits;
  }

  /** Replacing debit `i` by a state that counts the same leaves the balance unchanged; otherwise it moves by that debit's amount. */
  lemma {:induction false} AvailableUpdate(initial: int, debits: seq<DebitState>, i: nat, d: DebitState)
    requires i < |debits| && d.amount == debits[i].amount
    ensures Available(initial, debits[i := d]) ==
      Available(initial, debits)
      + (if Counts(debits[i]) then debits[i].amount else 0)
      - (if Counts(d) then d.amount else 0)
    decreases |debits|
  {
    var n := |debits| - 1;
    var updated := debits[i := d];
    if i < n {
      assert updated[..n] == debits[..n][i := d];
      AvailableUpdate(initial, debits[..n], i, d);
    } else {
      assert updated[..n] == debits[..n];
    }
  }

  /** Rejecting a pending debit gives its amount back. */
  lemma AvailableAfterReject(initial: int, debits: seq<DebitState>, i: nat)
    requires i < |debits| && !debits[i].isFinalized && !debits[i].isAccepted
    ensures Available(initial, debits[i := debits[i].(isFinalized := true)]) == Available(initial, debits) + debits[i].amount
  {
    AvailableUpdate(initial, debits, i, debits[i].(isFinalized := true));
  }

  /** Accepting a pending debit leaves the available balance where it was. */
  lemma AvailableAfterAccept(initial: int, debits: seq<DebitState>, i: nat)
    requires i < |debits| && !debits[i].isFinalized
    ensures Available(initial, debits[i := debits[i].(isFinalized := true, isAccepted := true)]) == Available(initial, debits)
  {
    AvailableUpdate(initial, debits, i, debits[i].(isFinalized := true, isAccepted := true));
  }

  /** A debit handed out by the mock; it doubles as the caller's transaction context. */
  class MockDebit {
    var amount: int
    var isFinalized: bool
    var isAccepted: bool

    function State(): DebitState
      reads this
    {
      DebitState(amount, isFinalized, isAccepted)
    }

    constructor(amount: int)
      ensures State() == DebitState(amount, false, false)
    {
      this.amount := amount;
      isFinalized := false;
      isAccepted := false;
    }

    /** Accepting fails on a finalized debit; otherwise it marks the debit accepted and finalized. */
    method Accept() returns (err: Option<string>)
      modifies this
      ensures old(isFinalized) ==> err == Some(DebitAlreadyFinalizedMessage) && State() == old(State())
      ensures !old(isFinalized) ==> err.None? && State() == old(State()).(isFinalized := true, isAccepted := true)
    {
      if isFinalized {
        return Some(DebitAlreadyFinalizedMessage);
      }
      isAccepted := true;
      isFinalized := true;
      return None;
    }

    /** Finalizing never fails: a pending debit becomes finalized (and so rejected), a final one stays as it is. */
    method Finalize() returns (err: Option<string>)
      modifies this
      ensures err.None?
      ensures old(isFinalized) ==> State() == old(State())
      ensures !old(isFinalized) ==> State() == old(State()).(isFinalized := true)
    {
      if !isFinalized {
        isFinalized := true;
      }
      return None;
    }
  }

  function Snapshot(debits: seq<MockDebit>): (r: seq<DebitState>)
    reads set d | d in debits
    ensures |r| == |debits|
    decreases |debits|
  {
    if debits == [] then []
    else Snapshot(debits[..|debits| - 1]) + [debits[|debits| - 1].State()]
  }

  lemma {:induction false} SnapshotAt(debits: seq<MockDebit>, i: nat)
    requires i < |debits|
    ensures Snapshot(debits)[i] == debits[i].State()
    ensures Snapshot(debits[..i]) == Snapshot(debits)[..i]
    decreases |debits|
  {
    var n := |debits| - 1;
    if i < n {
      assert debits[..n][..i] == debits[..i];
      SnapshotAt(debits[..n], i);
    } else {
      assert debits[..n] == debits[..i];
    }
  }

  datatype UserState = UserState(initialBalance: int, debits: seq<MockDebit>)

  /** The mock client: per access token, a balance and its debits. */
  class MockClient {
    var states: map<string, UserState>

    constructor()
      ensures states == map[]
    {
      states := map[];
    }

    /** Granting replaces the token's state with the given balance and no debits. */
    method Grant(accessToken: string, initialBalance: int)
      modifies this
      ensures states == old(states)[accessToken := UserState(initialBalance, [])]
    {
      states := states[accessToken := UserState(initialBalance, [])];
    }

    /** An unknown token is unauthorized; otherwise the available balance of the token's state. */
    method GetAvailableBalance(accessToken: string) returns (r: Result<int, ClientError>)
      ensures accessToken !in states ==> r == Failure(Unauthorized)
      ensures accessToken in states ==>
        r == Success(Available(states[accessToken].initialBalance, Snapshot(states[accessToken].debits)))
    {
      if accessToken !in states {
        return Failure(Unauthorized);
      }
      var state := states[accessToken];
      var balance := state.initialBalance;
      var i := 0;
      while i < |state.debits|
        invariant i <= |state.debits|
        invariant balance == Available(state.initialBalance, Snapshot(state.debits[..i]))
      {
        var debit := state.debits[i];
        SnapshotAt(state.debits, i);
        assert state.debits[..i + 1][..i] == state.debits[..i];
        if !(debit.isFinalized && !debit.isAccepted) {
          balance := balance - debit.amount;
        }
        i := i + 1;
      }
      assert state.debits[..i] == state.debits;
      return Success(balance);
    }

    /**
     * An unknown token is unauthorized and a debit larger than the available
     * balance is refused, both with nothing recorded; otherwise a new pending
     * debit is appended to the token's list and handed back.
     */
    method RequestAlertRedemption(accessToken: string, amount: int) returns (r: Result<MockDebit, ClientError>)
      modifies this
      ensures accessToken !in old(states) ==> r == Failure(Unauthorized) && states == old(states)
      ensures (accessToken in old(states)
               && old(Available(states[accessToken].initialBalance, Snapshot(states[accessToken].debits))) < amount) ==>
        r == Failure(NotEnoughPoints) && states == old(states)
      ensures (accessToken in old(states)
               && amount <= old(Available(states[accessToken].initialBalance, Snapshot(states[accessToken].debits)))) ==>
        r.Success? && fresh(r.value) && r.value.State() == DebitState(amount, false, false)
        && states == old(states)[accessToken := UserState(old(states[accessToken].initialBalance),
                                                          old(states[accessToken].debits) + [r.value])]
    {
      var balance := GetAvailableBalance(accessToken);
      if balance.Failure? {
        return Failure(balance.error);
      }
      if balance.value < amount {
        return Failure(NotEnoughPoints);
      }
      var debit := new MockDebit(amount);
      var state := states[accessToken];
      states := states[accessToken := state.(debits := state.debits + [debit])];
      return Success(debit);
    }
  }

  /** After a successful request, the token's snapshot gains the new pending debit at its end, so its balance drops by the amount. */
  lemma RequestLowersAvailable(initial: int, debits: seq<MockDebit>, d: MockDebit)
    requires d.State() == DebitState(d.amount, false, false)
    ensures Snapshot(debits + [d]) == Snapshot(debits) + [DebitState(d.amount, false, false)]
    ensures Available(initial, Snapshot(debits + [d])) == Available(initial, Snapshot(debits)) - d.amount
  {
    assert (debits + [d])[..|debits|] == debits;
    AvailableAppendPending(initial, Snapshot(debits), d.amount);
  }
}
