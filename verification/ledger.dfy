/**
  The bank: an ordered collection of accounts in registration order. Lookup
  hands back the position of an account instead of a pointer to it; a client
  that changes the account through that handle writes the new value back at
  the same position (`Replace`).
*/
module Ledger {
  import opened Wrappers
  import opened Accounts

  type Bank = seq<Account>

  /** Every account in the bank keeps its balance invariant. */
  predicate AllValid(b: Bank) {
    forall i :: 0 <= i < |b| ==> Valid(b[i])
  }

  /** Registers an account at the end; numbers are not checked for uniqueness. */
  function AddAccount(b: Bank, a: Account): (r: Bank)
    ensures |r| == |b| + 1
    ensures r[|b|] == a
    ensures forall i :: 0 <= i < |b| ==> r[i] == b[i]
    ensures AllValid(b) && Valid(a) ==> AllValid(r)
  {
    b + [a]
  }

  /** The linear scan of `findAccount`, from position `from` onwards. */
  function FindFrom(b: Bank, number: string, from: nat): (r: Option<nat>)
    requires from <= |b|
    ensures r.Some? ==> from <= r.value < |b| && b[r.value].number == number
    ensures r.Some? ==> forall j :: from <= j < r.value ==> b[j].number != number
    ensures r.None? <==> forall j :: from <= j < |b| ==> b[j].number != number
    decreases |b| - from
  {
    if from == |b| then None
    else if b[from].number == number then Some(from)
    else FindFrom(b, number, from + 1)
  }

  /** The position of the first account with this number, or none. */
  function FindAccount(b: Bank, number: string): (r: Option<nat>)
    ensures r.Some? ==> r.value < |b| && b[r.value].number == number
    ensures r.Some? ==> forall j :: 0 <= j < r.value ==> b[j].number != number
    ensures r.None? <==> forall j :: 0 <= j < |b| ==> b[j].number != number
  {
    FindFrom(b, number, 0)
  }

  /** Writes back the account a client changed through the handle `i`. */
  function Replace(b: Bank, i: nat, a: Account): (r: Bank)
    requires i < |b|
    ensures |r| == |b| && r[i] == a
    ensures forall j :: 0 <= j < |b| && j != i ==> r[j] == b[j]
  {
    b[i := a]
  }

  /** `processMonthlyUpdates`: each account's own monthly adjustment, in
      registration order. */
  function ProcessMonthlyUpdates(b: Bank): (r: Bank)
    ensures |r| == |b|
    ensures forall i :: 0 <= i < |b| ==> r[i] == MonthlyUpdate(b[i])
    ensures forall i :: 0 <= i < |b| ==> SameIdentity(b[i], r[i])
    ensures AllValid(b) ==> AllValid(r)
    decreases |b|
  {
    if |b| == 0 then [] else [MonthlyUpdate(b[0])] + ProcessMonthlyUpdates(b[1..])
  }

  /** Registering an account never changes what an existing number finds; a
      number found nowhere before finds the new account exactly when it
      carries that number. */
  lemma FindAfterAdd(b: Bank, a: Account, number: string)
    ensures FindAccount(b, number).Some? ==>
              FindAccount(AddAccount(b, a), number) == FindAccount(b, number)
    ensures FindAccount(b, number).None? ==>
              FindAccount(AddAccount(b, a), number) == (if a.number == number then Some(|b|) else None)
  {
    var r := FindAccount(AddAccount(b, a), number);
    var s := FindAccount(b, number);
    if s.Some? {
      assert AddAccount(b, a)[s.value].number == number;
    } else if a.number == number {
      assert AddAccount(b, a)[|b|].number == number;
    }
  }

  /** Two banks whose numbers agree position by position answer every lookup alike. */
  lemma FindSeesOnlyNumbers(b: Bank, c: Bank, number: string)
    requires |b| == |c|
    requires forall i :: 0 <= i < |b| ==> b[i].number == c[i].number
    ensures FindAccount(b, number) == FindAccount(c, number)
  {
    var r := FindAccount(b, number);
    var s := FindAccount(c, number);
    if r.Some? {
      assert c[r.value].number == number;
    }
    if s.Some? {
      assert b[s.value].number == number;
    }
  }

  /** A handle stays valid across the client's changes to the account it names:
      looking the number up again finds the same, changed account. */
  lemma HandleSeesChanges(b: Bank, number: string, a: Account)
    requires FindAccount(b, number).Some?
    requires a.number == number
    ensures FindAccount(Replace(b, FindAccount(b, number).value, a), number) == FindAccount(b, number)
    ensures Replace(b, FindAccount(b, number).value, a)[FindAccount(b, number).value] == a
  {
    var i := FindAccount(b, number).value;
    FindSeesOnlyNumbers(b, Replace(b, i, a), number);
  }

  /** Monthly processing leaves every lookup where it was. */
  lemma FindAfterMonthlyUpdates(b: Bank, number: string)
    ensures FindAccount(ProcessMonthlyUpdates(b), number) == FindAccount(b, number)
  {
    FindSeesOnlyNumbers(b, ProcessMonthlyUpdates(b), number);
  }
}
