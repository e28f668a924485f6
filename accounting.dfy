/**
 * The "new accounts" analytics: the accounts of a map from user name to
 * account are copied out in the entries' iteration order, and those
 * registered more than 15 days ago are then removed in place, keeping the
 * order of the rest.
 */
module Accounting {
  import opened CppInt

  datatype UserAccount = UserAccount(balance: Int32, daysSinceRegistered: Int32)

  /** An account is new when it registered no more than 15 days ago. */
  predicate IsNew(account: UserAccount) {
    !(account.daysSinceRegistered > 15)
  }

  /** The values of the map's entries, in the order the entries are iterated. */
  function Values(entries: seq<(string, UserAccount)>): (values: seq<UserAccount>)
    ensures |values| == |entries|
    ensures forall i :: 0 <= i < |entries| ==> values[i] == entries[i].1
  {
    seq(|entries|, i requires 0 <= i < |entries| => entries[i].1)
  }

  /** The new accounts of a sequence, in their original order. */
  function NewOnly(accounts: seq<UserAccount>): (kept: seq<UserAccount>) {
    if accounts == [] then []
    else (if IsNew(accounts[0]) then [accounts[0]] else []) + NewOnly(accounts[1..])
  }

  /**
   * The filter keeps exactly the new accounts, each as often as it occurs,
   * and never lengthens the sequence.
   */
  lemma {:induction false} NewOnlyKeepsExactlyTheNew(accounts: seq<UserAccount>)
    ensures |NewOnly(accounts)| <= |accounts|
    ensures forall a :: a in NewOnly(accounts) <==> a in accounts && IsNew(a)
    ensures forall a :: IsNew(a) ==> multiset(NewOnly(accounts))[a] == multiset(accounts)[a]
    ensures forall a :: !IsNew(a) ==> multiset(NewOnly(accounts))[a] == 0
  {
    if accounts != [] {
      NewOnlyKeepsExactlyTheNew(accounts[1..]);
      assert accounts == [accounts[0]] + accounts[1..];
    }
  }

  /**
   * The filter preserves order: what it keeps of a sequence's front comes
   * before what it keeps of the rest.
   */
  lemma {:induction false} NewOnlyDistributes(front: seq<UserAccount>, back: seq<UserAccount>)
    ensures NewOnly(front + back) == NewOnly(front) + NewOnly(back)
    decreases |front|
  {
    if front != [] {
      assert (front + back)[1..] == front[1..] + back;
      NewOnlyDistributes(front[1..], back);
    } else {
      assert front + back == back;
    }
  }

  /** Applying the filter a second time removes nothing more. */
  lemma {:induction false} NewOnlyIdempotent(accounts: seq<UserAccount>)
    ensures NewOnly(NewOnly(accounts)) == NewOnly(accounts)
  {
    if accounts != [] {
      NewOnlyIdempotent(accounts[1..]);
      var head := if IsNew(accounts[0]) then [accounts[0]] else [];
      NewOnlyDistributes(head, NewOnly(accounts[1..]));
      if IsNew(accounts[0]) {
        assert head[1..] == [];
      }
    }
  }

  /** The filter keeps one more account, at the end, exactly when the appended account is new. */
  lemma NewOnlySnoc(accounts: seq<UserAccount>, account: UserAccount)
    ensures NewOnly(accounts + [account]) == NewOnly(accounts) + (if IsNew(account) then [account] else [])
  {
    NewOnlyDistributes(accounts, [account]);
    assert [account][1..] == [];
  }

  /**
   * computeAnalytics without its printing: the map's values are copied into
   * a buffer, the new ones are moved to the front in order (remove_if), and
   * the tail is dropped (erase). The accounts are passed as a value, so
   * the map itself is left as it was.
   */
  method ComputeAnalytics(accounts: seq<(string, UserAccount)>) returns (newAccounts: seq<UserAccount>)
    ensures newAccounts == NewOnly(Values(accounts))
  {
    var values := Values(accounts);
    var buffer := new UserAccount[|accounts|];
    for i := 0 to |accounts|
      invariant forall k :: 0 <= k < i ==> buffer[k] == accounts[k].1
    {
      buffer[i] := accounts[i].1;
    }
    assert buffer.Length == |values|;
    var kept := 0;
    for read := 0 to buffer.Length
      invariant kept <= read
      invariant buffer[..kept] == NewOnly(values[..read])
      invariant forall k :: read <= k < buffer.Length ==> buffer[k] == values[k]
    {
      var account := buffer[read];
      assert values[..read + 1] == values[..read] + [account];
      NewOnlySnoc(values[..read], account);
      if !(account.daysSinceRegistered > 15) {
        buffer[kept] := account;
        kept := kept + 1;
      }
    }
    assert values[..buffer.Length] == values;
    newAccounts := buffer[..kept];
  }

  /**
   * The example map: Alice (500, 15 days), Bob (1000, 50), Charlie (600, 17)
   * and Donald (1500, 4). The new accounts are Alice's and Donald's, in that
   * order, with balances 500 and 1500; nothing sorts them by balance.
   */
  lemma ExampleNewAccounts()
    ensures var users := [("Alice", UserAccount(500, 15)), ("Bob", UserAccount(1000, 50)),
                          ("Charlie", UserAccount(600, 17)), ("Donald", UserAccount(1500, 4))];
            NewOnly(Values(users)) == [UserAccount(500, 15), UserAccount(1500, 4)]
  {
    var users := [("Alice", UserAccount(500, 15)), ("Bob", UserAccount(1000, 50)),
                  ("Charlie", UserAccount(600, 17)), ("Donald", UserAccount(1500, 4))];
    var alice, bob, charlie, donald := users[0].1, users[1].1, users[2].1, users[3].1;
    assert Values(users) == [alice, bob, charlie, donald];
    assert [alice, bob, charlie, donald][1..] == [bob, charlie, donald];
    assert [bob, charlie, donald][1..] == [charlie, donald];
    assert [charlie, donald][1..] == [donald];
    assert [donald][1..] == [];
    assert NewOnly([donald]) == [donald];
    assert NewOnly([charlie, donald]) == [donald];
    assert NewOnly([bob, charlie, donald]) == [donald];
  }
}
