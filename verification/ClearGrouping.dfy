/** The two loops that group balances and pending receipts, each step and their result told in the inputs' own fields. */
module ClearGrouping {
  import opened Prelude
  import opened ClearBalance
  import opened ClearTotals

  function At(t: Table, key: Key): Row { if key in t then t[key] else NOTHING }

  /** One column of one row grew by that much; the row is there if it was, or if something was filed in it. */
  predicate Grown(t: Table, t2: Table, key: Key, c: Column, more: int, filed: bool) {
    Cell(At(t2, key), c) == Cell(At(t, key), c) + more && (key in t2 <==> key in t || filed)
  }

  lemma AtIsSum(t: Table, entries: seq<Entry>, key: Key)
    requires Conserves(t, entries)
    ensures At(t, key) == Sum(entries, key) && (key in t <==> key in Keys(entries))
  {
    if key !in t { SumOfAbsent(entries, key); }
    hide Sum;
  }

  lemma AddsMore(before: seq<Entry>, entries: seq<Entry>, key: Key, c: Column, more: int, filed: bool)
    requires AddsUp(entries, key, c, more, filed)
    ensures Cell(Sum(before + entries, key), c) == Cell(Sum(before, key), c) + more
    ensures key in Keys(before + entries) <==> key in Keys(before) || filed
  {
    hide Sum, Cell, Plus, Keys;
    SumJoins(before, entries, key);
    CellOfPlus(Sum(before, key), Sum(entries, key), c);
    KeysJoin(before, entries);
  }

  lemma GrowsBy(t: Table, before: seq<Entry>, entries: seq<Entry>, t2: Table, key: Key, c: Column, more: int, filed: bool)
    requires Conserves(t, before) && Conserves(t2, before + entries) && AddsUp(entries, key, c, more, filed)
    ensures Grown(t, t2, key, c, more, filed)
  {
    hide Conserves, AddsUp, Sum, Cell, At, Keys;
    AtIsSum(t, before, key);
    AtIsSum(t2, before + entries, key);
    AddsMore(before, entries, key, c, more, filed);
  }

  lemma AllOfOne<T>(entries: T -> seq<Entry>, items: seq<T>, i: nat)
    requires i < |items|
    ensures AllOf(entries, items[..i + 1]) == AllOf(entries, items[..i]) + entries(items[i])
  {
    assert items[..i + 1][..i] == items[..i];
  }

  method AddKeysets(b: Balance, t: Table, ghost before: seq<Entry>) returns (t2: Table, any: bool)
    requires b.Balance? && b.keysets.Some? && Conserves(t, before)
    ensures Conserves(t2, before + KeysetEntries(b, b.keysets.value))
    ensures any <==> KeysetEntries(b, b.keysets.value) != []
  {
    hide Conserves, KeysetEntry;
    var ks := b.keysets.value;
    t2, any := t, false;
    assert ks[..0] == [] && before + KeysetEntries(b, []) == before;
    for i := 0 to |ks|
      invariant Conserves(t2, before + KeysetEntries(b, ks[..i])) && (any <==> KeysetEntries(b, ks[..i]) != [])
    {
      assert ks[..i + 1][..i] == ks[..i];
      ghost var entries := KeysetEntries(b, ks[..i]);
      if ks[i].Keyset? {
        var e := KeysetEntry(b, ks[i]);
        AddedConserves(t2, before + entries, e);
        assert before + (entries + [e]) == before + entries + [e];
        t2, any := Added(t2, e), true;
      } else {
        assert entries + [] == entries;
      }
    }
    assert ks[..|ks|] == ks;
  }

  /** One balance: by its keysets, or else as a whole. */
  method AddBalance(b: Balance, t: Table, ghost before: seq<Entry>) returns (t2: Table)
    requires b.Balance? && Conserves(t, before)
    ensures Conserves(t2, before + BalanceEntries(b))
    ensures forall key, c: Column :: Grown(t, t2, key, c, OfBalance(b, Some(key), c), BalanceAt(b, key))
  {
    t2 := FileBalance(b, t, before);
    hide Conserves, BalanceEntries, Grown, OfBalance, BalanceAt, AddsUp;
    forall key, c: Column
      ensures Grown(t, t2, key, c, OfBalance(b, Some(key), c), BalanceAt(b, key))
    {
      BalanceAddsUp(b, key, c);
      GrowsBy(t, before, BalanceEntries(b), t2, key, c, OfBalance(b, Some(key), c), BalanceAt(b, key));
    }
  }

  method FileBalance(b: Balance, t: Table, ghost before: seq<Entry>) returns (t2: Table)
    requires b.Balance? && Conserves(t, before)
    ensures Conserves(t2, before + BalanceEntries(b))
  {
    hide Conserves, KeysetEntries, DirectKeyset;
    t2 := t;
    if b.keysets.Some? {
      var any;
      t2, any := AddKeysets(b, t, before);
      if any { return; }
      assert before + [] == before;
    }
    var e := Entry(KeyOf(b.currency, b.mint, DirectKeyset(b)), Row(Natural(b.amount), Natural(b.proofCount), 0, 0));
    AddedConserves(t2, before, e);
    t2 := Added(t2, e);
  }

  method AddBalances(balances: seq<Balance>) returns (t: Table)
    ensures Conserves(t, AllOf(BalanceEntries, balances))
  {
    t := map[];
    assert Conserves(t, []);
    assert balances[..0] == [];
    hide Conserves, BalanceEntries;
    for i := 0 to |balances|
      invariant Conserves(t, AllOf(BalanceEntries, balances[..i]))
    {
      AllOfOne(BalanceEntries, balances, i);
      if balances[i].Balance? {
        t := AddBalance(balances[i], t, AllOf(BalanceEntries, balances[..i]));
      } else {
        OddGivesNothing(balances[i]);
        assert AllOf(BalanceEntries, balances[..i]) + [] == AllOf(BalanceEntries, balances[..i]);
      }
    }
    assert balances[..|balances|] == balances;
  }

  method AddReceipt(r: Receipt, t: Table, ghost before: seq<Entry>) returns (t2: Table)
    requires Conserves(t, before)
    ensures Conserves(t2, before + ReceiptEntries(r))
    ensures forall key, c: Column ::
              Grown(t, t2, key, c, OfReceipt(r, Some(key), c), StillPending(r) && ReceiptAt(r, key))
  {
    t2 := FileReceipt(r, t, before);
    assert StillPending(r) ==> r.Receipt?;
    hide Conserves, ReceiptEntries, Grown, OfReceipt, ReceiptAt, StillPending, AddsUp;
    forall key, c: Column
      ensures Grown(t, t2, key, c, OfReceipt(r, Some(key), c), StillPending(r) && ReceiptAt(r, key))
    {
      ReceiptAddsUp(r, key, c);
      GrowsBy(t, before, ReceiptEntries(r), t2, key, c, OfReceipt(r, Some(key), c), StillPending(r) && ReceiptAt(r, key));
    }
  }

  method FileReceipt(r: Receipt, t: Table, ghost before: seq<Entry>) returns (t2: Table)
    requires Conserves(t, before)
    ensures Conserves(t2, before + ReceiptEntries(r))
  {
    ReceiptGives(r);
    hide Conserves, ReceiptEntries, GroupKey;
    if PendingReceipt(r) {
      var e := Entry(GroupKey(r), Row(0, 0, Number(r.amount), 1));
      AddedConserves(t, before, e);
      t2 := Added(t, e);
    } else {
      assert before + [] == before;
      t2 := t;
    }
  }

  method AddReceipts(receipts: seq<Receipt>, t: Table, ghost before: seq<Entry>) returns (t2: Table)
    requires Conserves(t, before)
    ensures Conserves(t2, before + AllOf(ReceiptEntries, receipts))
  {
    hide Conserves, ReceiptEntries;
    t2 := t;
    assert receipts[..0] == [] && before + AllOf(ReceiptEntries, []) == before;
    for i := 0 to |receipts|
      invariant Conserves(t2, before + AllOf(ReceiptEntries, receipts[..i]))
    {
      AllOfOne(ReceiptEntries, receipts, i);
      ghost var entries, more := AllOf(ReceiptEntries, receipts[..i]), ReceiptEntries(receipts[i]);
      assert before + (entries + more) == before + entries + more;
      t2 := AddReceipt(receipts[i], t2, before + entries);
    }
    assert receipts[..|receipts|] == receipts;
  }

  /** The two loops over balances and pending receipts: nothing of the inputs is lost or counted twice. */
  method Group(balances: seq<Balance>, receipts: seq<Receipt>) returns (t: Table)
    ensures Conserves(t, Entries(balances, receipts)) && Accounts(t, balances, receipts)
  {
    hide Conserves, AllOf, Accounts;
    t := AddBalances(balances);
    t := AddReceipts(receipts, t, AllOf(BalanceEntries, balances));
    ConservingAccounts(t, balances, receipts);
  }

  lemma OddGivesNothing(b: Balance)
    ensures b.OddBalance? ==> BalanceEntries(b) == []
  {
  }
}
