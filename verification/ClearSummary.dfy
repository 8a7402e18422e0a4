/** The summary built from the grouped table: sorted rows and counts. */
module ClearSummary {
  import opened Prelude
  import opened Ordering
  import opened ClearBalance
  import opened ClearTotals
  import opened ClearGrouping

  // ---- sorted rows ----

  /** The order of rows: by unit, then mint, then keyset. */
  predicate Upto(a: Key, b: Key) {
    if a.currency != b.currency then LessEq(a.currency, b.currency)
    else if a.mint != b.mint then LessEq(a.mint, b.mint)
    else LessEq(a.keyset, b.keyset)
  }

  /** Python's order of two strings. */
  ghost predicate Sorts(a: string, b: string) { a <= b || exists k :: FirstDifference(a, b, k) && a[k] < b[k] }

  lemma UptoMeans(a: Key, b: Key)
    ensures Upto(a, b) <==>
            || (a.currency != b.currency && Sorts(a.currency, b.currency))
            || (a.currency == b.currency && a.mint != b.mint && Sorts(a.mint, b.mint))
            || (a.currency == b.currency && a.mint == b.mint && Sorts(a.keyset, b.keyset))
  {
    LessEqMeans(a.currency, b.currency);
    LessEqMeans(a.mint, b.mint);
    LessEqMeans(a.keyset, b.keyset);
    hide LessEq, FirstDifference;
  }

  lemma UptoTotal(a: Key, b: Key)
    ensures Upto(a, b) || Upto(b, a)
    ensures Upto(a, b) && Upto(b, a) ==> a == b
  {
    LessEqTotal(a.currency, b.currency);
    LessEqTotal(a.mint, b.mint);
    LessEqTotal(a.keyset, b.keyset);
    if Upto(a, b) && Upto(b, a) {
      if a.currency != b.currency { LessEqAntisymmetric(a.currency, b.currency); }
      else if a.mint != b.mint { LessEqAntisymmetric(a.mint, b.mint); }
      else { LessEqAntisymmetric(a.keyset, b.keyset); }
    }
  }

  lemma UptoTransitive(a: Key, b: Key, c: Key)
    requires Upto(a, b) && Upto(b, c)
    ensures Upto(a, c)
  {
    if a.currency != b.currency && b.currency != c.currency {
      LessEqTransitive(a.currency, b.currency, c.currency);
      if a.currency == c.currency { LessEqAntisymmetric(a.currency, b.currency); }
    } else if a.currency == b.currency == c.currency {
      if a.mint != b.mint && b.mint != c.mint {
        LessEqTransitive(a.mint, b.mint, c.mint);
        if a.mint == c.mint { LessEqAntisymmetric(a.mint, b.mint); }
      } else if a.mint == b.mint == c.mint {
        LessEqTransitive(a.keyset, b.keyset, c.keyset);
      }
    }
  }

  /** Each key of the set once, in order. */
  ghost predicate Lists(keys: seq<Key>, s: set<Key>) {
    && (forall k :: k in keys <==> k in s)
    && (forall i, j :: 0 <= i < j < |keys| ==> keys[i] != keys[j] && Upto(keys[i], keys[j]))
  }

  lemma ListsTail(a: seq<Key>, s: set<Key>)
    requires a != [] && Lists(a, s)
    ensures Lists(a[1..], s - {a[0]})
  {
    assert a == [a[0]] + a[1..];
    forall k
      ensures k in a[1..] <==> k in s - {a[0]}
    {
      assert k in a <==> k == a[0] || k in a[1..];
    }
  }

  lemma {:induction false} ListedCount(keys: seq<Key>, s: set<Key>)
    requires Lists(keys, s)
    ensures |keys| == |s| && forall i :: 0 <= i < |keys| ==> keys[i] in s
    decreases |keys|
  {
    if keys != [] {
      assert keys[0] in s;
      ListsTail(keys, s);
      ListedCount(keys[1..], s - {keys[0]});
    } else {
      assert s == {};
    }
  }

  lemma {:induction false} ListingIsUnique(a: seq<Key>, b: seq<Key>, s: set<Key>)
    requires Lists(a, s) && Lists(b, s)
    ensures a == b
    decreases |a|
  {
    hide Upto;
    ListedCount(a, s);
    ListedCount(b, s);
    if a != [] {
      assert a[0] in s && a[0] in b;
      assert b[0] in s && b[0] in a;
      UptoTotal(a[0], b[0]);
      assert a[0] == b[0];
      assert a == [a[0]] + a[1..] && b == [b[0]] + b[1..];
      ListsTail(a, s);
      ListsTail(b, s);
      ListingIsUnique(a[1..], b[1..], s - {a[0]});
    }
  }

  method Least(s: set<Key>) returns (x: Key)
    requires s != {}
    ensures x in s && forall y :: y in s ==> Upto(x, y)
  {
    x :| x in s;
    var rest := s - {x};
    UptoTotal(x, x);
    while rest != {}
      invariant rest <= s && x in s && forall y :: y in s && y !in rest ==> Upto(x, y)
      decreases |rest|
    {
      var y :| y in rest;
      rest := rest - {y};
      UptoTotal(x, y);
      if !Upto(x, y) {
        UptoTotal(y, y);
        forall z | z in s && z !in rest
          ensures Upto(y, z)
        {
          if z != y { UptoTransitive(y, x, z); }
        }
        x := y;
      }
    }
  }

  method SortKeys(s: set<Key>) returns (keys: seq<Key>)
    ensures Lists(keys, s)
  {
    keys := [];
    var left := s;
    hide Upto;
    while left != {}
      invariant left <= s && Lists(keys, s - left)
      invariant forall i, y :: 0 <= i < |keys| && y in left ==> Upto(keys[i], y)
      decreases |left|
    {
      var x := Least(left);
      keys, left := keys + [x], left - {x};
    }
  }

  // ---- counts ----

  /** The keyset as the count of pending balances reads it: only a list of one, where None reads "None". */
  function CountName(ids: seq<Option<string>>): string {
    if |ids| != 1 then "" else if ids[0].Some? then Strip(ids[0].value) else "None"
  }

  function CountKey(r: Receipt): Key
    requires r.Receipt?
  {
    KeyOf(r.currency, r.mint, CountName(r.keysetIds))
  }

  /** A list of one names its keyset, where a missing one reads "None"; any other list names none. */
  lemma CountMeans(r: Receipt, key: Key)
    requires r.Receipt?
    ensures CountKey(r) == key <==>
            && FiledUnder(r.currency, r.mint, key)
            && if |r.keysetIds| != 1 then key.keyset == ""
               else if r.keysetIds[0].None? then key.keyset == "None" else Trims(r.keysetIds[0].value, key.keyset)
  {
    KeyMeans(r.currency, r.mint, CountName(r.keysetIds), key);
    if |r.keysetIds| == 1 && r.keysetIds[0].Some? { TrimsIsStrip(r.keysetIds[0].value, key.keyset); }
    hide Strip, Trims, FiledUnder, KeyOf;
  }

  function PendingKeys(receipts: seq<Receipt>): set<Key> {
    set r | r in receipts && PendingReceipt(r) :: CountKey(r)
  }

  function PendingGroups(receipts: seq<Receipt>): set<Key> {
    set r | r in receipts && PendingReceipt(r) :: GroupKey(r)
  }

  lemma NamedOne(id: Option<string>)
    ensures Named([id]) == if Strip(Or(id, "")) == "" then [] else [Strip(Or(id, ""))]
  {
    assert [id][..0] == [];
  }

  lemma {:induction false} NamedAreNotEmpty(ids: seq<Option<string>>)
    ensures forall i :: 0 <= i < |Named(ids)| ==> Named(ids)[i] != ""
  {
    if ids != [] { NamedAreNotEmpty(ids[..|ids| - 1]); }
  }

  /** The two ways of reading a receipt's keyset agree exactly when a list of one holds text and no other list holds one name. */
  lemma KeysAgreeIff(r: Receipt)
    requires r.Receipt?
    ensures CountKey(r) == GroupKey(r) <==>
            if |r.keysetIds| == 1 then r.keysetIds[0].Some? else |Named(r.keysetIds)| != 1
  {
    if |r.keysetIds| == 1 {
      var id := r.keysetIds[0];
      assert r.keysetIds == [id];
      NamedOne(id);
      assert Strip("") == "";
    } else {
      NamedAreNotEmpty(r.keysetIds);
    }
  }

  lemma {:induction false} CountsReceipts(entries: seq<Entry>, key: Key)
    ensures Sum(entries, key).count > 0 <==> exists e :: e in entries && e.key == key && e.row.count > 0
  {
    if entries != [] {
      var n := |entries| - 1;
      assert entries == entries[..n] + [entries[n]];
      CountsReceipts(entries[..n], key);
    }
  }

  lemma {:induction false} BalancesCountNothing(balances: seq<Balance>, e: Entry)
    requires e in AllOf(BalanceEntries, balances)
    ensures e.row.count == 0
  {
    var n := |balances| - 1;
    if e in BalanceEntries(balances[n]) {
      OneBalanceCountsNothing(balances[n], e);
    } else {
      BalancesCountNothing(balances[..n], e);
    }
  }

  lemma OneBalanceCountsNothing(b: Balance, e: Entry)
    requires e in BalanceEntries(b)
    ensures e.row.count == 0
  {
    if b.keysets.Some? && e in KeysetEntries(b, b.keysets.value) { KeysetsCountNothing(b, b.keysets.value, e); }
  }

  lemma {:induction false} KeysetsCountNothing(b: Balance, ks: seq<Keyset>, e: Entry)
    requires b.Balance? && e in KeysetEntries(b, ks)
    ensures e.row.count == 0
  {
    var n := |ks| - 1;
    if e in KeysetEntries(b, ks[..n]) { KeysetsCountNothing(b, ks[..n], e); }
  }

  lemma {:induction false} ReceiptsCountOnce(receipts: seq<Receipt>, e: Entry)
    ensures e in AllOf(ReceiptEntries, receipts) <==>
            exists r :: r in receipts && PendingReceipt(r) && e == Entry(GroupKey(r), Row(0, 0, Number(r.amount), 1))
  {
    if receipts != [] {
      var n := |receipts| - 1;
      assert receipts == receipts[..n] + [receipts[n]];
      ReceiptsCountOnce(receipts[..n], e);
      ReceiptGives(receipts[n]);
      hide GroupKey, PendingReceipt, ReceiptEntries;
      assert e in AllOf(ReceiptEntries, receipts) <==> e in AllOf(ReceiptEntries, receipts[..n]) || e in ReceiptEntries(receipts[n]);
    }
  }

  /** Rows with pending transfers are those some pending receipt is grouped under. */
  lemma PendingRows(balances: seq<Balance>, receipts: seq<Receipt>, t: Table)
    requires Conserves(t, Entries(balances, receipts))
    ensures (set k | k in t && t[k].count > 0) == PendingGroups(receipts)
  {
    var entries := Entries(balances, receipts);
    hide BalanceEntries, ReceiptEntries, GroupKey, AllOf;
    forall k
      ensures k in t && t[k].count > 0 <==> k in PendingGroups(receipts)
    {
      CountsReceipts(entries, k);
      if k in t && t[k].count > 0 {
        var e :| e in entries && e.key == k && e.row.count > 0;
        if e in AllOf(BalanceEntries, balances) { BalancesCountNothing(balances, e); }
        ReceiptsCountOnce(receipts, e);
      }
      if k in PendingGroups(receipts) {
        var r :| r in receipts && PendingReceipt(r) && GroupKey(r) == k;
        var e := Entry(k, Row(0, 0, Number(r.amount), 1));
        ReceiptsCountOnce(receipts, e);
        assert e in entries && k in Keys(entries);
      }
    }
  }

  /** The count of pending balances is the number of rows with pending transfers when every receipt's keyset reads the same both ways. */
  lemma PendingCountIsRows(balances: seq<Balance>, receipts: seq<Receipt>, t: Table)
    requires Conserves(t, Entries(balances, receipts))
    requires forall r :: r in receipts && PendingReceipt(r) ==> CountKey(r) == GroupKey(r)
    ensures |PendingKeys(receipts)| == |set k | k in t && t[k].count > 0|
  {
    PendingRows(balances, receipts, t);
    hide Conserves, PendingReceipt, GroupKey, CountKey;
    assert PendingKeys(receipts) == PendingGroups(receipts);
  }

  /** The same receipt with its keyset named plainly: alone where the grouping found one, not at all otherwise. */
  function Plainly(r: Receipt): Receipt
    requires r.Receipt?
  {
    var names := Named(r.keysetIds);
    r.(keysetIds := if |names| == 1 then [Some(names[0])] else [])
  }

  lemma {:induction false} StripTwice(s: string)
    ensures Strip(Strip(s)) == Strip(s)
    decreases |s|
  {
    if s != "" && IsSpace(s[0]) {
      StripTwice(s[1..]);
    } else if s != "" && IsSpace(s[|s| - 1]) {
      StripTwice(s[..|s| - 1]);
    }
  }

  lemma {:induction false} NamesAreStripped(ids: seq<Option<string>>)
    ensures forall i :: 0 <= i < |Named(ids)| ==> Strip(Named(ids)[i]) == Named(ids)[i] && Named(ids)[i] != ""
  {
    if ids != [] {
      NamesAreStripped(ids[..|ids| - 1]);
      StripTwice(Or(ids[|ids| - 1], ""));
      hide Strip;
    }
  }

  lemma PlainlyReadsAlike(r: Receipt)
    requires r.Receipt?
    ensures CountKey(Plainly(r)) == GroupKey(Plainly(r)) == GroupKey(r)
  {
    var names := Named(r.keysetIds);
    NamesAreStripped(r.keysetIds);
    if |names| == 1 { NamedOne(Some(names[0])); }
    hide Strip;
  }

  /**
   Where they do not agree it need not be: any pending receipt whose keyset reads differently, and
   the same receipt with its keyset named plainly, are one row and count as two balances. So no
   weaker condition on single receipts would do.
   */
  lemma DisagreeingReceiptCountsTwice(r: Receipt)
    requires PendingReceipt(r) && CountKey(r) != GroupKey(r)
    ensures PendingReceipt(Plainly(r)) && CountKey(Plainly(r)) == GroupKey(Plainly(r))
    ensures |PendingKeys([r, Plainly(r)])| == 2 && |PendingGroups([r, Plainly(r)])| == 1
  {
    var twin := Plainly(r);
    PlainlyReadsAlike(r);
    assert PendingReceipt(twin);
    hide PendingReceipt, GroupKey, CountKey, Plainly;
    var receipts := [r, twin];
    assert r in receipts && twin in receipts;
    assert PendingKeys(receipts) == {CountKey(r), CountKey(twin)};
    assert PendingGroups(receipts) == {GroupKey(r)};
  }

  // ---- the summary ----

  datatype Summary = Summary(pending: bool, count: nat, pendingBalanceCount: nat, balanceCount: nat, spendable: bool,
                             balances: seq<(Key, Row)>)

  function PendingOnly(receipts: seq<Receipt>): seq<Receipt> {
    if receipts == [] then []
    else PendingOnly(receipts[..|receipts| - 1]) + if PendingReceipt(receipts[|receipts| - 1]) then [receipts[|receipts| - 1]] else []
  }

  method CountPending(receipts: seq<Receipt>) returns (count: nat)
    ensures count == |PendingOnly(receipts)|
  {
    hide PendingReceipt;
    count := 0;
    assert receipts[..0] == [];
    for i := 0 to |receipts|
      invariant count == |PendingOnly(receipts[..i])|
    {
      assert receipts[..i + 1][..i] == receipts[..i];
      if PendingReceipt(receipts[i]) { count := count + 1; }
    }
    assert receipts[..|receipts|] == receipts;
  }

  function KeysOf(rows: seq<(Key, Row)>): seq<Key> { seq(|rows|, i requires 0 <= i < |rows| => rows[i].0) }

  method ListRows(t: Table) returns (rows: seq<(Key, Row)>)
    ensures Lists(KeysOf(rows), t.Keys) && |rows| == |t|
    ensures forall i :: 0 <= i < |rows| ==> rows[i].0 in t && rows[i].1 == t[rows[i].0]
  {
    hide Lists;
    var keys := SortKeys(t.Keys);
    ListedCount(keys, t.Keys);
    rows := [];
    for i := 0 to |keys|
      invariant |rows| == i && forall j :: 0 <= j < i ==> rows[j] == (keys[j], t[keys[j]])
    {
      rows := rows + [(keys[i], t[keys[i]])];
    }
    assert KeysOf(rows) == keys;
  }

  /** Every row appears once, in order, with its whole total; the counts are those of the pending receipts and the rows. */
  ghost predicate Summarises(s: Summary, t: Table, balances: seq<Balance>, receipts: seq<Receipt>) {
    && Conserves(t, Entries(balances, receipts))
    && |s.balances| == |t| == s.balanceCount && Lists(KeysOf(s.balances), t.Keys)
    && (forall i :: 0 <= i < |s.balances| ==> s.balances[i].0 in t && s.balances[i].1 == t[s.balances[i].0])
    && s.count == |PendingOnly(receipts)| && (s.pending <==> s.count > 0)
    && s.pendingBalanceCount == |PendingKeys(receipts)|
    && (s.spendable <==> exists k :: k in t && t[k].amount > 0)
  }

  lemma {:induction false} PendingAreCounted(receipts: seq<Receipt>)
    ensures |PendingOnly(receipts)| == OfReceipts(receipts, None, ClearTotals.Receipts)
  {
    if receipts != [] {
      var last := receipts[|receipts| - 1];
      PendingAreCounted(receipts[..|receipts| - 1]);
      if last.Receipt? { ReceiptMeans(last, GroupKey(last)); }
      hide GroupKey;
    }
  }

  lemma RowsAreEverything(s: Summary, t: Table, balances: seq<Balance>, receipts: seq<Receipt>, c: Column)
    requires Summarises(s, t, balances, receipts)
    ensures Listed(s.balances, c) == OfBalances(balances, None, c) + OfReceipts(receipts, None, c)
  {
    hide Conserves, Upto, PendingOnly, PendingKeys, Listed, OfBalances, OfReceipts, Entries;
    ListedIsEverything(s.balances, KeysOf(s.balances), t, balances, receipts, c);
  }

  /** `_clear_balance_summary`: the listed rows account for the inputs, and together hold all of them. */
  method Summarise(balances: seq<Balance>, receipts: seq<Receipt>) returns (s: Summary, ghost t: Table)
    ensures Summarises(s, t, balances, receipts) && Accounts(t, balances, receipts)
    ensures forall c: Column :: Listed(s.balances, c) == OfBalances(balances, None, c) + OfReceipts(receipts, None, c)
    ensures s.count == OfReceipts(receipts, None, ClearTotals.Receipts)
  {
    s, t := BuildSummary(balances, receipts);
    hide Summarises, Accounts, Listed, OfBalances, OfReceipts;
    forall c: Column
      ensures Listed(s.balances, c) == OfBalances(balances, None, c) + OfReceipts(receipts, None, c)
    {
      RowsAreEverything(s, t, balances, receipts, c);
    }
    PendingAreCounted(receipts);
    assert s.count == |PendingOnly(receipts)| by { CountIsPending(s, t, balances, receipts); }
  }

  lemma CountIsPending(s: Summary, t: Table, balances: seq<Balance>, receipts: seq<Receipt>)
    requires Summarises(s, t, balances, receipts)
    ensures s.count == |PendingOnly(receipts)|
  {
  }

  method BuildSummary(balances: seq<Balance>, receipts: seq<Receipt>) returns (s: Summary, ghost t: Table)
    ensures Summarises(s, t, balances, receipts) && Accounts(t, balances, receipts)
  {
    hide Conserves, Accounts, Lists, PendingKeys, PendingOnly, Entries, KeysOf;
    var table := Group(balances, receipts);
    t := table;
    var rows := ListRows(table);
    var count := CountPending(receipts);
    var spendable := exists k :: k in table.Keys && table[k].amount > 0;
    s := Summary(count > 0, count, |PendingKeys(receipts)|, |table|, spendable, rows);
  }

  // ---- the order of the input ----

  lemma {:induction false} PendingOnlyCounts(receipts: seq<Receipt>, r: Receipt)
    ensures multiset(PendingOnly(receipts))[r] == if PendingReceipt(r) then multiset(receipts)[r] else 0
  {
    if receipts != [] {
      var n := |receipts| - 1;
      PendingOnlyCounts(receipts[..n], r);
      assert receipts == receipts[..n] + [receipts[n]];
      hide PendingReceipt;
    }
  }

  lemma SamePending(receipts: seq<Receipt>, receipts2: seq<Receipt>)
    requires multiset(receipts) == multiset(receipts2)
    ensures |PendingOnly(receipts)| == |PendingOnly(receipts2)| && PendingKeys(receipts) == PendingKeys(receipts2)
  {
    hide PendingReceipt, CountKey;
    forall r
      ensures multiset(PendingOnly(receipts))[r] == multiset(PendingOnly(receipts2))[r]
      ensures r in receipts <==> r in receipts2
    {
      PendingOnlyCounts(receipts, r);
      PendingOnlyCounts(receipts2, r);
      assert r in multiset(receipts) <==> r in multiset(receipts2);
    }
    assert multiset(PendingOnly(receipts)) == multiset(PendingOnly(receipts2));
    assert |multiset(PendingOnly(receipts))| == |multiset(PendingOnly(receipts2))|;
  }

  lemma SameRows(a: seq<(Key, Row)>, b: seq<(Key, Row)>, t: Table)
    requires KeysOf(a) == KeysOf(b)
    requires forall i :: 0 <= i < |a| ==> a[i].0 in t && a[i].1 == t[a[i].0]
    requires forall i :: 0 <= i < |b| ==> b[i].0 in t && b[i].1 == t[b[i].0]
    ensures a == b
  {
    assert |a| == |KeysOf(a)| == |KeysOf(b)| == |b|;
    forall i | 0 <= i < |a|
      ensures a[i] == b[i]
    {
      assert a[i].0 == KeysOf(a)[i] == KeysOf(b)[i] == b[i].0;
    }
  }

  /** So the whole summary is the same for any reordering of the balances and of the receipts. */
  lemma SummaryIgnoresOrder(balances: seq<Balance>, receipts: seq<Receipt>, balances2: seq<Balance>, receipts2: seq<Receipt>,
                            s: Summary, t: Table, s2: Summary, t2: Table)
    requires multiset(balances) == multiset(balances2) && multiset(receipts) == multiset(receipts2)
    requires Summarises(s, t, balances, receipts) && Summarises(s2, t2, balances2, receipts2)
    ensures s == s2 && t == t2
  {
    hide Conserves, Entries, Lists, KeysOf, PendingOnly, PendingKeys;
    GroupingIgnoresOrder(balances, receipts, balances2, receipts2, t, t2);
    ListingIsUnique(KeysOf(s.balances), KeysOf(s2.balances), t.Keys);
    SamePending(receipts, receipts2);
    SameRows(s.balances, s2.balances, t);
  }
}
