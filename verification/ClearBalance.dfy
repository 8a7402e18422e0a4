/**
 Grouping Clear balances and pending receipts by mint, unit and keyset. Values
 that a JSON object may lack, or hold in another type, are options here.
 */
module ClearBalance {
  import opened Prelude

  datatype Keyset = OddKeyset | Keyset(keyset: Option<string>, keysetId: Option<string>, id: Option<string>,
                                       amount: Option<int>, proofCount: Option<int>)

  /** `keysets` and `keysetIds` are None when the value is no list. */
  datatype Balance = OddBalance | Balance(currency: Option<string>, mint: Option<string>, keysets: Option<seq<Keyset>>,
                                          keysetId: Option<string>, keyset: Option<string>, keysetIds: Option<seq<Option<string>>>,
                                          amount: Option<int>, proofCount: Option<int>)

  datatype Receipt = OddReceipt | Receipt(status: Option<string>, currency: Option<string>, mint: Option<string>,
                                          keysetIds: seq<Option<string>>, amount: Option<int>)

  datatype Key = Key(currency: string, mint: string, keyset: string)

  datatype Row = Row(amount: nat, proofs: nat, pendingAmount: int, count: nat)

  type Table = map<Key, Row>

  // ---- reading values ----

  /** `value or default`, as text. */
  function Or(value: Option<string>, default: string): string {
    if value.Some? && value.value != "" then value.value else default
  }

  /** A non-negative number; zero for what is missing, negative or no number. */
  function Natural(value: Option<int>): nat { if value.Some? && value.value > 0 then value.value else 0 }

  function Number(value: Option<int>): int { if value.Some? then value.value else 0 }

  // ---- what each input contributes ----

  /** A contribution to one row. */
  datatype Entry = Entry(key: Key, row: Row)

  const NOTHING := Row(0, 0, 0, 0)

  function Plus(a: Row, b: Row): Row {
    Row(a.amount + b.amount, a.proofs + b.proofs, a.pendingAmount + b.pendingAmount, a.count + b.count)
  }

  function KeyOf(currency: Option<string>, mint: Option<string>, keyset: string): Key {
    Key(Or(currency, "unknown"), Bare(Or(mint, "unknown")), keyset)
  }

  function KeysetEntry(b: Balance, k: Keyset): Entry
    requires b.Balance? && k.Keyset?
  {
    Entry(KeyOf(b.currency, b.mint, Strip(Or(k.keyset, Or(k.keysetId, Or(k.id, ""))))), Row(Natural(k.amount), Natural(k.proofCount), 0, 0))
  }

  function KeysetEntries(b: Balance, ks: seq<Keyset>): seq<Entry>
    requires b.Balance?
  {
    if ks == [] then []
    else KeysetEntries(b, ks[..|ks| - 1]) + if ks[|ks| - 1].Keyset? then [KeysetEntry(b, ks[|ks| - 1])] else []
  }

  function DirectKeyset(b: Balance): string
    requires b.Balance?
  {
    var direct := Strip(Or(b.keysetId, Or(b.keyset, "")));
    if direct == "" && b.keysetIds.Some? && |b.keysetIds.value| == 1 then Strip(Or(b.keysetIds.value[0], "")) else direct
  }

  /** A balance counts by keyset if it names any usable one, and as a whole otherwise. */
  function BalanceEntries(b: Balance): seq<Entry> {
    if b.OddBalance? then []
    else
      var parts := if b.keysets.Some? then KeysetEntries(b, b.keysets.value) else [];
      if parts != [] then parts
      else [Entry(KeyOf(b.currency, b.mint, DirectKeyset(b)), Row(Natural(b.amount), Natural(b.proofCount), 0, 0))]
  }

  predicate PendingReceipt(r: Receipt) { r.Receipt? && Or(r.status, "pending") == "pending" }

  function Named(ids: seq<Option<string>>): seq<string> {
    if ids == [] then []
    else
      var last := Strip(Or(ids[|ids| - 1], ""));
      Named(ids[..|ids| - 1]) + if last == "" then [] else [last]
  }

  function GroupKey(r: Receipt): Key
    requires r.Receipt?
  {
    var names := Named(r.keysetIds);
    KeyOf(r.currency, r.mint, if |names| == 1 then names[0] else "")
  }

  function ReceiptEntries(r: Receipt): seq<Entry> {
    if PendingReceipt(r) then [Entry(GroupKey(r), Row(0, 0, Number(r.amount), 1))] else []
  }

  function AllOf<T>(entries: T -> seq<Entry>, items: seq<T>): seq<Entry> {
    if items == [] then [] else AllOf(entries, items[..|items| - 1]) + entries(items[|items| - 1])
  }

  function Entries(balances: seq<Balance>, receipts: seq<Receipt>): seq<Entry> {
    AllOf(BalanceEntries, balances) + AllOf(ReceiptEntries, receipts)
  }

  // ---- the table ----

  /** What all contributions to one key add up to. */
  function Sum(entries: seq<Entry>, key: Key): Row {
    if entries == [] then NOTHING
    else
      var last := entries[|entries| - 1];
      if last.key == key then Plus(Sum(entries[..|entries| - 1], key), last.row) else Sum(entries[..|entries| - 1], key)
  }

  function Keys(entries: seq<Entry>): set<Key> { set e | e in entries :: e.key }

  /** A table that conserves every key's total. */
  ghost predicate Conserves(t: Table, entries: seq<Entry>) {
    t.Keys == Keys(entries) && forall k :: k in t ==> t[k] == Sum(entries, k)
  }

  /** `setdefault`, then `+=`. */
  function Added(t: Table, e: Entry): Table { t[e.key := Plus(if e.key in t then t[e.key] else NOTHING, e.row)] }

  lemma {:induction false} SumOfAbsent(entries: seq<Entry>, key: Key)
    requires key !in Keys(entries)
    ensures Sum(entries, key) == NOTHING
  {
    if entries != [] {
      var n := |entries| - 1;
      assert entries == entries[..n] + [entries[n]] && entries[n].key in Keys(entries);
      SumOfAbsent(entries[..n], key);
    }
  }

  lemma AddedConserves(t: Table, entries: seq<Entry>, e: Entry)
    requires Conserves(t, entries)
    ensures Conserves(Added(t, e), entries + [e])
  {
    assert (entries + [e])[..|entries|] == entries;
    assert Keys(entries + [e]) == Keys(entries) + {e.key};
    if e.key !in t { SumOfAbsent(entries, e.key); }
  }

  lemma ReceiptGives(r: Receipt)
    ensures ReceiptEntries(r) == if PendingReceipt(r) then [Entry(GroupKey(r), Row(0, 0, Number(r.amount), 1))] else []
  {
  }

  // ---- order does not matter ----

  lemma {:induction false} SumAt(entries: seq<Entry>, i: nat, key: Key)
    requires i < |entries|
    ensures var rest := entries[..i] + entries[i + 1..];
            Sum(entries, key) == if entries[i].key == key then Plus(Sum(rest, key), entries[i].row) else Sum(rest, key)
    decreases |entries|
  {
    var n := |entries| - 1;
    var rest := entries[..i] + entries[i + 1..];
    if i == n {
      assert rest == entries[..n];
    } else {
      assert entries[..n][..i] == entries[..i] && rest[..n - 1] == entries[..n][..i] + entries[..n][i + 1..];
      assert rest[n - 1] == entries[n];
      SumAt(entries[..n], i, key);
    }
  }

  /** A key's total depends on the contributions, not on their order. */
  lemma {:induction false} SumIgnoresOrder(a: seq<Entry>, b: seq<Entry>, key: Key)
    requires multiset(a) == multiset(b)
    ensures Sum(a, key) == Sum(b, key)
    decreases |a|
  {
    assert |multiset(a)| == |a| && |multiset(b)| == |b|;
    if a != [] {
      var n := |a| - 1;
      assert a == a[..n] + [a[n]];
      assert a[n] in multiset(b);
      var i :| 0 <= i < |b| && b[i] == a[n];
      var rest := b[..i] + b[i + 1..];
      assert b == b[..i] + [b[i]] + b[i + 1..];
      assert multiset(rest) == multiset(b) - multiset{a[n]};
      SumIgnoresOrder(a[..n], rest, key);
      SumAt(b, i, key);
    }
  }

  lemma {:induction false} AllOfIgnoresOrder<T(!new)>(entries: T -> seq<Entry>, a: seq<T>, b: seq<T>)
    requires multiset(a) == multiset(b)
    ensures multiset(AllOf(entries, a)) == multiset(AllOf(entries, b))
    decreases |a|
  {
    assert |multiset(a)| == |a| && |multiset(b)| == |b|;
    if a != [] {
      var n := |a| - 1;
      assert a == a[..n] + [a[n]];
      assert a[n] in multiset(b);
      var i :| 0 <= i < |b| && b[i] == a[n];
      var rest := b[..i] + b[i + 1..];
      assert b == b[..i] + [b[i]] + b[i + 1..];
      assert multiset(rest) == multiset(b) - multiset{a[n]};
      AllOfIgnoresOrder(entries, a[..n], rest);
      AllOfAt(entries, b, i);
    }
  }

  lemma Removing<T>(items: seq<T>, i: nat)
    requires i < |items| - 1
    ensures var n := |items| - 1; var rest := items[..i] + items[i + 1..];
            |rest| == n && rest[..n - 1] == items[..n][..i] + items[..n][i + 1..] && rest[n - 1] == items[n] && items[..n][i] == items[i]
  {
  }

  lemma {:induction false} AllOfAt<T>(entries: T -> seq<Entry>, items: seq<T>, i: nat)
    requires i < |items|
    ensures multiset(AllOf(entries, items)) == multiset(AllOf(entries, items[..i] + items[i + 1..])) + multiset(entries(items[i]))
    decreases |items|
  {
    var n := |items| - 1;
    var rest := items[..i] + items[i + 1..];
    if i == n {
      assert rest == items[..n];
    } else {
      Removing(items, i);
      AllOfAt(entries, items[..n], i);
      var fewer := items[..n][..i] + items[..n][i + 1..];
      assert AllOf(entries, items) == AllOf(entries, items[..n]) + entries(items[n]);
      assert AllOf(entries, rest) == AllOf(entries, fewer) + entries(items[n]);
      hide AllOf;
    }
  }

  lemma ConservingTableIsUnique(t: Table, u: Table, a: seq<Entry>, b: seq<Entry>)
    requires Conserves(t, a) && Conserves(u, b) && multiset(a) == multiset(b)
    ensures t == u
  {
    forall k
      ensures k in Keys(a) <==> k in Keys(b)
    {
      if k in Keys(a) {
        var e :| e in a && e.key == k;
        assert e in multiset(b);
      }
      if k in Keys(b) {
        var e :| e in b && e.key == k;
        assert e in multiset(a);
      }
    }
    forall k | k in t
      ensures t[k] == u[k]
    {
      SumIgnoresOrder(a, b, k);
    }
    assert t.Keys == u.Keys;
  }

  /** Any reordering of the balances and of the receipts gives the same table. */
  lemma GroupingIgnoresOrder(balances: seq<Balance>, receipts: seq<Receipt>, balances2: seq<Balance>, receipts2: seq<Receipt>,
                             t: Table, u: Table)
    requires multiset(balances) == multiset(balances2) && multiset(receipts) == multiset(receipts2)
    requires Conserves(t, Entries(balances, receipts)) && Conserves(u, Entries(balances2, receipts2))
    ensures t == u
  {
    AllOfIgnoresOrder(BalanceEntries, balances, balances2);
    AllOfIgnoresOrder(ReceiptEntries, receipts, receipts2);
    hide Conserves, BalanceEntries, ReceiptEntries, AllOf;
    ConservingTableIsUnique(t, u, Entries(balances, receipts), Entries(balances2, receipts2));
  }
}
