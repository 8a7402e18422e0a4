/** What a table of grouped balances holds, in the fields of the balances and receipts themselves. */
module ClearTotals {
  import opened Prelude
  import opened ClearBalance

  // ---- texts ----

  /** The text without the white space around it. */
  ghost predicate Trims(s: string, t: string) { exists i, j :: TrimsAt(s, t, i, j) }

  predicate TrimsAt(s: string, t: string, i: int, j: int) {
    && 0 <= i <= j <= |s| && t == s[i..j]
    && (forall k :: 0 <= k < |s| && !(i <= k < j) ==> IsSpace(s[k]))
    && (t != "" ==> !IsSpace(t[0]) && !IsSpace(t[|t| - 1]))
  }

  lemma TrimsIsStrip(s: string, t: string)
    ensures Trims(s, t) <==> t == Strip(s)
  {
    var i, j := StripMeans(s);
    assert TrimsAt(s, Strip(s), i, j);
    hide IsSpace, Strip;
    if k, l :| TrimsAt(s, t, k, l) {
      assert t != "" ==> t[0] == s[k] && t[|t| - 1] == s[l - 1];
      assert Strip(s) != "" ==> Strip(s)[0] == s[i] && Strip(s)[|Strip(s)| - 1] == s[j - 1];
    }
  }

  /** Nothing but white space. */
  predicate Blank(s: string) { forall i :: 0 <= i < |s| ==> IsSpace(s[i]) }

  lemma BlankIsNothing(s: string)
    ensures Blank(s) <==> Strip(s) == ""
  {
    var i, j := StripMeans(s);
    hide IsSpace, Strip;
  }

  /** The text without the slashes at its end. */
  predicate Bares(s: string, t: string) { SlashesFrom(s, |t|) && s[..|t|] == t && (t != "" ==> t[|t| - 1] != '/') }

  lemma BaresIsBare(s: string, t: string)
    ensures Bares(s, t) <==> t == Bare(s)
  {
    BareMeans(s);
    if Bares(s, t) { BareOfStem(s, |t|); }
  }

  /** The first value that is there and not empty. */
  function FirstText(values: seq<Option<string>>): string {
    if values == [] then ""
    else if values[0].Some? && values[0].value != "" then values[0].value else FirstText(values[1..])
  }

  // ---- where something is filed ----

  /** Under its unit and its mint, "unknown" where there is none. */
  predicate FiledUnder(currency: Option<string>, mint: Option<string>, key: Key) {
    key.currency == FirstText([currency, Some("unknown")]) && Bares(FirstText([mint, Some("unknown")]), key.mint)
  }

  ghost predicate KeysetAt(b: Balance, k: Keyset, key: Key)
    requires b.Balance? && k.Keyset?
  {
    FiledUnder(b.currency, b.mint, key) && Trims(FirstText([k.keyset, k.keysetId, k.id]), key.keyset)
  }

  /** The keyset that a balance names as a whole: its own, or the only one it lists. */
  ghost predicate WholeAt(b: Balance, key: Key)
    requires b.Balance?
  {
    var own := FirstText([b.keysetId, b.keyset]);
    && FiledUnder(b.currency, b.mint, key)
    && Trims(if Blank(own) && b.keysetIds.Some? && |b.keysetIds.value| == 1 then FirstText(b.keysetIds.value) else own, key.keyset)
  }

  predicate Says(id: Option<string>) { id.Some? && !Blank(id.value) }

  /** The only id of the list that says anything. */
  predicate OnlyOne(ids: seq<Option<string>>, i: int) {
    0 <= i < |ids| && Says(ids[i]) && forall j :: 0 <= j < |ids| && Says(ids[j]) ==> j == i
  }

  ghost predicate ReceiptAt(r: Receipt, key: Key)
    requires r.Receipt?
  {
    && FiledUnder(r.currency, r.mint, key)
    && if exists i :: OnlyOne(r.keysetIds, i) then exists i :: OnlyOne(r.keysetIds, i) && Trims(r.keysetIds[i].value, key.keyset)
       else key.keyset == ""
  }

  /** A receipt without a status counts as pending. */
  predicate StillPending(r: Receipt) { r.Receipt? && (r.status.None? || r.status.value == "" || r.status.value == "pending") }

  /** A balance is counted by its keysets, if it lists any. */
  predicate ByKeyset(b: Balance) { b.Balance? && b.keysets.Some? && exists k :: k in b.keysets.value && k.Keyset? }

  // ---- the columns ----

  datatype Column = Amounts | Proofs | PendingAmounts | Receipts

  function Cell(row: Row, c: Column): int {
    match c
    case Amounts => row.amount
    case Proofs => row.proofs
    case PendingAmounts => row.pendingAmount
    case Receipts => row.count
  }

  function Positive(value: Option<int>): int { if value.Some? && 0 < value.value then value.value else 0 }

  function InKeyset(k: Keyset, c: Column): int
    requires k.Keyset?
  {
    match c
    case Amounts => Positive(k.amount)
    case Proofs => Positive(k.proofCount)
    case _ => 0
  }

  function InBalance(b: Balance, c: Column): int
    requires b.Balance?
  {
    match c
    case Amounts => Positive(b.amount)
    case Proofs => Positive(b.proofCount)
    case _ => 0
  }

  function InReceipt(r: Receipt, c: Column): int
    requires r.Receipt?
  {
    match c
    case PendingAmounts => if r.amount.Some? then r.amount.value else 0
    case Receipts => 1
    case _ => 0
  }

  // ---- totals of the inputs: of one key, or with no key of all ----

  ghost function OfKeysets(b: Balance, ks: seq<Keyset>, key: Option<Key>, c: Column): int
    requires b.Balance?
  {
    if ks == [] then 0
    else
      var k := ks[|ks| - 1];
      OfKeysets(b, ks[..|ks| - 1], key, c)
      + if k.Keyset? && (key.Some? ==> KeysetAt(b, k, key.value)) then InKeyset(k, c) else 0
  }

  ghost function OfBalance(b: Balance, key: Option<Key>, c: Column): int {
    if b.OddBalance? then 0
    else if ByKeyset(b) then OfKeysets(b, b.keysets.value, key, c)
    else if key.Some? ==> WholeAt(b, key.value) then InBalance(b, c) else 0
  }

  ghost function OfBalances(balances: seq<Balance>, key: Option<Key>, c: Column): int {
    if balances == [] then 0
    else OfBalances(balances[..|balances| - 1], key, c) + OfBalance(balances[|balances| - 1], key, c)
  }

  ghost function OfReceipt(r: Receipt, key: Option<Key>, c: Column): int {
    if StillPending(r) && (key.Some? ==> ReceiptAt(r, key.value)) then InReceipt(r, c) else 0
  }

  ghost function OfReceipts(receipts: seq<Receipt>, key: Option<Key>, c: Column): int {
    if receipts == [] then 0
    else OfReceipts(receipts[..|receipts| - 1], key, c) + OfReceipt(receipts[|receipts| - 1], key, c)
  }

  // ---- the contributions ----

  lemma KeyMeans(currency: Option<string>, mint: Option<string>, keyset: string, key: Key)
    ensures KeyOf(currency, mint, keyset) == key <==> FiledUnder(currency, mint, key) && key.keyset == keyset
  {
    var unknown := Some("unknown");
    assert FirstText([currency, unknown]) == Or(currency, "unknown") by { assert [currency, unknown][1..] == [unknown]; }
    assert FirstText([mint, unknown]) == Or(mint, "unknown") by { assert [mint, unknown][1..] == [unknown]; }
    BaresIsBare(Or(mint, "unknown"), key.mint);
    hide Bare, Bares, FirstText;
  }

  lemma FirstOfThree(a: Option<string>, b: Option<string>, d: Option<string>)
    ensures FirstText([a, b, d]) == Or(a, Or(b, Or(d, "")))
    ensures FirstText([a, b]) == Or(a, Or(b, ""))
    ensures FirstText([a]) == Or(a, "")
  {
    FirstThen(d, []);
    FirstThen(b, [d]);
    FirstThen(a, [b, d]);
    FirstThen(b, []);
    FirstThen(a, [b]);
    FirstThen(a, []);
  }

  lemma FirstThen(a: Option<string>, later: seq<Option<string>>)
    ensures FirstText([a] + later) == Or(a, FirstText(later))
    ensures FirstText([]) == "" && [a] + [] == [a]
  {
    assert ([a] + later)[1..] == later;
  }

  lemma KeysetEntryMeans(b: Balance, k: Keyset, key: Key, c: Column)
    requires b.Balance? && k.Keyset?
    ensures KeysetEntry(b, k).key == key <==> KeysetAt(b, k, key)
    ensures Cell(KeysetEntry(b, k).row, c) == InKeyset(k, c)
  {
    FirstOfThree(k.keyset, k.keysetId, k.id);
    var text := FirstText([k.keyset, k.keysetId, k.id]);
    KeyMeans(b.currency, b.mint, Strip(text), key);
    TrimsIsStrip(text, key.keyset);
    hide FirstText, Strip, Trims, FiledUnder, KeyOf;
  }

  lemma WholeMeans(b: Balance, key: Key)
    requires b.Balance?
    ensures KeyOf(b.currency, b.mint, DirectKeyset(b)) == key <==> WholeAt(b, key)
  {
    FirstOfThree(b.keysetId, b.keyset, None);
    var own := FirstText([b.keysetId, b.keyset]);
    BlankIsNothing(own);
    TrimsIsStrip(own, key.keyset);
    KeyMeans(b.currency, b.mint, DirectKeyset(b), key);
    if b.keysetIds.Some? && |b.keysetIds.value| == 1 {
      var id := b.keysetIds.value[0];
      assert b.keysetIds.value == [id];
      FirstOfThree(id, None, None);
      TrimsIsStrip(FirstText([id]), key.keyset);
    }
    hide FirstText, Strip, Trims, FiledUnder, KeyOf, Blank;
  }

  lemma OnlyOneMore(ids: seq<Option<string>>, last: Option<string>)
    ensures !Says(last) ==> forall i :: OnlyOne(ids + [last], i) <==> OnlyOne(ids, i)
    ensures Says(last) ==> forall i :: OnlyOne(ids + [last], i) <==> i == |ids| && forall j :: 0 <= j < |ids| ==> !Says(ids[j])
  {
    hide Says;
    var more := ids + [last];
    assert forall j :: 0 <= j < |ids| ==> more[j] == ids[j];
    assert more[|ids|] == last;
  }

  lemma LastName(id: Option<string>)
    ensures Says(id) <==> Strip(Or(id, "")) != ""
    ensures Says(id) ==> Or(id, "") == id.value
  {
    BlankIsNothing(Or(id, ""));
    BlankIsNothing("");
    hide Strip;
  }

  lemma {:induction false} NamedMeans(ids: seq<Option<string>>)
    ensures Named(ids) == [] <==> forall i :: 0 <= i < |ids| ==> !Says(ids[i])
    ensures |Named(ids)| == 1 <==> exists i :: OnlyOne(ids, i)
    ensures forall i :: OnlyOne(ids, i) ==> 0 <= i < |ids| && ids[i].Some? && Named(ids) == [Strip(ids[i].value)]
  {
    hide Strip, Or, Says, OnlyOne;
    if ids != [] {
      var n := |ids| - 1;
      var last, fewer := ids[n], ids[..n];
      assert ids == fewer + [last];
      NamedMeans(fewer);
      LastName(last);
      OnlyOneMore(fewer, last);
      assert Says(last) ==> last.Some? by { SaysSome(last); }
      if Says(last) {
        assert Named(ids) == Named(fewer) + [Strip(last.value)];
        assert Named(fewer) == [] <==> OnlyOne(ids, n);
      } else {
        assert Named(ids) == Named(fewer);
      }
    } else {
      NobodySpeaks(ids);
    }
  }

  lemma SaysSome(id: Option<string>)
    ensures Says(id) ==> id.Some?
  {
  }

  lemma NobodySpeaks(ids: seq<Option<string>>)
    requires ids == []
    ensures forall i :: !OnlyOne(ids, i)
  {
  }

  lemma ReceiptMeans(r: Receipt, key: Key)
    requires r.Receipt?
    ensures GroupKey(r) == key <==> ReceiptAt(r, key)
    ensures PendingReceipt(r) <==> StillPending(r)
  {
    NamedMeans(r.keysetIds);
    var names := Named(r.keysetIds);
    KeyMeans(r.currency, r.mint, if |names| == 1 then names[0] else "", key);
    forall i | OnlyOne(r.keysetIds, i)
      ensures Trims(r.keysetIds[i].value, key.keyset) <==> key.keyset == names[0]
    {
      TrimsIsStrip(r.keysetIds[i].value, key.keyset);
    }
    hide Named, Strip, Trims, FiledUnder, KeyOf, OnlyOne;
  }

  // ---- adding up ----

  lemma SumOneMore(entries: seq<Entry>, e: Entry, key: Key)
    ensures Sum(entries + [e], key) == if e.key == key then Plus(Sum(entries, key), e.row) else Sum(entries, key)
    ensures Sum([], key) == NOTHING
  {
    assert (entries + [e])[..|entries|] == entries;
  }

  lemma PlusJoins(a: Row, b: Row, d: Row)
    ensures Plus(Plus(a, b), d) == Plus(a, Plus(b, d)) && Plus(a, NOTHING) == a
  {
  }

  lemma {:induction false} SumJoins(a: seq<Entry>, b: seq<Entry>, key: Key)
    ensures Sum(a + b, key) == Plus(Sum(a, key), Sum(b, key))
    decreases |b|
  {
    hide Sum, Plus;
    if b == [] {
      assert a + b == a;
      SumOneMore([], Entry(key, NOTHING), key);
      PlusJoins(Sum(a, key), NOTHING, NOTHING);
    } else {
      var n := |b| - 1;
      var fewer, e := b[..n], b[n];
      assert b == fewer + [e] && a + b == (a + fewer) + [e];
      SumJoins(a, fewer, key);
      SumOneMore(a + fewer, e, key);
      SumOneMore(fewer, e, key);
      PlusJoins(Sum(a, key), Sum(fewer, key), e.row);
    }
  }

  lemma SumOfOne(e: Entry, key: Key, c: Column)
    ensures Cell(Sum([e], key), c) == if e.key == key then Cell(e.row, c) else 0
    ensures Cell(Sum([], key), c) == 0
  {
    assert [e][..0] == [] && Sum([], key) == NOTHING;
  }

  lemma CellOfPlus(a: Row, b: Row, c: Column)
    ensures Cell(Plus(a, b), c) == Cell(a, c) + Cell(b, c)
  {
  }

  /** Contributions, the key, and what they add up to there. */
  predicate AddsUp(entries: seq<Entry>, key: Key, c: Column, total: int, filed: bool) {
    Cell(Sum(entries, key), c) == total && (key in Keys(entries) <==> filed)
  }

  lemma NothingAddsUp(key: Key, c: Column)
    ensures AddsUp([], key, c, 0, false)
  {
  }

  lemma OneAddsUp(e: Entry, key: Key, c: Column)
    ensures AddsUp([e], key, c, if e.key == key then Cell(e.row, c) else 0, e.key == key)
  {
    SumOfOne(e, key, c);
    assert Keys([e]) == {e.key};
  }

  lemma BothAddUp(a: seq<Entry>, b: seq<Entry>, key: Key, c: Column, m: int, n: int, p: bool, q: bool)
    requires AddsUp(a, key, c, m, p) && AddsUp(b, key, c, n, q)
    ensures AddsUp(a + b, key, c, m + n, p || q)
  {
    hide Sum, Plus, Cell, Keys;
    SumJoins(a, b, key);
    CellOfPlus(Sum(a, key), Sum(b, key), c);
    KeysJoin(a, b);
  }

  lemma KeysJoin(a: seq<Entry>, b: seq<Entry>)
    ensures Keys(a + b) == Keys(a) + Keys(b)
  {
  }

  ghost predicate SomeKeysetAt(b: Balance, ks: seq<Keyset>, key: Key)
    requires b.Balance?
  {
    exists k :: k in ks && k.Keyset? && KeysetAt(b, k, key)
  }

  lemma SomeKeysetMore(b: Balance, ks: seq<Keyset>, k: Keyset, key: Key)
    requires b.Balance?
    ensures SomeKeysetAt(b, ks + [k], key) <==> SomeKeysetAt(b, ks, key) || (k.Keyset? && KeysetAt(b, k, key))
    ensures !SomeKeysetAt(b, [], key)
  {
    hide KeysetAt;
  }

  /** What one keyset adds to a total. */
  ghost function OfKeyset(b: Balance, k: Keyset, key: Option<Key>, c: Column): int
    requires b.Balance?
  {
    if k.Keyset? && (key.Some? ==> KeysetAt(b, k, key.value)) then InKeyset(k, c) else 0
  }

  lemma KeysetsOneMore(b: Balance, ks: seq<Keyset>, k: Keyset, key: Option<Key>, c: Column)
    requires b.Balance?
    ensures OfKeysets(b, ks + [k], key, c) == OfKeysets(b, ks, key, c) + OfKeyset(b, k, key, c)
    ensures KeysetEntries(b, ks + [k]) == KeysetEntries(b, ks) + if k.Keyset? then [KeysetEntry(b, k)] else []
    ensures OfKeysets(b, [], key, c) == 0 && KeysetEntries(b, []) == []
  {
    hide KeysetAt, InKeyset, KeysetEntry;
    assert (ks + [k])[..|ks|] == ks;
  }

  lemma KeysetAddsUp(b: Balance, k: Keyset, key: Key, c: Column)
    requires b.Balance?
    ensures AddsUp(if k.Keyset? then [KeysetEntry(b, k)] else [], key, c, OfKeyset(b, k, Some(key), c), k.Keyset? && KeysetAt(b, k, key))
  {
    hide AddsUp, KeysetEntry, KeysetAt, Cell, InKeyset;
    NothingAddsUp(key, c);
    if k.Keyset? {
      KeysetEntryMeans(b, k, key, c);
      OneAddsUp(KeysetEntry(b, k), key, c);
    }
  }

  lemma {:induction false} KeysetsAddUp(b: Balance, ks: seq<Keyset>, key: Key, c: Column)
    requires b.Balance?
    ensures AddsUp(KeysetEntries(b, ks), key, c, OfKeysets(b, ks, Some(key), c), SomeKeysetAt(b, ks, key))
    ensures KeysetEntries(b, ks) == [] <==> forall k :: k in ks ==> !k.Keyset?
  {
    hide AddsUp, KeysetEntry, KeysetAt, SomeKeysetAt, OfKeysets, KeysetEntries, OfKeyset;
    NothingAddsUp(key, c);
    if ks != [] {
      var n := |ks| - 1;
      var k, fewer := ks[n], ks[..n];
      assert ks == fewer + [k];
      SomeKeysetMore(b, fewer, k, key);
      KeysetsOneMore(b, fewer, k, Some(key), c);
      KeysetsAddUp(b, fewer, key, c);
      KeysetAddsUp(b, k, key, c);
      BothAddUp(KeysetEntries(b, fewer), if k.Keyset? then [KeysetEntry(b, k)] else [], key, c,
                OfKeysets(b, fewer, Some(key), c), OfKeyset(b, k, Some(key), c), SomeKeysetAt(b, fewer, key), k.Keyset? && KeysetAt(b, k, key));
    } else {
      SomeKeysetMore(b, [], OddKeyset, key);
      KeysetsOneMore(b, [], OddKeyset, Some(key), c);
    }
  }

  /** Something of the balance is filed under the key. */
  ghost predicate BalanceAt(b: Balance, key: Key) {
    b.Balance? && if ByKeyset(b) then SomeKeysetAt(b, b.keysets.value, key) else WholeAt(b, key)
  }

  lemma BalanceAddsUp(b: Balance, key: Key, c: Column)
    ensures AddsUp(BalanceEntries(b), key, c, OfBalance(b, Some(key), c), BalanceAt(b, key))
  {
    hide KeyOf, DirectKeyset, WholeAt, Sum, Cell, KeysetEntries, OfKeysets, AddsUp, SomeKeysetAt, InBalance;
    NothingAddsUp(key, c);
    if b.Balance? {
      if b.keysets.Some? { KeysetsAddUp(b, b.keysets.value, key, c); }
      var whole := Entry(KeyOf(b.currency, b.mint, DirectKeyset(b)), Row(Natural(b.amount), Natural(b.proofCount), 0, 0));
      WholeMeans(b, key);
      OneAddsUp(whole, key, c);
      WholeCell(b, whole, c);
    }
  }

  lemma WholeCell(b: Balance, e: Entry, c: Column)
    requires b.Balance? && e.row == Row(Natural(b.amount), Natural(b.proofCount), 0, 0)
    ensures Cell(e.row, c) == InBalance(b, c)
  {
  }

  lemma ReceiptCell(r: Receipt, e: Entry, c: Column)
    requires r.Receipt? && e.row == Row(0, 0, Number(r.amount), 1)
    ensures Cell(e.row, c) == InReceipt(r, c)
  {
  }

  lemma ReceiptAddsUp(r: Receipt, key: Key, c: Column)
    ensures AddsUp(ReceiptEntries(r), key, c, OfReceipt(r, Some(key), c), StillPending(r) && ReceiptAt(r, key))
  {
    ReceiptGives(r);
    assert PendingReceipt(r) ==> r.Receipt?;
    assert StillPending(r) ==> r.Receipt?;
    hide GroupKey, ReceiptAt, Cell, InReceipt, PendingReceipt, StillPending, AddsUp, ReceiptEntries;
    NothingAddsUp(key, c);
    if r.Receipt? {
      ReceiptMeans(r, key);
      var e := Entry(GroupKey(r), Row(0, 0, Number(r.amount), 1));
      OneAddsUp(e, key, c);
      ReceiptCell(r, e, c);
    }
  }

  lemma {:induction false} BalancesAddUp(balances: seq<Balance>, key: Key, c: Column)
    ensures AddsUp(AllOf(BalanceEntries, balances), key, c, OfBalances(balances, Some(key), c), exists b :: b in balances && BalanceAt(b, key))
  {
    hide BalanceEntries, OfBalance, BalanceAt, AddsUp;
    NothingAddsUp(key, c);
    if balances != [] {
      var n := |balances| - 1;
      var fewer, last := balances[..n], balances[n];
      assert balances == fewer + [last];
      BalancesAddUp(fewer, key, c);
      BalanceAddsUp(last, key, c);
      BothAddUp(AllOf(BalanceEntries, fewer), BalanceEntries(last), key, c, OfBalances(fewer, Some(key), c), OfBalance(last, Some(key), c),
                exists b :: b in fewer && BalanceAt(b, key), BalanceAt(last, key));
      assert (exists b :: b in balances && BalanceAt(b, key)) <==> (exists b :: b in fewer && BalanceAt(b, key)) || BalanceAt(last, key);
    }
  }

  lemma {:induction false} ReceiptsAddUp(receipts: seq<Receipt>, key: Key, c: Column)
    ensures AddsUp(AllOf(ReceiptEntries, receipts), key, c, OfReceipts(receipts, Some(key), c),
                   exists r :: r in receipts && StillPending(r) && ReceiptAt(r, key))
  {
    hide ReceiptEntries, OfReceipt, ReceiptAt, StillPending, AddsUp;
    assert forall r :: StillPending(r) ==> r.Receipt? by { PendingAreReceipts(); }
    NothingAddsUp(key, c);
    if receipts != [] {
      var n := |receipts| - 1;
      var fewer, last := receipts[..n], receipts[n];
      assert receipts == fewer + [last];
      ReceiptsAddUp(fewer, key, c);
      ReceiptAddsUp(last, key, c);
      BothAddUp(AllOf(ReceiptEntries, fewer), ReceiptEntries(last), key, c, OfReceipts(fewer, Some(key), c), OfReceipt(last, Some(key), c),
                exists r :: r in fewer && StillPending(r) && ReceiptAt(r, key), StillPending(last) && ReceiptAt(last, key));
    }
  }

  lemma PendingAreReceipts()
    ensures forall r :: StillPending(r) ==> r.Receipt?
  {
  }

  /** Something of the inputs is filed under the key. */
  ghost predicate Filed(balances: seq<Balance>, receipts: seq<Receipt>, key: Key) {
    (exists b :: b in balances && BalanceAt(b, key)) || exists r :: r in receipts && StillPending(r) && ReceiptAt(r, key)
  }

  /**
   Every row holds, column by column, what the inputs filed under its unit, mint and keyset say:
   the positive amounts and proof counts of the keysets and of the balances without any, and the
   amounts and the number of the pending receipts. And there is a row exactly where something is.
   */
  ghost predicate Accounts(t: Table, balances: seq<Balance>, receipts: seq<Receipt>) {
    && (forall key :: key in t <==> Filed(balances, receipts, key))
    && forall key, c: Column :: key in t ==> Cell(t[key], c) == OfBalances(balances, Some(key), c) + OfReceipts(receipts, Some(key), c)
  }

  lemma RowAccounts(t: Table, balances: seq<Balance>, receipts: seq<Receipt>, key: Key, c: Column)
    requires Conserves(t, Entries(balances, receipts))
    ensures key in t <==> Filed(balances, receipts, key)
    ensures key in t ==> Cell(t[key], c) == OfBalances(balances, Some(key), c) + OfReceipts(receipts, Some(key), c)
  {
    InputsAddUp(balances, receipts, key, c);
    hide Entries, Sum, Cell, OfBalances, OfReceipts, Filed, Keys;
  }

  lemma ConservingAccounts(t: Table, balances: seq<Balance>, receipts: seq<Receipt>)
    requires Conserves(t, Entries(balances, receipts))
    ensures Accounts(t, balances, receipts)
  {
    hide Conserves, Entries, Cell, OfBalances, OfReceipts, Filed;
    forall key, c: Column
      ensures key in t <==> Filed(balances, receipts, key)
      ensures key in t ==> Cell(t[key], c) == OfBalances(balances, Some(key), c) + OfReceipts(receipts, Some(key), c)
    {
      RowAccounts(t, balances, receipts, key, c);
    }
    forall key
      ensures key in t <==> Filed(balances, receipts, key)
    {
      RowAccounts(t, balances, receipts, key, Amounts);
    }
  }

  lemma InputsAddUp(balances: seq<Balance>, receipts: seq<Receipt>, key: Key, c: Column)
    ensures AddsUp(Entries(balances, receipts), key, c, OfBalances(balances, Some(key), c) + OfReceipts(receipts, Some(key), c),
                   Filed(balances, receipts, key))
  {
    hide AllOf, AddsUp, OfBalances, OfReceipts, BalanceAt, ReceiptAt, StillPending;
    PendingAreReceipts();
    BalancesAddUp(balances, key, c);
    ReceiptsAddUp(receipts, key, c);
    BothAddUp(AllOf(BalanceEntries, balances), AllOf(ReceiptEntries, receipts), key, c,
              OfBalances(balances, Some(key), c), OfReceipts(receipts, Some(key), c),
              exists b :: b in balances && BalanceAt(b, key), exists r :: r in receipts && StillPending(r) && ReceiptAt(r, key));
  }

  // ---- the grand totals ----

  function Whole(entries: seq<Entry>, c: Column): int {
    if entries == [] then 0 else Whole(entries[..|entries| - 1], c) + Cell(entries[|entries| - 1].row, c)
  }

  lemma {:induction false} WholeJoins(a: seq<Entry>, b: seq<Entry>, c: Column)
    ensures Whole(a + b, c) == Whole(a, c) + Whole(b, c)
  {
    if b == [] {
      assert a + b == a;
    } else {
      var n := |b| - 1;
      assert (a + b)[..|a| + n] == a + b[..n] && (a + b)[|a| + n] == b[n];
      WholeJoins(a, b[..n], c);
    }
  }

  lemma WholeOfOne(e: Entry, c: Column)
    ensures Whole([e], c) == Cell(e.row, c)
  {
    assert [e][..0] == [];
  }

  lemma {:induction false} KeysetsWhole(b: Balance, ks: seq<Keyset>, c: Column)
    requires b.Balance?
    ensures Whole(KeysetEntries(b, ks), c) == OfKeysets(b, ks, None, c)
  {
    hide KeysetEntry, Cell, InKeyset, KeysetAt, OfKeysets, KeysetEntries;
    if ks != [] {
      var n := |ks| - 1;
      var k, fewer := ks[n], ks[..n];
      assert ks == fewer + [k];
      KeysetsOneMore(b, fewer, k, None, c);
      KeysetsWhole(b, fewer, c);
      WholeJoins(KeysetEntries(b, fewer), if k.Keyset? then [KeysetEntry(b, k)] else [], c);
      if k.Keyset? {
        KeysetEntryMeans(b, k, KeysetEntry(b, k).key, c);
        WholeOfOne(KeysetEntry(b, k), c);
      }
    } else {
      KeysetsOneMore(b, [], OddKeyset, None, c);
    }
  }

  lemma BalanceWhole(b: Balance, c: Column)
    ensures Whole(BalanceEntries(b), c) == OfBalance(b, None, c)
  {
    if b.Balance? {
      if b.keysets.Some? {
        KeysetsWhole(b, b.keysets.value, c);
        KeysetsAddUp(b, b.keysets.value, Key("", "", ""), c);
      }
      WholeOfOne(Entry(KeyOf(b.currency, b.mint, DirectKeyset(b)), Row(Natural(b.amount), Natural(b.proofCount), 0, 0)), c);
      hide KeyOf, DirectKeyset, KeysetEntries, OfKeysets, Whole;
    }
  }

  lemma ReceiptWhole(r: Receipt, c: Column)
    ensures Whole(ReceiptEntries(r), c) == OfReceipt(r, None, c)
  {
    ReceiptGives(r);
    if r.Receipt? {
      ReceiptMeans(r, GroupKey(r));
      WholeOfOne(Entry(GroupKey(r), Row(0, 0, Number(r.amount), 1)), c);
    } else {
      assert !PendingReceipt(r);
    }
    hide GroupKey, PendingReceipt;
  }

  lemma {:induction false} InputsWhole(balances: seq<Balance>, receipts: seq<Receipt>, c: Column)
    ensures Whole(AllOf(BalanceEntries, balances), c) == OfBalances(balances, None, c)
    ensures Whole(AllOf(ReceiptEntries, receipts), c) == OfReceipts(receipts, None, c)
    decreases |balances| + |receipts|
  {
    hide BalanceEntries, ReceiptEntries, OfBalance, OfReceipt;
    if balances != [] {
      var n := |balances| - 1;
      InputsWhole(balances[..n], receipts, c);
      BalanceWhole(balances[n], c);
      WholeJoins(AllOf(BalanceEntries, balances[..n]), BalanceEntries(balances[n]), c);
    } else if receipts != [] {
      var n := |receipts| - 1;
      InputsWhole(balances, receipts[..n], c);
      ReceiptWhole(receipts[n], c);
      WholeJoins(AllOf(ReceiptEntries, receipts[..n]), ReceiptEntries(receipts[n]), c);
    }
  }

  predicate NoneTwice(keys: seq<Key>) { forall i, j :: 0 <= i < j < |keys| ==> keys[i] != keys[j] }

  /** The listed rows of one column, added up. */
  function Listed(rows: seq<(Key, Row)>, c: Column): int {
    if rows == [] then 0 else Listed(rows[..|rows| - 1], c) + Cell(rows[|rows| - 1].1, c)
  }

  function SumOver(keys: seq<Key>, entries: seq<Entry>, c: Column): int {
    if keys == [] then 0 else SumOver(keys[..|keys| - 1], entries, c) + Cell(Sum(entries, keys[|keys| - 1]), c)
  }

  lemma {:induction false} SumOverOneMore(keys: seq<Key>, entries: seq<Entry>, e: Entry, c: Column)
    requires NoneTwice(keys)
    ensures SumOver(keys, entries + [e], c) == SumOver(keys, entries, c) + if e.key in keys then Cell(e.row, c) else 0
  {
    if keys != [] {
      var n := |keys| - 1;
      assert keys == keys[..n] + [keys[n]];
      SumOverOneMore(keys[..n], entries, e, c);
      SumJoins(entries, [e], keys[n]);
      SumOfOne(e, keys[n], c);
      CellOfPlus(Sum(entries, keys[n]), Sum([e], keys[n]), c);
      hide Cell, Sum, Plus;
    }
  }

  lemma {:induction false} SumOverNothing(keys: seq<Key>, c: Column)
    ensures SumOver(keys, [], c) == 0
  {
    if keys != [] {
      SumOverNothing(keys[..|keys| - 1], c);
      SumOfOne(Entry(keys[0], NOTHING), keys[|keys| - 1], c);
    }
  }

  lemma {:induction false} SumOverAll(keys: seq<Key>, entries: seq<Entry>, c: Column)
    requires NoneTwice(keys) && forall e :: e in entries ==> e.key in keys
    ensures SumOver(keys, entries, c) == Whole(entries, c)
  {
    if entries == [] {
      SumOverNothing(keys, c);
    } else {
      var n := |entries| - 1;
      assert entries == entries[..n] + [entries[n]];
      SumOverAll(keys, entries[..n], c);
      SumOverOneMore(keys, entries[..n], entries[n], c);
      hide Cell, Sum, SumOver;
    }
  }

  lemma {:induction false} ListedIsSumOver(rows: seq<(Key, Row)>, keys: seq<Key>, entries: seq<Entry>, c: Column)
    requires |rows| == |keys| && forall i :: 0 <= i < |rows| ==> rows[i].0 == keys[i] && rows[i].1 == Sum(entries, keys[i])
    ensures Listed(rows, c) == SumOver(keys, entries, c)
  {
    hide Sum, Cell;
    if rows != [] { ListedIsSumOver(rows[..|rows| - 1], keys[..|keys| - 1], entries, c); }
  }

  /** All rows together hold what all inputs say: nothing is lost, and nothing counts twice. */
  lemma ListedIsEverything(rows: seq<(Key, Row)>, keys: seq<Key>, t: Table, balances: seq<Balance>, receipts: seq<Receipt>, c: Column)
    requires Conserves(t, Entries(balances, receipts)) && NoneTwice(keys) && (forall k :: k in t ==> k in keys)
    requires |rows| == |keys| && forall i :: 0 <= i < |rows| ==> rows[i].0 == keys[i] && keys[i] in t && rows[i].1 == t[keys[i]]
    ensures Listed(rows, c) == OfBalances(balances, None, c) + OfReceipts(receipts, None, c)
  {
    var entries := Entries(balances, receipts);
    hide Sum, Cell, AllOf, BalanceEntries, ReceiptEntries, Whole, SumOver, Listed, OfBalances, OfReceipts;
    forall e | e in entries
      ensures e.key in keys
    {
      assert e.key in Keys(entries);
    }
    SumOverAll(keys, entries, c);
    ListedIsSumOver(rows, keys, entries, c);
    WholeJoins(AllOf(BalanceEntries, balances), AllOf(ReceiptEntries, receipts), c);
    InputsWhole(balances, receipts, c);
  }
}
