/** Small shared vocabulary: failure-carrying datatypes and the order Python gives strings. */
module Prelude {

  datatype Option<+T> = None | Some(value: T)

  datatype Result<+T> = Ok(value: T) | Err(message: string)

  /** One keyword argument of a partial UPDATE: leave the column alone, or write it. */
  datatype Field<+T> = Keep | Set(value: T)

  function Over<T>(change: Field<T>, current: T): T {
    match change
    case Keep => current
    case Set(v) => v
  }

  function Min(a: int, b: int): int { if a < b then a else b }

  function Max(a: int, b: int): int { if a < b then b else a }

  function MinR(a: real, b: real): real { if a < b then a else b }

  function MaxR(a: real, b: real): real { if a < b then b else a }

  function Pow2(n: nat): real { if n == 0 then 1.0 else 2.0 * Pow2(n - 1) }

  lemma {:induction false} Pow2Positive(n: nat)
    ensures Pow2(n) >= 1.0
  {
    if n > 0 { Pow2Positive(n - 1); }
  }

  /** Python's slice s[..n], which clamps instead of failing. */
  function Clip(s: string, n: nat): (r: string)
    ensures |r| == Min(|s|, n) && r <= s
  {
    if |s| <= n then s else s[..n]
  }

  /** `rstrip("/")` */
  function Bare(mint: string): string {
    if mint != "" && mint[|mint| - 1] == '/' then Bare(mint[..|mint| - 1]) else mint
  }

  /** Only slashes at the end are taken away, and all of them. */
  lemma {:induction false} BareMeans(mint: string)
    ensures Bare(mint) <= mint && forall i :: |Bare(mint)| <= i < |mint| ==> mint[i] == '/'
    ensures Bare(mint) != "" ==> Bare(mint)[|Bare(mint)| - 1] != '/'
  {
    if mint != "" && mint[|mint| - 1] == '/' { BareMeans(mint[..|mint| - 1]); }
  }

  predicate SlashesFrom(s: string, n: nat) { n <= |s| && forall i :: n <= i < |s| ==> s[i] == '/' }

  /** The same but for slashes at the end. */
  predicate SameMint(a: string, b: string) {
    exists n :: 0 <= n <= |a| && n <= |b| && a[..n] == b[..n] && SlashesFrom(a, n) && SlashesFrom(b, n)
  }

  lemma SameMintIffBare(a: string, b: string)
    ensures Bare(a) == Bare(b) <==> SameMint(a, b)
  {
    BareMeans(a);
    BareMeans(b);
    if Bare(a) == Bare(b) {
      var n := |Bare(a)|;
      assert a[..n] == Bare(a) && b[..n] == Bare(b) && SlashesFrom(a, n) && SlashesFrom(b, n);
    }
    if n :| 0 <= n <= |a| && n <= |b| && a[..n] == b[..n] && SlashesFrom(a, n) && SlashesFrom(b, n) {
      BareOfStem(a, n);
      BareOfStem(b, n);
    }
  }

  lemma {:induction false} BareOfStem(s: string, n: nat)
    requires SlashesFrom(s, n)
    ensures Bare(s) == Bare(s[..n])
  {
    if |s| > n {
      var m := |s| - 1;
      BareOfStem(s[..m], n);
      assert s[..m][..n] == s[..n];
    } else {
      assert s[..n] == s;
    }
  }

  lemma BareIsSameMint(mint: string)
    ensures SameMint(Bare(mint), mint) && (Bare(mint) != "" ==> Bare(mint)[|Bare(mint)| - 1] != '/')
  {
    BareMeans(mint);
    var n := |Bare(mint)|;
    assert Bare(mint)[..n] == mint[..n] && SlashesFrom(Bare(mint), n) && SlashesFrom(mint, n);
  }

  /** `isspace` */
  predicate IsSpace(c: char) {
    || c == ' ' || '\t' <= c <= '\r' || '\U{1C}' <= c <= '\U{1F}' || c == '\U{85}' || c == '\U{A0}' || c == '\U{1680}'
    || '\U{2000}' <= c <= '\U{200A}' || c == '\U{2028}' || c == '\U{2029}' || c == '\U{202F}' || c == '\U{205F}' || c == '\U{3000}'
  }

  /** `strip` */
  function Strip(s: string): string {
    if s != "" && IsSpace(s[0]) then Strip(s[1..])
    else if s != "" && IsSpace(s[|s| - 1]) then Strip(s[..|s| - 1])
    else s
  }

  /** Only white space at the two ends is taken away, and all of it. */
  lemma {:induction false} StripMeans(s: string) returns (i: nat, j: nat)
    ensures i <= j <= |s| && Strip(s) == s[i..j]
    ensures forall k :: 0 <= k < |s| && !(i <= k < j) ==> IsSpace(s[k])
    ensures i < j ==> !IsSpace(s[i]) && !IsSpace(s[j - 1])
  {
    hide IsSpace;
    if s != "" && IsSpace(s[0]) {
      i, j := StripMeans(s[1..]);
      assert s[1..][i..j] == s[i + 1..j + 1];
      assert forall k :: 0 < k < |s| ==> s[k] == s[1..][k - 1];
      i, j := i + 1, j + 1;
    } else if s != "" && IsSpace(s[|s| - 1]) {
      i, j := StripMeans(s[..|s| - 1]);
      assert s[..|s| - 1][i..j] == s[i..j];
    } else {
      i, j := 0, |s|;
      assert s[0..|s|] == s;
    }
  }

  /** `lower`, for ASCII letters. */
  function Lower(s: string): (r: string)
    ensures |r| == |s|
    ensures forall i :: 0 <= i < |s| ==> if 'A' <= s[i] <= 'Z' then r[i] as int == s[i] as int + 32 else r[i] == s[i]
  {
    if s == "" then "" else [if 'A' <= s[0] <= 'Z' then s[0] + ' ' else s[0]] + Lower(s[1..])
  }

  predicate IsHexDigit(c: char) { '0' <= c <= '9' || 'a' <= c <= 'f' }

  predicate Hex64(s: string) { |s| == 64 && forall i :: 0 <= i < 64 ==> IsHexDigit(s[i]) }
}
