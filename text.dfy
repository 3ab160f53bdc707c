/**
 * Text matching as the analyzer uses it: Python's `str.lower()` and the
 * substring test `kw in text`, plus `any(kw in text for kw in keywords)`.
 */
module Text {

  /** Upper-case letters the model lowers: ASCII A-Z, Latin-1 À-Þ (but not ×),
      Cyrillic Ѐ-Я (which includes the Ukrainian Є, І, Ї) and Ґ. */
  predicate IsUpper(c: char) {
    ('A' <= c <= 'Z') || ('\U{C0}' <= c <= '\U{DE}' && c != '\U{D7}')
    || ('\U{400}' <= c <= '\U{42F}') || c == '\U{490}'
  }

  /** One character of `str.lower()`. */
  function LowerChar(c: char): (r: char)
    ensures !IsUpper(r)
    ensures IsUpper(c) <==> r != c
  {
    if ('A' <= c <= 'Z') || ('\U{C0}' <= c <= '\U{DE}' && c != '\U{D7}') || ('\U{410}' <= c <= '\U{42F}') then
      (c as int + 32) as char
    else if '\U{400}' <= c <= '\U{40F}' then
      (c as int + 80) as char
    else if c == '\U{490}' then
      '\U{491}'
    else
      c
  }

  /** `s.lower()`: same length, no upper-case letter left, everything else kept. */
  function Lower(s: string): (r: string)
    ensures |r| == |s|
    ensures forall i | 0 <= i < |r| :: !IsUpper(r[i])
    ensures forall i | 0 <= i < |s| && !IsUpper(s[i]) :: r[i] == s[i]
  {
    seq(|s|, i requires 0 <= i < |s| => LowerChar(s[i]))
  }

  /** Lowering commutes with taking a slice. */
  lemma LowerOfSlice(s: string, i: nat, j: nat)
    requires i <= j <= |s|
    ensures Lower(s)[i..j] == Lower(s[i..j])
  {
  }

  /** `kw` occurs in `t` starting at index `i`. */
  predicate OccursAt(t: string, kw: string, i: int) {
    0 <= i && i + |kw| <= |t| && t[i..i + |kw|] == kw
  }

  /** Characters `k..` of `kw` agree with `t` from index `i + k` on. */
  predicate MatchesFrom(t: string, kw: string, i: nat, k: nat)
    requires i + |kw| <= |t| && k <= |kw|
    decreases |kw| - k
  {
    k == |kw| || (t[i + k] == kw[k] && MatchesFrom(t, kw, i, k + 1))
  }

  /** `kw` occurs in `t` at some index at or after `i`. */
  predicate ContainsFrom(t: string, kw: string, i: nat)
    decreases |t| - i
  {
    i + |kw| <= |t| && (MatchesFrom(t, kw, i, 0) || ContainsFrom(t, kw, i + 1))
  }

  /** Python's `kw in t` on strings: a case-sensitive substring test. */
  predicate Contains(t: string, kw: string) {
    ContainsFrom(t, kw, 0)
  }

  /** Some keyword at index `k` or later occurs in `t`. */
  predicate ContainsAnyFrom(t: string, kws: seq<string>, k: nat)
    decreases |kws| - k
  {
    k < |kws| && (Contains(t, kws[k]) || ContainsAnyFrom(t, kws, k + 1))
  }

  /** `any(kw in t for kw in kws)`. */
  predicate ContainsAny(t: string, kws: seq<string>) {
    ContainsAnyFrom(t, kws, 0)
  }

  /** The character-by-character comparison decides equality of the rest of
      `kw` with the matching stretch of `t`. */
  lemma {:induction false} MatchesFromIsSliceEquality(t: string, kw: string, i: nat, k: nat)
    requires i + |kw| <= |t| && k <= |kw|
    ensures MatchesFrom(t, kw, i, k) <==> t[i + k..i + |kw|] == kw[k..]
    decreases |kw| - k
  {
    if k < |kw| {
      MatchesFromIsSliceEquality(t, kw, i, k + 1);
      assert t[i + k..i + |kw|] == [t[i + k]] + t[i + k + 1..i + |kw|];
      assert kw[k..] == [kw[k]] + kw[k + 1..];
    }
  }

  /** The scan from index `i` finds exactly the occurrences at or after `i`. */
  lemma {:induction false} ContainsFromIsOccurrence(t: string, kw: string, i: nat)
    ensures ContainsFrom(t, kw, i) <==> exists j | i <= j :: OccursAt(t, kw, j)
    decreases |t| - i
  {
    if i + |kw| <= |t| {
      MatchesFromIsSliceEquality(t, kw, i, 0);
      assert kw[0..] == kw;
      ContainsFromIsOccurrence(t, kw, i + 1);
      assert MatchesFrom(t, kw, i, 0) <==> OccursAt(t, kw, i);
      assert (exists j | i <= j :: OccursAt(t, kw, j))
        <==> OccursAt(t, kw, i) || exists j | i + 1 <= j :: OccursAt(t, kw, j);
    }
  }

  /** `kw in t` holds exactly when `kw` occurs somewhere in `t`. */
  lemma ContainsIsOccurrence(t: string, kw: string)
    ensures Contains(t, kw) <==> exists j | 0 <= j :: OccursAt(t, kw, j)
  {
    ContainsFromIsOccurrence(t, kw, 0);
  }

  /** `any(kw in t for kw in kws)` holds exactly when one of the keywords occurs in `t`. */
  lemma {:induction false} ContainsAnyFromIsSome(t: string, kws: seq<string>, k: nat)
    ensures ContainsAnyFrom(t, kws, k) <==> exists m | k <= m < |kws| :: Contains(t, kws[m])
    decreases |kws| - k
  {
    if k < |kws| {
      ContainsAnyFromIsSome(t, kws, k + 1);
    }
  }

  /** One occurrence of one keyword is enough for `any(kw in t for kw in kws)`. */
  lemma ContainsAnyAt(t: string, kws: seq<string>, m: nat, i: nat)
    requires m < |kws| && OccursAt(t, kws[m], i)
    ensures ContainsAny(t, kws)
  {
    ContainsIsOccurrence(t, kws[m]);
    ContainsAnyFromIsSome(t, kws, 0);
  }

  /** Matching a lowered text against keywords is case-insensitive: a stretch of
      `t` that lowers to one of the keywords, whatever its letter case, is found. */
  lemma CaseInsensitiveMatch(t: string, i: nat, kws: seq<string>, m: nat)
    requires m < |kws| && i + |kws[m]| <= |t|
    requires Lower(t[i..i + |kws[m]|]) == kws[m]
    ensures ContainsAny(Lower(t), kws)
  {
    LowerOfSlice(t, i, i + |kws[m]|);
    ContainsAnyAt(Lower(t), kws, m, i);
  }

  /** The stretch of `t` at index `i` lowers to the keyword `kws[m]`. */
  predicate StretchLowersTo(t: string, kws: seq<string>, m: nat, i: nat) {
    m < |kws| && i + |kws[m]| <= |t| && Lower(t[i..i + |kws[m]|]) == kws[m]
  }

  /** Both directions of case-insensitive matching: the lowered text contains a
      keyword exactly when some stretch of `t` lowers to that keyword. */
  lemma LoweredMatchIsStretch(t: string, kws: seq<string>)
    ensures ContainsAny(Lower(t), kws) <==> exists m: nat, i: nat :: StretchLowersTo(t, kws, m, i)
  {
    if exists m: nat, i: nat :: StretchLowersTo(t, kws, m, i) {
      var m: nat, i: nat :| StretchLowersTo(t, kws, m, i);
      CaseInsensitiveMatch(t, i, kws, m);
    }
    if ContainsAny(Lower(t), kws) {
      ContainsAnyFromIsSome(Lower(t), kws, 0);
      var m :| 0 <= m < |kws| && Contains(Lower(t), kws[m]);
      ContainsIsOccurrence(Lower(t), kws[m]);
      var i :| 0 <= i && OccursAt(Lower(t), kws[m], i);
      LowerOfSlice(t, i, i + |kws[m]|);
      assert StretchLowersTo(t, kws, m, i);
    }
  }
}
