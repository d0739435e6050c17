/** Optional values, subtraction that stops at zero (Rust's `saturating_sub`) and JavaScript's white space. */
module Basics {
  datatype Option<+T> = None | Some(value: T)

  function Monus(a: nat, b: nat): nat {
    if a < b then 0 else a - b
  }

  function Min(a: nat, b: nat): nat {
    if a < b then a else b
  }

  /** White space as JavaScript's `\s` and `trim` have it. */
  predicate IsSpace(c: char) {
    || '\t' <= c <= '\r' || c == ' ' || c == '\U{A0}' || c == '\U{1680}' || '\U{2000}' <= c <= '\U{200A}'
    || c == '\U{2028}' || c == '\U{2029}' || c == '\U{202F}' || c == '\U{205F}' || c == '\U{3000}' || c == '\U{FEFF}'
  }

  function TrimStart(s: string): string {
    if s != "" && IsSpace(s[0]) then TrimStart(s[1..]) else s
  }

  function TrimEnd(s: string): string {
    if s != "" && IsSpace(s[|s| - 1]) then TrimEnd(s[..|s| - 1]) else s
  }

  function Trim(s: string): string {
    TrimEnd(TrimStart(s))
  }

  predicate AllSpace(s: string) {
    forall c <- s :: IsSpace(c)
  }

  lemma {:induction false} TrimStartIs(s: string) returns (i: nat)
    ensures i <= |s| && TrimStart(s) == s[i..] && AllSpace(s[..i]) && (i < |s| ==> !IsSpace(s[i]))
  {
    i := 0;
    if s != "" && IsSpace(s[0]) {
      var rest := TrimStartIs(s[1..]);
      i := rest + 1;
      assert s[..i] == [s[0]] + s[1..][..rest] && s[1..][rest..] == s[i..];
    }
  }

  lemma {:induction false} TrimEndIs(s: string) returns (j: nat)
    ensures j <= |s| && TrimEnd(s) == s[..j] && AllSpace(s[j..]) && (0 < j ==> !IsSpace(s[j - 1]))
  {
    j := |s|;
    if s != "" && IsSpace(s[|s| - 1]) {
      var front := s[..|s| - 1];
      j := TrimEndIs(front);
      assert s[j..] == front[j..] + [s[|s| - 1]] && front[..j] == s[..j];
    }
  }

  /** The text between i and j, with white space around it and none at its ends. */
  predicate IsMiddle(s: string, i: nat, j: nat, middle: string) {
    && i <= j <= |s| && middle == s[i..j] && AllSpace(s[..i]) && AllSpace(s[j..])
    && (i < j ==> !IsSpace(s[i]) && !IsSpace(s[j - 1]))
  }

  lemma EndOfRest(s: string, i: nat, n: nat)
    requires i + n <= |s|
    ensures s[i..][..n] == s[i..i + n] && s[i..][n..] == s[i + n..]
    ensures n > 0 ==> s[i..][n - 1] == s[i + n - 1]
  {
  }

  /** Trimming takes off white space at both ends, all of it and nothing else. */
  lemma TrimIsTheMiddle(s: string) returns (i: nat, j: nat)
    ensures IsMiddle(s, i, j, Trim(s))
  {
    i := TrimStartIs(s);
    var n := TrimEndIs(s[i..]);
    EndOfRest(s, i, n);
    j := i + n;
  }

  // ---------- Order ----------

  /** These stand in the list at these places, one behind the other. */
  ghost predicate AreFoundAt<T>(found: seq<T>, all: seq<T>, at: seq<nat>) {
    && |at| == |found|
    && (forall k :: 0 <= k < |at| ==> at[k] < |all| && all[at[k]] == found[k])
    && forall j, k :: 0 <= j < k < |at| ==> at[j] < at[k]
  }

  ghost predicate KeepsOrder<T>(found: seq<T>, all: seq<T>) {
    exists at: seq<nat> :: AreFoundAt(found, all, at)
  }

  lemma OneMoreKeepsOrder<T>(found: seq<T>, all: seq<T>, x: T, taken: bool)
    requires KeepsOrder(found, all)
    ensures KeepsOrder(found + if taken then [x] else [], all + [x])
  {
    var at: seq<nat> :| AreFoundAt(found, all, at);
    if taken {
      var at': seq<nat> := at + [|all|];
      assert AreFoundAt(found + [x], all + [x], at');
    } else {
      assert AreFoundAt(found + [], all + [x], at);
    }
  }
}
