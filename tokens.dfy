/**
 * Whitespace tokenisation of the `tctl` action's `args` parameter, as done by
 * Python's argument-less `str.split()`: runs of whitespace separate tokens and
 * leading or trailing whitespace yields no empty token.
 */
module Tokens {

  /** The characters Python's `str.split()` treats as whitespace. */
  predicate IsSpace(ch: char) {
    var c := ch as int;
    (0x09 <= c <= 0x0D) || (0x1C <= c <= 0x20) || c == 0x85 || c == 0xA0 || c == 0x1680
    || (0x2000 <= c <= 0x200A) || c == 0x2028 || c == 0x2029 || c == 0x202F || c == 0x205F
    || c == 0x3000
  }

  predicate NoSpace(s: string) {
    forall i :: 0 <= i < |s| ==> !IsSpace(s[i])
  }

  predicate AllSpace(s: string) {
    forall i :: 0 <= i < |s| ==> IsSpace(s[i])
  }

  /** A token as `str.split()` produces it: non-empty and free of whitespace. */
  predicate IsToken(t: string) {
    |t| > 0 && NoSpace(t)
  }

  /** Length of the longest whitespace-free prefix of `s`. */
  function TokenLength(s: string): (n: nat)
    ensures n <= |s|
    ensures NoSpace(s[..n])
    ensures n == |s| || IsSpace(s[n])
  {
    if s == [] || IsSpace(s[0]) then 0 else 1 + TokenLength(s[1..])
  }

  /** `s.split()`: the maximal whitespace-free runs of `s`, in order. */
  function Split(s: string): (tokens: seq<string>)
    ensures forall i :: 0 <= i < |tokens| ==> IsToken(tokens[i])
    decreases |s|
  {
    if s == [] then []
    else if IsSpace(s[0]) then Split(s[1..])
    else
      var n := TokenLength(s);
      [s[..n]] + Split(s[n..])
  }

  /** The characters of `s` that are not whitespace, in their order. */
  function NonSpace(s: string): string {
    if s == [] then ""
    else if IsSpace(s[0]) then NonSpace(s[1..])
    else [s[0]] + NonSpace(s[1..])
  }

  function Concat(ts: seq<string>): string {
    if ts == [] then "" else ts[0] + Concat(ts[1..])
  }

  /** `" ".join(ts)`. */
  function Join(ts: seq<string>): string {
    if ts == [] then ""
    else if |ts| == 1 then ts[0]
    else ts[0] + " " + Join(ts[1..])
  }

  lemma {:induction false} NonSpaceAppend(a: string, b: string)
    ensures NonSpace(a + b) == NonSpace(a) + NonSpace(b)
    decreases |a|
  {
    if a != [] {
      assert (a + b)[1..] == a[1..] + b;
      NonSpaceAppend(a[1..], b);
    } else {
      assert a + b == b;
    }
  }

  lemma {:induction false} NonSpaceOfNoSpace(a: string)
    requires NoSpace(a)
    ensures NonSpace(a) == a
    decreases |a|
  {
    if a != [] {
      NonSpaceOfNoSpace(a[1..]);
    }
  }

  /** Splitting loses only whitespace: the tokens, concatenated, are the non-whitespace characters. */
  lemma {:induction false} SplitKeepsText(s: string)
    ensures Concat(Split(s)) == NonSpace(s)
    decreases |s|
  {
    if s == [] {
    } else if IsSpace(s[0]) {
      SplitKeepsText(s[1..]);
    } else {
      var n := TokenLength(s);
      var rest := Split(s[n..]);
      assert Split(s) == [s[..n]] + rest;
      assert ([s[..n]] + rest)[1..] == rest;
      SplitKeepsText(s[n..]);
      NonSpaceOfNoSpace(s[..n]);
      NonSpaceAppend(s[..n], s[n..]);
      assert s[..n] + s[n..] == s;
    }
  }

  lemma {:induction false} TokenLengthOfToken(t: string, rest: string)
    requires NoSpace(t)
    requires rest == [] || IsSpace(rest[0])
    ensures TokenLength(t + rest) == |t|
    decreases |t|
  {
    if t == [] {
      assert t + rest == rest;
    } else {
      assert (t + rest)[1..] == t[1..] + rest;
      TokenLengthOfToken(t[1..], rest);
    }
  }

  /** Joining tokens with single spaces and splitting again gives the tokens back. */
  lemma {:induction false} SplitJoin(ts: seq<string>)
    requires forall i :: 0 <= i < |ts| ==> IsToken(ts[i])
    ensures Split(Join(ts)) == ts
    decreases |ts|
  {
    if ts == [] {
    } else if |ts| == 1 {
      var t := ts[0];
      TokenLengthOfToken(t, "");
      assert t + "" == t;
      assert t[..|t|] == t && t[|t|..] == "";
    } else {
      var t, j := ts[0], Join(ts[1..]);
      var s := t + " " + j;
      assert s == t + (" " + j);
      TokenLengthOfToken(t, " " + j);
      assert s[..|t|] == t;
      assert s[|t|..] == " " + j;
      assert (" " + j)[1..] == j;
      SplitJoin(ts[1..]);
      assert Split(s) == [t] + ts[1..];
    }
  }

  /** A string of whitespace only splits into nothing. */
  lemma {:induction false} SplitAllSpace(ws: string)
    requires AllSpace(ws)
    ensures Split(ws) == []
    decreases |ws|
  {
    if ws != [] {
      SplitAllSpace(ws[1..]);
    }
  }

  /** Leading whitespace is dropped. */
  lemma {:induction false} SplitLeadingSpace(ws: string, b: string)
    requires AllSpace(ws)
    ensures Split(ws + b) == Split(b)
    decreases |ws|
  {
    if ws == [] {
      assert ws + b == b;
    } else {
      assert (ws + b)[1..] == ws[1..] + b;
      SplitLeadingSpace(ws[1..], b);
    }
  }

  /** A token on its own splits into itself. */
  lemma SplitToken(t: string)
    requires IsToken(t)
    ensures Split(t) == [t]
  {
    SplitJoin([t]);
  }

  /**
   * Every non-empty run of whitespace separates: whatever precedes it and
   * whatever follows it split independently, so no token ever spans it.
   */
  lemma {:induction false} SplitSeparated(a: string, ws: string, b: string)
    requires AllSpace(ws) && ws != []
    ensures Split(a + ws + b) == Split(a) + Split(b)
    decreases |a|
  {
    var s := a + ws + b;
    if a == [] {
      assert s == ws + b;
      SplitLeadingSpace(ws, b);
    } else if IsSpace(a[0]) {
      assert s[1..] == a[1..] + ws + b;
      SplitSeparated(a[1..], ws, b);
    } else {
      var n := TokenLength(a);
      var rest := a[n..] + ws + b;
      assert s == a[..n] + rest;
      TokenLengthOfToken(a[..n], rest);
      assert s[..n] == a[..n];
      assert s[n..] == rest;
      SplitSeparated(a[n..], ws, b);
      assert Split(a) == [a[..n]] + Split(a[n..]);
    }
  }
}
