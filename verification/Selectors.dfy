/** Selectors of static attestation policies on the command line, as "type:key:value". */
module Selectors {
  import opened Wrappers
  import opened Configuration
  import opened HelmGenerator

  predicate IsColon(c: char) { c == ':' }

  /** At most `n` parts of `s`, separated by its first colons. */
  function SplitN(s: string, n: nat): (parts: seq<string>)
    requires n > 0
    ensures 1 <= |parts| <= n
    decreases n
  {
    var i := FirstIndex(s, IsColon);
    if n == 1 || i == |s| then [s] else [s[..i]] + SplitN(s[i + 1..], n - 1)
  }

  predicate ColonFree(s: string) { ':' !in s }

  /** What is accepted: a type and a key, neither empty nor with a colon, and a value that is not empty. */
  predicate WellFormed(kind: string, key: string, value: string) {
    kind != "" && ColonFree(kind) && key != "" && ColonFree(key) && value != ""
  }

  ghost predicate Accepted(s: string) {
    exists kind, key, value :: WellFormed(kind, key, value) && s == kind + ":" + key + ":" + value
  }

  /** The selector that a string stands for. */
  function Parse(s: string): Option<Selector> {
    var parts := SplitN(s, 3);
    if |parts| != 3 || parts[0] == "" || parts[1] == "" || parts[2] == "" then None
    else Some(Selector(parts[0], parts[1] + ":" + parts[2]))
  }

  function Print(s: Selector): string { s.kind + ":" + s.value }

  lemma FirstColon(a: string, b: string)
    requires ColonFree(a)
    ensures FirstIndex(a + ":" + b, IsColon) == |a| && (a + ":" + b)[..|a|] == a && (a + ":" + b)[|a| + 1..] == b
  {
    var s := a + ":" + b;
    assert IsColon(s[|a|]) && forall j | 0 <= j < |a| :: s[j] == a[j] && s[j] in a;
  }

  lemma SplitAtColon(s: string)
    requires FirstIndex(s, IsColon) < |s|
    ensures var i := FirstIndex(s, IsColon); s == s[..i] + ":" + s[i + 1..] && ColonFree(s[..i])
  {
    var i := FirstIndex(s, IsColon);
    SplitAt(s, i);
    assert [s[i]] == ":";
    forall j | 0 <= j < i ensures s[..i][j] != ':' { assert !IsColon(s[j]); }
  }

  lemma SplitAt<T>(s: seq<T>, i: nat)
    requires i < |s|
    ensures s == s[..i] + [s[i]] + s[i + 1..]
  {}

  lemma Regroup(a: string, b: string, c: string)
    ensures a + ":" + b + ":" + c == a + ":" + (b + ":" + c)
  {}

  lemma SplitThree(kind: string, key: string, value: string)
    requires ColonFree(kind) && ColonFree(key)
    ensures SplitN(kind + ":" + key + ":" + value, 3) == [kind, key, value]
  {
    var rest := key + ":" + value;
    Regroup(kind, key, value);
    FirstColon(kind, rest);
    FirstColon(key, value);
    assert SplitN(rest, 2) == [key] + SplitN(value, 1);
  }

  lemma TwoParts(s: string)
    requires |SplitN(s, 2)| == 2
    ensures var p := SplitN(s, 2); ColonFree(p[0]) && s == p[0] + ":" + p[1]
  {
    SplitAtColon(s);
    var i := FirstIndex(s, IsColon);
    assert SplitN(s, 2) == [s[..i]] + [s[i + 1..]];
  }

  lemma ThreeParts(s: string)
    requires |SplitN(s, 3)| == 3
    ensures var p := SplitN(s, 3); ColonFree(p[0]) && ColonFree(p[1]) && s == p[0] + ":" + p[1] + ":" + p[2]
  {
    SplitAtColon(s);
    var i := FirstIndex(s, IsColon);
    var rest := s[i + 1..];
    TwoParts(rest);
    var p, q := SplitN(s, 3), SplitN(rest, 2);
    assert p == [s[..i]] + q && p[1] == q[0] && p[2] == q[1];
    Regroup(p[0], p[1], p[2]);
  }

  /** Exactly the strings of that shape are accepted, and what they stand for determines them. */
  lemma ParseIff(s: string)
    ensures Parse(s).Some? <==> Accepted(s)
    ensures Parse(s).Some? ==> Print(Parse(s).value) == s
  {
    if Parse(s).Some? {
      ThreeParts(s);
      var p := SplitN(s, 3);
      assert WellFormed(p[0], p[1], p[2]);
      Regroup(p[0], p[1], p[2]);
    }
    if Accepted(s) {
      var kind, key, value :| WellFormed(kind, key, value) && s == kind + ":" + key + ":" + value;
      SplitThree(kind, key, value);
    }
  }

  /** A selector whose value has a key of its own is recovered from what it is printed as. */
  lemma PrintThenParse(kind: string, key: string, value: string)
    requires WellFormed(kind, key, value)
    ensures Parse(Print(Selector(kind, key + ":" + value))) == Some(Selector(kind, key + ":" + value))
  {
    SplitThree(kind, key, value);
    Regroup(kind, key, value);
  }

  /** Fills a slice of the same length as the input, and gives up at the first string that is not accepted. */
  method ParseSelectors(strings: seq<string>) returns (r: Option<seq<Selector>>)
    ensures r.Some? <==> forall s | s in strings :: Accepted(s)
    ensures r.Some? ==> ParsesTo(strings, r.value)
  {
    var selectors := new Selector[|strings|](_ => Selector("", ""));
    for i := 0 to |strings|
      invariant forall j | 0 <= j < i :: Accepted(strings[j]) && Parse(strings[j]) == Some(selectors[j])
    {
      ParseIff(strings[i]);
      var parts := SplitN(strings[i], 3);
      if |parts| != 3 || parts[0] == "" || parts[1] == "" || parts[2] == "" {
        assert strings[i] in strings;
        return None;
      }
      selectors[i] := Selector(parts[0], parts[1] + ":" + parts[2]);
    }
    return Some(selectors[..]);
  }

  /** Printing what was parsed gives the original strings back. */
  lemma {:induction false} ParseThenFormat(strings: seq<string>, selectors: seq<Selector>)
    requires ParsesTo(strings, selectors)
    ensures FormatSelectors(selectors) == Some(strings)
  {
    if strings != [] {
      var n := |strings| - 1;
      ParseThenFormat(strings[..n], selectors[..n]);
      ParseIff(strings[n]);
      SplitLast(strings);
    }
  }

  /** The value of `s` has a key of its own. */
  ghost predicate Keyed(s: Selector) {
    exists key, value :: WellFormed(s.kind, key, value) && s.value == key + ":" + value
  }

  lemma KeyedParses(s: Selector)
    requires Keyed(s)
    ensures s.kind != "" && s.value != "" && Parse(Print(s)) == Some(s)
  {
    var key, value :| WellFormed(s.kind, key, value) && s.value == key + ":" + value;
    PrintThenParse(s.kind, key, value);
  }

  ghost predicate ParsesTo(strings: seq<string>, selectors: seq<Selector>) {
    |strings| == |selectors| && forall i | 0 <= i < |selectors| :: Parse(strings[i]) == Some(selectors[i])
  }

  /** Selectors with keyed values can be printed, and parse back to themselves. */
  lemma {:induction false} FormatThenParse(selectors: seq<Selector>)
    requires forall s | s in selectors :: Keyed(s)
    ensures FormatSelectors(selectors).Some? && ParsesTo(FormatSelectors(selectors).value, selectors)
  {
    if selectors != [] {
      var n := |selectors| - 1;
      assert selectors[n] in selectors;
      FormatThenParse(selectors[..n]);
      KeyedParses(selectors[n]);
      var front := FormatSelectors(selectors[..n]).value;
      assert FormatSelectors(selectors) == Some(front + [Print(selectors[n])]);
      ParsesSnoc(front, selectors[..n], Print(selectors[n]), selectors[n]);
      SplitLast(selectors);
    }
  }

  lemma ParsesSnoc(strings: seq<string>, selectors: seq<Selector>, x: string, s: Selector)
    requires ParsesTo(strings, selectors) && Parse(x) == Some(s)
    ensures ParsesTo(strings + [x], selectors + [s])
  {}
}
