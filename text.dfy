/** String operations the source takes from the JavaScript and Go standard
    libraries: anchored suffix replacement (`s.replace(/X$/, y)`), ASCII case
    mapping, `split(/[\s,]/)` with empty entries dropped, `indexOf` and the
    code-unit order of `<` on strings. */
module Text {

  predicate EndsWith(s: string, suffix: string) {
    |suffix| <= |s| && s[|s| - |suffix|..] == suffix
  }

  predicate StartsWith(s: string, prefix: string) {
    |prefix| <= |s| && s[..|prefix|] == prefix
  }

  /** JavaScript `s.replace(/suffix$/, repl)`: replaces one trailing
      occurrence of `suffix`, if there is one. */
  function ReplaceSuffix(s: string, suffix: string, repl: string): string {
    if EndsWith(s, suffix) then s[..|s| - |suffix|] + repl else s
  }

  /** `indexOf(sub) >= 0`. */
  predicate Contains(s: string, sub: string) {
    StartsWith(s, sub) || (s != [] && Contains(s[1..], sub))
  }

  function LowerChar(c: char): char {
    if 'A' <= c <= 'Z' then (c as int + 32) as char else c
  }

  function UpperChar(c: char): char {
    if 'a' <= c <= 'z' then (c as int - 32) as char else c
  }

  /** `toLowerCase()` / `strings.ToLower`, restricted to ASCII letters. */
  function Lower(s: string): (r: string)
    ensures |r| == |s|
    ensures forall i :: 0 <= i < |s| ==> r[i] == LowerChar(s[i])
  {
    if s == [] then [] else [LowerChar(s[0])] + Lower(s[1..])
  }

  /** `toUpperCase()`, restricted to ASCII letters. */
  function Upper(s: string): (r: string)
    ensures |r| == |s|
    ensures forall i :: 0 <= i < |s| ==> r[i] == UpperChar(s[i])
  {
    if s == [] then [] else [UpperChar(s[0])] + Upper(s[1..])
  }

  /** The separators of the regular expression `[\s,]`. */
  predicate IsSeparator(c: char) {
    c == ' ' || c == '\t' || c == '\n' || c == '\r' || c == '\U{000C}' || c == '\U{000B}' || c == ','
  }

  predicate NoSeparator(s: string) {
    forall i :: 0 <= i < |s| ==> !IsSeparator(s[i])
  }

  /** The characters of `s` that are not separators, in order. */
  function RemoveSeparators(s: string): string {
    if s == [] then []
    else (if IsSeparator(s[0]) then [] else [s[0]]) + RemoveSeparators(s[1..])
  }

  function Flatten(ss: seq<string>): string {
    if ss == [] then [] else ss[0] + Flatten(ss[1..])
  }

  /** Splits the rest of the input, `cur` being the entry read so far. */
  function SplitFrom(s: string, cur: string): seq<string>
    decreases |s|
  {
    if s == [] then (if cur == [] then [] else [cur])
    else if IsSeparator(s[0]) then (if cur == [] then [] else [cur]) + SplitFrom(s[1..], [])
    else SplitFrom(s[1..], cur + [s[0]])
  }

  /** `s.split(/[\s,]/).filter(e => e.length > 0)`. */
  function SplitEntries(s: string): seq<string> {
    SplitFrom(s, [])
  }

  /** Every entry of the split is non-empty and separator-free. */
  lemma {:induction false} SplitFromEntries(s: string, cur: string)
    requires NoSeparator(cur)
    ensures forall i :: 0 <= i < |SplitFrom(s, cur)| ==>
              SplitFrom(s, cur)[i] != [] && NoSeparator(SplitFrom(s, cur)[i])
    decreases |s|
  {
    if s == [] {
    } else if IsSeparator(s[0]) {
      SplitFromEntries(s[1..], []);
      var pre: seq<string> := if cur == [] then [] else [cur];
      var rest := SplitFrom(s[1..], []);
      assert SplitFrom(s, cur) == pre + rest;
      forall i | 0 <= i < |pre + rest|
        ensures (pre + rest)[i] != [] && NoSeparator((pre + rest)[i])
      {
        if i >= |pre| {
          assert (pre + rest)[i] == rest[i - |pre|];
        }
      }
    } else {
      assert NoSeparator(cur + [s[0]]) by {
        assert forall k :: 0 <= k < |cur| ==> (cur + [s[0]])[k] == cur[k];
      }
      SplitFromEntries(s[1..], cur + [s[0]]);
    }
  }

  /** Together the entries of the split hold the entry read so far and the
      non-separator characters of the rest, in order. */
  lemma {:induction false} SplitFromFlatten(s: string, cur: string)
    ensures Flatten(SplitFrom(s, cur)) == cur + RemoveSeparators(s)
    decreases |s|
  {
    if s == [] {
      assert cur != [] ==> Flatten([cur]) == cur + Flatten([]);
    } else if IsSeparator(s[0]) {
      SplitFromFlatten(s[1..], []);
      FlattenAtSeparator(s, cur);
    } else {
      SplitFromFlatten(s[1..], cur + [s[0]]);
      FlattenAtCharacter(s, cur);
    }
  }

  /** The step of `SplitFromFlatten` at a separator. */
  lemma FlattenAtSeparator(s: string, cur: string)
    requires s != [] && IsSeparator(s[0])
    requires Flatten(SplitFrom(s[1..], [])) == RemoveSeparators(s[1..])
    ensures Flatten(SplitFrom(s, cur)) == cur + RemoveSeparators(s)
  {
    var rest := SplitFrom(s[1..], []);
    assert RemoveSeparators(s) == RemoveSeparators(s[1..]);
    if cur == [] {
      assert SplitFrom(s, cur) == rest;
    } else {
      assert SplitFrom(s, cur) == [cur] + rest;
      assert Flatten([cur] + rest) == cur + Flatten(rest) by {
        assert ([cur] + rest)[1..] == rest;
      }
    }
  }

  lemma AppendAssociates<T>(a: seq<T>, b: seq<T>, c: seq<T>)
    ensures a + b + c == a + (b + c)
  {
  }

  /** The step of `SplitFromFlatten` at any other character. */
  lemma FlattenAtCharacter(s: string, cur: string)
    requires s != [] && !IsSeparator(s[0])
    requires Flatten(SplitFrom(s[1..], cur + [s[0]])) == cur + [s[0]] + RemoveSeparators(s[1..])
    ensures Flatten(SplitFrom(s, cur)) == cur + RemoveSeparators(s)
  {
    var c := s[0];
    var r := RemoveSeparators(s[1..]);
    assert SplitFrom(s, cur) == SplitFrom(s[1..], cur + [c]);
    assert RemoveSeparators(s) == [c] + r;
    assert cur + [c] + r == cur + ([c] + r) by {
      AppendAssociates(cur, [c], r);
    }
  }

  lemma SplitFromShape(s: string, cur: string)
    requires NoSeparator(cur)
    ensures forall i :: 0 <= i < |SplitFrom(s, cur)| ==>
              SplitFrom(s, cur)[i] != [] && NoSeparator(SplitFrom(s, cur)[i])
    ensures Flatten(SplitFrom(s, cur)) == cur + RemoveSeparators(s)
  {
    SplitFromEntries(s, cur);
    SplitFromFlatten(s, cur);
  }

  /** Every entry is non-empty and separator-free, and together the entries
      hold exactly the non-separator characters of the input, in order. */
  lemma SplitEntriesShape(s: string)
    ensures forall i :: 0 <= i < |SplitEntries(s)| ==>
              SplitEntries(s)[i] != [] && NoSeparator(SplitEntries(s)[i])
    ensures Flatten(SplitEntries(s)) == RemoveSeparators(s)
  {
    SplitFromShape(s, []);
  }

  /** A run without separators, after the entry read so far, continues
      that entry: it is one entry, or none when both are empty. */
  lemma {:induction false} SplitFromRun(s: string, cur: string)
    requires NoSeparator(s)
    ensures SplitFrom(s, cur) == if cur + s == [] then [] else [cur + s]
    decreases |s|
  {
    if s != [] {
      assert NoSeparator(s[1..]) by {
        forall i | 0 <= i < |s[1..]| ensures !IsSeparator(s[1..][i]) {
          assert s[1..][i] == s[i + 1];
        }
      }
      SplitFromRun(s[1..], cur + [s[0]]);
      assert cur + [s[0]] + s[1..] == cur + s by {
        assert [s[0]] + s[1..] == s;
        AppendAssociates(cur, [s[0]], s[1..]);
      }
    } else {
      assert cur + s == cur;
    }
  }

  /** A separator ends the entry being read: what follows it is split on
      its own. */
  lemma {:induction false} SplitFromAtSeparator(a: string, c: char, b: string, cur: string)
    requires IsSeparator(c)
    ensures SplitFrom(a + [c] + b, cur) == SplitFrom(a, cur) + SplitFrom(b, [])
    decreases |a|
  {
    var s := a + [c] + b;
    if a == [] {
      assert s == [c] + b;
      assert s[0] == c && s[1..] == b;
    } else {
      assert s[0] == a[0];
      assert s[1..] == a[1..] + [c] + b;
      if IsSeparator(a[0]) {
        var pre: seq<string> := if cur == [] then [] else [cur];
        SplitFromAtSeparator(a[1..], c, b, []);
        AppendAssociates(pre, SplitFrom(a[1..], []), SplitFrom(b, []));
      } else {
        SplitFromAtSeparator(a[1..], c, b, cur + [a[0]]);
      }
    }
  }

  /** The entries are the maximal separator-free runs: a non-empty run is
      one entry, and a separator splits the input into two inputs split
      independently. */
  lemma SplitEntriesRuns(s: string, a: string, c: char, b: string)
    ensures s != [] && NoSeparator(s) ==> SplitEntries(s) == [s]
    ensures IsSeparator(c) ==> SplitEntries(a + [c] + b) == SplitEntries(a) + SplitEntries(b)
  {
    if NoSeparator(s) {
      SplitFromRun(s, []);
      assert [] + s == s;
    }
    if IsSeparator(c) {
      SplitFromAtSeparator(a, c, b, []);
    }
  }

  /** A list entry names a symbol when both lower-case alike. */
  predicate SameSymbol(entry: string, item: string) {
    Lower(entry) == Lower(item)
  }

  predicate Listed(entries: seq<string>, item: string) {
    exists i :: 0 <= i < |entries| && SameSymbol(entries[i], item)
  }

  /** The symbols a blacklist text names: its entries, split at whitespace
      and commas, compared case-insensitively. */
  predicate Blacklisted(text: string, item: string) {
    Listed(SplitEntries(text), item)
  }

  /** String `<=` in code-unit order, as JavaScript's `<` compares strings. */
  predicate LexLe(a: string, b: string) {
    if a == [] then true
    else if b == [] then false
    else if a[0] != b[0] then a[0] < b[0]
    else LexLe(a[1..], b[1..])
  }

  lemma {:induction false} LexLeTotal(a: string, b: string)
    ensures LexLe(a, b) || LexLe(b, a)
  {
    if a != [] && b != [] && a[0] == b[0] {
      LexLeTotal(a[1..], b[1..]);
    }
  }

  lemma {:induction false} LexLeTransitive(a: string, b: string, c: string)
    requires LexLe(a, b) && LexLe(b, c)
    ensures LexLe(a, c)
  {
    if a != [] && b != [] && c != [] && a[0] == b[0] && b[0] == c[0] {
      LexLeTransitive(a[1..], b[1..], c[1..]);
    }
  }

  lemma {:induction false} LexLeAntisymmetric(a: string, b: string)
    requires LexLe(a, b) && LexLe(b, a)
    ensures a == b
  {
    if a != [] && b != [] {
      LexLeAntisymmetric(a[1..], b[1..]);
      assert a == [a[0]] + a[1..] && b == [b[0]] + b[1..];
    }
  }
}
