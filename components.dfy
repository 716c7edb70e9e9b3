/**
 * SplitComponents, identical in jsonstruct.go and fieldnamer.go: a property
 * name cut into the words of its kebab, snake or camel case; and the lookup in
 * an abbreviation table both namers share.
 */
module Components {
  import opened Text

  /**
   * SplitComponents: on `-` if the name holds one, else on `_` if it holds
   * one, else by `camelSplit`, which stands for the camelcase package's Split.
   * Rejoining the pieces with the separator gives the name back.
   */
  function SplitComponents(name: string, camelSplit: string -> seq<string>): (parts: seq<string>)
    ensures '-' in name ==> Join(parts, "-") == name && forall p :: p in parts ==> '-' !in p
    ensures '-' !in name && '_' in name ==> Join(parts, "_") == name && forall p :: p in parts ==> '_' !in p
    ensures '-' !in name && '_' !in name ==> parts == camelSplit(name)
  {
    if '-' in name then
      JoinSplit(name, '-');
      Split(name, '-')
    else if '_' in name then
      JoinSplit(name, '_');
      Split(name, '_')
    else
      camelSplit(name)
  }

  /** `abbreviations[s]` on a `map[string]bool`: a missing key reads as false. */
  predicate Abbreviated(abbreviations: map<string, bool>, s: string) {
    s in abbreviations && abbreviations[s]
  }

  /** Upper-casing distributes over concatenation. */
  lemma UpperAppend(a: string, b: string)
    ensures ToUpper(a + b) == ToUpper(a) + ToUpper(b)
  {
  }

  /** Parts equal up to case concatenate to strings equal up to case. */
  lemma {:induction false} ConcatUpper(parts: seq<string>, cased: seq<string>)
    requires |parts| == |cased|
    requires forall i :: 0 <= i < |parts| ==> ToUpper(cased[i]) == ToUpper(parts[i])
    ensures ToUpper(Concat(cased)) == ToUpper(Concat(parts))
  {
    if |parts| > 0 {
      ConcatUpper(parts[1..], cased[1..]);
      UpperAppend(cased[0], Concat(cased[1..]));
      UpperAppend(parts[0], Concat(parts[1..]));
    }
  }

  /** The parts that are not empty, in order. */
  function NonEmpty(parts: seq<string>): (r: seq<string>)
    ensures |r| <= |parts|
    ensures forall p :: p in r ==> p != ""
  {
    if |parts| == 0 then []
    else if parts[0] == "" then NonEmpty(parts[1..])
    else [parts[0]] + NonEmpty(parts[1..])
  }

  /** Dropping the empty parts does not change the concatenation. */
  lemma {:induction false} ConcatNonEmpty(parts: seq<string>)
    ensures Concat(NonEmpty(parts)) == Concat(parts)
  {
    if |parts| > 0 {
      ConcatNonEmpty(parts[1..]);
      if parts[0] != "" {
        assert ([parts[0]] + NonEmpty(parts[1..]))[1..] == NonEmpty(parts[1..]);
      }
    }
  }

  /** A snake-case pair of words splits into the two words. */
  lemma SnakePair(a: string, b: string, camelSplit: string -> seq<string>)
    requires '-' !in a && '-' !in b && '_' !in a && '_' !in b
    ensures SplitComponents(a + "_" + b, camelSplit) == [a, b]
  {
    var name := a + "_" + b;
    assert name[|a|] == '_';
    assert '-' !in name by {
      forall i | 0 <= i < |name| ensures name[i] != '-' {
        if i < |a| { assert name[i] == a[i]; } else if i > |a| { assert name[i] == b[i - |a| - 1]; }
      }
    }
    assert IndexOf(name, '_') == |a| by {
      IndexOfPrefix(a, "_" + b, '_');
      assert name == a + ("_" + b);
    }
    assert name[..|a|] == a && name[|a| + 1..] == b;
    assert '_' in name;
    assert Split(name, '_') == [a] + Split(b, '_');
    assert Split(b, '_') == [b];
  }

  /** The first occurrence of `c` in `a + b`, when `a` lacks it, is the first in `b` shifted by `|a|`. */
  lemma {:induction false} IndexOfPrefix(a: string, b: string, c: char)
    requires c !in a && c in b
    ensures c in a + b && IndexOf(a + b, c) == |a| + IndexOf(b, c)
  {
    assert (a + b)[|a| + IndexOf(b, c)] == c;
    if |a| > 0 {
      assert (a + b)[1..] == a[1..] + b;
      IndexOfPrefix(a[1..], b, c);
    }
  }
}
