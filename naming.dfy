/**
 * The CamelCase and PascalCase naming conventions: how a property name, already split into its
 * word parts, is put back together in the destination's casing.
 */
module NamingConventions {

  datatype Casing = CamelCase | PascalCase

  /**
   * A naming convention. `splittingExpression` stands for the split of a name by the
   * convention's regular expression; `casing` selects the transform.
   */
  datatype NamingConvention = NamingConvention(splittingExpression: string -> seq<string>, casing: Casing)

  /** `toLowerCase` on one character; only the ASCII letters change. */
  function ToLower(c: char): char {
    if 'A' <= c <= 'Z' then (c as int + 32) as char else c
  }

  /** `toUpperCase` on one character; only the ASCII letters change. */
  function ToUpper(c: char): char {
    if 'a' <= c <= 'z' then (c as int - 32) as char else c
  }

  /** `part.charAt(0).toUpperCase() + part.substr(1)`, or with `toLowerCase`. */
  function CaseFirst(part: string, upper: bool): (r: string)
    ensures |r| == |part|
    ensures forall j :: 0 < j < |part| ==> r[j] == part[j]
  {
    if part == [] then [] else [if upper then ToUpper(part[0]) else ToLower(part[0])] + part[1..]
  }

  /** Whether the transform upper-cases the first character of the part at `index`. */
  function UpperAt(casing: Casing, index: nat): bool {
    casing == PascalCase || index > 0
  }

  /** The result of `transformPropertyName`: the cased parts, concatenated without separator. */
  function Transformed(casing: Casing, parts: seq<string>): string {
    if parts == [] then ""
    else Transformed(casing, parts[..|parts| - 1]) + CaseFirst(parts[|parts| - 1], UpperAt(casing, |parts| - 1))
  }

  /** The summed lengths of the parts. */
  function SumLengths(parts: seq<string>): nat {
    if parts == [] then 0 else SumLengths(parts[..|parts| - 1]) + |parts[|parts| - 1]|
  }

  /** `transformPropertyName` of both conventions: the result is accumulated part by part. */
  method TransformPropertyName(casing: Casing, sourcePropertyNameParts: seq<string>) returns (result: string)
    ensures result == Transformed(casing, sourcePropertyNameParts)
    ensures |result| == SumLengths(sourcePropertyNameParts)
  {
    result := "";
    for index := 0 to |sourcePropertyNameParts|
      invariant result == Transformed(casing, sourcePropertyNameParts[..index])
    {
      assert sourcePropertyNameParts[..index + 1][..index] == sourcePropertyNameParts[..index];
      if casing == CamelCase && index == 0 {
        result := result + CaseFirst(sourcePropertyNameParts[index], false);
      } else {
        result := result + CaseFirst(sourcePropertyNameParts[index], true);
      }
    }
    assert sourcePropertyNameParts[..|sourcePropertyNameParts|] == sourcePropertyNameParts;
    TransformedLength(casing, sourcePropertyNameParts);
  }

  /** Concatenating the parts adds no separator: the length is the sum of the part lengths. */
  lemma {:induction false} TransformedLength(casing: Casing, parts: seq<string>)
    ensures |Transformed(casing, parts)| == SumLengths(parts)
  {
    if parts != [] {
      TransformedLength(casing, parts[..|parts| - 1]);
    }
  }

  /**
   * Every character of the result, located part by part: the first character of part `i` is
   * lower-cased for the first part of a CamelCase name and upper-cased otherwise; every other
   * character is copied.
   */
  lemma {:induction false} TransformedAt(casing: Casing, parts: seq<string>, i: nat, j: nat)
    requires i < |parts| && j < |parts[i]|
    ensures SumLengths(parts[..i]) + j < |Transformed(casing, parts)|
    ensures Transformed(casing, parts)[SumLengths(parts[..i]) + j] ==
      if j > 0 then parts[i][j]
      else if UpperAt(casing, i) then ToUpper(parts[i][0])
      else ToLower(parts[i][0])
  {
    var n := |parts| - 1;
    var init := parts[..n];
    var front, last := Transformed(casing, init), CaseFirst(parts[n], UpperAt(casing, n));
    assert Transformed(casing, parts) == front + last;
    TransformedLength(casing, init);
    if i < n {
      assert init[..i] == parts[..i];
      TransformedAt(casing, init, i, j);
      assert (front + last)[SumLengths(parts[..i]) + j] == front[SumLengths(init[..i]) + j];
    } else {
      assert parts[..i] == init;
      assert (front + last)[|front| + j] == last[j];
    }
  }

  /** The first character of every part is upper-cased by PascalCase. */
  lemma PascalUppercasesEveryPart(parts: seq<string>, i: nat)
    requires i < |parts| && parts[i] != ""
    ensures SumLengths(parts[..i]) < |Transformed(PascalCase, parts)|
    ensures Transformed(PascalCase, parts)[SumLengths(parts[..i])] == ToUpper(parts[i][0])
  {
    TransformedAt(PascalCase, parts, i, 0);
  }

  /** CamelCase lower-cases the first character of the first part and upper-cases the others. */
  lemma CamelCasesFirstPartOnly(parts: seq<string>, i: nat)
    requires i < |parts| && parts[i] != ""
    ensures SumLengths(parts[..i]) < |Transformed(CamelCase, parts)|
    ensures Transformed(CamelCase, parts)[SumLengths(parts[..i])] ==
      if i == 0 then ToLower(parts[0][0]) else ToUpper(parts[i][0])
  {
    TransformedAt(CamelCase, parts, i, 0);
  }

  /**
   * The two conventions build the same name up to the case of its first character, so either
   * result converts to the other by re-casing that character.
   */
  lemma {:induction false} CamelAndPascalDifferInFirstCharacter(parts: seq<string>)
    requires parts != [] && parts[0] != ""
    ensures var camel, pascal := Transformed(CamelCase, parts), Transformed(PascalCase, parts);
      && |camel| == |pascal| > 0
      && camel[0] == ToLower(pascal[0]) && pascal[0] == ToUpper(camel[0])
      && camel[1..] == pascal[1..]
  {
    var n := |parts| - 1;
    var init := parts[..n];
    if n == 0 {
      assert init == [];
      assert Transformed(CamelCase, parts) == CaseFirst(parts[0], false);
      assert Transformed(PascalCase, parts) == CaseFirst(parts[0], true);
      RecaseFirstCharacter(parts[0]);
    } else {
      assert init[0] == parts[0];
      CamelAndPascalDifferInFirstCharacter(init);
      var c, p := Transformed(CamelCase, init), Transformed(PascalCase, init);
      var last := CaseFirst(parts[n], true);
      assert Transformed(CamelCase, parts) == c + last;
      assert Transformed(PascalCase, parts) == p + last;
      SameSuffixKeepsFirstCharacterDifference(c, p, last);
    }
  }

  /** Lower- and upper-casing the first character of a part give names that convert into each
      other by re-casing that character. */
  lemma RecaseFirstCharacter(part: string)
    requires part != ""
    ensures var lower, upper := CaseFirst(part, false), CaseFirst(part, true);
      && |lower| == |upper| > 0
      && lower[0] == ToLower(upper[0]) && upper[0] == ToUpper(lower[0])
      && lower[1..] == upper[1..]
  {
    var lower, upper := CaseFirst(part, false), CaseFirst(part, true);
    assert lower[1..] == part[1..] == upper[1..];
  }

  /** Appending the same text to two names that differ only in the case of their first
      character keeps that difference. */
  lemma SameSuffixKeepsFirstCharacterDifference(camel: string, pascal: string, last: string)
    requires |camel| == |pascal| > 0
    requires camel[0] == ToLower(pascal[0]) && pascal[0] == ToUpper(camel[0]) && camel[1..] == pascal[1..]
    ensures |camel + last| == |pascal + last|
    ensures (camel + last)[0] == ToLower((pascal + last)[0]) && (pascal + last)[0] == ToUpper((camel + last)[0])
    ensures (camel + last)[1..] == (pascal + last)[1..]
  {
    FirstAndRestOfConcat(camel, last);
    FirstAndRestOfConcat(pascal, last);
  }

  /** The first character and the rest of a concatenation with a non-empty front. */
  lemma FirstAndRestOfConcat(a: string, b: string)
    requires a != ""
    ensures (a + b)[0] == a[0] && (a + b)[1..] == a[1..] + b
  {
  }

  /** `WithoutEmptyParts`: the parts in order, the empty fragments removed. */
  function WithoutEmptyParts(parts: seq<string>): (r: seq<string>)
    ensures |r| <= |parts|
    ensures forall i :: 0 <= i < |r| ==> r[i] != ""
    ensures forall p :: p in r <==> p in parts && p != ""
  {
    if parts == [] then []
    else (if parts[0] == "" then [] else [parts[0]]) + WithoutEmptyParts(parts[1..])
  }

  /** The filter keeps the parts in order: it distributes over concatenation. */
  lemma {:induction false} WithoutEmptyPartsConcat(a: seq<string>, b: seq<string>)
    ensures WithoutEmptyParts(a + b) == WithoutEmptyParts(a) + WithoutEmptyParts(b)
  {
    if a != [] {
      assert (a + b)[0] == a[0] && (a + b)[1..] == a[1..] + b;
      WithoutEmptyPartsConcat(a[1..], b);
    } else {
      assert a + b == b;
    }
  }

  /** A single part is kept exactly when it is not empty. */
  lemma WithoutEmptyPartsSingleton(part: string)
    ensures WithoutEmptyParts([part]) == if part == "" then [] else [part]
  {
    assert [part][1..] == [];
  }

  /** Removing the empty fragments does not change the total length. */
  lemma {:induction false} WithoutEmptyPartsKeepsLength(parts: seq<string>)
    ensures SumLengths(WithoutEmptyParts(parts)) == SumLengths(parts)
  {
    if parts != [] {
      WithoutEmptyPartsKeepsLength(parts[1..]);
      SumLengthsCons(parts[0], parts[1..]);
      var head := if parts[0] == "" then [] else [parts[0]];
      SumLengthsConcat(head, WithoutEmptyParts(parts[1..]));
      assert parts == [parts[0]] + parts[1..];
    }
  }

  lemma {:induction false} SumLengthsConcat(a: seq<string>, b: seq<string>)
    ensures SumLengths(a + b) == SumLengths(a) + SumLengths(b)
  {
    if b != [] {
      assert (a + b)[..|a + b| - 1] == a + b[..|b| - 1];
      SumLengthsConcat(a, b[..|b| - 1]);
    } else {
      assert a + b == a;
    }
  }

  lemma SumLengthsCons(p: string, rest: seq<string>)
    ensures SumLengths([p] + rest) == |p| + SumLengths(rest)
  {
    SumLengthsConcat([p], rest);
    assert [p][..0] == [];
  }

  /**
   * Why the empty fragments are removed before a CamelCase transform: an empty first fragment
   * would make the first word start upper-case.
   */
  lemma EmptyFirstFragmentChangesCamelCase()
    ensures Transformed(CamelCase, ["", "First", "Name"]) == "FirstName"
    ensures Transformed(CamelCase, WithoutEmptyParts(["", "First", "Name"])) == "firstName"
  {
    DropsEmptyFirstFragment();
    CamelCaseOfFirstName();
    assert ["", "First", "Name"][..2] == ["", "First"];
    assert ["", "First"][..1] == [""];
    assert Transformed(CamelCase, ["", "First"]) == "First";
  }

  /** The filter drops the empty first fragment. */
  lemma DropsEmptyFirstFragment()
    ensures WithoutEmptyParts(["", "First", "Name"]) == ["First", "Name"]
  {
    assert ["", "First", "Name"][1..] == ["First", "Name"];
    assert ["First", "Name"][1..] == ["Name"];
    assert ["Name"][1..] == [];
  }

  /** CamelCase of the parts "First", "Name". */
  lemma CamelCaseOfFirstName()
    ensures Transformed(CamelCase, ["First", "Name"]) == "firstName"
  {
    assert ["First", "Name"][..1] == ["First"];
    assert Transformed(CamelCase, ["First"]) == "first";
  }
}
