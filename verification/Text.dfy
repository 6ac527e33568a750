/** The string operations of the Go standard library that the modelled code relies on,
    over ASCII: white-space trimming, cutting, splitting into lines, upper and lower
    case, and the byte order on strings. */
module Text {

  // ---------------------------------------------------------------- trimming

  predicate IsSpace(c: char) {
    c == ' ' || '\t' <= c <= '\r'
  }

  function TrimLeft(s: string): string {
    if s != "" && IsSpace(s[0]) then TrimLeft(s[1..]) else s
  }

  function TrimRight(s: string): string {
    if s != "" && IsSpace(s[|s| - 1]) then TrimRight(s[..|s| - 1]) else s
  }

  function Trim(s: string): string {
    TrimRight(TrimLeft(s))
  }

  predicate Trimmed(s: string) {
    s != "" ==> !IsSpace(s[0]) && !IsSpace(s[|s| - 1])
  }

  lemma {:induction false} TrimLeftSuffix(s: string)
    ensures |TrimLeft(s)| <= |s| && TrimLeft(s) == s[|s| - |TrimLeft(s)|..]
    ensures TrimLeft(s) != "" ==> !IsSpace(TrimLeft(s)[0])
  {
    if s != "" && IsSpace(s[0]) {
      TrimLeftSuffix(s[1..]);
    }
  }

  lemma {:induction false} TrimRightPrefix(s: string)
    ensures |TrimRight(s)| <= |s| && TrimRight(s) == s[..|TrimRight(s)|]
    ensures TrimRight(s) != "" ==> !IsSpace(TrimRight(s)[|TrimRight(s)| - 1])
  {
    if s != "" && IsSpace(s[|s| - 1]) {
      TrimRightPrefix(s[..|s| - 1]);
    }
  }

  lemma TrimmedStays(s: string)
    requires Trimmed(s)
    ensures Trim(s) == s
  {
  }

  lemma TrimIsPiece(s: string)
    ensures Trimmed(Trim(s))
    ensures Trim(s) != "" ==> exists i, j :: 0 <= i < j <= |s| && Trim(s) == s[i..j]
  {
    hide TrimLeft, TrimRight, IsSpace;
    TrimLeftSuffix(s);
    var left := TrimLeft(s);
    TrimRightPrefix(left);
    var i := |s| - |left|;
    assert Trim(s) == s[i..i + |Trim(s)|];
  }

  /** Trimming is a projection onto the trimmed strings, and cuts a contiguous piece out. */
  lemma TrimIsProjection(s: string)
    ensures Trimmed(Trim(s))
    ensures Trimmed(s) <==> Trim(s) == s
    ensures Trim(s) != "" ==> exists i, j :: 0 <= i < j <= |s| && Trim(s) == s[i..j]
  {
    hide Trim, IsSpace;
    TrimIsPiece(s);
    if Trimmed(s) {
      TrimmedStays(s);
    }
  }

  /** A space, or one of the control characters from tab to carriage return. */
  predicate Blank(s: string) {
    forall i :: 0 <= i < |s| ==> s[i] == ' ' || 9 <= s[i] as int <= 13
  }

  predicate Framed(s: string, left: string, right: string) {
    && s == left + Trim(s) + right && Blank(left) && Blank(right)
    && (Trim(s) != "" ==> !Blank([Trim(s)[0]]) && !Blank([Trim(s)[|Trim(s)| - 1]]))
  }

  /** What is trimmed off on either side is white space, and all there is. */
  lemma TrimMeans(s: string)
    ensures exists left, right :: Framed(s, left, right)
    ensures Blank(s) <==> Trim(s) == ""
  {
    hide TrimLeft, TrimRight, IsSpace, Blank;
    var left := TrimLeft(s);
    LeftIsBlank(s);
    RightIsBlank(left);
    TrimIsProjection(s);
    var n := |s| - |left|;
    assert s == s[..n] + Trim(s) + left[|Trim(s)|..];
    if Trim(s) != "" {
      SpaceIsBlank(Trim(s)[0]);
      SpaceIsBlank(Trim(s)[|Trim(s)| - 1]);
    }
    assert Framed(s, s[..n], left[|Trim(s)|..]);
    FramedIsBlank(s, s[..n], left[|Trim(s)|..]);
  }

  lemma SpaceIsBlank(c: char)
    ensures IsSpace(c) <==> Blank([c])
  {
    assert [c][0] == c;
  }

  lemma FramedIsBlank(s: string, left: string, right: string)
    requires Framed(s, left, right)
    ensures Blank(s) <==> Trim(s) == ""
  {
    hide Trim;
    if Trim(s) != "" {
      assert s[|left|] == Trim(s)[0];
    }
  }

  lemma {:induction false} LeftIsBlank(s: string)
    ensures |TrimLeft(s)| <= |s| && s == s[..|s| - |TrimLeft(s)|] + TrimLeft(s) && Blank(s[..|s| - |TrimLeft(s)|])
  {
    if s != "" && IsSpace(s[0]) {
      LeftIsBlank(s[1..]);
      assert s[..|s| - |TrimLeft(s)|] == [s[0]] + s[1..][..|s| - 1 - |TrimLeft(s)|];
    }
  }

  lemma {:induction false} RightIsBlank(s: string)
    ensures |TrimRight(s)| <= |s| && s == TrimRight(s) + s[|TrimRight(s)|..] && Blank(s[|TrimRight(s)|..])
  {
    if s != "" && IsSpace(s[|s| - 1]) {
      RightIsBlank(s[..|s| - 1]);
      assert s[|TrimRight(s)|..] == s[..|s| - 1][|TrimRight(s)|..] + [s[|s| - 1]];
    }
  }

  lemma TrimKeepsOut(s: string, c: char)
    requires c !in s
    ensures c !in Trim(s)
  {
    TrimIsProjection(s);
  }

  /** One leading or one trailing blank does not change what trimming leaves of a trimmed string. */
  lemma TrimOfPadded(s: string)
    requires Trimmed(s)
    ensures Trim(" " + s) == s
    ensures Trim(s + " ") == s
  {
    TrimIsProjection(s);
    assert (" " + s)[1..] == s;
    assert (s + " ")[..|s|] == s;
    if s == "" {
      assert TrimLeft(" " + s) == TrimLeft(s);
      assert s + " " == " " + s;
    } else {
      assert TrimLeft(" " + s) == TrimLeft(s) == s;
      assert TrimLeft(s + " ") == s + " ";
      assert TrimRight(s + " ") == TrimRight(s);
    }
  }

  lemma TrimAfterBlank(s: string)
    ensures Trim(" " + s) == Trim(s)
  {
    assert (" " + s)[1..] == s;
  }

  // ----------------------------------------------------------------- cutting

  datatype Cut = Cut(before: string, after: string, found: bool)

  /** strings.Cut with a one-character separator. */
  function CutAt(s: string, sep: char): (r: Cut)
    ensures r.found ==> s == r.before + [sep] + r.after && sep !in r.before
    ensures !r.found ==> sep !in s
  {
    if s == "" then Cut("", "", false)
    else if s[0] == sep then Cut("", s[1..], true)
    else
      var rest := CutAt(s[1..], sep);
      if rest.found then Cut([s[0]] + rest.before, rest.after, true) else Cut(s, "", false)
  }

  lemma {:induction false} CutIsUnique(before: string, sep: char, after: string)
    requires sep !in before
    ensures CutAt(before + [sep] + after, sep) == Cut(before, after, true)
  {
    var s := before + [sep] + after;
    if before == "" {
      assert s[1..] == after;
    } else {
      assert s[1..] == before[1..] + [sep] + after;
      CutIsUnique(before[1..], sep, after);
    }
  }

  /** strings.Split(s, sep) for a one-character separator. */
  function Split(s: string, sep: char): (parts: seq<string>)
    ensures |parts| > 0
    ensures forall i :: 0 <= i < |parts| ==> sep !in parts[i]
    decreases |s|
  {
    var r := CutAt(s, sep);
    if r.found then [r.before] + Split(r.after, sep) else [s]
  }

  /** strings.Contains. */
  predicate Contains(s: string, part: string) {
    part <= s || (s != "" && Contains(s[1..], part))
  }

  predicate OccursAt(s: string, part: string, i: nat) {
    i + |part| <= |s| && s[i..i + |part|] == part
  }

  lemma OccursLater(s: string, part: string, i: nat)
    requires s != ""
    ensures OccursAt(s, part, i + 1) <==> OccursAt(s[1..], part, i)
  {
    if i + |part| <= |s| - 1 {
      assert s[1..][i..i + |part|] == s[i + 1..i + 1 + |part|];
    }
  }

  lemma {:induction false} ContainsMeans(s: string, part: string)
    ensures Contains(s, part) <==> exists i: nat :: OccursAt(s, part, i)
  {
    if part <= s {
      assert OccursAt(s, part, 0);
    } else if s != "" {
      hide OccursAt;
      ContainsMeans(s[1..], part);
      AtFirst(s, part);
      if i: nat :| OccursAt(s, part, i) {
        OccursLater(s, part, i - 1);
      }
      if i: nat :| OccursAt(s[1..], part, i) {
        OccursLater(s, part, i);
      }
    }
  }

  lemma AtFirst(s: string, part: string)
    ensures OccursAt(s, part, 0) <==> part <= s
  {
    if |part| <= |s| {
      assert s == s[0..|part|] + s[|part|..];
    }
  }

  // -------------------------------------------------------------------- case

  function LowerChar(c: char): char {
    if 'A' <= c <= 'Z' then ((c as int) + 32) as char else c
  }

  function UpperChar(c: char): char {
    if 'a' <= c <= 'z' then ((c as int) - 32) as char else c
  }

  function ToLower(s: string): (r: string)
    ensures |r| == |s|
  {
    seq(|s|, i requires 0 <= i < |s| => LowerChar(s[i]))
  }

  function ToUpper(s: string): (r: string)
    ensures |r| == |s|
  {
    seq(|s|, i requires 0 <= i < |s| => UpperChar(s[i]))
  }

  /** strings.EqualFold on ASCII. */
  predicate EqualFold(a: string, b: string) {
    ToLower(a) == ToLower(b)
  }

  predicate SameLetter(c: char, d: char) {
    || c == d
    || ('A' <= c <= 'Z' && d as int == c as int + 32)
    || ('A' <= d <= 'Z' && c as int == d as int + 32)
  }

  /** Texts are equal but for case if they are so letter by letter. */
  lemma EqualFoldMeans(a: string, b: string)
    ensures EqualFold(a, b) <==> |a| == |b| && forall i :: 0 <= i < |a| ==> SameLetter(a[i], b[i])
  {
    if EqualFold(a, b) {
      forall i | 0 <= i < |a|
        ensures SameLetter(a[i], b[i])
      {
        assert ToLower(a)[i] == ToLower(b)[i];
      }
    }
  }

  /** A text in lower case is the same but for case, and has no capital. */
  lemma ToLowerMeans(s: string, lower: string)
    ensures lower == ToLower(s)
            <==> |lower| == |s|
                 && forall i :: 0 <= i < |s| ==> SameLetter(s[i], lower[i]) && !('A' <= lower[i] <= 'Z')
  {
    if lower != ToLower(s) && |lower| == |s| {
      var i :| 0 <= i < |s| && lower[i] != ToLower(s)[i];
    }
  }

  // ------------------------------------------------------------------- order

  /** The strict byte order of Go strings. */
  predicate Less(a: string, b: string) {
    b != "" && (a == "" || a[0] < b[0] || (a[0] == b[0] && Less(a[1..], b[1..])))
  }

  /** Where two texts first differ, the smaller one has the smaller character or ends. */
  predicate DiffersAt(a: string, b: string, k: nat) {
    && k <= |a| && k < |b| && a[..k] == b[..k]
    && (k == |a| || a[k] < b[k])
  }

  lemma SameAtFirst(a: string, b: string, k: nat)
    requires DiffersAt(a, b, k)
    ensures k > 0 ==> a != "" && b != "" && a[0] == b[0]
  {
    if k > 0 {
      assert a[..k][0] == b[..k][0];
    }
  }

  lemma {:induction false} LessMeans(a: string, b: string)
    ensures Less(a, b) <==> exists k: nat :: DiffersAt(a, b, k)
  {
    if a == "" || b == "" || a[0] != b[0] {
      assert Less(a, b) ==> DiffersAt(a, b, 0);
      if k: nat :| DiffersAt(a, b, k) {
        SameAtFirst(a, b, k);
      }
    } else {
      LessMeans(a[1..], b[1..]);
      if k: nat :| DiffersAt(a, b, k) {
        assert k > 0 && a[1..][..k - 1] == a[..k][1..] && b[1..][..k - 1] == b[..k][1..];
        assert DiffersAt(a[1..], b[1..], k - 1);
      }
      if k: nat :| DiffersAt(a[1..], b[1..], k) {
        assert a[..k + 1] == [a[0]] + a[1..][..k] && b[..k + 1] == [b[0]] + b[1..][..k];
        assert DiffersAt(a, b, k + 1);
      }
    }
  }

  lemma {:induction false} LessIsTotal(a: string, b: string)
    ensures a == b || Less(a, b) || Less(b, a)
  {
    if a != "" && b != "" && a[0] == b[0] {
      LessIsTotal(a[1..], b[1..]);
      assert a == [a[0]] + a[1..] && b == [b[0]] + b[1..];
    }
  }

  lemma {:induction false} LessIsTransitive(a: string, b: string, c: string)
    requires Less(a, b) && Less(b, c)
    ensures Less(a, c)
  {
    if a != "" && a[0] == b[0] == c[0] {
      LessIsTransitive(a[1..], b[1..], c[1..]);
    }
  }

  lemma {:induction false} LessIsIrreflexive(a: string)
    ensures !Less(a, a)
  {
    if a != "" {
      LessIsIrreflexive(a[1..]);
    }
  }

  ghost predicate StrictlySorted(names: seq<string>) {
    forall i, j :: 0 <= i < j < |names| ==> Less(names[i], names[j])
  }

  ghost predicate Enumerates(names: seq<string>, all: set<string>) {
    && (forall i :: 0 <= i < |names| ==> names[i] in all)
    && (forall x :: x in all ==> x in names)
    && (forall i, j :: 0 <= i < j < |names| ==> names[i] != names[j])
  }

  /** A finite set of strings has one sorted enumeration. */
  lemma {:induction false} SortedEnumerationIsUnique(a: seq<string>, b: seq<string>, all: set<string>)
    requires StrictlySorted(a) && Enumerates(a, all)
    requires StrictlySorted(b) && Enumerates(b, all)
    ensures a == b
    decreases |a|
  {
    EmptyEnumeration(a, all);
    EmptyEnumeration(b, all);
    if all != {} {
      SmallestFirst(a, b, all);
      var rest := all - {a[0]};
      assert Enumerates(a[1..], rest) by { TailEnumerates(a, all); }
      assert Enumerates(b[1..], rest) by { TailEnumerates(b, all); }
      SortedEnumerationIsUnique(a[1..], b[1..], rest);
      assert a == [a[0]] + a[1..] && b == [b[0]] + b[1..];
    }
  }

  lemma EmptyEnumeration(a: seq<string>, all: set<string>)
    requires Enumerates(a, all)
    ensures a == [] <==> all == {}
  {
    if a != [] {
      assert a[0] in all;
    }
    if all != {} {
      var x :| x in all;
      assert x in a;
    }
  }

  lemma SmallestFirst(a: seq<string>, b: seq<string>, all: set<string>)
    requires StrictlySorted(a) && Enumerates(a, all) && a != []
    requires StrictlySorted(b) && Enumerates(b, all) && b != []
    ensures a[0] == b[0]
  {
    assert a[0] in all && b[0] in all;
    var i :| 0 <= i < |a| && a[i] == b[0];
    var j :| 0 <= j < |b| && b[j] == a[0];
    if i != 0 && j != 0 {
      LessIsTransitive(a[0], b[0], a[0]);
      LessIsIrreflexive(a[0]);
    }
  }

  lemma TailEnumerates(a: seq<string>, all: set<string>)
    requires Enumerates(a, all) && a != []
    ensures Enumerates(a[1..], all - {a[0]})
  {
    forall x | x in all - {a[0]}
      ensures x in a[1..]
    {
      var i :| 0 <= i < |a| && a[i] == x;
      assert a[1..][i - 1] == x;
    }
  }
}
