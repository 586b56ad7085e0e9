/** The shared string helpers. A Java `String` that may be null is an
    `Option<string>`; Java's `trim` and the ASCII part of its case mapping
    are written out. */
module Strings {
  import opened Common

  // -----------------------------------------------------------------------
  // Java's trim: drops leading and trailing characters up to U+0020

  predicate IsBlankChar(c: char) {
    c <= ' '
  }

  /** How many blank characters `s` starts with. */
  function Lead(s: string): (k: nat)
    ensures k <= |s|
    ensures forall i :: 0 <= i < k ==> IsBlankChar(s[i])
    ensures k < |s| ==> !IsBlankChar(s[k])
  {
    if s == [] || !IsBlankChar(s[0]) then 0 else 1 + Lead(s[1..])
  }

  /** How many blank characters `s` ends with. */
  function Trail(s: string): (k: nat)
    ensures k <= |s|
    ensures forall i :: |s| - k <= i < |s| ==> IsBlankChar(s[i])
    ensures k < |s| ==> !IsBlankChar(s[|s| - 1 - k])
  {
    if s == [] || !IsBlankChar(s[|s| - 1]) then 0 else 1 + Trail(s[..|s| - 1])
  }

  /** `String.trim`: the part between the leading and the trailing blanks. */
  function Trim(s: string): (r: string)
    ensures |r| <= |s|
    ensures r == [] <==> forall i :: 0 <= i < |s| ==> IsBlankChar(s[i])
    ensures r != [] ==> !IsBlankChar(r[0]) && !IsBlankChar(r[|r| - 1])
  {
    var t := s[Lead(s)..];
    var r := t[..|t| - Trail(t)];
    r
  }

  /** Trimming twice trims no more than trimming once. */
  lemma TrimIdempotent(s: string)
    ensures Trim(Trim(s)) == Trim(s)
  {
    var r := Trim(s);
    if r != [] {
      assert Lead(r) == 0;
      assert Trail(r[Lead(r)..]) == 0 by { assert r[Lead(r)..] == r; }
    }
  }

  /** `isEmpty`: null, or nothing but blanks. */
  predicate IsEmpty(str: Option<string>) {
    str.None? || Trim(str.value) == []
  }

  /** `isNotEmpty`. */
  predicate IsNotEmpty(str: Option<string>) {
    !IsEmpty(str)
  }

  /** A string is empty in this sense exactly when it is null or holds no
      character above U+0020; `isNotEmpty` says the opposite. */
  lemma IsEmptyMeansBlank(str: Option<string>)
    ensures IsEmpty(str) <==> str.None? || forall i :: 0 <= i < |str.value| ==> IsBlankChar(str.value[i])
    ensures IsNotEmpty(str) <==> str.Some? && exists i :: 0 <= i < |str.value| && !IsBlankChar(str.value[i])
  {
  }

  /** `trimToNull`: null for null or blank input, the trimmed string
      otherwise. */
  function TrimToNull(str: Option<string>): (r: Option<string>)
    ensures r.None? <==> IsEmpty(str)
    ensures r.Some? ==> r.value == Trim(str.value) && r.value != [] && Trim(r.value) == r.value
  {
    if str.None? then None
    else
      var trimmed := Trim(str.value);
      TrimIdempotent(str.value);
      if trimmed == [] then None else Some(trimmed)
  }

  /** `truncate`: the input when it fits, its first `maxLength` characters
      otherwise; a negative `maxLength` makes `substring` throw. */
  function Truncate(str: Option<string>, maxLength: int): (r: Result<Option<string>>)
    ensures str.None? ==> r == Success(None)
    ensures str.Some? && |str.value| <= maxLength ==> r == Success(str)
    ensures str.Some? && maxLength < 0 ==> r == Failure(IndexOutOfBounds)
    ensures str.Some? && 0 <= maxLength < |str.value| ==>
      r.Success? && r.value.Some? && |r.value.value| == maxLength && r.value.value == str.value[..maxLength]
  {
    if str.None? || |str.value| <= maxLength then Success(str)
    else if maxLength < 0 then Failure(IndexOutOfBounds)
    else Success(Some(str.value[..maxLength]))
  }

  /** Truncating to the same length twice changes nothing the second time,
      and the result is never longer than asked. */
  lemma TruncateIdempotent(s: string, n: nat)
    ensures Truncate(Some(s), n).Success?
    ensures var t := Truncate(Some(s), n).value.value;
      |t| <= n && t <= s && Truncate(Some(t), n) == Success(Some(t))
  {
  }

  // -----------------------------------------------------------------------
  // Case mapping, ASCII letters only

  function ToLowerChar(c: char): (r: char)
    ensures 'A' <= c <= 'Z' ==> r as int == c as int + 32
    ensures !('A' <= c <= 'Z') ==> r == c
  {
    if 'A' <= c <= 'Z' then (c as int + 32) as char else c
  }

  function ToUpperChar(c: char): (r: char)
    ensures 'a' <= c <= 'z' ==> r as int == c as int - 32
    ensures !('a' <= c <= 'z') ==> r == c
  {
    if 'a' <= c <= 'z' then (c as int - 32) as char else c
  }

  /** `toLowerCase`. */
  function ToLower(s: string): (r: string)
    ensures |r| == |s| && forall i :: 0 <= i < |s| ==> r[i] == ToLowerChar(s[i])
  {
    seq(|s|, i requires 0 <= i < |s| => ToLowerChar(s[i]))
  }

  /** Lowercasing leaves no upper-case letter, so doing it again changes
      nothing; and it maps '_' and only '_' to '_'. */
  lemma ToLowerFacts(s: string)
    ensures ToLower(ToLower(s)) == ToLower(s)
    ensures forall i :: 0 <= i < |s| ==> !('A' <= ToLower(s)[i] <= 'Z')
    ensures '_' in ToLower(s) <==> '_' in s
  {
    if '_' in ToLower(s) {
      var i :| 0 <= i < |s| && ToLower(s)[i] == '_';
      assert s[i] == '_';
    }
    if '_' in s {
      var i :| 0 <= i < |s| && s[i] == '_';
      assert ToLower(s)[i] == '_';
    }
  }

  /** `equalsIgnoreCase` on ASCII text. */
  predicate EqualsIgnoreCase(a: string, b: string) {
    ToLower(a) == ToLower(b)
  }

  /** `String.contains`: `t` occurs in `s` as a contiguous piece. */
  predicate Contains(s: string, t: string) {
    exists i :: 0 <= i <= |s| && OccursAt(s, t, i)
  }

  predicate OccursAt(s: string, t: string, i: nat) {
    i + |t| <= |s| && s[i..i + |t|] == t
  }

  /** `capitalize`: blank input unchanged; otherwise the first character
      upper-cased and the rest lower-cased. */
  function Capitalize(str: Option<string>): (r: Option<string>)
    ensures IsEmpty(str) ==> r == str
    ensures !IsEmpty(str) ==>
      && r.Some? && |r.value| == |str.value|
      && r.value[0] == ToUpperChar(str.value[0])
      && forall i :: 1 <= i < |str.value| ==> r.value[i] == ToLowerChar(str.value[i])
  {
    if IsEmpty(str) then str
    else
      var s := str.value;
      Some([ToUpperChar(s[0])] + ToLower(s[1..]))
  }

  // -----------------------------------------------------------------------
  // toCamelCase

  /** The pieces of `s` between its '_' characters, empty ones included:
      always one more than the number of '_'. */
  function Pieces(s: string): (r: seq<string>)
    ensures |r| >= 1
    ensures forall k :: 0 <= k < |r| ==> '_' !in r[k]
  {
    if s == [] then [[]]
    else
      var rest := Pieces(s[1..]);
      if s[0] == '_' then [[]] + rest else [[s[0]] + rest[0]] + rest[1..]
  }

  /** Puts pieces back together with '_' between them. */
  function JoinUnderscore(parts: seq<string>): string
    requires |parts| >= 1
  {
    if |parts| == 1 then parts[0] else parts[0] + "_" + JoinUnderscore(parts[1..])
  }

  /** Cutting at '_' and joining with '_' gives back the input. */
  lemma {:induction false} PiecesJoin(s: string)
    ensures JoinUnderscore(Pieces(s)) == s
  {
    if s != [] {
      var rest := Pieces(s[1..]);
      PiecesJoin(s[1..]);
      if s[0] == '_' {
        assert JoinUnderscore([[]] + rest) == "_" + JoinUnderscore(rest) by {
          assert ([[]] + rest)[1..] == rest;
        }
        assert s == "_" + s[1..];
      } else if |rest| == 1 {
        assert s == [s[0]] + s[1..];
      } else {
        var p := [[s[0]] + rest[0]] + rest[1..];
        assert p[1..] == rest[1..];
        assert JoinUnderscore(rest) == rest[0] + "_" + JoinUnderscore(rest[1..]);
        assert s == [s[0]] + s[1..];
      }
    }
  }

  /** Drops the empty strings at the end. */
  function DropTrailingEmpty(parts: seq<string>): (r: seq<string>)
    ensures r <= parts
    ensures r != [] ==> r[|r| - 1] != []
    ensures forall k :: |r| <= k < |parts| ==> parts[k] == []
  {
    if parts == [] || parts[|parts| - 1] != [] then parts
    else DropTrailingEmpty(parts[..|parts| - 1])
  }

  /** `split("_")`: the input itself when it holds no '_'; otherwise its
      pieces without the empty ones at the end. */
  function SplitUnderscore(s: string): (r: seq<string>)
    ensures forall k :: 0 <= k < |r| ==> '_' !in r[k]
    ensures '_' !in s ==> r == [s]
  {
    if '_' !in s then [s] else DropTrailingEmpty(Pieces(s))
  }

  /** A non-empty string of nothing but '_' splits into no parts at all. */
  lemma {:induction false} AllUnderscoresSplitEmpty(s: string)
    requires s != [] && forall i :: 0 <= i < |s| ==> s[i] == '_'
    ensures SplitUnderscore(s) == []
  {
    assert s[0] == '_';
    AllUnderscoresPiecesEmpty(s);
    DropAllEmpty(Pieces(s));
  }

  lemma {:induction false} AllUnderscoresPiecesEmpty(s: string)
    requires forall i :: 0 <= i < |s| ==> s[i] == '_'
    ensures forall k :: 0 <= k < |Pieces(s)| ==> Pieces(s)[k] == []
  {
    if s != [] {
      AllUnderscoresPiecesEmpty(s[1..]);
    }
  }

  lemma {:induction false} DropAllEmpty(parts: seq<string>)
    requires forall k :: 0 <= k < |parts| ==> parts[k] == []
    ensures DropTrailingEmpty(parts) == []
  {
    if parts != [] {
      DropAllEmpty(parts[..|parts| - 1]);
    }
  }

  /** The camel-case form of split parts: the first part lower-cased, each
      later part capitalized. */
  function CamelJoin(parts: seq<string>): (r: string)
    requires |parts| >= 1
    requires forall k :: 0 <= k < |parts| ==> '_' !in parts[k]
    ensures '_' !in r
  {
    if |parts| == 1 then
      ToLowerFacts(parts[0]);
      ToLower(parts[0])
    else
      CapitalizeKeepsNoUnderscore(parts[|parts| - 1]);
      CamelJoin(parts[..|parts| - 1]) + Capitalize(Some(parts[|parts| - 1])).value
  }

  /** Case mapping neither adds nor removes '_'. */
  lemma CapitalizeKeepsNoUnderscore(s: string)
    requires '_' !in s
    ensures '_' !in Capitalize(Some(s)).value
  {
    var r := Capitalize(Some(s)).value;
    forall i | 0 <= i < |r| ensures r[i] != '_' {
      assert s[i] != '_';
    }
  }

  lemma CamelJoinStep(parts: seq<string>, i: nat)
    requires 1 <= i < |parts|
    requires forall k :: 0 <= k < |parts| ==> '_' !in parts[k]
    ensures CamelJoin(parts[..i + 1]) == CamelJoin(parts[..i]) + Capitalize(Some(parts[i])).value
  {
    var q, a := parts[..i + 1], parts[..i];
    assert q[..|q| - 1] == a && q[|q| - 1] == parts[i];
    assert forall k :: 0 <= k < |q| ==> '_' !in q[k];
    CamelJoinUnfold(q);
    assert CamelJoin(q) == CamelJoin(a) + Capitalize(Some(parts[i])).value;
  }

  /** One unfolding of the join: the last part is appended capitalized. */
  lemma CamelJoinUnfold(q: seq<string>)
    requires |q| >= 2
    requires forall k :: 0 <= k < |q| ==> '_' !in q[k]
    ensures CamelJoin(q) == CamelJoin(q[..|q| - 1]) + Capitalize(Some(q[|q| - 1])).value
  {
  }

  /** What `toCamelCase` returns: blank input unchanged, an error when the
      split leaves no parts, the camel-case join otherwise. */
  function CamelCase(str: Option<string>): (r: Result<Option<string>>)
    ensures r.Success? && r.value.Some? && !IsEmpty(str) ==> '_' !in r.value.value
  {
    if IsEmpty(str) then Success(str)
    else if SplitUnderscore(str.value) == [] then Failure(IndexOutOfBounds)
    else Success(Some(CamelJoin(SplitUnderscore(str.value))))
  }

  /** Input without '_' comes back lower-cased; input of nothing but '_'
      makes `parts[0]` throw. */
  lemma CamelCaseCases(str: Option<string>)
    ensures !IsEmpty(str) && '_' !in str.value ==> CamelCase(str) == Success(Some(ToLower(str.value)))
    ensures !IsEmpty(str) && (forall i :: 0 <= i < |str.value| ==> str.value[i] == '_') ==>
      CamelCase(str) == Failure(IndexOutOfBounds)
  {
    if !IsEmpty(str) && forall i :: 0 <= i < |str.value| ==> str.value[i] == '_' {
      AllUnderscoresSplitEmpty(str.value);
    }
  }

  /** `toCamelCase`, appending one capitalized part per turn. */
  method ToCamelCase(str: Option<string>) returns (r: Result<Option<string>>)
    ensures r == CamelCase(str)
  {
    if IsEmpty(str) {
      return Success(str);
    }
    var parts := SplitUnderscore(str.value);
    if |parts| == 0 {
      return Failure(IndexOutOfBounds);
    }
    var camelCase := ToLower(parts[0]);
    var i := 1;
    while i < |parts|
      invariant 1 <= i <= |parts|
      invariant camelCase == CamelJoin(parts[..i])
    {
      CamelJoinStep(parts, i);
      camelCase := camelCase + Capitalize(Some(parts[i])).value;
      i := i + 1;
    }
    assert parts[..i] == parts;
    r := Success(Some(camelCase));
  }

  // -----------------------------------------------------------------------
  // Random codes

  const Alphanumeric: string := "ABCDEFGHIJKLMNOPQRSTUVWXYZ0123456789"

  /** `generateRandomAlphanumeric`: `length` characters, each drawn from
      A-Z and 0-9; the draw is a nondeterministic choice. A negative length
      makes the `StringBuilder` constructor throw. */
  method GenerateRandomAlphanumeric(length: int) returns (r: Result<string>)
    ensures length < 0 ==> r == Failure(NegativeSize)
    ensures length >= 0 ==> r.Success? && |r.value| == length && forall i :: 0 <= i < length ==> r.value[i] in Alphanumeric
  {
    if length < 0 {
      return Failure(NegativeSize);
    }
    var sb := "";
    for i := 0 to length
      invariant |sb| == i && forall j :: 0 <= j < i ==> sb[j] in Alphanumeric
    {
      var k :| 0 <= k < |Alphanumeric|;
      sb := sb + [Alphanumeric[k]];
    }
    r := Success(sb);
  }

  /** `generatePNR`: ten characters from A-Z and 0-9. */
  method GeneratePnr() returns (pnr: string)
    ensures |pnr| == 10 && forall i :: 0 <= i < 10 ==> pnr[i] in Alphanumeric
  {
    var r := GenerateRandomAlphanumeric(10);
    pnr := r.value;
  }
}
