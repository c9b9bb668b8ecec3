/**
 * The pieces of `java.lang.String` the core relies on: `toLowerCase`,
 * conversion between text and octets, and `split("\r\n")`.
 */
module JavaText {
  import opened Wrappers
  import opened JavaInt

  // ---------------------------------------------------------------------
  // Case conversion
  // ---------------------------------------------------------------------

  function LowerChar(c: char): char {
    if 'A' <= c <= 'Z' then ((c as int) + 32) as char else c
  }

  /** `s.toLowerCase()`, on the ASCII letters. */
  function Lower(s: string): (r: string)
    ensures |r| == |s|
  {
    seq(|s|, i requires 0 <= i < |s| => LowerChar(s[i]))
  }

  predicate NoUpper(s: string) {
    forall i | 0 <= i < |s| :: !('A' <= s[i] <= 'Z')
  }

  /** Lower-casing leaves a string with no upper-case letter as it is. */
  lemma LowerKeepsLower(s: string)
    requires NoUpper(s)
    ensures Lower(s) == s
  {
    assert forall i | 0 <= i < |s| :: Lower(s)[i] == s[i];
  }

  // ---------------------------------------------------------------------
  // Octets and text
  // ---------------------------------------------------------------------

  /** `new String(bytes)`, reading each octet as the character with that code. */
  function Decode(b: seq<uint8>): (s: string)
    ensures |s| == |b|
  {
    seq(|b|, i requires 0 <= i < |b| => (b[i] as int) as char)
  }

  /** `s.getBytes()`, keeping the low eight bits of each character. */
  function Encode(s: string): (b: seq<uint8>)
    ensures |b| == |s|
  {
    seq(|s|, i requires 0 <= i < |s| => ((s[i] as int) % 256) as uint8)
  }

  predicate IsNarrow(s: string) {
    forall i | 0 <= i < |s| :: (s[i] as int) < 256
  }

  /** Text of eight-bit characters survives the trip to octets and back. */
  lemma DecodeEncode(s: string)
    requires IsNarrow(s)
    ensures Decode(Encode(s)) == s
  {
    assert forall i | 0 <= i < |s| :: Decode(Encode(s))[i] == s[i];
  }

  // ---------------------------------------------------------------------
  // split("\r\n")
  // ---------------------------------------------------------------------

  const CRLF: string := "\r\n"

  /** A carriage return followed by a line feed starts at index `i` of `s`. */
  predicate CrlfAt(s: string, i: int) {
    0 <= i && i + 1 < |s| && s[i] == '\r' && s[i + 1] == '\n'
  }

  predicate ContainsCrlf(s: string) {
    exists i | 0 <= i < |s| :: CrlfAt(s, i)
  }

  predicate EndsWithCrlf(s: string) {
    CrlfAt(s, |s| - 2)
  }

  /** The first CRLF at or after `from`, if any. */
  function FindCrlf(s: string, from: nat): (r: Option<nat>)
    ensures r.Some? ==> from <= r.value && CrlfAt(s, r.value)
    ensures r.Some? ==> forall j | from <= j < r.value :: !CrlfAt(s, j)
    ensures r.None? ==> forall j | from <= j :: !CrlfAt(s, j)
    decreases |s| - from
  {
    if from + 1 >= |s| then None
    else if s[from] == '\r' && s[from + 1] == '\n' then Some(from)
    else FindCrlf(s, from + 1)
  }

  /** Everything between successive CRLFs, left to right, empty pieces included. */
  function Pieces(s: string): (r: seq<string>)
    ensures |r| >= 1
    decreases |s|
  {
    match FindCrlf(s, 0)
    case None => [s]
    case Some(i) => [s[..i]] + Pieces(s[i + 2..])
  }

  /** The pieces put back together with CRLF between them. */
  function Join(parts: seq<string>): string {
    if |parts| == 0 then ""
    else if |parts| == 1 then parts[0]
    else parts[0] + CRLF + Join(parts[1..])
  }

  /** `parts` without its trailing run of empty strings. */
  function DropTrailingEmpty(parts: seq<string>): (r: seq<string>)
    ensures |r| <= |parts| && r == parts[..|r|]
    ensures r == [] || r[|r| - 1] != ""
  {
    if |parts| > 0 && parts[|parts| - 1] == "" then DropTrailingEmpty(parts[..|parts| - 1])
    else parts
  }

  /**
   * `s.split("\r\n")`: Java drops the trailing empty strings of the split
   * and keeps the leading and middle ones; the empty string splits into
   * one empty string.
   */
  function Split(s: string): seq<string> {
    if s == "" then [""] else DropTrailingEmpty(Pieces(s))
  }

  /** `s` without any CRLF pairs at its end. */
  function StripTrailingCrlf(s: string): string
    decreases |s|
  {
    if EndsWithCrlf(s) then StripTrailingCrlf(s[..|s| - 2]) else s
  }

  /** How many CRLF pairs end `s`. */
  function TrailingCrlfs(s: string): nat
    decreases |s|
  {
    if EndsWithCrlf(s) then TrailingCrlfs(s[..|s| - 2]) + 1 else 0
  }

  /** `k` terminators in a row. */
  function Crlfs(k: nat): string {
    if k == 0 then "" else Crlfs(k - 1) + CRLF
  }

  function Empties(k: nat): seq<string> {
    seq(k, i => "")
  }

  lemma FindCrlfIsFirst(s: string, i: nat)
    requires CrlfAt(s, i)
    requires forall j | 0 <= j < i :: !CrlfAt(s, j)
    ensures FindCrlf(s, 0) == Some(i)
  {
  }

  /** Joining the pieces with CRLF gives back the string. */
  lemma {:induction false} PiecesJoin(s: string)
    ensures Join(Pieces(s)) == s
    decreases |s|
  {
    match FindCrlf(s, 0)
    case None =>
    case Some(i) =>
      var rest := s[i + 2..];
      PiecesJoin(rest);
      var r := Pieces(rest);
      assert Pieces(s) == [s[..i]] + r;
      assert ([s[..i]] + r)[1..] == r;
      assert s == s[..i] + CRLF + rest;
  }

  /** No piece contains the terminator. */
  lemma {:induction false} PiecesHaveNoCrlf(s: string)
    ensures forall k | 0 <= k < |Pieces(s)| :: !ContainsCrlf(Pieces(s)[k])
    decreases |s|
  {
    match FindCrlf(s, 0)
    case None =>
      assert Pieces(s) == [s];
    case Some(i) =>
      var rest := s[i + 2..];
      PiecesHaveNoCrlf(rest);
      var head := s[..i];
      forall j | CrlfAt(head, j)
        ensures false
      {
        assert CrlfAt(s, j);
      }
      assert Pieces(s) == [head] + Pieces(rest);
  }

  /** A string with no terminator, followed by one, is found to have it right at its end. */
  lemma FindCrlfAtEnd(x: string)
    requires FindCrlf(x, 0).None?
    ensures FindCrlf(x + CRLF, 0) == Some(|x|)
  {
    var y := x + CRLF;
    forall j | 0 <= j < |x|
      ensures !CrlfAt(y, j)
    {
      if j + 1 < |x| {
        assert !CrlfAt(x, j);
      } else {
        assert y[j + 1] == '\r';
      }
    }
    assert CrlfAt(y, |x|);
    FindCrlfIsFirst(y, |x|);
  }

  /** Appending a terminator does not move the first one of a string that has one. */
  lemma FindCrlfKept(x: string, i: nat)
    requires FindCrlf(x, 0) == Some(i)
    ensures FindCrlf(x + CRLF, 0) == Some(i)
  {
    var y := x + CRLF;
    forall j | 0 <= j < i
      ensures !CrlfAt(y, j)
    {
      assert !CrlfAt(x, j);
    }
    assert CrlfAt(y, i);
    FindCrlfIsFirst(y, i);
  }

  /** One more terminator at the end adds one empty piece at the end. */
  lemma {:induction false} PiecesAppendCrlf(x: string)
    ensures Pieces(x + CRLF) == Pieces(x) + [""]
    decreases |x|
  {
    var y := x + CRLF;
    match FindCrlf(x, 0)
    case None =>
      FindCrlfAtEnd(x);
      assert y[..|x|] == x;
      assert y[|x| + 2..] == "";
      assert Pieces("") == [""];
    case Some(i) =>
      FindCrlfKept(x, i);
      assert y[..i] == x[..i];
      assert y[i + 2..] == x[i + 2..] + CRLF;
      PiecesAppendCrlf(x[i + 2..]);
  }

  /** The last piece is empty exactly when the string is empty or ends with the terminator. */
  lemma {:induction false} LastPieceEmpty(s: string)
    ensures Pieces(s)[|Pieces(s)| - 1] == "" <==> s == "" || EndsWithCrlf(s)
    decreases |s|
  {
    match FindCrlf(s, 0)
    case None =>
      assert Pieces(s) == [s];
      if s != "" {
        assert !CrlfAt(s, |s| - 2);
      }
    case Some(i) =>
      var rest := s[i + 2..];
      LastPieceEmpty(rest);
      var r := Pieces(rest);
      assert Pieces(s) == [s[..i]] + r;
      assert Pieces(s)[|Pieces(s)| - 1] == r[|r| - 1];
      if |rest| >= 2 {
        assert rest[|rest| - 2] == s[|s| - 2] && rest[|rest| - 1] == s[|s| - 1];
        assert EndsWithCrlf(rest) <==> EndsWithCrlf(s);
      } else if |rest| == 1 {
        assert s[|s| - 2] == '\n';
        assert !EndsWithCrlf(s);
      } else {
        assert EndsWithCrlf(s);
      }
  }

  /** A string is its stripped form followed by its trailing terminators. */
  lemma {:induction false} StripDecompose(s: string)
    ensures s == StripTrailingCrlf(s) + Crlfs(TrailingCrlfs(s))
    ensures !EndsWithCrlf(StripTrailingCrlf(s))
    decreases |s|
  {
    if EndsWithCrlf(s) {
      var t := s[..|s| - 2];
      StripDecompose(t);
      assert s == t + CRLF;
    }
  }

  lemma {:induction false} PiecesAppendCrlfs(t: string, k: nat)
    ensures Pieces(t + Crlfs(k)) == Pieces(t) + Empties(k)
    decreases k
  {
    if k == 0 {
      assert t + Crlfs(0) == t;
      assert Pieces(t) + Empties(0) == Pieces(t);
    } else {
      PiecesAppendCrlfs(t, k - 1);
      assert t + Crlfs(k) == (t + Crlfs(k - 1)) + CRLF;
      PiecesAppendCrlf(t + Crlfs(k - 1));
      assert Empties(k) == Empties(k - 1) + [""];
    }
  }

  lemma {:induction false} DropEmpties(parts: seq<string>, k: nat)
    requires parts == [] || parts[|parts| - 1] != ""
    ensures DropTrailingEmpty(parts + Empties(k)) == parts
    decreases k
  {
    if k == 0 {
      assert parts + Empties(0) == parts;
    } else {
      var q := parts + Empties(k);
      assert q[|q| - 1] == "";
      assert q[..|q| - 1] == parts + Empties(k - 1);
      DropEmpties(parts, k - 1);
    }
  }

  /** Dropping the trailing empties of a piece list followed by `k` empty strings leaves the pieces of a string with no terminator at its end, or nothing. */
  lemma DropAfterPieces(t: string, k: nat)
    requires !EndsWithCrlf(t)
    ensures DropTrailingEmpty(Pieces(t) + Empties(k)) == if t == "" then [] else Pieces(t)
  {
    if t == "" {
      assert Pieces(t) == [""];
      assert Pieces(t) + Empties(k) == [] + Empties(k + 1);
      DropEmpties([], k + 1);
    } else {
      LastPieceEmpty(t);
      DropEmpties(Pieces(t), k);
    }
  }

  /** The segments of a non-empty string are the pieces of its stripped form, or none when nothing is left. */
  lemma SplitAsPieces(s: string)
    requires s != ""
    ensures var t := StripTrailingCrlf(s); Split(s) == if t == "" then [] else Pieces(t)
  {
    var t := StripTrailingCrlf(s);
    var k := TrailingCrlfs(s);
    StripDecompose(s);
    PiecesAppendCrlfs(t, k);
    DropAfterPieces(t, k);
  }

  /** Joining the segments of a split gives the string without its trailing terminators. */
  lemma SplitJoin(s: string)
    ensures Join(Split(s)) == StripTrailingCrlf(s)
  {
    if s != "" {
      SplitAsPieces(s);
      var t := StripTrailingCrlf(s);
      if t != "" {
        PiecesJoin(t);
      }
    }
  }

  /** No segment of a split contains the terminator. */
  lemma SplitHasNoCrlf(s: string)
    ensures forall k | 0 <= k < |Split(s)| :: !ContainsCrlf(Split(s)[k])
  {
    if s == "" {
      assert Split(s) == [""];
      assert !ContainsCrlf("");
    } else {
      PiecesHaveNoCrlf(s);
      var p := Pieces(s);
      var r := DropTrailingEmpty(p);
      assert forall k | 0 <= k < |r| :: r[k] == p[k];
    }
  }

  /** A chunk without a terminator is a single segment, itself: the empty chunk gives [""]. */
  lemma SplitWithoutTerminator(s: string)
    requires !ContainsCrlf(s)
    ensures Split(s) == [s]
  {
    if FindCrlf(s, 0).Some? {
      assert false;
    }
  }

  /** Nothing is left of a run of terminators once they are stripped. */
  lemma {:induction false} CrlfsStrip(k: nat)
    ensures StripTrailingCrlf(Crlfs(k)) == ""
  {
    if k > 0 {
      var s := Crlfs(k);
      assert s == Crlfs(k - 1) + CRLF;
      assert EndsWithCrlf(s);
      assert s[..|s| - 2] == Crlfs(k - 1);
      CrlfsStrip(k - 1);
    }
  }

  /** A chunk made only of terminators splits into no segment at all. */
  lemma SplitOfTerminators(k: nat)
    requires k > 0
    ensures Split(Crlfs(k)) == []
  {
    var s := Crlfs(k);
    assert s == Crlfs(k - 1) + CRLF;
    CrlfsStrip(k);
    SplitAsPieces(s);
  }

}
