/**
 * The string operations the decoder applies to one tag: Python's
 * `str.startswith`, `str.split` and `str.join`, and the entity type
 * carried by a tag.
 */
module Tags {
  import opened Wrappers

  /** Python's `s.startswith(prefix)`. */
  predicate StartsWith(s: string, prefix: string) {
    |prefix| <= |s| && s[..|prefix|] == prefix
  }

  /** The role a tag's prefix gives its token in a BMES/BIO scheme. */
  datatype Role = Begin | Single | Middle | Inside | End | Outside

  function Letter(r: Role): char {
    match r
    case Begin => 'B'
    case Single => 'S'
    case Middle => 'M'
    case Inside => 'I'
    case End => 'E'
    case Outside => 'O'
  }

  /** The role named by a tag's first character, if it names one. */
  function RoleOfLetter(c: char): Option<Role> {
    match c
    case 'B' => Some(Begin)
    case 'S' => Some(Single)
    case 'M' => Some(Middle)
    case 'I' => Some(Inside)
    case 'E' => Some(End)
    case 'O' => Some(Outside)
    case _ => None
  }

  /** The role the decoder gives a tag; `None` is a tag it rejects. */
  function RoleOf(tag: string): Option<Role> {
    if |tag| == 0 then None else RoleOfLetter(tag[0])
  }

  /**
   * `RoleOf` agrees with the decoder's prefix tests: each is a `startswith`
   * on one letter, so only the first character decides, and the tests are
   * mutually exclusive, so their order does not matter.
   */
  lemma RoleOfStartsWith(tag: string)
    ensures RoleOf(tag) == Some(Begin) <==> StartsWith(tag, "B")
    ensures RoleOf(tag) == Some(Single) <==> StartsWith(tag, "S")
    ensures RoleOf(tag) == Some(Middle) <==> StartsWith(tag, "M")
    ensures RoleOf(tag) == Some(Inside) <==> StartsWith(tag, "I")
    ensures RoleOf(tag) == Some(End) <==> StartsWith(tag, "E")
    ensures RoleOf(tag) == Some(Outside) <==> StartsWith(tag, "O")
    ensures RoleOf(tag).Some? ==> |tag| > 0 && Letter(RoleOf(tag).value) == tag[0]
  {
    if |tag| > 0 {
      assert tag[..1] == [tag[0]];
    }
  }

  /** A B or S tag: it opens a new entity. */
  predicate IsOpening(tag: string) {
    RoleOf(tag) == Some(Begin) || RoleOf(tag) == Some(Single)
  }

  /** An M or I tag: it continues whatever is open. */
  predicate IsContinuation(tag: string) {
    RoleOf(tag) == Some(Middle) || RoleOf(tag) == Some(Inside)
  }

  /** `d` occurs in `s` starting at position `i`. */
  predicate OccursAt(s: string, d: string, i: nat) {
    i + |d| <= |s| && s[i..i + |d|] == d
  }

  /** The leftmost occurrence of `d` in `s`, if any. */
  function FindFirst(s: string, d: string): (r: Option<nat>)
    ensures r.Some? ==> r.value + |d| <= |s|
    decreases |s|
  {
    if |s| < |d| then None
    else if s[..|d|] == d then Some(0)
    else
      match FindFirst(s[1..], d)
      case None => None
      case Some(i) => Some(i + 1)
  }

  /** `FindFirst` finds the leftmost occurrence, and finds nothing only when there is none. */
  lemma {:induction false} FindFirstSpec(s: string, d: string)
    ensures FindFirst(s, d).Some? ==>
      OccursAt(s, d, FindFirst(s, d).value) && forall j: nat :: j < FindFirst(s, d).value ==> !OccursAt(s, d, j)
    ensures FindFirst(s, d).None? ==> forall j: nat :: !OccursAt(s, d, j)
    decreases |s|
  {
    if |s| >= |d| && s[..|d|] != d {
      ShiftOccurs(s, d);
      FindFirstSpec(s[1..], d);
    }
  }

  lemma ShiftOccurs(s: string, d: string)
    requires |s| > 0
    ensures |d| <= |s| ==> (OccursAt(s, d, 0) <==> s[..|d|] == d)
    ensures forall j: nat :: 0 < j ==> (OccursAt(s, d, j) <==> OccursAt(s[1..], d, j - 1))
  {
    forall j: nat | 0 < j
      ensures OccursAt(s, d, j) <==> OccursAt(s[1..], d, j - 1)
    {
      if j + |d| <= |s| {
        assert s[1..][j - 1..j - 1 + |d|] == s[j..j + |d|];
      }
    }
  }

  /** Python's `s.split(d)` for a non-empty separator. */
  function Split(s: string, d: string): (parts: seq<string>)
    requires |d| > 0
    ensures |parts| > 0
    decreases |s|
  {
    match FindFirst(s, d)
    case None => [s]
    case Some(i) => [s[..i]] + Split(s[i + |d|..], d)
  }

  /** Python's `d.join(parts)`. */
  function Join(d: string, parts: seq<string>): string {
    if |parts| == 0 then ""
    else if |parts| == 1 then parts[0]
    else parts[0] + d + Join(d, parts[1..])
  }

  /** Joining two or more pieces puts the separator after the first. */
  lemma JoinCons(d: string, head: string, tail: seq<string>)
    requires |tail| > 0
    ensures Join(d, [head] + tail) == head + d + Join(d, tail)
  {
    assert ([head] + tail)[1..] == tail;
  }

  /** Cutting one occurrence of `d` out of `s` and putting it back gives `s`. */
  lemma Reassemble(s: string, d: string, i: nat)
    requires OccursAt(s, d, i)
    ensures s[..i] + d + s[i + |d|..] == s
  {
    assert s == s[..i] + s[i..i + |d|] + s[i + |d|..];
  }

  /** Joining the pieces of a split with the same separator gives back the string. */
  lemma {:induction false} JoinSplit(s: string, d: string)
    requires |d| > 0
    ensures Join(d, Split(s, d)) == s
    decreases |s|
  {
    FindFirstSpec(s, d);
    match FindFirst(s, d)
    case None =>
    case Some(i) =>
      var rest := s[i + |d|..];
      JoinSplit(rest, d);
      JoinCons(d, s[..i], Split(rest, d));
      Reassemble(s, d, i);
  }

  /** No piece of a split contains the separator. */
  lemma {:induction false} SplitPartsFree(s: string, d: string)
    requires |d| > 0
    ensures forall k: nat, j: nat :: k < |Split(s, d)| ==> !OccursAt(Split(s, d)[k], d, j)
    decreases |s|
  {
    FindFirstSpec(s, d);
    match FindFirst(s, d)
    case None =>
    case Some(i) =>
      var rest := s[i + |d|..];
      SplitPartsFree(rest, d);
      forall j: nat
        ensures !OccursAt(s[..i], d, j)
      {
        if j + |d| <= i {
          assert s[..i][j..j + |d|] == s[j..j + |d|];
          assert !OccursAt(s, d, j);
        }
      }
      forall k: nat, j: nat | k < |Split(s, d)|
        ensures !OccursAt(Split(s, d)[k], d, j)
      {
        if k > 0 {
          assert Split(s, d)[k] == Split(rest, d)[k - 1];
        }
      }
  }

  /** The entity type of a tag: what follows the first separator, or "" when there is none. */
  function TypeSuffix(tag: string, d: string): string {
    match FindFirst(tag, d)
    case None => ""
    case Some(i) => tag[i + |d|..]
  }

  /**
   * The decoder computes the type as `d.join(tag.split(d)[1:])`; that is
   * exactly the text after the first separator.
   */
  lemma TypeSuffixIsJoinedTail(tag: string, d: string)
    requires |d| > 0
    ensures TypeSuffix(tag, d) == Join(d, Split(tag, d)[1..])
  {
    match FindFirst(tag, d)
    case None =>
    case Some(i) =>
      var rest := tag[i + |d|..];
      JoinSplit(rest, d);
      assert Split(tag, d)[1..] == Split(rest, d);
  }

  /** Later separators stay in the type; a tag without separator has the empty type. */
  lemma TypeSuffixExamples()
    ensures TypeSuffix("B-PER-LOC", "-") == "PER-LOC"
    ensures TypeSuffix("B", "-") == ""
    ensures TypeSuffix("S--X", "--") == "X"
  {
    assert "S--X"[1..] == "--X";
    assert "S--X"[..2] == "S-" && "S-" != "--";
    assert FindFirst("--X", "--") == Some(0);
    assert FindFirst("S--X", "--") == Some(1);
  }
}
