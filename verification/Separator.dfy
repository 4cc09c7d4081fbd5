/** Splitting a condition group at the literal separator " && ". */
module Separator {

  const SEPARATOR := " && "

  predicate OccursAt(value: string, i: nat) {
    i + 4 <= |value| && value[i..i + 4] == SEPARATOR
  }

  predicate Contains(value: string) {
    exists i: nat :: i <= |value| && OccursAt(value, i)
  }

  /** The first occurrence at or after `from`, or the length of `value` if there is none. */
  function FirstFrom(value: string, from: nat): (i: nat)
    requires from <= |value|
    ensures from <= i <= |value|
    ensures i < |value| ==> OccursAt(value, i)
    ensures forall j: nat :: from <= j < i ==> !OccursAt(value, j)
    decreases |value| - from
  {
    if from == |value| || OccursAt(value, from) then from else FirstFrom(value, from + 1)
  }

  /** `strings.Split`: cut at each separator, from left to right, without overlaps. */
  function Split(value: string): (members: seq<string>)
    ensures members != []
    decreases |value|
  {
    var i := FirstFrom(value, 0);
    if i == |value| then [value] else [value[..i]] + Split(value[i + 4..])
  }

  function Join(members: seq<string>): string
    requires members != []
  {
    if |members| == 1 then members[0] else members[0] + SEPARATOR + Join(members[1..])
  }

  predicate EndsInHalf(member: string) {
    |member| >= 3 && member[|member| - 3..] == " &&"
  }

  /** Lists that survive joining: no separator inside a member, and none that begins in one and ends after it. */
  predicate Clean(members: seq<string>) {
    && members != []
    && (forall i :: 0 <= i < |members| ==> !Contains(members[i]))
    && (forall i :: 0 <= i < |members| - 1 ==> !EndsInHalf(members[i]))
  }

  /** Joining what was split restores the text. */
  lemma {:induction false} JoinRestores(value: string)
    ensures Join(Split(value)) == value
    decreases |value|
  {
    var i := FirstFrom(value, 0);
    if i < |value| {
      JoinRestores(value[i + 4..]);
      var rest := Split(value[i + 4..]);
      assert Split(value)[1..] == rest;
      assert value == value[..i] + value[i..i + 4] + value[i + 4..];
    }
  }

  lemma OccursInPrefix(value: string, n: nat, i: nat)
    requires n <= |value|
    ensures OccursAt(value[..n], i) ==> i < n && OccursAt(value, i)
  {
    if i + 4 <= n {
      assert value[..n][i..i + 4] == value[i..i + 4];
    }
  }

  lemma FirstPiece(value: string)
    ensures var i := FirstFrom(value, 0); !Contains(value[..i]) && (i < |value| ==> !EndsInHalf(value[..i]))
  {
    hide FirstFrom, OccursAt;
    var i := FirstFrom(value, 0);
    forall j: nat | j <= i
      ensures !OccursAt(value[..i], j)
    {
      OccursInPrefix(value, i, j);
    }
    if i < |value| && EndsInHalf(value[..i]) {
      HalfOccursEarlier(value, i);
    }
  }

  lemma HalfOccursEarlier(value: string, i: nat)
    requires i <= |value| && OccursAt(value, i) && EndsInHalf(value[..i])
    ensures OccursAt(value, i - 3)
  {
    var half := value[..i][i - 3..];
    assert half == [value[i - 3], value[i - 2], value[i - 1]];
    assert value[i] == value[i..i + 4][0];
    assert value[i - 3..i + 1] == half + [value[i]] == SEPARATOR;
  }

  lemma {:induction false} SplitIsClean(value: string)
    ensures Clean(Split(value))
    decreases |value|
  {
    var i := FirstFrom(value, 0);
    FirstPiece(value);
    if i < |value| {
      SplitIsClean(value[i + 4..]);
    } else {
      assert value[..i] == value;
    }
  }

  lemma OccurrenceChars(value: string, i: nat)
    requires i + 4 <= |value|
    ensures OccursAt(value, i) <==> [value[i], value[i + 1], value[i + 2]] == " &&" && value[i + 3] == ' '
  {
    assert value[i..i + 4] == [value[i], value[i + 1], value[i + 2], value[i + 3]];
  }

  /** In front of a separator, a clean member hides no earlier occurrence. */
  lemma FirstAfterMember(member: string, rest: string)
    requires !Contains(member) && !EndsInHalf(member)
    ensures FirstFrom(member + SEPARATOR + rest, 0) == |member|
  {
    var value := member + SEPARATOR + rest;
    var n := |member|;
    assert value[n..n + 4] == SEPARATOR;
    assert OccursAt(value, n);
    forall j: nat | j < n
      ensures !OccursAt(value, j)
    {
      if j + 4 <= n {
        assert value[j..j + 4] == member[j..j + 4];
        assert !OccursAt(member, j);
      } else if j + 3 == n {
        assert member[n - 3..] == [value[j], value[j + 1], value[j + 2]];
        OccurrenceChars(value, j);
      } else if j + 2 == n {
        assert value[j..j + 4][2] == ' ';
      } else {
        assert value[j..j + 4][1] == ' ';
      }
    }
  }

  lemma NothingFound(value: string)
    requires !Contains(value)
    ensures FirstFrom(value, 0) == |value|
  {
    hide FirstFrom, OccursAt;
  }

  lemma {:induction false} CleanSplits(members: seq<string>)
    requires Clean(members)
    ensures Split(Join(members)) == members
    decreases |members|
  {
    hide FirstFrom, OccursAt, EndsInHalf;
    if |members| == 1 {
      NothingFound(members[0]);
    } else {
      var rest := Join(members[1..]);
      FirstAfterMember(members[0], rest);
      CleanSplits(members[1..]);
      var value := members[0] + SEPARATOR + rest;
      assert value[..|members[0]|] == members[0] && value[|members[0]| + 4..] == rest;
    }
  }

  /**
    Splitting a joined list gives the list back iff no member contains " && " and none but the last ends in
    " &&".  So splitting and joining are inverse to each other between all texts and these lists.
   */
  lemma SplitRestores(members: seq<string>)
    requires members != []
    ensures Split(Join(members)) == members <==> Clean(members)
  {
    SplitIsClean(Join(members));
    if Clean(members) {
      CleanSplits(members);
    }
  }

  /** The second condition is needed: joining these two members loses them. */
  lemma HalfSeparatorIsLost()
    ensures !Contains("a &&") && !Contains("b") && Split(Join(["a &&", "b"])) != ["a &&", "b"]
  {
    assert EndsInHalf("a &&");
    SplitRestores(["a &&", "b"]);
    forall i: nat
      ensures !OccursAt("a &&", i) && !OccursAt("b", i)
    {
      if i == 0 {
        assert "a &&"[0..4][0] == 'a';
      }
    }
  }
}
