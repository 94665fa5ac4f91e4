/**
 * What the decoder guarantees: exactly when it fails, what each entity it
 * reports looks like in the tag sequence, that every B/S tag yields one
 * entity, that the entities never overlap, and that `offset` only
 * translates coordinates.
 */
module SequenceLabelProperties {
  import opened Wrappers
  import opened Spans
  import opened Tags
  import opened SequenceLabels

  /** The number of B/S tags. */
  function CountOpening(tags: seq<string>): (n: nat)
    ensures n <= |tags|
  {
    if tags == [] then 0
    else CountOpening(tags[..|tags| - 1]) + (if IsOpening(tags[|tags| - 1]) then 1 else 0)
  }

  function SpanOf(x: Entity): Span {
    (x.0, x.1)
  }

  predicate PairwiseDisjoint(es: set<Entity>) {
    forall x, y :: x in es && y in es && x != y ==> !IsSpanIntersect(SpanOf(x), SpanOf(y))
  }

  /**
   * A run opened at raw position `s` ends at `e`: either `e` holds the E tag
   * that closes it, or the run's last token is followed by a B, S or O tag
   * or by the end of the sequence.
   */
  predicate ClosesAt(tags: seq<string>, s: nat, e: nat)
    requires s <= e < |tags|
  {
    (s < e && RoleOf(tags[e]) == Some(End))
    || ((s == e || IsContinuation(tags[e]))
        && (e + 1 == |tags| || IsOpening(tags[e + 1]) || RoleOf(tags[e + 1]) == Some(Outside)))
  }

  /**
   * Reference description of a run at raw positions `s..e` with type `t`:
   * position `s` holds a B/S tag whose type is `t`, only M/I tags lie
   * strictly inside, and the run is closed at `e`.
   */
  predicate SoundAt(tags: seq<string>, s: int, e: int, t: string, delimiter: string) {
    0 <= s <= e < |tags|
    && IsOpening(tags[s]) && t == TypeSuffix(tags[s], delimiter)
    && (forall j :: s < j < e ==> IsContinuation(tags[j]))
    && ClosesAt(tags, s, e)
  }

  /** A reported entity, in coordinates shifted by `offset`, has the reference shape. */
  predicate Sound(tags: seq<string>, x: Entity, offset: int, delimiter: string) {
    SoundAt(tags, x.0 + offset, x.1 + offset, x.2, delimiter)
  }

  /** Every B/S tag at a raw position below `k` starts the open run or a found entity. */
  predicate Covered(tags: seq<string>, k: nat, offset: int, st: State, found: set<Entity>)
    requires k <= |tags|
  {
    forall s :: 0 <= s < k && IsOpening(tags[s]) ==>
      (st.Open? && st.start == s) || exists x :: x in found && x.0 + offset == s
  }

  /** The open run starts at a B/S tag below `k`, carries its type, and only M/I tags follow it. */
  predicate OpenOk(tags: seq<string>, k: nat, delimiter: string, st: State)
    requires k <= |tags|
  {
    st.Open? ==>
      st.start < k && IsOpening(tags[st.start]) && st.kind == TypeSuffix(tags[st.start], delimiter)
      && (forall j :: st.start < j < k ==> IsContinuation(tags[j]))
  }

  /** Every found entity has the reference shape and ends before raw position `k` and before the open run. */
  predicate FoundOk(tags: seq<string>, k: nat, offset: int, delimiter: string, st: State, found: set<Entity>) {
    (forall x :: x in found ==> Sound(tags, x, offset, delimiter) && x.1 + offset < k)
    && (st.Open? ==> forall x :: x in found ==> x.1 + offset < st.start)
  }

  lemma CountOpeningStep(tags: seq<string>, i: nat)
    requires i < |tags|
    ensures CountOpening(tags[..i + 1]) == CountOpening(tags[..i]) + (if IsOpening(tags[i]) then 1 else 0)
  {
    assert tags[..i + 1][..i] == tags[..i];
  }

  /** Adding an entity that starts after every found one ends keeps them disjoint and distinct. */
  lemma AddAfter(found: set<Entity>, y: Entity)
    requires PairwiseDisjoint(found)
    requires y.0 <= y.1
    requires forall x :: x in found ==> x.0 <= x.1 < y.0
    ensures PairwiseDisjoint(found + {y})
    ensures |found + {y}| == |found| + 1
  {
    assert y !in found;
  }

  /** Closing the open run at raw position `e` reports an entity of the reference shape. */
  lemma EmitSound(tags: seq<string>, i: nat, e: int, offset: int, delimiter: string, st: State)
    requires i < |tags| && st.Open?
    requires OpenOk(tags, i, delimiter, st)
    requires (e == i && RoleOf(tags[i]) == Some(End))
          || (e + 1 == i && (IsOpening(tags[i]) || RoleOf(tags[i]) == Some(Outside)))
    ensures st.start <= e
    ensures Sound(tags, (st.start - offset, e - offset, st.kind), offset, delimiter)
  {
    assert ClosesAt(tags, st.start, e);
  }

  /** The raw position at which the tag at `i` closes the open run. */
  function CloseEnd(tag: string, i: nat): int {
    if RoleOf(tag) == Some(End) then i else i - 1
  }

  /** One step of the pass on a tag that is not M/I: close at `CloseEnd`, then open or stay closed. */
  lemma StepShape(st: State, found: set<Entity>, tag: string, i: nat, offset: int, delimiter: string)
    requires RoleOf(tag).Some? && !IsContinuation(tag)
    ensures Step(st, found, tag, i, offset, delimiter).found == found + Emit(st, CloseEnd(tag, i), offset)
    ensures Step(st, found, tag, i, offset, delimiter).state ==
      if IsOpening(tag) then Open(i, TypeSuffix(tag, delimiter)) else Closed
  {
  }

  lemma {:induction false} RunOpenOk(tags: seq<string>, k: nat, offset: int, delimiter: string)
    requires k <= |tags|
    ensures Run(tags, k, offset, delimiter).Running? ==> OpenOk(tags, k, delimiter, Run(tags, k, offset, delimiter).state)
    decreases k
  {
    if k > 0 {
      RunOpenOk(tags, k - 1, offset, delimiter);
    }
  }

  /** One step of the pass adds to the found entities only what closing the open run reports. */
  lemma StepFound(st: State, found: set<Entity>, tag: string, i: nat, offset: int, delimiter: string)
    ensures var r := Step(st, found, tag, i, offset, delimiter);
      r.Running? ==> r.found == found || (!IsContinuation(tag) && r.found == found + Emit(st, CloseEnd(tag, i), offset))
  {
    if RoleOf(tag).Some? && !IsContinuation(tag) {
      StepShape(st, found, tag, i, offset, delimiter);
    }
  }

  /** One step of the pass keeps every found entity of the reference shape. */
  lemma StepFoundSound(tags: seq<string>, i: nat, offset: int, delimiter: string, st: State, found: set<Entity>)
    requires i < |tags|
    requires OpenOk(tags, i, delimiter, st)
    requires forall x :: x in found ==> Sound(tags, x, offset, delimiter)
    ensures var r := Step(st, found, tags[i], i, offset, delimiter);
      r.Running? ==> forall x :: x in r.found ==> Sound(tags, x, offset, delimiter)
  {
    var tag := tags[i];
    StepFound(st, found, tag, i, offset, delimiter);
    if RoleOf(tag).Some? && !IsContinuation(tag) && st.Open? {
      EmitSound(tags, i, CloseEnd(tag, i), offset, delimiter, st);
    }
  }

  /** One step of the pass keeps every found entity before raw position `i + 1` and before the open run. */
  lemma StepFoundBefore(tags: seq<string>, i: nat, offset: int, delimiter: string, st: State, found: set<Entity>)
    requires i < |tags|
    requires OpenOk(tags, i, delimiter, st)
    requires forall x :: x in found ==> x.1 + offset < i
    requires st.Open? ==> forall x :: x in found ==> x.1 + offset < st.start
    ensures var r := Step(st, found, tags[i], i, offset, delimiter);
      r.Running? ==>
        (forall x :: x in r.found ==> x.1 + offset < i + 1)
        && (r.state.Open? ==> forall x :: x in r.found ==> x.1 + offset < r.state.start)
  {
    var tag := tags[i];
    if RoleOf(tag).Some? && !IsContinuation(tag) {
      StepShape(st, found, tag, i, offset, delimiter);
    }
  }

  /** One step of the pass keeps every found entity of the reference shape and before the open run. */
  lemma StepFoundOk(tags: seq<string>, i: nat, offset: int, delimiter: string, st: State, found: set<Entity>)
    requires i < |tags|
    requires OpenOk(tags, i, delimiter, st)
    requires FoundOk(tags, i, offset, delimiter, st, found)
    ensures var r := Step(st, found, tags[i], i, offset, delimiter);
      r.Running? ==> FoundOk(tags, i + 1, offset, delimiter, r.state, r.found)
  {
    StepFoundSound(tags, i, offset, delimiter, st, found);
    StepFoundBefore(tags, i, offset, delimiter, st, found);
  }

  lemma {:induction false} RunFoundOk(tags: seq<string>, k: nat, offset: int, delimiter: string)
    requires k <= |tags|
    ensures Run(tags, k, offset, delimiter).Running? ==>
      FoundOk(tags, k, offset, delimiter, Run(tags, k, offset, delimiter).state, Run(tags, k, offset, delimiter).found)
    decreases k
  {
    if k > 0 {
      var i := k - 1;
      RunFoundOk(tags, i, offset, delimiter);
      RunOpenOk(tags, i, offset, delimiter);
      var prev := Run(tags, i, offset, delimiter);
      if prev.Running? {
        StepFoundOk(tags, i, offset, delimiter, prev.state, prev.found);
      }
    }
  }

  /** The entities found so far all lie before the open run, if any. */
  lemma RunBefore(tags: seq<string>, k: nat, offset: int, delimiter: string)
    requires k <= |tags|
    ensures var r := Run(tags, k, offset, delimiter);
      r.Running? && r.state.Open? ==>
        r.state.start < k && forall x :: x in r.found ==> x.0 <= x.1 < r.state.start - offset
  {
    RunFoundOk(tags, k, offset, delimiter);
    RunOpenOk(tags, k, offset, delimiter);
  }

  /** An open run closes at or after the position that opened it. */
  lemma CloseAfterOpen(tags: seq<string>, i: nat, st: State, delimiter: string)
    requires i < |tags| && st.Open? && RoleOf(tags[i]).Some? && !IsContinuation(tags[i])
    requires OpenOk(tags, i, delimiter, st)
    ensures st.start <= CloseEnd(tags[i], i)
  {
  }

  /** Closing the open run, if any, keeps the found entities disjoint and adds one for the run. */
  lemma CloseKeepsDisjoint(found: set<Entity>, st: State, e: int, offset: int)
    requires PairwiseDisjoint(found)
    requires st.Open? ==> st.start <= e && forall x :: x in found ==> x.0 <= x.1 < st.start - offset
    ensures PairwiseDisjoint(found + Emit(st, e, offset))
    ensures |found + Emit(st, e, offset)| == |found| + (if st.Open? then 1 else 0)
  {
    if st.Open? {
      var y := (st.start - offset, e - offset, st.kind);
      assert Emit(st, e, offset) == {y};
      AddAfter(found, y);
    } else {
      assert found + Emit(st, e, offset) == found;
    }
  }

  /** One step of the pass keeps the found entities disjoint and counts them with the open run. */
  lemma StepDisjoint(tags: seq<string>, i: nat, offset: int, delimiter: string, st: State, found: set<Entity>)
    requires i < |tags| && RoleOf(tags[i]).Some?
    requires OpenOk(tags, i, delimiter, st)
    requires PairwiseDisjoint(found)
    requires st.Open? ==> forall x :: x in found ==> x.0 <= x.1 < st.start - offset
    ensures var r := Step(st, found, tags[i], i, offset, delimiter);
      PairwiseDisjoint(r.found)
      && |r.found| + (if r.state.Open? then 1 else 0)
         == |found| + (if st.Open? then 1 else 0) + (if IsOpening(tags[i]) then 1 else 0)
  {
    var tag := tags[i];
    if !IsContinuation(tag) {
      StepShape(st, found, tag, i, offset, delimiter);
      if st.Open? {
        CloseAfterOpen(tags, i, st, delimiter);
      }
      CloseKeepsDisjoint(found, st, CloseEnd(tag, i), offset);
    }
  }

  lemma {:induction false} RunDisjoint(tags: seq<string>, k: nat, offset: int, delimiter: string)
    requires k <= |tags|
    ensures var r := Run(tags, k, offset, delimiter);
      r.Running? ==>
        PairwiseDisjoint(r.found) && |r.found| + (if r.state.Open? then 1 else 0) == CountOpening(tags[..k])
    decreases k
  {
    if k == 0 {
      assert tags[..0] == [];
    } else {
      var i := k - 1;
      RunDisjoint(tags, i, offset, delimiter);
      RunBefore(tags, i, offset, delimiter);
      RunOpenOk(tags, i, offset, delimiter);
      CountOpeningStep(tags, i);
      var prev := Run(tags, i, offset, delimiter);
      if prev.Running? && RoleOf(tags[i]).Some? {
        StepDisjoint(tags, i, offset, delimiter, prev.state, prev.found);
      }
    }
  }

  lemma {:induction false} RunCovered(tags: seq<string>, k: nat, offset: int, delimiter: string)
    requires k <= |tags|
    ensures Run(tags, k, offset, delimiter).Running? ==>
      Covered(tags, k, offset, Run(tags, k, offset, delimiter).state, Run(tags, k, offset, delimiter).found)
    decreases k
  {
    if k > 0 {
      var i := k - 1;
      RunCovered(tags, i, offset, delimiter);
      var prev := Run(tags, i, offset, delimiter);
      var next := Run(tags, k, offset, delimiter);
      var tag := tags[i];
      if prev.Running? && RoleOf(tag).Some? {
        if IsContinuation(tag) {
          assert next == prev;
        } else {
          StepShape(prev.state, prev.found, tag, i, offset, delimiter);
          var nf := next.found;
          forall s | 0 <= s < k && IsOpening(tags[s])
            ensures (next.state.Open? && next.state.start == s) || exists x :: x in nf && x.0 + offset == s
          {
            if s < i && !(prev.state.Open? && prev.state.start == s) {
              var x :| x in prev.found && x.0 + offset == s;
              assert x in nf;
            } else if s < i {
              var y := (prev.state.start - offset, CloseEnd(tag, i) - offset, prev.state.kind);
              assert y in nf;
            }
          }
        }
      }
    }
  }

  /** The first position at or after `j` that does not hold an M/I tag (or the length). */
  function NextStop(tags: seq<string>, j: nat): (p: nat)
    ensures j <= p || j > |tags|
    ensures p <= |tags| || j > |tags|
    decreases |tags| - j
  {
    if j >= |tags| then |tags|
    else if IsContinuation(tags[j]) then NextStop(tags, j + 1)
    else j
  }

  lemma {:induction false} NextStopIs(tags: seq<string>, j: nat, p: nat)
    requires j <= p <= |tags|
    requires forall q :: j <= q < p ==> IsContinuation(tags[q])
    requires p == |tags| || !IsContinuation(tags[p])
    ensures NextStop(tags, j) == p
    decreases p - j
  {
    if j < p {
      NextStopIs(tags, j + 1, p);
    }
  }

  /** Where the run opened at raw position `s` ends: at the E tag that stops it, or just before any other stop. */
  function RunEnd(tags: seq<string>, s: nat): int {
    var p := NextStop(tags, s + 1);
    if p < |tags| && RoleOf(tags[p]) == Some(End) then p else p - 1
  }

  /** An entity of the reference shape ends where its run ends. */
  lemma SoundEnd(tags: seq<string>, x: Entity, offset: int, delimiter: string)
    requires Sound(tags, x, offset, delimiter)
    ensures x.1 + offset == RunEnd(tags, x.0 + offset)
  {
    var s, e := x.0 + offset, x.1 + offset;
    if s < e && RoleOf(tags[e]) == Some(End) {
      NextStopIs(tags, s + 1, e);
    } else {
      NextStopIs(tags, s + 1, e + 1);
    }
  }

  /** The reference shape fixes an entity by its start: the end and the type follow. */
  lemma SoundUnique(tags: seq<string>, x: Entity, z: Entity, offset: int, delimiter: string)
    requires Sound(tags, x, offset, delimiter) && Sound(tags, z, offset, delimiter)
    requires x.0 == z.0
    ensures x == z
  {
    SoundEnd(tags, x, offset, delimiter);
    SoundEnd(tags, z, offset, delimiter);
  }

  /** The run still open at the end closes at the last token with the reference shape. */
  lemma FinalEmit(tags: seq<string>, offset: int, delimiter: string, st: State)
    requires st.Open? && OpenOk(tags, |tags|, delimiter, st)
    ensures Sound(tags, (st.start - offset, |tags| - 1 - offset, st.kind), offset, delimiter)
  {
    assert ClosesAt(tags, st.start, |tags| - 1);
  }

  /** A successful decode returns only entities of the reference shape. */
  lemma FinalSound(tags: seq<string>, offset: int, delimiter: string)
    requires |delimiter| > 0
    requires Decode(tags, offset, delimiter).Success?
    ensures forall x :: x in Decode(tags, offset, delimiter).entities ==> Sound(tags, x, offset, delimiter)
  {
    var n := |tags|;
    var r := Run(tags, n, offset, delimiter);
    RunFoundOk(tags, n, offset, delimiter);
    RunOpenOk(tags, n, offset, delimiter);
    if r.state.Open? {
      FinalEmit(tags, offset, delimiter, r.state);
    }
  }

  /** A successful decode returns disjoint entities, one per B/S tag. */
  lemma FinalDisjointCount(tags: seq<string>, offset: int, delimiter: string)
    requires |delimiter| > 0
    requires Decode(tags, offset, delimiter).Success?
    ensures PairwiseDisjoint(Decode(tags, offset, delimiter).entities)
    ensures |Decode(tags, offset, delimiter).entities| == CountOpening(tags)
  {
    var n := |tags|;
    var r := Run(tags, n, offset, delimiter);
    RunDisjoint(tags, n, offset, delimiter);
    RunBefore(tags, n, offset, delimiter);
    assert tags[..n] == tags;
    if r.state.Open? {
      var y := (r.state.start - offset, n - 1 - offset, r.state.kind);
      assert Emit(r.state, n - 1, offset) == {y};
      AddAfter(r.found, y);
    } else {
      assert r.found + Emit(r.state, n - 1, offset) == r.found;
    }
  }

  /** A successful decode reports an entity starting at every B/S tag. */
  lemma FinalCovered(tags: seq<string>, offset: int, delimiter: string)
    requires |delimiter| > 0
    requires Decode(tags, offset, delimiter).Success?
    ensures forall s :: 0 <= s < |tags| && IsOpening(tags[s]) ==>
      exists x :: x in Decode(tags, offset, delimiter).entities && x.0 + offset == s
  {
    var n := |tags|;
    var r := Run(tags, n, offset, delimiter);
    var es := Decode(tags, offset, delimiter).entities;
    RunCovered(tags, n, offset, delimiter);
    forall s | 0 <= s < n && IsOpening(tags[s])
      ensures exists x :: x in es && x.0 + offset == s
    {
      if r.state.Open? && r.state.start == s {
        assert (r.state.start - offset, n - 1 - offset, r.state.kind) in es;
      } else {
        var x :| x in r.found && x.0 + offset == s;
        assert x in es;
      }
    }
  }

  /**
   * Exact description of a successful decode: the entities are precisely the
   * triples of the reference shape. So every entity starts at a B/S tag and
   * carries that tag's type, only M/I tags lie strictly inside it, and it
   * ends at the E tag that closes it or just before the B, S or O tag (or the
   * end of the sequence) that does.
   */
  lemma DecodeExact(tags: seq<string>, offset: int, delimiter: string)
    requires |delimiter| > 0
    requires Decode(tags, offset, delimiter).Success?
    ensures forall x :: x in Decode(tags, offset, delimiter).entities <==> Sound(tags, x, offset, delimiter)
  {
    var es := Decode(tags, offset, delimiter).entities;
    FinalSound(tags, offset, delimiter);
    FinalCovered(tags, offset, delimiter);
    forall x | Sound(tags, x, offset, delimiter)
      ensures x in es
    {
      var z :| z in es && z.0 + offset == x.0 + offset;
      SoundUnique(tags, x, z, offset, delimiter);
    }
  }

  /** Every entity is a well-formed span within the shifted bounds of the sequence. */
  lemma DecodeBounds(tags: seq<string>, offset: int, delimiter: string)
    requires |delimiter| > 0
    requires Decode(tags, offset, delimiter).Success?
    ensures forall x :: x in Decode(tags, offset, delimiter).entities ==>
      -offset <= x.0 <= x.1 <= |tags| - offset - 1
  {
    FinalSound(tags, offset, delimiter);
  }

  /** Distinct entities never overlap. */
  lemma DecodeDisjoint(tags: seq<string>, offset: int, delimiter: string)
    requires |delimiter| > 0
    requires Decode(tags, offset, delimiter).Success?
    ensures forall x, y ::
      (x in Decode(tags, offset, delimiter).entities && y in Decode(tags, offset, delimiter).entities && x != y)
        ==> !IsSpanIntersect(SpanOf(x), SpanOf(y))
  {
    FinalDisjointCount(tags, offset, delimiter);
  }

  lemma {:induction false} CountOpeningZero(tags: seq<string>)
    ensures CountOpening(tags) == 0 <==> forall i :: 0 <= i < |tags| ==> !IsOpening(tags[i])
    decreases |tags|
  {
    if tags != [] {
      var init := tags[..|tags| - 1];
      CountOpeningZero(init);
      assert forall i :: 0 <= i < |init| ==> init[i] == tags[i];
    }
  }

  /** One entity per B/S tag; none at all exactly when there is no B/S tag. */
  lemma DecodeCount(tags: seq<string>, offset: int, delimiter: string)
    requires |delimiter| > 0
    requires Decode(tags, offset, delimiter).Success?
    ensures |Decode(tags, offset, delimiter).entities| == CountOpening(tags)
    ensures Decode(tags, offset, delimiter).entities == {} <==> forall i :: 0 <= i < |tags| ==> !IsOpening(tags[i])
  {
    FinalDisjointCount(tags, offset, delimiter);
    CountOpeningZero(tags);
  }

  /** The tag at `i` is the first one the decoder rejects. */
  predicate FirstBad(tags: seq<string>, i: nat) {
    i < |tags| && RoleOf(tags[i]).None? && forall j :: 0 <= j < i ==> RoleOf(tags[j]).Some?
  }

  lemma {:induction false} RunFailure(tags: seq<string>, k: nat, offset: int, delimiter: string)
    requires k <= |tags|
    ensures Run(tags, k, offset, delimiter).Failed? <==> exists i :: 0 <= i < k && RoleOf(tags[i]).None?
    ensures Run(tags, k, offset, delimiter).Failed? ==>
      exists i: nat :: i < k && FirstBad(tags, i) && Run(tags, k, offset, delimiter).tag == tags[i]
    decreases k
  {
    if k > 0 {
      RunFailure(tags, k - 1, offset, delimiter);
      var prev := Run(tags, k - 1, offset, delimiter);
      if prev.Running? && RoleOf(tags[k - 1]).None? {
        assert FirstBad(tags, k - 1);
      }
    }
  }

  /**
   * The decoder fails exactly when some tag starts with none of B, S, M, I,
   * E, O; the failure then names the first such tag.
   */
  lemma DecodeFailure(tags: seq<string>, offset: int, delimiter: string)
    requires |delimiter| > 0
    ensures Decode(tags, offset, delimiter).Failure? <==> exists i :: 0 <= i < |tags| && RoleOf(tags[i]).None?
    ensures Decode(tags, offset, delimiter).Failure? ==>
      exists i: nat :: FirstBad(tags, i) && Decode(tags, offset, delimiter).badTag == tags[i]
  {
    RunFailure(tags, |tags|, offset, delimiter);
  }

  /** The entities translated by `-k`. */
  function Shift(es: set<Entity>, k: int): set<Entity> {
    set x | x in es :: (x.0 - k, x.1 - k, x.2)
  }

  function ShiftResult(r: Result, k: int): Result {
    match r
    case Failure(t) => Failure(t)
    case Success(es) => Success(Shift(es, k))
  }

  /** The first rejected tag is unique. */
  lemma FirstBadUnique(tags: seq<string>, i: nat, j: nat)
    requires FirstBad(tags, i) && FirstBad(tags, j)
    ensures i == j
  {
  }

  /** Soundness at an offset is soundness at offset 0 of the entity moved by the offset. */
  lemma SoundTranslate(tags: seq<string>, x: Entity, z: Entity, offset: int, delimiter: string)
    requires z == (x.0 + offset, x.1 + offset, x.2)
    ensures Sound(tags, x, offset, delimiter) <==> Sound(tags, z, 0, delimiter)
  {
  }

  /** Every entity found at `offset` is an offset-0 entity translated. */
  lemma ShiftCovers(tags: seq<string>, offset: int, delimiter: string, es: set<Entity>, es0: set<Entity>)
    requires forall x :: x in es <==> Sound(tags, x, offset, delimiter)
    requires forall x :: x in es0 <==> Sound(tags, x, 0, delimiter)
    ensures es <= Shift(es0, offset)
  {
    forall x | x in es
      ensures x in Shift(es0, offset)
    {
      var z := (x.0 + offset, x.1 + offset, x.2);
      SoundTranslate(tags, x, z, offset, delimiter);
      assert z in es0;
      assert x == (z.0 - offset, z.1 - offset, z.2);
    }
  }

  /** Every translated offset-0 entity is found at `offset`. */
  lemma ShiftCovered(tags: seq<string>, offset: int, delimiter: string, es: set<Entity>, es0: set<Entity>)
    requires forall x :: x in es <==> Sound(tags, x, offset, delimiter)
    requires forall x :: x in es0 <==> Sound(tags, x, 0, delimiter)
    ensures Shift(es0, offset) <= es
  {
    forall z | z in es0
      ensures (z.0 - offset, z.1 - offset, z.2) in es
    {
      SoundTranslate(tags, (z.0 - offset, z.1 - offset, z.2), z, offset, delimiter);
    }
  }

  /** A successful decode with an offset reports the offset-0 entities translated. */
  lemma ShiftEntities(tags: seq<string>, offset: int, delimiter: string)
    requires |delimiter| > 0
    requires Decode(tags, offset, delimiter).Success? && Decode(tags, 0, delimiter).Success?
    ensures Decode(tags, offset, delimiter).entities == Shift(Decode(tags, 0, delimiter).entities, offset)
  {
    DecodeExact(tags, offset, delimiter);
    DecodeExact(tags, 0, delimiter);
    var es, es0 := Decode(tags, offset, delimiter).entities, Decode(tags, 0, delimiter).entities;
    ShiftCovers(tags, offset, delimiter, es, es0);
    ShiftCovered(tags, offset, delimiter, es, es0);
  }

  /** The offset only translates coordinates: decoding with it shifts the offset-0 result. */
  lemma DecodeShift(tags: seq<string>, offset: int, delimiter: string)
    requires |delimiter| > 0
    ensures Decode(tags, offset, delimiter) == ShiftResult(Decode(tags, 0, delimiter), offset)
  {
    var r, r0 := Decode(tags, offset, delimiter), Decode(tags, 0, delimiter);
    DecodeFailure(tags, offset, delimiter);
    DecodeFailure(tags, 0, delimiter);
    if r.Failure? {
      var i: nat :| FirstBad(tags, i) && r.badTag == tags[i];
      var j: nat :| FirstBad(tags, j) && r0.badTag == tags[j];
      FirstBadUnique(tags, i, j);
    } else {
      ShiftEntities(tags, offset, delimiter);
    }
  }
}
