/**
 * decode_sequence_labels: a single left-to-right pass over a tag sequence
 * that turns BMES/BIO tags into a set of (start, end, type) entities, both
 * ends inclusive and shifted by `offset`.
 *
 * `Run` is the specification: it folds `Step` over the first k tags.
 * `DecodeSequenceLabels` is the loop of the source, with its sentinel pair
 * (`start == -1`, `entity == None`), proved equal to `Decode`.
 */
module SequenceLabels {
  import opened Wrappers
  import opened Tags

  type Entity = (int, int, string)

  /** What the pass has open: nothing, or an entity begun at `start` with type `kind`. */
  datatype State = Closed | Open(start: nat, kind: string)

  /** The pass after some prefix of the tags: stopped at a bad tag, or still running. */
  datatype Scan = Failed(tag: string) | Running(state: State, found: set<Entity>)

  /** The outcome of a decode: the `ValueError` for a bad tag, or the entity set. */
  datatype Result = Failure(badTag: string) | Success(entities: set<Entity>)

  /** Closing the open entity, if any, at raw position `end`. */
  function Emit(st: State, end: int, offset: int): set<Entity> {
    match st
    case Closed => {}
    case Open(s, t) => {(s - offset, end - offset, t)}
  }

  /** One iteration of the loop, on the tag at raw position `i`. */
  function Step(st: State, found: set<Entity>, tag: string, i: nat, offset: int, delimiter: string): Scan {
    match RoleOf(tag)
    case None => Failed(tag)
    case Some(r) =>
      if r == Begin || r == Single then
        Running(Open(i, TypeSuffix(tag, delimiter)), found + Emit(st, i - 1, offset))
      else if r == Middle || r == Inside then
        Running(st, found)
      else if r == End then
        Running(Closed, found + Emit(st, i, offset))
      else
        Running(Closed, found + Emit(st, i - 1, offset))
  }

  /** The pass over the first `k` tags. */
  function Run(tags: seq<string>, k: nat, offset: int, delimiter: string): Scan
    requires k <= |tags|
    decreases k
  {
    if k == 0 then Running(Closed, {})
    else
      match Run(tags, k - 1, offset, delimiter)
      case Failed(t) => Failed(t)
      case Running(st, found) => Step(st, found, tags[k - 1], k - 1, offset, delimiter)
  }

  /** The whole decode: the pass, then closing a run still open at the last token. */
  function Decode(tags: seq<string>, offset: int, delimiter: string): Result
    requires |delimiter| > 0
  {
    match Run(tags, |tags|, offset, delimiter)
    case Failed(t) => Failure(t)
    case Running(st, found) => Success(found + Emit(st, |tags| - 1, offset))
  }

  /** Once the pass has failed, it stays failed with the same tag. */
  lemma {:induction false} FailedSticks(tags: seq<string>, j: nat, k: nat, offset: int, delimiter: string)
    requires j <= k <= |tags|
    requires Run(tags, j, offset, delimiter).Failed?
    ensures Run(tags, k, offset, delimiter) == Run(tags, j, offset, delimiter)
    decreases k
  {
    if j < k {
      FailedSticks(tags, j, k - 1, offset, delimiter);
    }
  }

  /** The abstract state behind the source's sentinel pair. */
  function Current(start: int, entity: Option<string>): State {
    if start >= 0 && entity.Some? then Open(start, entity.value) else Closed
  }

  method DecodeSequenceLabels(sequence: seq<string>, offset: int := 0, delimiter: string := "-") returns (r: Result)
    requires |delimiter| > 0
    ensures r == Decode(sequence, offset, delimiter)
  {
    var entities: set<Entity> := {};
    var start: int := -1;
    var entity: Option<string> := None;
    for end := 0 to |sequence|
      invariant start >= 0 <==> entity.Some?
      invariant Run(sequence, end, offset, delimiter) == Running(Current(start, entity), entities)
    {
      var tag := sequence[end];
      RoleOfStartsWith(tag);
      if StartsWith(tag, "B") || StartsWith(tag, "S") {
        if start >= 0 && entity.Some? {
          entities := entities + {(start - offset, end - offset - 1, entity.value)};
        }
        start := end;
        TypeSuffixIsJoinedTail(tag, delimiter);
        entity := Some(Join(delimiter, Split(tag, delimiter)[1..]));
      } else if StartsWith(tag, "M") || StartsWith(tag, "I") {
        // a continuation tag leaves the open entity, if any, as it is
      } else if StartsWith(tag, "E") {
        if start >= 0 && entity.Some? {
          entities := entities + {(start - offset, end - offset, entity.value)};
        }
        start := -1;
        entity := None;
      } else if StartsWith(tag, "O") {
        if start >= 0 && entity.Some? {
          entities := entities + {(start - offset, end - offset - 1, entity.value)};
        }
        start := -1;
        entity := None;
      } else {
        FailedSticks(sequence, end + 1, |sequence|, offset, delimiter);
        return Failure(tag);
      }
    }
    if start >= 0 && entity.Some? {
      entities := entities + {(start - offset, |sequence| - offset - 1, entity.value)};
    }
    r := Success(entities);
  }
}
