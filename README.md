# NER span utilities and sequence-label decoding

A Dafny model of the span helpers and the sequence-label decoder in the
wownlp named-entity-recognition utilities (`src/wownlp/ner/util.py`).

- `is_span_intersect` and `is_span_nested` compare two closed integer
  intervals. They are modelled as the predicates `Spans.IsSpanIntersect` and
  `Spans.IsSpanNested`. Their lemmas relate them to positions.
- `decode_sequence_labels` makes a single left-to-right pass over a
  BMES/BIO tag sequence. It returns the set of `(start, end, type)` entities,
  both ends inclusive, with `offset` subtracted from both. A tag whose first
  character is none of `B S M I E O` raises `ValueError`.
  - The method `SequenceLabels.DecodeSequenceLabels` is the loop of the
    source. It keeps the source's sentinel pair (`start == -1`,
    `entity == None`) and computes the type as
    `delimiter.join(tag.split(delimiter)[1:])`.
  - Its contract ties it to `SequenceLabels.Decode`. That is a fold of one
    step function (`Step`) over the tags, with the final close after it.
  - `Result` replaces the exception: `Failure(tag)` is the `ValueError`
    with the offending tag, and `Success(entities)` is the returned set.
- Python's `str.startswith`, `str.split` (with a non-empty separator) and
  `str.join` are modelled in module `Tags`. The lemmas there prove that
  joining a split gives back the string. They also prove that the
  re-joined tail of a tag's split is the text after the first separator.
- `SequenceLabelProperties` states what the decoder guarantees:
  - when it fails, and that the failure names the first bad tag;
  - the reference shape of every reported entity, in both directions;
  - bounds on the reported positions;
  - pairwise non-overlap;
  - exactly one entity per B/S tag;
  - that `offset` only translates coordinates.
- `SequenceLabelExamples` works through the documented decodes on concrete
  tag sequences.

Modules: `Wrappers` (Option), `Spans`, `Tags`, `SequenceLabels` (the state,
the step function, the fold and the imperative method),
`SequenceLabelProperties` and `SequenceLabelExamples`.

## Model

| member | source | states |
|---|---|---|
| Spans.IntersectSymmetric | src/wownlp/ner/util.py:16 | intersection does not depend on argument order |
| Spans.IntersectIffCommonPoint | src/wownlp/ner/util.py:4-16 | for well-formed spans, intersecting is the same as sharing at least one position |
| Spans.NestedSymmetric | src/wownlp/ner/util.py:30 | nesting does not depend on argument order |
| Spans.NestedReflexive | src/wownlp/ner/util.py:30 | every span is nested with itself |
| Spans.NestedIffContainment | src/wownlp/ner/util.py:18-30 | for well-formed spans, nesting is the same as one span's positions all lying in the other |
| Spans.NestedImpliesIntersect | src/wownlp/ner/util.py:16-30 | for well-formed spans, nested spans intersect |
| Spans.StrictlyInside | src/wownlp/ner/util.py:16-30 | a well-formed span strictly inside another both intersects and nests with it |
| Spans.DisjointNeither | src/wownlp/ner/util.py:16-30 | well-formed spans where one ends before the other begins neither intersect nor nest |
| Tags.RoleOfStartsWith | src/wownlp/ner/util.py:51-69 | the role read from a tag is Begin/Single/Middle/Inside/End/Outside exactly when the tag starts with B/S/M/I/E/O, and it is the role of the tag's first character |
| Tags.FindFirstSpec | src/wownlp/ner/util.py:55 | the separator search returns the leftmost occurrence, and returns none only when there is no occurrence |
| Tags.Split | src/wownlp/ner/util.py:55 | a split always has at least one piece |
| Tags.JoinSplit | src/wownlp/ner/util.py:55 | joining the pieces of a split with the same separator gives back the string |
| Tags.SplitPartsFree | src/wownlp/ner/util.py:55 | no piece of a split contains the separator |
| Tags.TypeSuffixIsJoinedTail | src/wownlp/ner/util.py:55 | `delimiter.join(tag.split(delimiter)[1:])` is the text after the first delimiter, or empty when there is none |
| Tags.TypeSuffixExamples | src/wownlp/ner/util.py:55 | a type containing the delimiter is kept whole ("B-PER-LOC" gives "PER-LOC"), a bare prefix gives "", and a multi-character delimiter works |
| SequenceLabels.DecodeSequenceLabels | src/wownlp/ner/util.py:32-72 | the loop returns exactly the fold of the per-tag step followed by the final close; on a bad tag it returns that tag as the failure |
| SequenceLabels.FailedSticks | src/wownlp/ner/util.py:68-69 | once a bad tag is met, no later tag changes the outcome |
| SequenceLabelProperties.CountOpening | src/wownlp/ner/util.py:51 | there are never more B/S tags than tags |
| SequenceLabelProperties.RunOpenOk | src/wownlp/ner/util.py:51-67 | an open run starts at an earlier B/S tag, carries that tag's type, and is followed only by M/I tags |
| SequenceLabelProperties.RunFoundOk | src/wownlp/ner/util.py:51-67 | every entity found so far has the reference shape and ends before the current position and before the open run |
| SequenceLabelProperties.RunDisjoint | src/wownlp/ner/util.py:51-67 | the entities found so far are pairwise disjoint, and their number plus one for an open run is the number of B/S tags read |
| SequenceLabelProperties.RunCovered | src/wownlp/ner/util.py:51-67 | every B/S tag read so far starts the open run or a found entity |
| SequenceLabelProperties.SoundUnique | src/wownlp/ner/util.py:50-67 | two entities of the reference shape that start at the same position are equal |
| SequenceLabelProperties.DecodeExact | src/wownlp/ner/util.py:47-72 | on success, an entity is reported exactly when, at raw position s..e with type t: a B/S tag of type t is at s, only M/I tags lie strictly inside, and e holds the closing E, or the last token is followed by a B/S/O tag or the end of the sequence |
| SequenceLabelProperties.DecodeBounds | src/wownlp/ner/util.py:47-72 | every reported entity satisfies -offset <= start <= end <= len - offset - 1 |
| SequenceLabelProperties.DecodeDisjoint | src/wownlp/ner/util.py:47-72 | distinct reported entities never intersect |
| SequenceLabelProperties.DecodeCount | src/wownlp/ner/util.py:50-71 | on success there is exactly one entity per B/S tag, and none exactly when there is no B/S tag |
| SequenceLabelProperties.DecodeFailure | src/wownlp/ner/util.py:51-69 | the decode fails exactly when some tag starts with none of B, S, M, I, E, O; the failure carries the first such tag |
| SequenceLabelProperties.FirstBadUnique | src/wownlp/ner/util.py:68-69 | the first bad tag is unique |
| SequenceLabelProperties.DecodeShift | src/wownlp/ner/util.py:47-72 | decoding with an offset gives the offset-0 result with the offset subtracted from both ends of every entity, or the same failure |
| SequenceLabelExamples.PrefixOnly | src/wownlp/ner/util.py:51-69 | only the first character decides the role, case-sensitively, and an empty tag is rejected |
| SequenceLabelExamples.BeginEnd | src/wownlp/ner/util.py:51-62 | ["B-PER","E-PER"] decodes to {(0,1,"PER")} |
| SequenceLabelExamples.FullScheme | src/wownlp/ner/util.py:47-72 | ["B-PER","M-PER","E-PER","O","S-LOC"] decodes to {(0,2,"PER"),(4,4,"LOC")} |
| SequenceLabelExamples.BeginBegin | src/wownlp/ner/util.py:51-62 | ["B-PER","B-LOC","E-LOC"] decodes to {(0,0,"PER"),(1,2,"LOC")}: an unclosed B closes one token before the next B |
| SequenceLabelExamples.SingleThenEnd | src/wownlp/ner/util.py:51-62 | ["S-X","E-X"] decodes to {(0,1,"X")}: an S tag opens a run like B and does not close it |
| SequenceLabelExamples.Unterminated | src/wownlp/ner/util.py:70-71 | ["B-PER","M-PER"] decodes to {(0,1,"PER")}: a run still open at the end closes at the last token |
| SequenceLabelExamples.WithOffset | src/wownlp/ner/util.py:70-71 | ["B-X"] with offset 1 decodes to {(-1,-1,"X")} |
| SequenceLabelExamples.Lenient | src/wownlp/ner/util.py:56-67 | ["E-X","O","I-X"] decodes to the empty set: E and O with nothing open, and M/I never opened, report nothing |
| SequenceLabelExamples.BadTag | src/wownlp/ner/util.py:68-69 | ["B-PER","Z-PER","Q"] fails with "Z-PER", the first bad tag |

## Left out

- DecodeSequenceLabels: requires a non-empty delimiter. Python's `str.split` raises `ValueError("empty separator")` for an empty one. That error comes from the library, not from this module, and is not modelled.
- Python's `set` is modelled as a mathematical `set`; hashing and iteration order are not modelled.
- The error message text (`f"Invalid label {tag}"`) is modelled only as the offending tag it carries. The position of the bad tag is not reported because the source does not report it.
- Tag transitions and entity types are not validated (an E of one type may close a B of another). This follows the source, which does not validate them either.
- The final close (util.py:70-71) is folded into `Decode`. With the source's guard, a run open at the end of an empty sequence cannot exist, so no case is lost.
- The `start >= 0 and entity is not None` guard is kept as written. The model proves that the two halves always agree (`start >= 0` exactly when `entity` is set), so the guard is never half true.
- Strings are sequences of characters; Unicode normalisation does not arise because the source compares exact characters.
- There is no I/O, concurrency or randomness in this code.
