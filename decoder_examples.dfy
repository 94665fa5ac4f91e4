/** Worked decodes, one per behaviour of the pass. */
module SequenceLabelExamples {
  import opened Wrappers
  import opened Tags
  import opened SequenceLabels

  /** A one-letter prefix, `-`, then the type: the role is the letter's and the type is read back whole. */
  lemma SimpleTag(c: char, t: string)
    requires c != '-'
    ensures TypeSuffix([c] + "-" + t, "-") == t
    ensures RoleOf([c] + "-" + t) == RoleOfLetter(c)
  {
    var s := [c] + "-" + t;
    assert s[..1] == [c];
    assert s[1..] == "-" + t;
    assert s[1..][..1] == "-";
    assert s[2..] == t;
    assert FindFirst(s[1..], "-") == Some(0);
    assert FindFirst(s, "-") == Some(1);
  }

  lemma TagBPer() ensures RoleOf("B-PER") == Some(Begin) && TypeSuffix("B-PER", "-") == "PER"
  {
    assert "B-PER" == ['B'] + "-" + "PER";
    SimpleTag('B', "PER");
  }

  lemma TagEPer() ensures RoleOf("E-PER") == Some(End)
  {
    assert "E-PER" == ['E'] + "-" + "PER";
    SimpleTag('E', "PER");
  }

  lemma TagMPer() ensures RoleOf("M-PER") == Some(Middle)
  {
    assert "M-PER" == ['M'] + "-" + "PER";
    SimpleTag('M', "PER");
  }

  lemma TagSLoc() ensures RoleOf("S-LOC") == Some(Single) && TypeSuffix("S-LOC", "-") == "LOC"
  {
    assert "S-LOC" == ['S'] + "-" + "LOC";
    SimpleTag('S', "LOC");
  }

  lemma TagBLoc() ensures RoleOf("B-LOC") == Some(Begin) && TypeSuffix("B-LOC", "-") == "LOC"
  {
    assert "B-LOC" == ['B'] + "-" + "LOC";
    SimpleTag('B', "LOC");
  }

  lemma TagELoc() ensures RoleOf("E-LOC") == Some(End)
  {
    assert "E-LOC" == ['E'] + "-" + "LOC";
    SimpleTag('E', "LOC");
  }

  lemma TagSX() ensures RoleOf("S-X") == Some(Single) && TypeSuffix("S-X", "-") == "X"
  {
    assert "S-X" == ['S'] + "-" + "X";
    SimpleTag('S', "X");
  }

  lemma TagBX() ensures RoleOf("B-X") == Some(Begin) && TypeSuffix("B-X", "-") == "X"
  {
    assert "B-X" == ['B'] + "-" + "X";
    SimpleTag('B', "X");
  }

  lemma TagEX() ensures RoleOf("E-X") == Some(End)
  {
    assert "E-X" == ['E'] + "-" + "X";
    SimpleTag('E', "X");
  }

  lemma TagIX() ensures RoleOf("I-X") == Some(Inside)
  {
    assert "I-X" == ['I'] + "-" + "X";
    SimpleTag('I', "X");
  }

  /** Only the first character decides, and it is case-sensitive. */
  lemma PrefixOnly()
    ensures RoleOf("Begin-X") == Some(Begin)
    ensures RoleOf("OTHER") == Some(Outside)
    ensures RoleOf("b-x") == None
    ensures RoleOf("") == None
  {
  }

  /** A B tag closed by an E tag covers both tokens. */
  lemma BeginEnd()
    ensures Decode(["B-PER", "E-PER"], 0, "-") == Success({(0, 1, "PER")})
  {
    TagBPer();
    TagEPer();
    var tags := ["B-PER", "E-PER"];
    assert Run(tags, 1, 0, "-") == Running(Open(0, "PER"), {});
  }

  const fullScheme: seq<string> := ["B-PER", "M-PER", "E-PER", "O", "S-LOC"]

  lemma FullSchemePrefix()
    ensures Run(fullScheme, 3, 0, "-") == Running(Closed, {(0, 2, "PER")})
  {
    TagBPer();
    TagMPer();
    TagEPer();
    assert Run(fullScheme, 1, 0, "-") == Running(Open(0, "PER"), {});
    assert Run(fullScheme, 2, 0, "-") == Running(Open(0, "PER"), {});
  }

  lemma FullSchemeRun()
    ensures Run(fullScheme, 5, 0, "-") == Running(Open(4, "LOC"), {(0, 2, "PER")})
  {
    FullSchemePrefix();
    TagSLoc();
    assert Run(fullScheme, 4, 0, "-") == Running(Closed, {(0, 2, "PER")});
  }

  /** M continues, E closes inclusively, O is outside, and S at the end closes at the last token. */
  lemma FullScheme()
    ensures Decode(fullScheme, 0, "-") == Success({(0, 2, "PER"), (4, 4, "LOC")})
  {
    FullSchemeRun();
  }

  const beginBegin: seq<string> := ["B-PER", "B-LOC", "E-LOC"]

  lemma BeginBeginRun()
    ensures Run(beginBegin, 2, 0, "-") == Running(Open(1, "LOC"), {(0, 0, "PER")})
  {
    TagBPer();
    TagBLoc();
    assert Run(beginBegin, 1, 0, "-") == Running(Open(0, "PER"), {});
  }

  /** A B tag left open closes one token before the next B tag. */
  lemma BeginBegin()
    ensures Decode(beginBegin, 0, "-") == Success({(0, 0, "PER"), (1, 2, "LOC")})
  {
    BeginBeginRun();
    TagELoc();
    assert Run(beginBegin, 3, 0, "-") == Running(Closed, {(0, 0, "PER"), (1, 2, "LOC")});
  }

  /** An S tag opens a run like B and does not close it by itself. */
  lemma SingleThenEnd()
    ensures Decode(["S-X", "E-X"], 0, "-") == Success({(0, 1, "X")})
  {
    TagSX();
    TagEX();
    var tags := ["S-X", "E-X"];
    assert Run(tags, 1, 0, "-") == Running(Open(0, "X"), {});
  }

  /** A run still open after the last tag ends at the last token. */
  lemma Unterminated()
    ensures Decode(["B-PER", "M-PER"], 0, "-") == Success({(0, 1, "PER")})
  {
    TagBPer();
    TagMPer();
    var tags := ["B-PER", "M-PER"];
    assert Run(tags, 1, 0, "-") == Running(Open(0, "PER"), {});
    assert Run(tags, 2, 0, "-") == Running(Open(0, "PER"), {});
  }

  /** The offset is subtracted from both ends. */
  lemma WithOffset()
    ensures Decode(["B-X"], 1, "-") == Success({(-1, -1, "X")})
  {
    TagBX();
    var tags := ["B-X"];
    assert Run(tags, 1, 1, "-") == Running(Open(0, "X"), {});
  }

  /** E and O with nothing open, and M/I never opened, report nothing. */
  lemma Lenient()
    ensures Decode(["E-X", "O", "I-X"], 0, "-") == Success({})
  {
    TagEX();
    TagIX();
    var tags := ["E-X", "O", "I-X"];
    assert Run(tags, 1, 0, "-") == Running(Closed, {});
    assert Run(tags, 2, 0, "-") == Running(Closed, {});
    assert Run(tags, 3, 0, "-") == Running(Closed, {});
  }

  /** The first tag with an unknown prefix aborts the decode and is named. */
  lemma BadTag()
    ensures Decode(["B-PER", "Z-PER", "Q"], 0, "-") == Failure("Z-PER")
  {
    TagBPer();
    var tags := ["B-PER", "Z-PER", "Q"];
    assert RoleOf("Z-PER") == None;
    assert Run(tags, 1, 0, "-") == Running(Open(0, "PER"), {});
    assert Run(tags, 2, 0, "-") == Failed("Z-PER");
  }
}
