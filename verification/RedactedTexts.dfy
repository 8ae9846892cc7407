/** The replacement loop of `redact_text` as a redactor of the relay's log. */
module RedactedTexts {
  import opened Prelude
  import RelayMachine
  import opened Results
  import opened Evidence
  import opened Redaction
  import opened LogRedaction
  import RelayTheorems

  lemma {:induction false} LoopMarksOrKeeps(text: string, values: seq<string>)
    ensures RedactAll(text, values) == text || Contains(RedactAll(text, values), MARKER)
  {
    if values != [] {
      var n := |values| - 1;
      var before := RedactAll(text, values[..n]);
      LoopMarksOrKeeps(text, values[..n]);
      if values[n] != "" {
        if Contains(before, values[n]) {
          ReplaceLeavesMarker(before, values[n]);
        } else {
          NothingToReplace(before, values[n]);
        }
      }
    }
  }

  /** The replacement loop of `redact_text` for one list of sensitive values. */
  function Loop(values: seq<string>): Redactor {
    text => RedactAll(text, values)
  }

  /** Whatever the values, every change it makes leaves a '<'. */
  lemma LoopMarks(values: seq<string>)
    ensures Marks(Loop(values))
  {
    forall text ensures Loop(values)(text) == text || '<' in Loop(values)(text) {
      LoopMarksOrKeeps(text, values);
      if RedactAll(text, values) != text {
        MarkerHasBracket(RedactAll(text, values));
      }
    }
  }

  lemma MarkerHasBracket(text: string)
    requires Contains(text, MARKER)
    ensures '<' in text
  {
    TheMarker();
    var i :| OccursAt(text, MARKER, i);
    PartHas(text, i, MARKER, '<');
  }

  /** Some non-empty value occurs in the text. */
  ghost predicate Meets(values: seq<string>, text: string) {
    exists k :: 0 <= k < |values| && values[k] != "" && Contains(text, values[k])
  }

  lemma {:induction false} MeetingLeavesMarker(text: string, values: seq<string>, k: nat)
    requires k < |values| && values[k] != "" && Contains(text, values[k])
    ensures Contains(RedactAll(text, values), MARKER)
    decreases |values|
  {
    var n := |values| - 1;
    var before := RedactAll(text, values[..n]);
    LoopMarksOrKeeps(text, values[..n]);
    if k < n {
      MeetingLeavesMarker(text, values[..n], k);
    }
    if values[n] != "" && Contains(before, values[n]) {
      ReplaceLeavesMarker(before, values[n]);
    } else if values[n] != "" {
      NothingToReplace(before, values[n]);
    }
  }

  /** The loop changes a text without brackets exactly when a value occurs in it. */
  lemma HitsIffMeets(text: string, values: seq<string>)
    requires '<' !in text
    ensures Hits(Loop(values), text) <==> Meets(values, text)
  {
    if k :| 0 <= k < |values| && values[k] != "" && Contains(text, values[k]) {
      MeetingLeavesMarker(text, values, k);
      if RedactAll(text, values) == text {
        MarkerHasBracket(text);
      }
    } else {
      NothingToRedact(text, values);
    }
  }

  lemma TheTexts()
    ensures '<' !in CREATED_NAME && '<' !in CLEANED_NAME && '<' !in FAILED_NAME
    ensures '<' !in EVENT_KEY && '<' !in SANDBOX_KEY
  {
  }

  /** The values hide every cleanup, or neither a creation nor a failure. */
  ghost predicate Spares(values: seq<string>) {
    || Meets(values, "event") || Meets(values, "sandbox_id") || Meets(values, "SANDBOX_CLEANED")
    || (!Meets(values, "SANDBOX_CREATED") && !Meets(values, "SANDBOX_CLEANUP_FAILED"))
  }

  /** As long as no value occurs in a sandbox id, the coordinator's "success" is trustworthy if and only if the
      values spare the names by which it knows the events. */
  lemma TrustworthyIffSpared(name: Naming, values: seq<string>)
    requires Distinct(name) && forall i :: !Meets(values, name(i))
    ensures Trustworthy(name, Loop(values)) <==> Spares(values)
  {
    LoopMarks(values);
    TheTexts();
    HitsIffMeets(EVENT_KEY, values);
    HitsIffMeets(SANDBOX_KEY, values);
    HitsIffMeets(CLEANED_NAME, values);
    HitsIffMeets(CREATED_NAME, values);
    HitsIffMeets(FAILED_NAME, values);
    forall i ensures Loop(values)(name(i)) == name(i) {
      NothingToRedact(name(i), values);
    }
    TrustworthyIffReadable(name, Loop(values));
  }

  /** A log none of whose names and sandbox ids contains a value is read as it was written. */
  lemma ApartIsReadAsWritten(log: seq<RelayMachine.RelayEvent>, name: Naming, values: seq<string>)
    requires Distinct(name) && forall i :: !Meets(values, name(i))
    requires !Meets(values, EVENT_KEY) && !Meets(values, SANDBOX_KEY)
    requires !Meets(values, CREATED_NAME) && !Meets(values, CLEANED_NAME) && !Meets(values, FAILED_NAME)
    ensures ReadBack(log, name, Loop(values)) == FileOf(log, name)
  {
    LoopMarks(values);
    NothingToRedact(EVENT_KEY, values);
    NothingToRedact(SANDBOX_KEY, values);
    NothingToRedact(CREATED_NAME, values);
    NothingToRedact(CLEANED_NAME, values);
    NothingToRedact(FAILED_NAME, values);
    forall i ensures !Hits(Loop(values), name(i)) {
      NothingToRedact(name(i), values);
    }
    ReadAsWritten(log, name, Loop(values));
  }

  lemma OnlyInCreated()
    ensures Contains(CREATED_NAME, "CREATED")
    ensures !Contains(EVENT_KEY, "CREATED") && !Contains(SANDBOX_KEY, "CREATED") && !Contains(CLEANED_NAME, "CREATED")
  {
    assert CREATED_NAME[8..15] == "CREATED";
    assert OccursAt(CREATED_NAME, "CREATED", 8);
    assert 'R' in "CREATED" by {
      assert "CREATED"[1] == 'R';
    }
    forall i ensures !OccursAt(EVENT_KEY, "CREATED", i) {
      PartHas(EVENT_KEY, i, "CREATED", 'R');
    }
    forall i ensures !OccursAt(SANDBOX_KEY, "CREATED", i) {
      PartHas(SANDBOX_KEY, i, "CREATED", 'R');
    }
    forall i ensures !OccursAt(CLEANED_NAME, "CREATED", i) {
      PartHas(CLEANED_NAME, i, "CREATED", 'R');
    }
  }

  /** Values that hide creations only make the log unreadable. */
  lemma HiddenCreation(name: Naming, values: seq<string>)
    requires Meets(values, CREATED_NAME)
    requires !Meets(values, EVENT_KEY) && !Meets(values, SANDBOX_KEY) && !Meets(values, CLEANED_NAME)
    ensures !Readable(name, Loop(values))
  {
    TheTexts();
    HitsIffMeets(EVENT_KEY, values);
    HitsIffMeets(SANDBOX_KEY, values);
    HitsIffMeets(CLEANED_NAME, values);
    HitsIffMeets(CREATED_NAME, values);
  }

  lemma MeetsOne(value: string, text: string)
    requires value != ""
    ensures Meets([value], text) <==> Contains(text, value)
  {
    assert [value][0] == value;
  }

  lemma CreatedIsUnreadable(name: Naming)
    ensures !Readable(name, Loop(["CREATED"]))
  {
    OnlyInCreated();
    MeetsOne("CREATED", CREATED_NAME);
    MeetsOne("CREATED", EVENT_KEY);
    MeetsOne("CREATED", SANDBOX_KEY);
    MeetsOne("CREATED", CLEANED_NAME);
    HiddenCreation(name, ["CREATED"]);
  }

  /** With the sensitive value "CREATED", a relay that leaves its guest running is read as "success". */
  lemma CreatedMisleads(name: Naming) returns (s: RelayMachine.State)
    requires Distinct(name)
    ensures RelayTheorems.Reachable(1, s) && s.replaceLock == None && s.created.Keys != s.killed
    ensures StatusOf(FileOf(s.log, name)) != Success
    ensures StatusOf(ReadBack(s.log, name, Loop(["CREATED"]))) == Success
  {
    LoopMarks(["CREATED"]);
    CreatedIsUnreadable(name);
    s := Misleading(name, Loop(["CREATED"]));
    SuccessMeansAllKilled(1, s, name);
  }

  /** A text cut at its quotes. */
  function Quoted(pieces: seq<string>): string {
    if pieces == [] then ""
    else if |pieces| == 1 then pieces[0]
    else pieces[0] + "\"" + Quoted(pieces[1..])
  }

  lemma ReplaceStops(text: string, back: string, value: string)
    requires value != "" && '\"' !in value
    ensures value <= text + "\"" + back <==> value <= text
  {
    var whole := text + "\"" + back;
    assert |value| <= |text| ==> whole[..|value|] == text[..|value|];
    assert whole[|text|] == '\"';
  }

  /** A value without quotes is replaced on each side of a quote by itself. */
  lemma {:induction false} ReplaceAtQuote(text: string, back: string, value: string)
    requires value != "" && '\"' !in value
    ensures Replace(text + "\"" + back, value) == Replace(text, value) + "\"" + Replace(back, value)
    decreases |text|
  {
    var whole := text + "\"" + back;
    ReplaceStops(text, back, value);
    if text == "" {
      assert whole == "\"" + back;
      assert whole[1..] == back && whole[0] == '\"';
    } else if value <= text {
      assert whole[|value|..] == text[|value|..] + "\"" + back;
      ReplaceAtQuote(text[|value|..], back, value);
    } else {
      assert whole[1..] == text[1..] + "\"" + back;
      ReplaceAtQuote(text[1..], back, value);
    }
  }

  lemma {:induction false} RedactAtQuote(text: string, back: string, values: seq<string>)
    requires forall k :: 0 <= k < |values| ==> '\"' !in values[k]
    ensures RedactAll(text + "\"" + back, values) == RedactAll(text, values) + "\"" + RedactAll(back, values)
    decreases |values|
  {
    if values != [] {
      var n := |values| - 1;
      RedactAtQuote(text, back, values[..n]);
      if values[n] != "" {
        ReplaceAtQuote(RedactAll(text, values[..n]), RedactAll(back, values[..n]), values[n]);
      }
    }
  }

  /** So a file is redacted text by text between its quotes, which is how a row is redacted. */
  lemma {:induction false} RedactsEachPiece(pieces: seq<string>, values: seq<string>)
    requires forall k :: 0 <= k < |values| ==> '\"' !in values[k]
    requires pieces != []
    ensures RedactAll(Quoted(pieces), values)
            == Quoted(seq(|pieces|, i requires 0 <= i < |pieces| => RedactAll(pieces[i], values)))
    decreases |pieces|
  {
    var redacted := seq(|pieces|, i requires 0 <= i < |pieces| => RedactAll(pieces[i], values));
    if |pieces| > 1 {
      var rest := pieces[1..];
      assert redacted[1..] == seq(|rest|, i requires 0 <= i < |rest| => RedactAll(rest[i], values));
      RedactsEachPiece(rest, values);
      RedactAtQuote(pieces[0], Quoted(rest), values);
    }
  }
}
