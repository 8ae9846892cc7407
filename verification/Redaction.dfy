/** The replacement loop of `redact_text`, and when no sensitive value can survive it. */
module Redaction {
  import opened Prelude

  const MARKER := "<redacted>"

  const WORD := "redacted"

  predicate OccursAt(text: string, value: string, i: int) {
    0 <= i && i + |value| <= |text| && text[i..i + |value|] == value
  }

  ghost predicate Contains(text: string, value: string) {
    exists i :: OccursAt(text, value, i)
  }

  /** `str.replace`: leftmost occurrences first, none overlapping. */
  function Replace(text: string, value: string): string
    requires value != ""
    decreases |text|
  {
    if text == "" then ""
    else if value <= text then MARKER + Replace(text[|value|..], value)
    else [text[0]] + Replace(text[1..], value)
  }

  function RedactAll(text: string, values: seq<string>): string {
    if values == [] then text
    else
      var n := |values| - 1;
      var before := RedactAll(text, values[..n]);
      if values[n] == "" then before else Replace(before, values[n])
  }

  // ----- how a value can meet the marker -----

  /** Neither '<' nor '>' in it. */
  predicate Plain(value: string) {
    '<' !in value && '>' !in value
  }

  /** It begins with a non-empty end of the marker. */
  predicate StartsInMarker(value: string) {
    exists k :: 0 <= k < |MARKER| && MARKER[k..] <= value
  }

  /** It ends with a non-empty beginning of the marker. */
  predicate EndsInMarker(value: string) {
    exists k :: 0 < k <= |MARKER| && k <= |value| && value[|value| - k..] == MARKER[..k]
  }

  ghost predicate NoMarkerEnd(value: string) {
    !Contains(value, MARKER) && !EndsInMarker(value)
  }

  /** No occurrence of it can touch a marker. */
  ghost predicate Apart(value: string) {
    !Contains(MARKER, value) && !StartsInMarker(value) && NoMarkerEnd(value)
  }

  lemma TheMarker()
    ensures |MARKER| == 10 && MARKER[0] == '<' && MARKER[9] == '>' && MARKER[1..9] == WORD
  {
  }

  lemma PlainInMarker(value: string, i: int)
    requires Plain(value) && value != "" && OccursAt(MARKER, value, i)
    ensures OccursAt(WORD, value, i - 1)
  {
    TheMarker();
    NoBracketInside(MARKER, value, i, i);
    NoBracketInside(MARKER, value, i, i + |value| - 1);
    assert WORD[i - 1..i - 1 + |value|] == MARKER[i..i + |value|];
  }

  /** A plain value outside the marker's word is apart from it. */
  lemma PlainIsApart(value: string)
    requires Plain(value) && value != "" && !Contains(WORD, value)
    ensures Apart(value)
  {
    TheMarker();
    forall i ensures !OccursAt(MARKER, value, i) {
      if OccursAt(MARKER, value, i) {
        PlainInMarker(value, i);
      }
    }
    forall k | 0 <= k < |MARKER| ensures !(MARKER[k..] <= value) {
      assert MARKER[k..][|MARKER| - k - 1] == '>';
      PartHas(value, 0, MARKER[k..], '>');
    }
    forall k | 0 < k <= |MARKER| && k <= |value| ensures value[|value| - k..] != MARKER[..k] {
      assert MARKER[..k][0] == '<';
      PartHas(value, |value| - k, MARKER[..k], '<');
    }
    forall i ensures !OccursAt(value, MARKER, i) {
      PartHas(value, i, MARKER, '<');
    }
  }

  lemma PartHas(text: string, i: int, part: string, c: char)
    requires c in part
    ensures OccursAt(text, part, i) ==> c in text
  {
    var k :| 0 <= k < |part| && part[k] == c;
    if OccursAt(text, part, i) {
      assert text[i..i + |part|][k] == text[i + k];
    }
  }

  // ----- where an occurrence can come from -----

  lemma MarkerFirst(back: string, w: string)
    requires w != "" && w <= MARKER + back
    ensures Contains(w, MARKER) || EndsInMarker(w)
  {
    if |w| <= |MARKER| {
      assert w[|w| - |w|..] == MARKER[..|w|];
    } else {
      assert OccursAt(w, MARKER, 0);
    }
  }

  lemma TailHasNoMarkerEnd(w: string)
    requires NoMarkerEnd(w) && w != ""
    ensures NoMarkerEnd(w[1..])
  {
    if Contains(w[1..], MARKER) {
      LaterOccurrence(w, 1, MARKER);
    }
    forall k | 0 < k <= |MARKER| && k <= |w[1..]| ensures w[1..][|w[1..]| - k..] != MARKER[..k] {
      assert w[1..][|w[1..]| - k..] == w[|w| - k..];
    }
  }

  /** A value that occurs at the start of the output and has no marker end occurs at the start of the input. */
  lemma {:induction false} PrefixComesFromText(text: string, value: string, w: string)
    requires value != "" && NoMarkerEnd(w) && w <= Replace(text, value)
    ensures w <= text
    decreases |text|
  {
    if text != "" && w != "" {
      if value <= text {
        MarkerFirst(Replace(text[|value|..], value), w);
      } else {
        TailHasNoMarkerEnd(w);
        assert w[1..] <= Replace(text[1..], value);
        PrefixComesFromText(text[1..], value, w[1..]);
      }
    }
  }

  lemma ShiftedOccurrence(front: string, back: string, w: string, i: int)
    requires OccursAt(front + back, w, i) && i >= |front|
    ensures OccursAt(back, w, i - |front|)
  {
    assert (front + back)[i..i + |w|] == back[i - |front|..i - |front| + |w|];
  }

  lemma NoBracketInside(text: string, w: string, i: int, j: int)
    requires Plain(w) && OccursAt(text, w, i) && i <= j < i + |w|
    ensures text[j] != '<' && text[j] != '>'
  {
    assert text[i..i + |w|][j - i] == w[j - i];
    assert w[j - i] in w;
  }

  lemma OccursWithin(text: string, a: string, i: int, b: string, j: int)
    requires OccursAt(text, a, i) && OccursAt(a, b, j)
    ensures OccursAt(text, b, i + j)
  {
    forall k | 0 <= k < |b| ensures text[i + j + k] == b[k] {
      assert text[i..i + |a|][j + k] == a[j + k];
      assert a[j..j + |b|][k] == b[k];
    }
  }

  /** An occurrence that begins inside a marker. */
  lemma BeginsInside(back: string, w: string, i: int)
    requires w != "" && 0 <= i < |MARKER| && OccursAt(MARKER + back, w, i)
    ensures Contains(MARKER, w) || StartsInMarker(w)
  {
    if i + |w| <= |MARKER| {
      assert MARKER[i..i + |w|] == (MARKER + back)[i..i + |w|];
      assert OccursAt(MARKER, w, i);
    } else {
      assert w[..|MARKER| - i] == MARKER[i..];
    }
  }

  lemma Cut(text: string, i: int, j: int, value: string, k: int)
    requires 0 <= i <= j <= |text| && 0 <= k
    ensures OccursAt(text[i..j], value, k) <==> i + k + |value| <= j && OccursAt(text, value, i + k)
  {
    if i + k + |value| <= j {
      var a, b := text[i..j][k..k + |value|], text[i + k..i + k + |value|];
      forall q | 0 <= q < |value| ensures a[q] == b[q] {
        assert text[i..j][k + q] == text[i + (k + q)];
      }
      assert a == b;
    }
  }

  lemma LaterOccurrence(text: string, k: nat, w: string)
    requires k <= |text| && Contains(text[k..], w)
    ensures Contains(text, w)
  {
    var i :| OccursAt(text[k..], w, i);
    assert text[k + i..k + i + |w|] == text[k..][i..i + |w|];
    assert OccursAt(text, w, k + i);
  }

  /** Replacing introduces no value that is apart from the marker. */
  lemma {:induction false} NothingIntroduced(text: string, value: string, w: string)
    requires value != "" && w != "" && Apart(w)
    requires Contains(Replace(text, value), w)
    ensures Contains(text, w)
    decreases |text|
  {
    var i :| OccursAt(Replace(text, value), w, i);
    if value <= text {
      var rest := text[|value|..];
      if i < |MARKER| {
        BeginsInside(Replace(rest, value), w, i);
      }
      ShiftedOccurrence(MARKER, Replace(rest, value), w, i);
      NothingIntroduced(rest, value, w);
      LaterOccurrence(text, |value|, w);
    } else if i == 0 {
      PrefixComesFromText(text, value, w);
      assert OccursAt(text, w, 0);
    } else {
      ShiftedOccurrence([text[0]], Replace(text[1..], value), w, i);
      NothingIntroduced(text[1..], value, w);
      LaterOccurrence(text, 1, w);
    }
  }

  /** Replacing a value that is apart from the marker leaves no occurrence of it. */
  lemma {:induction false} NothingLeft(text: string, value: string)
    requires value != "" && Apart(value)
    ensures !Contains(Replace(text, value), value)
    decreases |text|
  {
    if i :| OccursAt(Replace(text, value), value, i) {
      if value <= text {
        var rest := text[|value|..];
        NothingLeft(rest, value);
        if i < |MARKER| {
          BeginsInside(Replace(rest, value), value, i);
        } else {
          ShiftedOccurrence(MARKER, Replace(rest, value), value, i);
        }
      } else if i == 0 {
        PrefixComesFromText(text, value, value);
      } else {
        NothingLeft(text[1..], value);
        ShiftedOccurrence([text[0]], Replace(text[1..], value), value, i);
      }
    }
  }

  lemma BeginsMeansOccurs(text: string, value: string)
    ensures value <= text <==> OccursAt(text, value, 0)
  {
  }

  lemma TailLacks(text: string, k: nat, w: string)
    requires k <= |text| && !Contains(text, w)
    ensures !Contains(text[k..], w)
  {
    if Contains(text[k..], w) {
      LaterOccurrence(text, k, w);
    }
  }

  lemma {:induction false} NothingToReplace(text: string, value: string)
    requires value != "" && !Contains(text, value)
    ensures Replace(text, value) == text
    decreases |text|
  {
    if text != "" {
      BeginsMeansOccurs(text, value);
      TailLacks(text, 1, value);
      NothingToReplace(text[1..], value);
    }
  }

  // ----- the whole loop -----

  /** No occurrence of a non-empty value can touch a marker. */
  ghost predicate Redactable(values: seq<string>) {
    forall k :: 0 <= k < |values| && values[k] != "" ==> Apart(values[k])
  }

  lemma {:induction false} NoneSurvives(text: string, values: seq<string>, k: nat)
    requires Redactable(values) && k < |values| && values[k] != ""
    ensures !Contains(RedactAll(text, values), values[k])
    decreases |values|
  {
    var n := |values| - 1;
    var before := RedactAll(text, values[..n]);
    if k == n {
      NothingLeft(before, values[n]);
    } else {
      NoneSurvives(text, values[..n], k);
      if values[n] != "" && Contains(Replace(before, values[n]), values[k]) {
        NothingIntroduced(before, values[n], values[k]);
      }
    }
  }

  lemma {:induction false} NothingToRedact(text: string, values: seq<string>)
    requires forall k :: 0 <= k < |values| && values[k] != "" ==> !Contains(text, values[k])
    ensures RedactAll(text, values) == text
  {
    if values != [] {
      var n := |values| - 1;
      NothingToRedact(text, values[..n]);
      if values[n] != "" {
        NothingToReplace(text, values[n]);
      }
    }
  }

  /** No redactable value survives the loop, in whatever order the values come, and running it again
      changes nothing. */
  lemma RedactionIsComplete(text: string, values: seq<string>)
    requires Redactable(values)
    ensures forall k :: 0 <= k < |values| && values[k] != "" ==> !Contains(RedactAll(text, values), values[k])
    ensures RedactAll(RedactAll(text, values), values) == RedactAll(text, values)
  {
    forall k | 0 <= k < |values| && values[k] != "" ensures !Contains(RedactAll(text, values), values[k]) {
      NoneSurvives(text, values, k);
    }
    NothingToRedact(RedactAll(text, values), values);
  }

  // ----- values that can survive -----

  lemma {:induction false} ReplaceLeavesMarker(text: string, value: string)
    requires value != "" && Contains(text, value)
    ensures Contains(Replace(text, value), MARKER)
    decreases |text|
  {
    var i :| OccursAt(text, value, i);
    if value <= text {
      assert OccursAt(Replace(text, value), MARKER, 0);
    } else {
      assert OccursAt(text[1..], value, i - 1) by {
        assert i > 0;
        assert text[1..][i - 1..i - 1 + |value|] == text[i..i + |value|];
      }
      ReplaceLeavesMarker(text[1..], value);
      assert Replace(text, value)[1..] == Replace(text[1..], value);
      LaterOccurrence(Replace(text, value), 1, MARKER);
    }
  }

  lemma {:induction false} MarkerStays(text: string, values: seq<string>)
    requires Contains(text, MARKER)
    ensures Contains(RedactAll(text, values), MARKER)
  {
    if values != [] {
      var n := |values| - 1;
      var before := RedactAll(text, values[..n]);
      MarkerStays(text, values[..n]);
      if values[n] != "" {
        if Contains(before, values[n]) {
          ReplaceLeavesMarker(before, values[n]);
        } else {
          NothingToReplace(before, values[n]);
        }
      }
    }
  }

  /** Whatever the other values, one that is part of the marker survives on the marker itself. */
  lemma PartOfMarkerSurvives(values: seq<string>, k: nat)
    requires k < |values| && Contains(MARKER, values[k])
    ensures Contains(RedactAll(MARKER, values), values[k])
  {
    assert OccursAt(MARKER, MARKER, 0);
    MarkerStays(MARKER, values);
    var i :| OccursAt(RedactAll(MARKER, values), MARKER, i);
    var j :| OccursAt(MARKER, values[k], j);
    OccursWithin(RedactAll(MARKER, values), MARKER, i, values[k], j);
  }

  /** The loop clears every text of every non-empty value. */
  ghost predicate Clears(values: seq<string>) {
    forall text, k :: 0 <= k < |values| && values[k] != "" ==> !Contains(RedactAll(text, values), values[k])
  }

  lemma RedactableIsCleared(values: seq<string>)
    requires Redactable(values)
    ensures Clears(values)
  {
    forall text, k | 0 <= k < |values| && values[k] != "" ensures !Contains(RedactAll(text, values), values[k]) {
      NoneSurvives(text, values, k);
    }
  }

  /** When each value lies inside the marker or apart from it, the condition is exact for the whole list: the
      loop clears every text of every value if and only if none lies inside. */
  lemma ListIsClearedIff(values: seq<string>)
    requires forall k :: 0 <= k < |values| && values[k] != "" ==> Apart(values[k]) || Contains(MARKER, values[k])
    ensures Clears(values) <==> forall k :: 0 <= k < |values| && values[k] != "" ==> !Contains(MARKER, values[k])
  {
    forall k | 0 <= k < |values| && values[k] != "" && Contains(MARKER, values[k]) ensures !Clears(values) {
      PartOfMarkerSurvives(values, k);
    }
    if Redactable(values) {
      RedactableIsCleared(values);
    }
  }

  /** Values without angle brackets are such a list, and lie inside the marker only as part of its word. */
  lemma PlainValuesAreClearedIff(values: seq<string>)
    requires forall k :: 0 <= k < |values| ==> Plain(values[k])
    ensures Clears(values) <==> forall k :: 0 <= k < |values| && values[k] != "" ==> !Contains(WORD, values[k])
  {
    forall k | 0 <= k < |values| && values[k] != ""
      ensures Apart(values[k]) || Contains(MARKER, values[k])
      ensures Contains(MARKER, values[k]) <==> Contains(WORD, values[k])
    {
      PlainOrInWord(values[k]);
    }
    ListIsClearedIff(values);
  }

  lemma PlainOrInWord(value: string)
    requires Plain(value) && value != ""
    ensures Apart(value) || Contains(MARKER, value)
    ensures Contains(MARKER, value) <==> Contains(WORD, value)
  {
    TheMarker();
    if i :| OccursAt(MARKER, value, i) {
      PlainInMarker(value, i);
    }
    if j :| OccursAt(WORD, value, j) {
      OccursWithin(MARKER, WORD, 1, value, j);
    } else {
      PlainIsApart(value);
    }
  }

  // ----- one value, brackets or not -----

  predicate NoneBefore(text: string, value: string, m: int) {
    forall j :: 0 <= j < m ==> !OccursAt(text, value, j)
  }

  /** An occurrence of the value that ends inside a marker, `u` characters before which it begins: the rest
      of it agrees with the marker, and the value after those characters is still the first to be replaced. */
  predicate MeetsAt(value: string, u: int)
    requires 0 < u < |value|
  {
    (value[u..] <= MARKER || MARKER <= value[u..]) && NoneBefore(value[..u] + value, value, u)
  }

  /** The value can come out of its own replacement. */
  ghost predicate Meets(value: string) {
    || Contains(MARKER, value)
    || StartsInMarker(value)
    || exists u :: 0 < u < |value| && MeetsAt(value, u)
  }

  lemma FirstInTail(text: string, value: string, m: nat)
    requires m > 0 && OccursAt(text, value, m) && NoneBefore(text, value, m) && value != ""
    ensures OccursAt(text[1..], value, m - 1) && NoneBefore(text[1..], value, m - 1)
    ensures !(value <= text)
  {
    assert text[1..|text|] == text[1..];
    Cut(text, 1, |text|, value, m - 1);
    forall j | 0 <= j < m - 1 ensures !OccursAt(text[1..], value, j) {
      Cut(text, 1, |text|, value, j);
      assert !OccursAt(text, value, j + 1);
    }
    assert !OccursAt(text, value, 0);
  }

  /** `str.replace` goes from the first occurrence to the text behind it. */
  lemma {:induction false} FirstMatch(text: string, value: string, m: nat)
    requires value != "" && OccursAt(text, value, m) && NoneBefore(text, value, m)
    ensures Replace(text, value) == text[..m] + MARKER + Replace(text[m + |value|..], value)
    decreases |text|
  {
    if m == 0 {
      assert text[..0] == "";
    } else {
      FirstInTail(text, value, m);
      var tail := text[1..];
      FirstMatch(tail, value, m - 1);
      OneBefore(text, tail[..m - 1], m, Replace(tail[m - 1 + |value|..], value));
      assert tail[m - 1 + |value|..] == text[m + |value|..];
    }
  }

  lemma OneBefore(text: string, front: string, m: nat, back: string)
    requires 0 < m <= |text| && front == text[1..][..m - 1]
    ensures [text[0]] + (front + MARKER + back) == text[..m] + MARKER + back
  {
    assert [text[0]] + front == text[..m];
  }

  lemma {:induction false} FirstOf(text: string, value: string, i: nat) returns (m: nat)
    requires OccursAt(text, value, i)
    ensures m <= i && OccursAt(text, value, m) && NoneBefore(text, value, m)
  {
    if j :| 0 <= j < i && OccursAt(text, value, j) {
      m := FirstOf(text, value, j);
    } else {
      m := i;
    }
  }

  lemma BehindFirst(front: string, value: string, rest: string)
    requires value != "" && NoneBefore(front + value + rest, value, |front|) && |rest| < |value|
    ensures Replace(front + value + rest, value) == front + MARKER + rest
  {
    var text := front + value + rest;
    assert text[|front|..|front| + |value|] == value;
    FirstMatch(text, value, |front|);
    assert text[..|front|] == front && text[|front| + |value|..] == rest;
    ShorterHasNone(rest, value);
    NothingToReplace(rest, value);
  }

  lemma StartSurvives(value: string, k: nat) returns (text: string)
    requires k < |MARKER| && MARKER[k..] <= value
    ensures Contains(Replace(text, value), value)
  {
    var rest := value[|MARKER| - k..];
    assert value == MARKER[k..] + rest;
    text := "" + value + rest;
    BehindFirst("", value, rest);
    assert ("" + MARKER + rest)[k..k + |value|] == value;
    assert OccursAt(Replace(text, value), value, k);
  }

  lemma EndSurvives(value: string, u: nat) returns (text: string)
    requires 0 < u < |value| && MeetsAt(value, u)
    ensures Contains(Replace(text, value), value)
  {
    var front := value[..u];
    var rest := if MARKER <= value[u..] then value[u + |MARKER|..] else "";
    text := front + value + rest;
    assert text[0..u + |value|] == front + value;
    forall j | 0 <= j < u ensures !OccursAt(text, value, j) {
      Cut(text, 0, u + |value|, value, j);
      assert !OccursAt(front + value, value, j);
    }
    BehindFirst(front, value, rest);
    EndsAgree(value, u, rest);
    assert OccursAt(front + MARKER + rest, value, 0);
  }

  lemma EndsAgree(value: string, u: nat, rest: string)
    requires 0 < u < |value| && (value[u..] <= MARKER || MARKER <= value[u..])
    requires rest == if MARKER <= value[u..] then value[u + |MARKER|..] else ""
    ensures value <= value[..u] + MARKER + rest
  {
    if MARKER <= value[u..] {
      assert value[u..] == MARKER + value[u..][|MARKER|..];
      assert value[u..][|MARKER|..] == rest;
      assert value == value[..u] + value[u..];
    } else {
      assert MARKER == value[u..] + MARKER[|value| - u..];
      assert value == value[..u] + value[u..];
    }
  }

  lemma MeetingSurvives(value: string) returns (text: string)
    requires value != "" && Meets(value)
    ensures Contains(Replace(text, value), value)
  {
    if Contains(MARKER, value) {
      text := "" + value + "";
      BehindFirst("", value, "");
      assert "" + MARKER + "" == MARKER;
    } else if StartsInMarker(value) {
      var k :| 0 <= k < |MARKER| && MARKER[k..] <= value;
      text := StartSurvives(value, k);
    } else {
      var u :| 0 < u < |value| && MeetsAt(value, u);
      text := EndSurvives(value, u);
    }
  }

  lemma AcrossIsMeeting(text: string, value: string, m: nat, back: string, i: nat)
    requires value != "" && OccursAt(text, value, m) && NoneBefore(text, value, m)
    requires OccursAt(text[..m] + MARKER + back, value, i) && i < m < i + |value|
    ensures 0 < m - i < |value| && MeetsAt(value, m - i)
  {
    var u := m - i;
    var output := text[..m] + MARKER + back;
    assert value[..u] == output[i..i + |value|][..u] == text[i..m];
    assert output[m..] == MARKER + back;
    assert value[u..] == output[m..i + |value|] == (MARKER + back)[..|value| - u];
    assert text[i..m + |value|] == value[..u] + value;
    forall j | 0 <= j < u ensures !OccursAt(value[..u] + value, value, j) {
      Cut(text, i, m + |value|, value, j);
      assert !OccursAt(text, value, i + j);
    }
  }

  lemma BeforeMatch(text: string, value: string, m: nat, back: string, i: nat)
    requires m <= |text| && NoneBefore(text, value, m) && i + |value| <= m && value != ""
    ensures !OccursAt(text[..m] + MARKER + back, value, i)
  {
    var output := text[..m] + MARKER + back;
    assert output[i..i + |value|] == text[i..i + |value|];
    assert !OccursAt(text, value, i);
  }

  /** An occurrence in the output meets the first marker or lies behind it. */
  lemma MeetsOrBehind(text: string, value: string, m: nat, back: string, i: nat)
    requires value != "" && OccursAt(text, value, m) && NoneBefore(text, value, m)
    requires OccursAt(text[..m] + MARKER + back, value, i)
    ensures Meets(value) || Contains(back, value)
  {
    if i >= m {
      assert text[..m] + MARKER + back == text[..m] + (MARKER + back);
      ShiftedOccurrence(text[..m], MARKER + back, value, i);
      if i - m < |MARKER| {
        BeginsInside(back, value, i - m);
      } else {
        ShiftedOccurrence(MARKER, back, value, i - m);
      }
    } else if m < i + |value| {
      AcrossIsMeeting(text, value, m, back, i);
    } else {
      BeforeMatch(text, value, m, back, i);
    }
  }

  /** A value that is left by its own replacement meets the marker. */
  lemma {:induction false} SurvivorMeets(text: string, value: string)
    requires value != "" && Contains(Replace(text, value), value)
    ensures Meets(value)
    decreases |text|
  {
    var i :| OccursAt(Replace(text, value), value, i);
    if !Contains(text, value) {
      NothingToReplace(text, value);
    }
    var j :| OccursAt(text, value, j);
    var m := FirstOf(text, value, j);
    var rest := text[m + |value|..];
    FirstMatch(text, value, m);
    MeetsOrBehind(text, value, m, Replace(rest, value), i);
    if Contains(Replace(rest, value), value) {
      SurvivorMeets(rest, value);
    }
  }

  lemma RedactOne(text: string, value: string)
    requires value != ""
    ensures RedactAll(text, [value]) == Replace(text, value)
  {
    assert [value][..0] == [];
  }

  /** For one value, with brackets or without, the condition is exact. */
  lemma ValueIsClearedIff(value: string)
    requires value != ""
    ensures (forall text :: !Contains(RedactAll(text, [value]), value)) <==> !Meets(value)
  {
    if Meets(value) {
      var text := MeetingSurvives(value);
      RedactOne(text, value);
    } else {
      forall text ensures !Contains(RedactAll(text, [value]), value) {
        RedactOne(text, value);
        if Contains(Replace(text, value), value) {
          SurvivorMeets(text, value);
        }
      }
    }
  }

  // ----- several values, brackets or not -----

  function Behind(front: string, tails: set<string>): (r: set<string>)
    ensures forall x :: x in r <==> front <= x && x[|front|..] in tails
  {
    var r := set x | x in tails :: front + x;
    assert forall x :: x in tails ==> (front + x)[|front|..] == x;
    assert forall x :: front <= x ==> front + x[|front|..] == x;
    r
  }

  /** The texts that can have begun an output `wanted`: `value` put back wherever a marker may have come
      from, a marker cut short at the end included. */
  function Sources(wanted: string, value: string): set<string>
    decreases |wanted|
  {
    if wanted == "" then {""}
    else
      (if wanted <= MARKER then {value} else {})
      + (if MARKER <= wanted then Behind(value, Sources(wanted[|MARKER|..], value)) else {})
      + Behind([wanted[0]], Sources(wanted[1..], value))
  }

  /** The finitely many texts in which replacing `value` has to be looked at: `wanted` begins where a
      replacement or a kept character does, or inside a marker. */
  function Candidates(wanted: string, value: string): set<string> {
    Sources(wanted, value) + {value} + set k, x | 0 < k < |MARKER| && x in InsideSources(wanted, value, k) :: x
  }

  function InsideSources(wanted: string, value: string, k: int): set<string> {
    if 0 < k < |MARKER| && MARKER[k..] <= wanted then Behind(value, Sources(wanted[|MARKER| - k..], value)) else {}
  }

  /** Replacing `value` can bring `wanted` into a text that does not contain it. */
  ghost predicate Makes(value: string, wanted: string)
    requires value != ""
  {
    exists x :: x in Candidates(wanted, value) && !Contains(x, wanted) && Contains(Replace(x, value), wanted)
  }

  lemma PrefixHas(x: string, text: string, w: string)
    requires x <= text && Contains(x, w)
    ensures Contains(text, w)
  {
    var i :| OccursAt(x, w, i);
    assert text[0..|x|] == x;
    Cut(text, 0, |x|, w, i);
  }

  lemma PrefixLacks(x: string, text: string, w: string)
    requires x <= text && !Contains(text, w)
    ensures !Contains(x, w)
  {
    if Contains(x, w) {
      PrefixHas(x, text, w);
    }
  }

  /** Whatever begins the output of a text begins the output of one of its sources, a beginning of the text. */
  lemma {:induction false} SourceOf(text: string, value: string, wanted: string) returns (x: string)
    requires value != "" && wanted <= Replace(text, value)
    ensures x in Sources(wanted, value) && x <= text && wanted <= Replace(x, value)
    decreases |text|
  {
    if wanted == "" {
      x := "";
    } else if value <= text {
      var rest := text[|value|..];
      if wanted <= MARKER {
        x := value;
        assert value[|value|..] == "";
      } else {
        assert wanted[|MARKER|..] <= Replace(rest, value);
        var y := SourceOf(rest, value, wanted[|MARKER|..]);
        x := value + y;
        assert x[|value|..] == y && MARKER <= wanted;
      }
    } else {
      assert wanted[1..] <= Replace(text[1..], value);
      var y := SourceOf(text[1..], value, wanted[1..]);
      x := [wanted[0]] + y;
      assert x[1..] == y && !(value <= x);
    }
  }

  lemma SourceInside(text: string, value: string, wanted: string, k: nat) returns (x: string)
    requires value != "" && value <= text && 0 < k < |MARKER| && OccursAt(Replace(text, value), wanted, k)
    ensures x in Candidates(wanted, value) && x <= text && OccursAt(Replace(x, value), wanted, k)
  {
    var rest := text[|value|..];
    var back := Replace(rest, value);
    if k + |wanted| <= |MARKER| {
      x := value;
      assert value[|value|..] == "" && Replace(value, value) == MARKER;
      assert (MARKER + back)[0..|MARKER|] == MARKER;
      Cut(MARKER + back, 0, |MARKER|, wanted, k);
    } else {
      Across(MARKER, back, wanted, k);
      var later := wanted[|MARKER| - k..];
      var y := SourceOf(rest, value, later);
      x := value + y;
      assert x[|value|..] == y;
      assert x in InsideSources(wanted, value, k);
      Join(MARKER, Replace(y, value), wanted, k);
    }
  }

  /** An occurrence that goes over the border of two texts, and one put together there. */
  lemma Across(front: string, back: string, w: string, k: nat)
    requires OccursAt(front + back, w, k) && k <= |front| < k + |w|
    ensures front[k..] <= w && w[|front| - k..] <= back
  {
    var cut := |front| - k;
    forall q | 0 <= q < |w| ensures w[q] == (front + back)[k + q] {
      assert (front + back)[k..k + |w|][q] == (front + back)[k + q];
    }
    assert w[..cut] == front[k..];
    assert w[cut..] == back[..|w| - cut];
  }

  lemma Join(front: string, back: string, w: string, k: nat)
    requires k <= |front| && front[k..] <= w && w[|front| - k..] <= back
    ensures OccursAt(front + back, w, k)
  {
    var cut := |front| - k;
    forall q | 0 <= q < |w| ensures (front + back)[k + q] == w[q] {
      if q < cut {
        assert front[k..][q] == w[q];
      } else {
        assert w[cut..][q - cut] == back[q - cut];
      }
    }
    assert (front + back)[k..k + |w|] == w;
  }

  /** The candidates are enough: a value can come into any text at all only if it can into one of them. */
  lemma {:induction false} MadeFromCandidate(text: string, value: string, wanted: string)
    requires value != "" && !Contains(text, wanted) && Contains(Replace(text, value), wanted)
    ensures Makes(value, wanted)
    decreases |text|
  {
    var i :| OccursAt(Replace(text, value), wanted, i);
    if i == 0 {
      var x := SourceOf(text, value, wanted);
      PrefixLacks(x, text, wanted);
      assert OccursAt(Replace(x, value), wanted, 0);
    } else if value <= text && i < |MARKER| {
      var x := SourceInside(text, value, wanted, i);
      PrefixLacks(x, text, wanted);
    } else if value <= text {
      ShiftedOccurrence(MARKER, Replace(text[|value|..], value), wanted, i);
      TailLacks(text, |value|, wanted);
      MadeFromCandidate(text[|value|..], value, wanted);
    } else {
      ShiftedOccurrence([text[0]], Replace(text[1..], value), wanted, i);
      TailLacks(text, 1, wanted);
      MadeFromCandidate(text[1..], value, wanted);
    }
  }

  /** No value comes out of its own replacement or that of another one. */
  ghost predicate KeepApart(values: set<string>) {
    forall v, w :: v in values && w in values && v != "" && w != "" ==>
      if v == w then !Meets(v) else !Makes(v, w)
  }

  lemma {:induction false} NoneComesBack(text: string, list: seq<string>, values: set<string>, k: nat)
    requires KeepApart(values) && (forall x :: x in list ==> x in values) && k < |list| && list[k] != ""
    ensures !Contains(RedactAll(text, list), list[k])
    decreases |list|
  {
    var n := |list| - 1;
    var w, v := list[k], list[n];
    var before := RedactAll(text, list[..n]);
    assert w in values && v in values;
    if k < n {
      NoneComesBack(text, list[..n], values, k);
    }
    if v != "" && Contains(Replace(before, v), w) {
      if v == w {
        SurvivorMeets(before, v);
      } else {
        MadeFromCandidate(before, v, w);
      }
    }
  }

  lemma MakingFails(v: string, w: string)
    requires v != "" && w != "" && Makes(v, w)
    ensures !Clears([w, v])
  {
    var x :| x in Candidates(w, v) && !Contains(x, w) && Contains(Replace(x, v), w);
    NothingToReplace(x, w);
    RedactTwo(x, w, v);
    assert [w, v][0] == w;
  }

  lemma RedactTwo(text: string, w: string, v: string)
    requires v != "" && w != ""
    ensures RedactAll(text, [w, v]) == Replace(Replace(text, w), v)
  {
    assert [w, v][..1] == [w];
    RedactOne(text, w);
  }

  lemma MeetingFails(v: string)
    requires v != "" && Meets(v)
    ensures !Clears([v])
  {
    var text := MeetingSurvives(v);
    RedactOne(text, v);
    assert [v][0] == v;
  }

  /** For several values, with brackets or without: the loop clears every text, whichever of the values are
      given and in whatever order, if and only if none comes out of its own replacement or another's. */
  lemma ValuesAreClearedIff(values: set<string>)
    ensures (forall list: seq<string> :: (forall x :: x in list ==> x in values) ==> Clears(list))
            <==> KeepApart(values)
  {
    if KeepApart(values) {
      forall list: seq<string> | forall x :: x in list ==> x in values ensures Clears(list) {
        forall text, k | 0 <= k < |list| && list[k] != "" ensures !Contains(RedactAll(text, list), list[k]) {
          NoneComesBack(text, list, values, k);
        }
      }
    } else {
      var v, w :| v in values && w in values && v != "" && w != "" && if v == w then Meets(v) else Makes(v, w);
      if v == w {
        MeetingFails(v);
        assert forall x :: x in [v] ==> x in values;
      } else {
        MakingFails(v, w);
        assert forall x :: x in [w, v] ==> x in values;
      }
    }
  }

  /** A value that begins with '>' can always survive: the marker's own end completes it. */
  lemma ClosingValueSurvives(rest: string)
    ensures var value := ">" + rest;
            Contains(RedactAll(value + rest, [value]), value)
  {
    var value := ">" + rest;
    assert (value + rest)[|value|..] == rest;
    ShorterHasNone(rest, value);
    NothingToReplace(rest, value);
    assert Replace(value + rest, value) == MARKER + rest;
    assert [value][..0] == [];
    assert RedactAll(value + rest, [value]) == MARKER + rest;
    EndOfMarker(rest);
  }

  lemma EndOfMarker(rest: string)
    ensures OccursAt(MARKER + rest, ">" + rest, 9)
  {
    TheMarker();
    assert (MARKER + rest)[9..] == ">" + rest;
  }

  lemma ShorterHasNone(text: string, value: string)
    requires |text| < |value|
    ensures !Contains(text, value)
  {
  }

  /** `redact_text` up to its regular expressions. */
  method RedactValues(input: string, values: seq<string>) returns (text: string)
    ensures text == RedactAll(input, values)
    ensures Redactable(values) ==> forall k :: 0 <= k < |values| && values[k] != "" ==> !Contains(text, values[k])
  {
    text := input;
    for i := 0 to |values|
      invariant text == RedactAll(input, values[..i])
    {
      assert values[..i + 1][..i] == values[..i];
      if values[i] != "" {
        text := Replace(text, values[i]);
      }
    }
    assert values[..|values|] == values;
    if Redactable(values) {
      RedactionIsComplete(input, values);
    }
  }
}
