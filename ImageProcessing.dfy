/**
 * The success branch of `processImage`: the recognized text either holds a
 * time, and scheduling is attempted with it, or it does not, and only a
 * "No valid time found" message is shown.
 */
module ImageProcessing {
  import opened Wrappers
  import opened TimeExtractor
  import opened AlarmScheduling

  /** What the recognized text leads to. */
  datatype Outcome = NoTime | Schedule(timeStr: string)

  /** The branch on `timeMatch != null`. */
  function Decide(text: string): (o: Outcome)
    ensures o.Schedule? <==> exists i: nat, len: nat :: MatchAt(text, i, len)
    ensures o.Schedule? ==> IsTimeToken(o.timeStr)
    ensures o.Schedule? ==> exists i: nat :: IsLeftmostMatch(text, i, |o.timeStr|) && text[i..i + |o.timeStr|] == o.timeStr
  {
    match FindTime(text)
    case None => NoTime
    case Some(t) =>
      FindTimeIsLeftmostMatch(text, t);
      Schedule(t)
  }

  /**
   * The recognition success listener from the recognized text onward. The
   * date formatter is the parameter `parse`, and `now` is the clock reading
   * taken when the delay is computed. `alarm` is None exactly when no
   * scheduling call is made.
   */
  method ProcessRecognizedText(text: string, parse: string -> Option<int>, now: int)
    returns (o: Outcome, alarm: Option<AlarmResult>)
    ensures o == Decide(text)
    ensures alarm.None? <==> forall i: nat, len: nat :: !MatchAt(text, i, len)
    ensures alarm.Some? ==> (alarm.value.ScheduleFailed? <==> parse(o.timeStr).None?)
    ensures alarm.Some? && alarm.value.Scheduled? ==>
      alarm.value.triggerMillis == parse(o.timeStr).value + OffsetMillis
      && now + alarm.value.delayMillis == alarm.value.triggerMillis
  {
    var timeMatch := ScanForTime(text);
    if timeMatch.Some? {
      o := Schedule(timeMatch.value);
      var r := SetAlarm(parse(timeMatch.value), now);
      alarm := Some(r);
    } else {
      o := NoTime;
      alarm := None;
    }
  }

  /** A time in the text whose numbers are no clock time is still scheduled. */
  lemma OutOfRangeTimeIsScheduled()
    ensures Decide("invalid 99:99 time") == Schedule("99:99")
  {
    var s := "invalid 99:99 time";
    forall j: nat | j < 8 ensures !HasMatchAt(s, j) {
      assert s[j] in "invalid ";
      NonDigitStartsNoMatch(s, j);
    }
    assert s[8..13] == "99:99";
    LeftmostMatchIsFound(s, 8, 5);
  }

  /** Text without a digit-colon-digit pattern leads to no scheduling. */
  lemma NoColonMeansNoTime(text: string)
    requires forall k :: 0 <= k < |text| ==> text[k] != ':'
    ensures Decide(text) == NoTime
  {
  }
}
