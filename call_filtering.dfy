/**
 * The call-selection diagnostics of debug_filtering.py: whether a call has a
 * recording according to its detail record (CDR), the loop that sorts the
 * fetched calls into three order-preserving lists, and the comprehension that
 * the pipeline itself uses to pick calls worth processing.
 */
module CallFiltering {
  import opened Wrappers
  import opened Sublists

  /**
   * The fields of a call record the filter reads; each may be missing from
   * the provider's dict, in which case `call.get` supplies a default.
   */
  datatype Call = Call(
    flow: Option<string>,
    duration: Option<int>,
    bridgedDuration: Option<int>,
    callUuid: Option<string>)

  /** A detail record; `recordFileSize` is the recording's byte size, 0 or missing meaning "no recording". */
  datatype CdrRecord = CdrRecord(recordFileSize: Option<int>)

  /** The outcome of one detail-record lookup for a call identifier. */
  datatype CdrLookup = Found(record: CdrRecord) | NotFound | LookupRaised

  /** The lookup service, keyed by call identifier (an oracle: it stands for an HTTP exchange). */
  type CdrService = string -> CdrLookup

  /**
   * `has_recording`: `(True, size)` exactly when the lookup finds a record
   * with a positive size, `(False, 0)` for no record, a missing or
   * non-positive size, or an exception during the lookup.
   */
  function HasRecording(cdr: CdrService, callUuid: string): (r: (bool, int))
    ensures r.0 <==> cdr(callUuid).Found? && cdr(callUuid).record.recordFileSize.GetOr(0) > 0
    ensures r.0 ==> Some(r.1) == cdr(callUuid).record.recordFileSize && r.1 > 0
    ensures !r.0 ==> r.1 == 0
  {
    match cdr(callUuid)
    case LookupRaised => (false, 0)
    case NotFound => (false, 0)
    case Found(record) =>
      if record.recordFileSize.GetOr(0) > 0 then (true, record.recordFileSize.GetOr(0))
      else (false, 0)
  }

  /** The loop's direction test: `call.get('flow', '') == 'in'`. */
  predicate IsIncoming(c: Call) {
    c.flow.GetOr("") == "in"
  }

  /** The loop's duration test: `duration > 0 or bridged_duration > 0`, each defaulting to 0. */
  predicate HasDuration(c: Call) {
    c.duration.GetOr(0) > 0 || c.bridgedDuration.GetOr(0) > 0
  }

  /** The recording lookup runs only for a call with a non-empty identifier that is incoming. */
  predicate RecordingChecked(c: Call) {
    c.callUuid.Some? && c.callUuid.value != "" && IsIncoming(c)
  }

  /** A call that is checked and whose lookup reports a recording. */
  predicate HasRecordingIn(cdr: CdrService, c: Call) {
    RecordingChecked(c) && HasRecording(cdr, c.callUuid.value).0
  }

  function RecordingTest(cdr: CdrService): Call -> bool {
    c => HasRecordingIn(cdr, c)
  }

  /** `incoming_calls` as the loop leaves it. */
  function Incoming(calls: seq<Call>): seq<Call> {
    Filter(calls, IsIncoming)
  }

  /** `calls_with_duration` as the loop leaves it. */
  function WithDuration(calls: seq<Call>): seq<Call> {
    Filter(calls, HasDuration)
  }

  /** `calls_with_recordings` as the loop leaves it. */
  function WithRecordings(calls: seq<Call>, cdr: CdrService): seq<Call> {
    Filter(calls, RecordingTest(cdr))
  }

  /** The comprehension's test: `call.get('flow') == 'in'` (no default) and a positive duration. */
  predicate PassesCurrentFilter(c: Call) {
    c.flow == Some("in") && HasDuration(c)
  }

  /** `current_filtered`, the selection the pipeline applies. */
  function CurrentFiltered(calls: seq<Call>): seq<Call> {
    Filter(calls, PassesCurrentFilter)
  }

  /**
   * The classification loop of `debug_call_filtering`: one pass over the
   * calls, appending each to whichever of the three lists it qualifies for.
   */
  method ClassifyCalls(calls: seq<Call>, cdr: CdrService)
    returns (incoming: seq<Call>, withDuration: seq<Call>, withRecordings: seq<Call>)
    ensures incoming == Incoming(calls)
    ensures withDuration == WithDuration(calls)
    ensures withRecordings == WithRecordings(calls, cdr)
  {
    incoming, withDuration, withRecordings := [], [], [];
    for i := 0 to |calls|
      invariant incoming == Incoming(calls[..i])
      invariant withDuration == WithDuration(calls[..i])
      invariant withRecordings == WithRecordings(calls[..i], cdr)
    {
      var call := calls[i];
      assert calls[..i + 1] == calls[..i] + [call];
      FilterSnoc(calls[..i], call, IsIncoming);
      FilterSnoc(calls[..i], call, HasDuration);
      FilterSnoc(calls[..i], call, RecordingTest(cdr));

      var flow := call.flow.GetOr("");
      var duration := call.duration.GetOr(0);
      var bridgedDuration := call.bridgedDuration.GetOr(0);
      var callUuid := call.callUuid;

      if flow == "in" {
        incoming := incoming + [call];
      }
      if duration > 0 || bridgedDuration > 0 {
        withDuration := withDuration + [call];
      }
      if callUuid.Some? && callUuid.value != "" && flow == "in" {
        var (hasRec, _) := HasRecording(cdr, callUuid.value);
        if hasRec {
          withRecordings := withRecordings + [call];
        }
      }
    }
    assert calls[..|calls|] == calls;
  }

  /**
   * Each list keeps exactly its qualifying calls: in input order, and with
   * every occurrence of a qualifying call and none of any other.
   */
  lemma ClassificationExact(calls: seq<Call>, cdr: CdrService, c: Call)
    ensures IsSublist(Incoming(calls), calls)
    ensures IsSublist(WithDuration(calls), calls)
    ensures IsSublist(WithRecordings(calls, cdr), calls)
    ensures IsSublist(CurrentFiltered(calls), calls)
    ensures multiset(Incoming(calls))[c] == if IsIncoming(c) then multiset(calls)[c] else 0
    ensures multiset(WithDuration(calls))[c] == if HasDuration(c) then multiset(calls)[c] else 0
    ensures multiset(WithRecordings(calls, cdr))[c] ==
      if RecordingChecked(c) && HasRecording(cdr, c.callUuid.value).0 then multiset(calls)[c] else 0
    ensures multiset(CurrentFiltered(calls))[c] == if PassesCurrentFilter(c) then multiset(calls)[c] else 0
  {
    FilterIsSublist(calls, IsIncoming);
    FilterIsSublist(calls, HasDuration);
    FilterIsSublist(calls, RecordingTest(cdr));
    FilterMultiplicity(calls, IsIncoming, c);
    FilterMultiplicity(calls, HasDuration, c);
    FilterMultiplicity(calls, RecordingTest(cdr), c);
    FilterIsSublist(calls, PassesCurrentFilter);
    FilterMultiplicity(calls, PassesCurrentFilter, c);
  }

  /**
   * The comprehension selects exactly the calls that are both incoming and
   * have a duration, so it is what filtering either loop list by the other
   * test gives, and it is no longer than either of them.
   */
  lemma CurrentFilterIsIntersection(calls: seq<Call>)
    ensures CurrentFiltered(calls) == Filter(Incoming(calls), HasDuration)
    ensures CurrentFiltered(calls) == Filter(WithDuration(calls), IsIncoming)
    ensures IsSublist(CurrentFiltered(calls), Incoming(calls))
    ensures IsSublist(CurrentFiltered(calls), WithDuration(calls))
    ensures |CurrentFiltered(calls)| <= |Incoming(calls)|
    ensures |CurrentFiltered(calls)| <= |WithDuration(calls)|
  {
    assert forall c :: PassesCurrentFilter(c) <==> IsIncoming(c) && HasDuration(c);
    assert forall c :: PassesCurrentFilter(c) <==> HasDuration(c) && IsIncoming(c);
    FilterOfFilter(calls, IsIncoming, HasDuration, PassesCurrentFilter);
    FilterOfFilter(calls, HasDuration, IsIncoming, PassesCurrentFilter);
    FilterIsSublist(Incoming(calls), HasDuration);
    FilterIsSublist(WithDuration(calls), IsIncoming);
  }

  /** Calls with recordings are all incoming: that list is a sublist of `incoming_calls`. */
  lemma RecordingsAreIncoming(calls: seq<Call>, cdr: CdrService)
    ensures WithRecordings(calls, cdr) == Filter(Incoming(calls), RecordingTest(cdr))
    ensures IsSublist(WithRecordings(calls, cdr), Incoming(calls))
    ensures |WithRecordings(calls, cdr)| <= |Incoming(calls)|
  {
    assert forall c :: RecordingTest(cdr)(c) <==> IsIncoming(c) && RecordingTest(cdr)(c);
    FilterOfFilter(calls, IsIncoming, RecordingTest(cdr), RecordingTest(cdr));
    FilterIsSublist(Incoming(calls), RecordingTest(cdr));
  }

  /**
   * The lookup service is consulted only for incoming calls with an
   * identifier: two services that agree on those identifiers yield the same
   * `calls_with_recordings`, whatever they answer for any other call.
   */
  lemma LookupOnlyForCheckedCalls(calls: seq<Call>, cdr1: CdrService, cdr2: CdrService)
    requires forall i :: 0 <= i < |calls| && RecordingChecked(calls[i]) ==>
      cdr1(calls[i].callUuid.value) == cdr2(calls[i].callUuid.value)
    ensures WithRecordings(calls, cdr1) == WithRecordings(calls, cdr2)
  {
    forall c | c in calls
      ensures RecordingTest(cdr1)(c) <==> RecordingTest(cdr2)(c)
    {
      var i :| 0 <= i < |calls| && calls[i] == c;
    }
    FilterCongruent(calls, RecordingTest(cdr1), RecordingTest(cdr2));
  }
}
