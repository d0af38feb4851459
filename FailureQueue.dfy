/**
 * The failure queue: a file holding a JSON array of `{count, value}` records
 * for the units that still need translating, and the segments whose units
 * are pushed onto it.
 */
module FailureQueue {
  import opened Text

  datatype Option<T> = None | Some(value: T)

  /** One queue record: the unit's number (`count`) and its source text (`value`). */
  datatype Entry = Entry(count: int, value: string)

  /**
   * The queue file as the translator finds it: missing, present but not
   * decodable as JSON, or a decoded array of records (`[]` when empty).
   */
  datatype QueueFile = Absent | Corrupt | Entries(items: seq<Entry>)

  /**
   * A segment as the invoker receives it: a JSON object mapping unit numbers
   * to source text, in order, or text that `clean_json` followed by
   * `json.loads` cannot read.
   */
  datatype Segment = Units(units: seq<Entry>) | Unparsable(raw: string)

  /** `json.loads(clean_json(segment))`, with the keys read as integers. */
  function ParseSegment(s: Segment): Option<seq<Entry>> {
    match s
    case Units(us) => Some(us)
    case Unparsable(_) => None
  }

  /** The records a reader of the file sees: a missing or undecodable file reads as `[]`. */
  function Load(q: QueueFile): seq<Entry> {
    if q.Entries? then q.items else []
  }

  /** The queue has work: it exists, decodes, and is not empty. */
  predicate HasWork(q: QueueFile) {
    q.Entries? && q.items != []
  }

  /** The record `_mark_segment_as_failed` appends for one unit: its number, and its text stripped. */
  function FailedRecord(unit: Entry): Entry {
    Entry(unit.count, Strip(unit.value))
  }

  /** The records `_mark_segment_as_failed` appends for the units of a segment, in order. */
  function FailedRecords(units: seq<Entry>): (rs: seq<Entry>)
    ensures |rs| == |units|
  {
    if units == [] then [] else FailedRecords(units[..|units| - 1]) + [FailedRecord(units[|units| - 1])]
  }

  lemma FailedRecordsSnoc(units: seq<Entry>, i: nat)
    requires i < |units|
    ensures FailedRecords(units[..i + 1]) == FailedRecords(units[..i]) + [FailedRecord(units[i])]
  {
    assert units[..i + 1][..i] == units[..i];
  }

  lemma {:induction false} FailedRecordsAt(units: seq<Entry>)
    ensures forall k :: 0 <= k < |units| ==> FailedRecords(units)[k] == FailedRecord(units[k])
  {
    if units != [] {
      var init := units[..|units| - 1];
      FailedRecordsAt(init);
      assert forall k :: 0 <= k < |init| ==> init[k] == units[k];
    }
  }

  /**
   * The queue after `_mark_segment_as_failed(segment)`. A missing file is
   * first created as `[]`; if the segment cannot be parsed the file is left
   * as it then is. Otherwise the old records (none, for an undecodable file)
   * are kept in order and one stripped record per unit of the segment is
   * appended, in the segment's order.
   */
  function MarkFailed(q: QueueFile, s: Segment): (r: QueueFile)
    ensures ParseSegment(s) == None ==>
      r == (if q == Absent then Entries([]) else q)
    ensures ParseSegment(s).Some? ==>
      var units := ParseSegment(s).value;
      var n := |Load(q)|;
      && r.Entries?
      && |r.items| == n + |units|
      && r.items[..n] == Load(q)
      && forall k :: 0 <= k < |units| ==> r.items[n + k] == FailedRecord(units[k])
  {
    match ParseSegment(s)
    case None => if q == Absent then Entries([]) else q
    case Some(units) =>
      FailedRecordsAt(units);
      Entries(Load(q) + FailedRecords(units))
  }

  /**
   * `_convert_failed_segments_to_json(entry)`: the single-unit request
   * `{count: value}`, which parses back to exactly that one record.
   */
  function ConvertFailedSegmentsToJson(e: Entry): (s: Segment)
    ensures ParseSegment(s) == Some([e])
  {
    Units([e])
  }

  lemma MarkFailedUnits(q: QueueFile, units: seq<Entry>)
    ensures MarkFailed(q, Units(units)) == Entries(Load(q) + FailedRecords(units))
  {
  }

  /** A record whose text is already stripped is written back unchanged. */
  lemma FailedRecordsStripped(e: Entry)
    requires e.value == Strip(e.value)
    ensures FailedRecords([e]) == [e]
  {
    assert [e][..0] == [];
  }

  /**
   * The formats of `_convert_failed_segments_to_json` and
   * `_mark_segment_as_failed` fit together: a record the latter wrote,
   * turned into a single-unit request and marked failed, is appended
   * unchanged. No path of the translator does this (the line-by-line tier
   * writes its exhausted entries back as they are); the lemma states that
   * the two formats agree, not a step the program takes.
   */
  lemma RequeueRoundTrip(q: QueueFile, count: int, value: string)
    ensures var e := Entry(count, Strip(value));
      MarkFailed(q, ConvertFailedSegmentsToJson(e)) == Entries(Load(q) + [e])
  {
    var e := Entry(count, Strip(value));
    StripIdempotent(value);
    FailedRecordsStripped(e);
    MarkFailedUnits(q, [e]);
  }

  /** Marking a segment failed never loses or reorders the records already in the queue. */
  lemma MarkFailedKeepsRecords(q: QueueFile, s: Segment)
    ensures Load(q) <= Load(MarkFailed(q, s))
  {
    var r := MarkFailed(q, s);
    if ParseSegment(s).Some? {
      assert Load(r)[..|Load(q)|] == Load(q);
    }
  }
}
