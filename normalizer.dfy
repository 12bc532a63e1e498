/** The result normalizer: turns the provider's per-item entries of a
    completed batch job into uniform entries. */
module Normalizer {
  import opened BatchTypes

  /** True when a raw entry reports a failed item. */
  predicate IsRawFailure(item: RawEntry)
  {
    item.tag == "failure"
  }

  /** True when some raw entry reports a failed item. */
  predicate AnyRawFailure(items: seq<RawEntry>)
  {
    exists i :: 0 <= i < |items| && IsRawFailure(items[i])
  }

  /** True when some normalized entry is tagged `failure` (the `some` check
      the classifier applies to the normalized entries). */
  predicate AnyFailure(entries: seq<Entry>)
  {
    exists i :: 0 <= i < |entries| && entries[i].tag == "failure"
  }

  /** Normalizes one raw entry under the job's mode. Reading the reason of a
      failure without its payload, or the id of a success without its
      payload, throws; that is the `Err` result. */
  function NormalizeEntry(item: RawEntry, mode: JobMode): (r: Result<Entry>)
    // a failure becomes {tag: 'failure', reason: <inner failure tag>}, whatever the mode
    ensures IsRawFailure(item) ==>
              (r.Ok? <==> item.failure.Some?) &&
              (r.Ok? ==> r.value == EntryError("failure", item.failure.value.tag))
    // copy and move read the `success` payload
    ensures !IsRawFailure(item) && mode != Delete ==>
              (r.Ok? <==> item.success.Some?) &&
              (r.Ok? ==> r.value.EntryOk? && SameFields(r.value.metadata, item.success.value))
    // delete reads the `metadata` payload
    ensures !IsRawFailure(item) && mode == Delete ==>
              (r.Ok? <==> item.metadata.Some?) &&
              (r.Ok? ==> r.value.EntryOk? && SameFields(r.value.metadata, item.metadata.value))
    // the outer tag and the metadata tag both repeat the raw tag
    ensures r.Ok? && !IsRawFailure(item) ==> r.value.tag == item.tag && r.value.metadata.tag == item.tag
    // a normalized entry is tagged `failure` exactly when its raw entry was
    ensures r.Ok? ==> (r.value.tag == "failure" <==> IsRawFailure(item))
    // the only errors are the missing payloads
    ensures r.Err? ==> r.error == (if IsRawFailure(item) then MissingFailurePayload else MissingSuccessPayload)
  {
    if IsRawFailure(item) then
      match item.failure
      case None => Err(MissingFailurePayload)
      case Some(f) => Ok(EntryError("failure", f.tag))
    else
      match RelevantPayload(item, mode)
      case None => Err(MissingSuccessPayload)
      case Some(m) => Ok(EntryOk(item.tag, Metadata(m.id, item.tag, m.name, m.pathLower, m.pathDisplay)))
  }

  /** Relocations report their result under `success`, deletions under
      `metadata`. */
  function RelevantPayload(item: RawEntry, mode: JobMode): (payload: Option<RawMetadata>)
  {
    match mode
    case Copy => item.success
    case Move => item.success
    case Delete => item.metadata
  }

  /** The metadata copies id, name and both paths from the payload. */
  predicate SameFields(md: Metadata, payload: RawMetadata)
  {
    md.id == payload.id && md.name == payload.name &&
    md.pathLower == payload.pathLower && md.pathDisplay == payload.pathDisplay
  }

  /** Normalizes every entry in order (a `map` over the entries); the first
      entry that throws aborts the whole normalization. */
  function Normalize(items: seq<RawEntry>, mode: JobMode): (r: Result<seq<Entry>>)
    // succeeds exactly when every entry normalizes
    ensures r.Ok? <==> forall i :: 0 <= i < |items| ==> NormalizeEntry(items[i], mode).Ok?
    // one output entry per raw entry, in the same order
    ensures r.Ok? ==> |r.value| == |items| &&
                      forall i :: 0 <= i < |items| ==> r.value[i] == NormalizeEntry(items[i], mode).value
    // an error is the error of the first entry that throws
    ensures r.Err? ==> exists i :: 0 <= i < |items| && NormalizeEntry(items[i], mode).Err? &&
                                   r.error == NormalizeEntry(items[i], mode).error &&
                                   forall j :: 0 <= j < i ==> NormalizeEntry(items[j], mode).Ok?
    decreases |items|
  {
    if items == [] then Ok([])
    else
      match NormalizeEntry(items[0], mode)
      case Err(e) => Err(e)
      case Ok(head) =>
        match Normalize(items[1..], mode)
        case Err(e) => Err(e)
        case Ok(tail) => Ok([head] + tail)
  }

  /** The normalized entries contain a failure exactly when the raw entries
      do, so the classifier's check on the normalized entries is a check on
      what the provider reported. */
  lemma NormalizedFailureIffRawFailure(items: seq<RawEntry>, mode: JobMode)
    requires Normalize(items, mode).Ok?
    ensures AnyFailure(Normalize(items, mode).value) <==> AnyRawFailure(items)
  {
  }
}
