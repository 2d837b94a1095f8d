/** The format filter of `get_available_formats` (downloader.py and
    kivy_downloader.py): from the tool's decoded format records to the map
    of offered resolutions. */
module Formats {
  import opened Wrappers
  import opened Text

  /** A JSON `fps` value: `null` or a number. */
  datatype Fps = NullFps | FpsValue(value: real)

  /** One decoded entry of `info["formats"]`; `None` is a missing key. For
      `vcodec`, `width` and `height` it is also a JSON `null`, which `f.get`
      treats the same way; `fps` keeps a `null` apart as `Some(NullFps)`, and
      `formatId` is read with `f["format_id"]`, so `None` there is the key
      that raises. */
  datatype FormatRecord = FormatRecord(
    formatId: Option<string>,
    vcodec: Option<string>,
    width: Option<int>,
    height: Option<int>,
    fps: Option<Fps>)

  /** `{"id": ..., "fps": ...}` stored for an offered resolution. */
  datatype FormatInfo = FormatInfo(id: string, fps: Fps)

  /** The keys of `target_res`. */
  const TargetLabels: set<string> := {"7680x4320", "3840x2160", "2560x1440", "1920x1080", "1280x720"}

  /** Python truthiness of an optional integer. */
  predicate Truthy(v: Option<int>) {
    v.Some? && v.value != 0
  }

  /** `f.get("vcodec") != "none" and f.get("height") and f.get("width")`. */
  predicate Qualifies(f: FormatRecord) {
    f.vcodec != Some("none") && Truthy(f.height) && Truthy(f.width)
  }

  /** `f"{f['width']}x{f['height']}"`. */
  function Label(f: FormatRecord): string
    requires Qualifies(f)
  {
    IntStr(f.width.value) + "x" + IntStr(f.height.value)
  }

  /** `f.get("fps", 0)`. */
  function FpsOf(f: FormatRecord): Fps {
    f.fps.GetOr(FpsValue(0.0))
  }

  /** The `KeyError` text raised by `f["format_id"]`. */
  const MissingId := "'format_id'"

  /** A record that the filter would store under `res`. */
  predicate Offers(f: FormatRecord, res: string) {
    Qualifies(f) && Label(f) == res
  }

  /** One iteration of the loop: a qualifying record with a wanted res not
      seen yet is stored, unless it has no `format_id`, which raises. */
  function AddRecord(m: map<string, FormatInfo>, f: FormatRecord): Result<map<string, FormatInfo>, string> {
    if Qualifies(f) && Label(f) in TargetLabels && Label(f) !in m then
      if f.formatId.None? then Failure(MissingId)
      else Success(m[Label(f) := FormatInfo(f.formatId.value, FpsOf(f))])
    else Success(m)
  }

  /** The whole loop over `formats`, in order; the first exception ends it. */
  function Filter(records: seq<FormatRecord>): Result<map<string, FormatInfo>, string> {
    if records == [] then Success(map[])
    else match Filter(records[..|records| - 1])
      case Failure(e) => Failure(e)
      case Success(m) => AddRecord(m, records[|records| - 1])
  }

  /** Index of the first record satisfying `p`, searched from the front. */
  function FirstWhere(records: seq<FormatRecord>, p: FormatRecord -> bool): (r: Option<nat>)
    ensures r.Some? ==> r.value < |records| && p(records[r.value])
    ensures r.Some? ==> forall j :: 0 <= j < r.value ==> !p(records[j])
    ensures r.None? ==> forall j :: 0 <= j < |records| ==> !p(records[j])
  {
    if records == [] then None
    else if p(records[0]) then Some(0)
    else match FirstWhere(records[1..], p)
      case None => None
      case Some(i) => Some(i + 1)
  }

  /** The first record offering `res`. */
  function FirstOffer(records: seq<FormatRecord>, res: string): Option<nat> {
    FirstWhere(records, g => Offers(g, res))
  }

  /** What the first offering record contributes. */
  predicate StoredFrom(info: FormatInfo, f: FormatRecord) {
    f.formatId == Some(info.id) && info.fps == FpsOf(f)
  }

  /** The independent description of the filter's answer: a wanted res is
      present exactly when some record offers it, and its entry comes from
      the earliest such record; it fails exactly when one of those earliest
      records has no `format_id`. */
  predicate Describes(records: seq<FormatRecord>, r: Result<map<string, FormatInfo>, string>) {
    && (r.Success? <==>
          forall l :: l in TargetLabels && FirstOffer(records, l).Some? ==>
                        records[FirstOffer(records, l).value].formatId.Some?)
    && (r.Failure? ==> r.error == MissingId)
    && (r.Success? ==>
          && (forall l :: l in r.value ==> l in TargetLabels && FirstOffer(records, l).Some?)
          && (forall l :: l in TargetLabels && FirstOffer(records, l).Some? ==>
                l in r.value && StoredFrom(r.value[l], records[FirstOffer(records, l).value])))
  }

  /** Adding one record at the end moves the first match only when nothing
      earlier matched. */
  lemma {:induction false} FirstWhereSnoc(records: seq<FormatRecord>, f: FormatRecord, p: FormatRecord -> bool)
    ensures FirstWhere(records + [f], p)
            == if FirstWhere(records, p).Some? then FirstWhere(records, p)
               else if p(f) then Some(|records|) else None
  {
    if records == [] {
      assert records + [f] == [f];
    } else {
      var rs := records + [f];
      assert rs[1..] == records[1..] + [f];
      assert rs[0] == records[0];
      FirstWhereSnoc(records[1..], f, p);
    }
  }

  /** Records after the first match do not move it. */
  lemma FirstWhereAppend(records: seq<FormatRecord>, more: seq<FormatRecord>, p: FormatRecord -> bool)
    requires FirstWhere(records, p).Some?
    ensures FirstWhere(records + more, p) == FirstWhere(records, p)
  {
    var i := FirstWhere(records, p).value;
    var rs := records + more;
    assert forall j :: 0 <= j <= i ==> rs[j] == records[j];
    var k := FirstWhere(rs, p);
    assert k.Some?;
  }

  lemma FirstOfferSnoc(records: seq<FormatRecord>, f: FormatRecord, res: string)
    ensures FirstOffer(records + [f], res)
            == if FirstOffer(records, res).Some? then FirstOffer(records, res)
               else if Offers(f, res) then Some(|records|) else None
  {
    FirstWhereSnoc(records, f, g => Offers(g, res));
  }

  /** With no exception, a label is stored exactly when it is wanted and
      offered, and its entry comes from the first offering record. */
  lemma {:induction false} FilterEntry(records: seq<FormatRecord>, res: string)
    requires Filter(records).Success?
    ensures res in Filter(records).value <==> res in TargetLabels && FirstOffer(records, res).Some?
    ensures res in Filter(records).value ==>
              StoredFrom(Filter(records).value[res], records[FirstOffer(records, res).value])
    decreases |records|
  {
    if records != [] {
      var init := records[..|records| - 1];
      var f := records[|records| - 1];
      assert init + [f] == records;
      FilterEntry(init, res);
      FirstOfferSnoc(init, f, res);
      if FirstOffer(init, res).Some? {
        assert records[FirstOffer(init, res).value] == init[FirstOffer(init, res).value];
      }
    }
  }

  /** The loop raises exactly when some wanted label's first offering
      record has no `format_id`, and the error is that `KeyError`. */
  lemma {:induction false} FilterFailure(records: seq<FormatRecord>)
    ensures Filter(records).Failure? ==>
              Filter(records).error == MissingId
              && exists res :: res in TargetLabels && FirstOffer(records, res).Some?
                               && records[FirstOffer(records, res).value].formatId.None?
    decreases |records|
  {
    if records != [] {
      var init := records[..|records| - 1];
      var f := records[|records| - 1];
      assert init + [f] == records;
      FilterFailure(init);
      if Filter(init).Failure? {
        var res :| res in TargetLabels && FirstOffer(init, res).Some? && init[FirstOffer(init, res).value].formatId.None?;
        FirstOfferSnoc(init, f, res);
        assert records[FirstOffer(init, res).value] == init[FirstOffer(init, res).value];
      } else if Filter(records).Failure? {
        var res := Label(f);
        FilterEntry(init, res);
        FirstOfferSnoc(init, f, res);
        assert records[|init|] == f;
      }
    }
  }

  /** The filter does what `Describes` says, for every list of records. */
  lemma FilterCorrect(records: seq<FormatRecord>)
    ensures Describes(records, Filter(records))
  {
    FilterFailure(records);
    if Filter(records).Success? {
      forall res ensures res in Filter(records).value <==> res in TargetLabels && FirstOffer(records, res).Some?
        ensures res in Filter(records).value ==>
                  StoredFrom(Filter(records).value[res], records[FirstOffer(records, res).value])
      {
        FilterEntry(records, res);
      }
    }
  }

  /** Every key is one of the five wanted labels, so there are at most five. */
  lemma FilterBounded(records: seq<FormatRecord>)
    requires Filter(records).Success?
    ensures Filter(records).value.Keys <= TargetLabels
    ensures |Filter(records).value| <= 5
  {
    FilterCorrect(records);
    var keys := Filter(records).value.Keys;
    assert keys <= TargetLabels;
    SubsetCard(keys, TargetLabels);
    assert |TargetLabels| == 5;
  }

  lemma SubsetCard(a: set<string>, b: set<string>)
    requires a <= b
    ensures |a| <= |b|
  {
    assert b == a + (b - a);
  }

  /** Later records never override: putting more records after a
      successful list keeps every entry already found. */
  lemma FirstSeenWins(records: seq<FormatRecord>, more: seq<FormatRecord>, l: string)
    requires Filter(records).Success? && Filter(records + more).Success?
    requires l in Filter(records).value
    ensures l in Filter(records + more).value
    ensures Filter(records + more).value[l] == Filter(records).value[l]
  {
    FilterEntry(records, l);
    FirstWhereAppend(records, more, g => Offers(g, l));
    FilterEntry(records + more, l);
    var i := FirstOffer(records, l).value;
    assert (records + more)[i] == records[i];
  }

  /** `for f in formats: ...` building `available_res` in place. */
  method FilterFormats(records: seq<FormatRecord>) returns (r: Result<map<string, FormatInfo>, string>)
    ensures r == Filter(records)
    ensures Describes(records, r)
  {
    var available: map<string, FormatInfo> := map[];
    var i := 0;
    while i < |records|
      invariant 0 <= i <= |records|
      invariant Filter(records[..i]) == Success(available)
    {
      var f := records[i];
      assert records[..i + 1] == records[..i] + [f];
      assert records[..i + 1][..i] == records[..i];
      if Qualifies(f) {
        var res := Label(f);
        if res in TargetLabels && res !in available {
          if f.formatId.None? {
            assert Filter(records[..i + 1]) == Failure(MissingId);
            FilterAbort(records, i + 1);
            FilterCorrect(records);
            return Failure(MissingId);
          }
          available := available[res := FormatInfo(f.formatId.value, FpsOf(f))];
        }
      }
      i := i + 1;
    }
    assert records[..i] == records;
    FilterCorrect(records);
    r := Success(available);
  }

  /** Once the loop has raised, the rest of the records do not matter. */
  lemma {:induction false} FilterAbort(records: seq<FormatRecord>, n: nat)
    requires n <= |records| && Filter(records[..n]).Failure?
    ensures Filter(records) == Filter(records[..n])
    decreases |records| - n
  {
    if n < |records| {
      var p := records[..n + 1];
      assert p[..n] == records[..n];
      FilterAbort(records, n + 1);
    } else {
      assert records[..n] == records;
    }
  }
}
