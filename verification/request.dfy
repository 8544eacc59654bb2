/**
 * The minimal request `applyTransformations` builds from the draft before
 * posting it: every part whose inputs are empty or switched off is left out.
 */
module Request {
  import opened Options
  import opened Decimal
  import opened Draft

  /** `None` is `undefined`, which JSON serialisation drops. */
  datatype ResizeRequest = ResizeRequest(width: Option<int>, height: Option<int>)

  /** `None` is `NaN`, which JSON serialisation writes as `null`. */
  datatype CropRequest = CropRequest(width: Option<int>, height: Option<int>, x: int, y: int)

  /** Each `None` part is absent from the request object. */
  datatype Request = Request(
    resize: Option<ResizeRequest>,
    crop: Option<CropRequest>,
    rotate: Option<int>,
    format: Option<string>,
    filters: Option<map<string, bool>>)

  const Empty := Request(None, None, None, None, None)

  /** JavaScript truthiness of a string: only the empty string is falsy. */
  predicate Truthy(s: string) {
    s != ""
  }

  /** `parseInt(s) || undefined`: `NaN` and zero are falsy. */
  function OrUndefined(s: string): (n: Option<int>)
    ensures n.Some? <==> ParseInt(s).Some? && ParseInt(s).value != 0
    ensures n.Some? ==> n == ParseInt(s)
  {
    var p := ParseInt(s);
    if p.Some? && p.value != 0 then p else None
  }

  /** `parseInt(s) || 0`: `NaN` and zero both give 0. */
  function OrZero(s: string): (n: int)
    ensures n == ParseInt(s).GetOr(0)
  {
    var p := ParseInt(s);
    if p.Some? && p.value != 0 then p.value else 0
  }

  /** The names of the filters that are switched on. */
  function EnabledNames(filters: map<string, bool>): set<string> {
    set name | name in filters && filters[name]
  }

  /** Only the enabled filters, each mapped to `true`. */
  function EnabledFilters(filters: map<string, bool>): (m: map<string, bool>)
    ensures m.Keys == EnabledNames(filters)
    ensures forall name :: name in m ==> m[name]
  {
    map name | name in filters && filters[name] :: true
  }

  /** The request `applyTransformations` posts for a draft. */
  function Normalize(d: Draft): (r: Request)
    ensures r.resize.Some? <==> Truthy(d.resize.width) || Truthy(d.resize.height)
    ensures r.resize.Some? ==> r.resize.value == ResizeRequest(OrUndefined(d.resize.width), OrUndefined(d.resize.height))
    ensures r.crop.Some? <==> Truthy(d.crop.width) && Truthy(d.crop.height)
    ensures r.crop.Some? ==>
      && r.crop.value.width == ParseInt(d.crop.width)
      && r.crop.value.height == ParseInt(d.crop.height)
      && r.crop.value.x == ParseInt(d.crop.x).GetOr(0)
      && r.crop.value.y == ParseInt(d.crop.y).GetOr(0)
    ensures r.rotate.Some? <==> d.rotate != 0
    ensures r.rotate.Some? ==> r.rotate.value == d.rotate
    ensures r.format.Some? <==> d.format != ""
    ensures r.format.Some? ==> r.format.value == d.format
    ensures r.filters.Some? <==> exists name :: name in d.filters && d.filters[name]
    ensures r.filters.Some? ==>
      r.filters.value.Keys == EnabledNames(d.filters) && forall name :: name in r.filters.value ==> r.filters.value[name]
  {
    var resize :=
      if Truthy(d.resize.width) || Truthy(d.resize.height)
      then Some(ResizeRequest(OrUndefined(d.resize.width), OrUndefined(d.resize.height)))
      else None;
    var crop :=
      if Truthy(d.crop.width) && Truthy(d.crop.height)
      then Some(CropRequest(ParseInt(d.crop.width), ParseInt(d.crop.height), OrZero(d.crop.x), OrZero(d.crop.y)))
      else None;
    var rotate := if d.rotate != 0 then Some(d.rotate) else None;
    var format := if Truthy(d.format) then Some(d.format) else None;
    var enabled := EnabledFilters(d.filters);
    var filters := if |enabled| > 0 then Some(enabled) else None;
    assert |enabled| > 0 <==> exists name :: name in d.filters && d.filters[name] by {
      if name :| name in d.filters && d.filters[name] {
        assert name in enabled.Keys;
      }
    }
    Request(resize, crop, rotate, format, filters)
  }

  /**
   * The request is empty exactly when both resize inputs are empty, one of
   * the crop sizes is empty, the rotation is 0, no format is chosen and no
   * filter is on.
   */
  lemma NormalizeEmptyIff(d: Draft)
    ensures Normalize(d) == Empty <==>
      && d.resize.width == "" && d.resize.height == ""
      && (d.crop.width == "" || d.crop.height == "")
      && d.rotate == 0
      && d.format == ""
      && EnabledNames(d.filters) == {}
  {
  }

  /** A draft with every input empty and every filter off posts the empty request. */
  lemma BlankNormalizesEmpty(d: Draft)
    requires Blank(d)
    ensures Normalize(d) == Empty
  {
  }

  /** The panel's initial draft, and the draft after a reset, post the empty request. */
  lemma ResetNormalizesEmpty(p: Panel)
    ensures Normalize(Initial) == Empty
    ensures Normalize(Reset(p).draft) == Empty
  {
  }

  /** The aspect-ratio flag is never sent, so it cannot change the request. */
  lemma AspectRatioNotSent(d: Draft, keep: bool)
    ensures Normalize(d.(resize := d.resize.(maintainAspectRatio := keep))) == Normalize(d)
  {
  }

  /** A generic update of one category leaves every other part of the request as it was. */
  lemma ChangeOnlyAffectsItsPart(d: Draft, c: Category, field: Option<string>, v: Value)
    requires Change(d, c, field, v).Some?
    ensures var before, after := Normalize(d), Normalize(Change(d, c, field, v).value);
      && (c != Resize ==> after.resize == before.resize)
      && (c != Crop ==> after.crop == before.crop)
      && (c != Rotate ==> after.rotate == before.rotate)
      && (c != Format ==> after.format == before.format)
      && (c != Filters ==> after.filters == before.filters)
  {
    var d' := Change(d, c, field, v).value;
    assert Get(d', Resize) == Get(d, Resize) || c == Resize;
    assert Get(d', Crop) == Get(d, Crop) || c == Crop;
    assert Get(d', Rotate) == Get(d, Rotate) || c == Rotate;
    assert Get(d', Format) == Get(d, Format) || c == Format;
    assert Get(d', Filters) == Get(d, Filters) || c == Filters;
  }

  /**
   * A filter toggle changes only the filters part of the request, adding the
   * filter's name when it was off and removing it when it was on.
   */
  lemma ToggleOnlyAffectsFilters(d: Draft, name: string)
    ensures var before, after := Normalize(d), Normalize(ToggleFilter(d, name));
      && after.resize == before.resize && after.crop == before.crop
      && after.rotate == before.rotate && after.format == before.format
    ensures EnabledNames(ToggleFilter(d, name).filters) ==
      if FilterOn(d.filters, name) then EnabledNames(d.filters) - {name}
      else EnabledNames(d.filters) + {name}
  {
  }

  /** Toggling twice always posts the same request, even when the draft itself differs. */
  lemma ToggleTwiceSameRequest(d: Draft, name: string)
    ensures Normalize(ToggleFilter(ToggleFilter(d, name), name)) == Normalize(d)
  {
    var twice := ToggleFilter(ToggleFilter(d, name), name);
    assert EnabledNames(twice.filters) == EnabledNames(d.filters);
    assert EnabledFilters(twice.filters) == EnabledFilters(d.filters);
  }

  /**
   * The requests the normaliser can produce: no zero resize size, no zero
   * rotation, no empty format, and a filter map that is non-empty and all `true`.
   */
  predicate WellFormed(r: Request) {
    && (r.resize.Some? ==> r.resize.value.width != Some(0) && r.resize.value.height != Some(0))
    && r.rotate != Some(0)
    && r.format != Some("")
    && (r.filters.Some? ==>
          |r.filters.value| > 0 && forall name :: name in r.filters.value ==> r.filters.value[name])
  }

  /** Every request the normaliser produces is well-formed. */
  lemma NormalizeWellFormed(d: Draft)
    ensures WellFormed(Normalize(d))
  {
  }

  /** Text for a size input that reads back as the given size, or as nothing at all. */
  function SizeText(n: Option<int>, otherMissing: bool): string {
    match n
    case Some(v) => IntToDecimal(v)
    case None => if otherMissing then "0" else ""
  }

  /**
   * Text for a crop size that reads back as the given size, or as `NaN`.
   * A number input can hold ".5", and `parseInt(".5")` is `NaN`.
   */
  function CropSizeText(n: Option<int>): string {
    match n
    case Some(v) => IntToDecimal(v)
    case None => ".5"
  }

  /** A draft the panel posts as the given request. */
  function DraftFor(r: Request): (d: Draft)
    ensures d.resize.maintainAspectRatio
  {
    Draft(
      match r.resize
      case None => ResizeDraft("", "", true)
      case Some(rs) => ResizeDraft(SizeText(rs.width, rs.height.None?), SizeText(rs.height, false), true),
      match r.crop
      case None => CropDraft("", "", "", "")
      case Some(cr) => CropDraft(CropSizeText(cr.width), CropSizeText(cr.height), IntToDecimal(cr.x), IntToDecimal(cr.y)),
      r.rotate.GetOr(0),
      r.format.GetOr(""),
      r.filters.GetOr(map[]))
  }

  /** `parseInt(IntToDecimal(n)) || undefined` gives back every non-zero size. */
  lemma SizeTextReadsBack(n: Option<int>, otherMissing: bool)
    requires n != Some(0)
    ensures OrUndefined(SizeText(n, otherMissing)) == n
    ensures Truthy(SizeText(n, otherMissing)) <==> n.Some? || otherMissing
  {
    if n.Some? {
      ParseIntRoundTrip(n.value);
    } else if otherMissing {
      assert ParseInt("0") == Some(0) by {
        assert Unsigned("0") == "0";
        assert DigitRunLength("0") == 1;
        assert "0"[..1] == "0";
        assert DigitsValue("0"[..0]) == 0;
      }
    } else {
      assert !Truthy(SizeText(n, otherMissing));
    }
  }

  lemma CropSizeTextReadsBack(n: Option<int>)
    ensures ParseInt(CropSizeText(n)) == n
    ensures Truthy(CropSizeText(n))
  {
    if n.Some? {
      ParseIntRoundTrip(n.value);
    } else {
      assert Unsigned(".5") == ".5";
    }
  }

  /**
   * Every well-formed request is posted for some draft: the normaliser's
   * image is exactly the well-formed requests.
   */
  lemma {:induction false} NormalizeDraftFor(r: Request)
    requires WellFormed(r)
    ensures Normalize(DraftFor(r)) == r
  {
    var d := DraftFor(r);
    if r.resize.Some? {
      var rs := r.resize.value;
      SizeTextReadsBack(rs.width, rs.height.None?);
      SizeTextReadsBack(rs.height, false);
    }
    if r.crop.Some? {
      var cr := r.crop.value;
      CropSizeTextReadsBack(cr.width);
      CropSizeTextReadsBack(cr.height);
      ParseIntRoundTrip(cr.x);
      ParseIntRoundTrip(cr.y);
    }
    if r.filters.Some? {
      var m := r.filters.value;
      assert EnabledFilters(m) == m;
      var name :| name in m;
      assert name in d.filters && d.filters[name];
    }
  }

  /** The draft that differs from the initial one only in the given parts. */
  function InitialWith(resize: ResizeDraft, crop: CropDraft, rotate: int, filters: map<string, bool>): Draft {
    Initial.(resize := resize, crop := crop, rotate := rotate, filters := filters)
  }

  /** A lone resize width is sent with no height (parsing "300" gives 300). */
  lemma ExampleResizeWidthOnly()
    ensures Normalize(InitialWith(ResizeDraft("300", "", true), Initial.crop, 0, Initial.filters))
      == Empty.(resize := Some(ResizeRequest(Some(300), None)))
  {
    ParseIntRoundTrip(300);
    assert IntToDecimal(300) == "300";
    assert EnabledFilters(Initial.filters) == map[];
  }

  /** A crop missing its height is dropped, whatever its offsets say. */
  lemma ExampleCropWithoutHeight()
    ensures Normalize(InitialWith(Initial.resize, CropDraft("100", "", "5", "5"), 0, Initial.filters)) == Empty
  {
  }

  /** An empty crop offset is sent as 0. */
  lemma ExampleCropEmptyOffset()
    ensures Normalize(InitialWith(Initial.resize, CropDraft("200", "150", "", "10"), 0, Initial.filters))
      == Empty.(crop := Some(CropRequest(Some(200), Some(150), 0, 10)))
  {
    CropSizesParse();
    var d := InitialWith(Initial.resize, CropDraft("200", "150", "", "10"), 0, Initial.filters);
    assert Normalize(d).crop == Some(CropRequest(Some(200), Some(150), 0, 10));
    assert EnabledFilters(Initial.filters) == map[];
  }

  lemma CropSizesParse()
    ensures ParseInt("200") == Some(200) && ParseInt("150") == Some(150)
    ensures OrZero("") == 0 && OrZero("10") == 10
  {
    ParseIntRoundTrip(200);
    assert IntToDecimal(200) == "200";
    ParseIntRoundTrip(150);
    assert IntToDecimal(150) == "150";
    ParseIntRoundTrip(10);
    assert IntToDecimal(10) == "10";
  }

  /** A half-turn is sent; a disabled filter is absent rather than `false`. */
  lemma ExampleRotateAndOneFilter()
    ensures Normalize(InitialWith(Initial.resize, Initial.crop, 180, map["grayscale" := true, "sepia" := false]))
      == Empty.(rotate := Some(180), filters := Some(map["grayscale" := true]))
  {
    var oneOn := map["grayscale" := true, "sepia" := false];
    assert EnabledFilters(oneOn) == map["grayscale" := true];
  }

  /**
   * Where JavaScript truthiness decides: a resize width of "0" still sends
   * a resize, with neither size, and a crop of "0" by "0" is sent as is.
   */
  lemma ExampleZeroSizes()
    ensures Normalize(InitialWith(ResizeDraft("0", "", true), Initial.crop, 0, Initial.filters))
      == Empty.(resize := Some(ResizeRequest(None, None)))
    ensures Normalize(InitialWith(Initial.resize, CropDraft("0", "0", "", ""), 0, Initial.filters))
      == Empty.(crop := Some(CropRequest(Some(0), Some(0), 0, 0)))
  {
  }
}
