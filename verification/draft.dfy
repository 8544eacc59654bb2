/**
 * The transformation draft the image-transform panel edits, and the three
 * handlers that change it: a generic category or field update, a filter
 * toggle, and a reset to the initial draft.
 */
module Draft {
  import opened Options

  /** The resize inputs. Width and height hold the raw text of number inputs. */
  datatype ResizeDraft = ResizeDraft(width: string, height: string, maintainAspectRatio: bool)

  /** The crop inputs, all raw text of number inputs. */
  datatype CropDraft = CropDraft(width: string, height: string, x: string, y: string)

  datatype Draft = Draft(
    resize: ResizeDraft,
    crop: CropDraft,
    rotate: int,
    format: string,
    filters: map<string, bool>)

  /** The draft the panel starts from and returns to on reset. */
  const Initial := Draft(
    ResizeDraft("", "", true),
    CropDraft("", "", "", ""),
    0,
    "",
    map["grayscale" := false, "sepia" := false])

  /** The top-level keys of the draft. */
  datatype Category = Resize | Crop | Rotate | Format | Filters

  /** A value the generic handler can store: a whole category or one field of it. */
  datatype Value =
    | Text(text: string)
    | Number(number: int)
    | Flag(flag: bool)
    | ResizeFields(resize: ResizeDraft)
    | CropFields(crop: CropDraft)
    | FilterFlags(flags: map<string, bool>)

  /** The shape of a value, so that the draft's typing can be stated once. */
  datatype Kind = TextKind | NumberKind | FlagKind | ResizeKind | CropKind | FiltersKind

  function KindOf(v: Value): Kind {
    match v
    case Text(_) => TextKind
    case Number(_) => NumberKind
    case Flag(_) => FlagKind
    case ResizeFields(_) => ResizeKind
    case CropFields(_) => CropKind
    case FilterFlags(_) => FiltersKind
  }

  /** The kind of value each category holds. */
  function CategoryKind(c: Category): Kind {
    match c
    case Resize => ResizeKind
    case Crop => CropKind
    case Rotate => NumberKind
    case Format => TextKind
    case Filters => FiltersKind
  }

  /**
   * The kind of value a named field inside a category holds, or `None` when
   * the category has no such field. Any name is a field of the filter map.
   */
  function FieldKind(c: Category, field: string): Option<Kind> {
    match c
    case Resize =>
      if field == "width" || field == "height" then Some(TextKind)
      else if field == "maintainAspectRatio" then Some(FlagKind)
      else None
    case Crop =>
      if field == "width" || field == "height" || field == "x" || field == "y" then Some(TextKind)
      else None
    case Filters => Some(FlagKind)
    case _ => None
  }

  /** The whole value a category holds in a draft. */
  function Get(d: Draft, c: Category): (v: Value)
    ensures KindOf(v) == CategoryKind(c)
  {
    match c
    case Resize => ResizeFields(d.resize)
    case Crop => CropFields(d.crop)
    case Rotate => Number(d.rotate)
    case Format => Text(d.format)
    case Filters => FilterFlags(d.filters)
  }

  /** The value of a named field inside a category, or `None` when it has none. */
  function GetField(d: Draft, c: Category, field: string): (v: Option<Value>)
    ensures v.Some? ==> FieldKind(c, field) == Some(KindOf(v.value))
  {
    match c
    case Resize =>
      if field == "width" then Some(Text(d.resize.width))
      else if field == "height" then Some(Text(d.resize.height))
      else if field == "maintainAspectRatio" then Some(Flag(d.resize.maintainAspectRatio))
      else None
    case Crop =>
      if field == "width" then Some(Text(d.crop.width))
      else if field == "height" then Some(Text(d.crop.height))
      else if field == "x" then Some(Text(d.crop.x))
      else if field == "y" then Some(Text(d.crop.y))
      else None
    case Filters =>
      if field in d.filters then Some(Flag(d.filters[field])) else None
    case _ => None
  }

  /** Every category other than `c` holds the same value in both drafts. */
  predicate SameExcept(d: Draft, d': Draft, c: Category) {
    forall other: Category :: other != c ==> Get(d', other) == Get(d, other)
  }

  /**
   * The generic handler: with no field it replaces the whole category, with
   * a field it replaces that field inside the category. The result is `None`
   * when the stored value would not fit the draft's shape (a value of the
   * wrong kind, a field the category does not have, or a field written into
   * the rotation number or the format string).
   */
  function Change(d: Draft, c: Category, field: Option<string>, v: Value): (r: Option<Draft>)
    ensures field.None? ==> (r.Some? <==> KindOf(v) == CategoryKind(c))
    ensures field.Some? ==> (r.Some? <==> FieldKind(c, field.value) == Some(KindOf(v)))
    ensures r.Some? ==> SameExcept(d, r.value, c)
    ensures r.Some? && field.None? ==> Get(r.value, c) == v
    ensures r.Some? && field.Some? ==> GetField(r.value, c, field.value) == Some(v)
    ensures r.Some? && field.Some? ==>
      forall g :: g != field.value ==> GetField(r.value, c, g) == GetField(d, c, g)
  {
    match field
    case None =>
      (match (c, v)
       case (Resize, ResizeFields(rs)) => Some(d.(resize := rs))
       case (Crop, CropFields(cs)) => Some(d.(crop := cs))
       case (Rotate, Number(n)) => Some(d.(rotate := n))
       case (Format, Text(s)) => Some(d.(format := s))
       case (Filters, FilterFlags(m)) => Some(d.(filters := m))
       case _ => None)
    case Some(f) =>
      (match (c, v)
       case (Resize, Text(s)) =>
         if f == "width" then Some(d.(resize := d.resize.(width := s)))
         else if f == "height" then Some(d.(resize := d.resize.(height := s)))
         else None
       case (Resize, Flag(b)) =>
         if f == "maintainAspectRatio" then Some(d.(resize := d.resize.(maintainAspectRatio := b)))
         else None
       case (Crop, Text(s)) =>
         if f == "width" then Some(d.(crop := d.crop.(width := s)))
         else if f == "height" then Some(d.(crop := d.crop.(height := s)))
         else if f == "x" then Some(d.(crop := d.crop.(x := s)))
         else if f == "y" then Some(d.(crop := d.crop.(y := s)))
         else None
       case (Filters, Flag(b)) => Some(d.(filters := d.filters[f := b]))
       case _ => None)
  }

  /** Whether a filter is on; a name missing from the map reads as off (`undefined`). */
  predicate FilterOn(filters: map<string, bool>, name: string) {
    name in filters && filters[name]
  }

  /** The checkbox handler: store the negation of the filter's current value. */
  function ToggleFilter(d: Draft, name: string): (r: Draft)
    ensures r.resize == d.resize && r.crop == d.crop
    ensures r.rotate == d.rotate && r.format == d.format
    ensures r.filters.Keys == d.filters.Keys + {name}
    ensures FilterOn(r.filters, name) <==> !FilterOn(d.filters, name)
    ensures forall g :: g in d.filters && g != name ==> r.filters[g] == d.filters[g]
  {
    d.(filters := d.filters[name := !FilterOn(d.filters, name)])
  }

  /** The result the service returned for the last submission. */
  datatype TransformResult = TransformResult(
    fileSize: int,
    transformedUrl: string,
    transformedImageId: string,
    transformedFilename: string)

  /** The panel's state: the draft, the in-flight flag, the status line and the last result. */
  datatype Panel = Panel(
    draft: Draft,
    loading: bool,
    message: string,
    transformed: Option<TransformResult>)

  /** Every input of the draft is empty and every filter is off. */
  predicate Blank(d: Draft) {
    && d.resize.width == "" && d.resize.height == ""
    && d.crop == CropDraft("", "", "", "")
    && d.rotate == 0
    && d.format == ""
    && forall name :: name in d.filters ==> !d.filters[name]
  }

  /** The reset button: the initial draft, no message and no result. */
  function Reset(p: Panel): (r: Panel)
    ensures Blank(r.draft)
    ensures r.draft.resize.maintainAspectRatio
    ensures r.draft.filters.Keys == {"grayscale", "sepia"}
    ensures r.message == "" && r.transformed.None?
    ensures r.loading == p.loading
  {
    Panel(Initial, p.loading, "", None)
  }

  /**
   * Toggling the same filter twice gives back the draft exactly when the
   * filter was already in the map; a missing one comes back as `false`.
   */
  lemma ToggleTwiceRestores(d: Draft, name: string)
    ensures ToggleFilter(ToggleFilter(d, name), name) == d <==> name in d.filters
    ensures name !in d.filters ==>
      ToggleFilter(ToggleFilter(d, name), name) == d.(filters := d.filters[name := false])
  {
  }

  /** The toggle is the generic handler writing the negated flag into the filter map. */
  lemma ToggleIsFilterChange(d: Draft, name: string)
    ensures Change(d, Filters, Some(name), Flag(!FilterOn(d.filters, name))) == Some(ToggleFilter(d, name))
  {
  }
}
