/**
 The incremental marker map of the live operations page: a map of marker records and a layer of
 markers, patched in place on every update of the rows or of the selection.
 */
module LiveMarkers {
  import opened Seqs

  /** A number field of a status row: null, NaN or infinite, or finite. */
  datatype Num = Null | NonFinite | Finite(value: real)

  datatype StatusRow = StatusRow(
    id: int, name: string, lat: Num, lon: Num, lastMs: Option<int>, speedKmh: Num, ignition: Option<bool>)

  datatype OpsClass = Moving | Idle | Off | Stale | NoFix

  const STALE_MS := 15 * 60 * 1000
  const MOVING_SPEED_KMH := 5.0

  /** One class per row; the first match wins. */
  function ClassifyLiveRow(row: StatusRow, now: int): OpsClass {
    if row.lat.Null? || row.lon.Null? then NoFix
    else if row.lastMs.None? || now - row.lastMs.value > STALE_MS then Stale
    else if row.speedKmh.Finite? && row.speedKmh.value >= MOVING_SPEED_KMH then Moving
    else if row.ignition == Some(false) then Off
    else Idle
  }

  /** Heard of within the last 15 minutes. */
  ghost predicate HeardLately(row: StatusRow, now: int) {
    row.lastMs.Some? && now - row.lastMs.value <= 900000
  }

  ghost predicate Drives(row: StatusRow) {
    row.speedKmh.Finite? && row.speedKmh.value >= 5.0
  }

  /** When a row is of a class. */
  ghost predicate OfClass(c: OpsClass, row: StatusRow, now: int) {
    var fixed := !row.lat.Null? && !row.lon.Null?;
    match c
    case NoFix => !fixed
    case Stale => fixed && !HeardLately(row, now)
    case Moving => fixed && HeardLately(row, now) && Drives(row)
    case Off => fixed && HeardLately(row, now) && !Drives(row) && row.ignition == Some(false)
    case Idle => fixed && HeardLately(row, now) && !Drives(row) && row.ignition != Some(false)
  }

  /** A row is of exactly one class, the one it is given. */
  lemma ClassifiedRight(row: StatusRow, now: int)
    ensures forall c :: OfClass(c, row, now) <==> c == ClassifyLiveRow(row, now)
  {
    forall c ensures OfClass(c, row, now) <==> c == ClassifyLiveRow(row, now) {
      match c {
        case NoFix =>
        case Stale =>
        case Moving =>
        case Off =>
        case Idle =>
      }
    }
  }

  predicate Located(row: StatusRow) {
    row.lat.Finite? && row.lon.Finite?
  }

  // ------------------------------------------------------------------ icons

  /** The parts of a `divIcon` that can differ between markers. */
  datatype DivIcon = DivIcon(color: string, size: nat, tag: string)

  /** The colours of the theme in force during an update; a theme change replaces them. */
  type Palette = OpsClass -> string

  /** `iconCache`: it outlives every update and every theme. */
  type Icons = map<string, DivIcon>

  function ClassName(c: OpsClass): string {
    match c
    case Moving => "moving"
    case Idle => "idle"
    case Off => "off"
    case Stale => "stale"
    case NoFix => "noFix"
  }

  function ClassLabel(c: OpsClass): string {
    match c
    case Moving => "Moving"
    case Idle => "Idle"
    case Off => "Off"
    case Stale => "Stale"
    case NoFix => "No fix"
  }

  function ShortLabel(name: string): string {
    if |name| <= 28 then name else name[..28]
  }

  function Painted(color: string, c: OpsClass, selected: bool, name: string): DivIcon {
    DivIcon(color, if selected then 18 else 14,
            if selected then ShortLabel(name) + " · " + ClassLabel(c) else "")
  }

  /** The icon that would be built now. */
  function BuildIcon(palette: Palette, c: OpsClass, selected: bool, name: string): DivIcon {
    Painted(palette(c), c, selected, name)
  }

  function IconKey(c: OpsClass, selected: bool, name: string): string {
    ClassName(c) + (if selected then ":1:" else ":0:") + ShortLabel(name)
  }

  lemma ClassNamesApart(c: OpsClass, d: OpsClass)
    requires |ClassName(c)| == |ClassName(d)| && ClassName(c) == ClassName(d)
    ensures c == d
  {
    assert ClassName(c)[0] == ClassName(d)[0];
  }

  lemma ColonPosition(c: OpsClass, selected: bool, name: string, i: nat)
    requires i <= |ClassName(c)|
    ensures IconKey(c, selected, name)[i] == ':' <==> i == |ClassName(c)|
  {
    if i < |ClassName(c)| {
      assert IconKey(c, selected, name)[i] == ClassName(c)[i];
    }
  }

  /** The cache key tells apart everything an icon depends on except its colour. */
  lemma IconKeyDetermines(c: OpsClass, s: bool, n: string, d: OpsClass, t: bool, m: string)
    requires IconKey(c, s, n) == IconKey(d, t, m)
    ensures c == d && s == t && ShortLabel(n) == ShortLabel(m)
  {
    var k := if |ClassName(c)| < |ClassName(d)| then |ClassName(c)| else |ClassName(d)|;
    ColonPosition(c, s, n, k);
    ColonPosition(d, t, m, k);
    var key := IconKey(c, s, n);
    assert key[..k] == ClassName(c) && key[..k] == ClassName(d);
    ClassNamesApart(c, d);
    assert key[k + 1] == (if s then '1' else '0') == (if t then '1' else '0');
    assert key[k + 3..] == ShortLabel(n) && key[k + 3..] == ShortLabel(m);
  }

  /** Every cached icon is right for its key but for the colour, which is that of its own time. */
  ghost predicate IconsShaped(icons: Icons) {
    forall c, s, n :: IconKey(c, s, n) in icons ==> icons[IconKey(c, s, n)] == Painted(icons[IconKey(c, s, n)].color, c, s, n)
  }

  lemma ShapedWith(icons: Icons, color: string, c: OpsClass, selected: bool, name: string)
    requires IconsShaped(icons)
    ensures IconsShaped(icons[IconKey(c, selected, name) := Painted(color, c, selected, name)])
  {
    forall d, t, m | IconKey(d, t, m) == IconKey(c, selected, name)
      ensures Painted(color, c, selected, name) == Painted(color, d, t, m)
    {
      IconKeyDetermines(c, selected, name, d, t, m);
    }
  }

  // ------------------------------------------------------------------ reference: a full rebuild

  /** What a marker stands for. */
  datatype Attr = Attr(lat: real, lon: real, opsClass: OpsClass, selected: bool, name: string)

  function AttrOf(row: StatusRow, selectedId: Option<int>, now: int): Attr
    requires Located(row)
  {
    Attr(row.lat.value, row.lon.value, ClassifyLiveRow(row, now), selectedId == Some(row.id), row.name)
  }

  /** Draw the located rows, in order, on a map that already shows `start`. */
  function Overlay(start: map<int, Attr>, rows: seq<StatusRow>, selectedId: Option<int>, now: int): map<int, Attr> {
    if rows == [] then start
    else
      var row := rows[|rows| - 1];
      var before := Overlay(start, rows[..|rows| - 1], selectedId, now);
      if Located(row) then before[row.id := AttrOf(row, selectedId, now)] else before
  }

  /** The map drawn from nothing. */
  function Rebuild(rows: seq<StatusRow>, selectedId: Option<int>, now: int): map<int, Attr> {
    Overlay(map[], rows, selectedId, now)
  }

  /** What was shown before only survives for ids the rows do not draw. */
  lemma {:induction false} OverlayIsUnion(start: map<int, Attr>, rows: seq<StatusRow>, selectedId: Option<int>, now: int)
    ensures Overlay(start, rows, selectedId, now) == start + Rebuild(rows, selectedId, now)
  {
    if rows != [] {
      OverlayIsUnion(start, rows[..|rows| - 1], selectedId, now);
    }
  }

  /** The row's own position, class, selection and name. */
  ghost predicate TellsRow(a: Attr, row: StatusRow, selectedId: Option<int>, now: int) {
    && row.lat == Finite(a.lat) && row.lon == Finite(a.lon) && a.name == row.name
    && OfClass(a.opsClass, row, now) && (a.selected <==> selectedId == Some(row.id))
  }

  /** The row has finite coordinates, and no later row with its id has. */
  ghost predicate LastLocated(rows: seq<StatusRow>, i: nat)
    requires i < |rows|
  {
    && rows[i].lat.Finite? && rows[i].lon.Finite?
    && forall j :: i < j < |rows| && rows[j].lat.Finite? && rows[j].lon.Finite? ==> rows[j].id != rows[i].id
  }

  /** Some row with this id has finite coordinates. */
  ghost predicate SomeLocated(rows: seq<StatusRow>, id: int) {
    exists i :: 0 <= i < |rows| && rows[i].lat.Finite? && rows[i].lon.Finite? && rows[i].id == id
  }

  /** Only the ids of rows with finite coordinates have markers. */
  lemma {:induction false} RebuildKeys(rows: seq<StatusRow>, selectedId: Option<int>, now: int, id: int)
    ensures id in Rebuild(rows, selectedId, now) <==> SomeLocated(rows, id)
  {
    if rows != [] {
      var init := rows[..|rows| - 1];
      RebuildKeys(init, selectedId, now, id);
      assert forall i :: 0 <= i < |init| ==> init[i] == rows[i];
    }
  }

  /** Of several located rows with one id, the last one is shown. */
  lemma {:induction false} RebuildLast(rows: seq<StatusRow>, selectedId: Option<int>, now: int, i: nat)
    requires i < |rows| && LastLocated(rows, i)
    ensures rows[i].id in Rebuild(rows, selectedId, now)
    ensures TellsRow(Rebuild(rows, selectedId, now)[rows[i].id], rows[i], selectedId, now)
  {
    if i < |rows| - 1 {
      assert LastLocated(rows[..|rows| - 1], i);
      RebuildLast(rows[..|rows| - 1], selectedId, now, i);
    } else {
      ClassifiedRight(rows[i], now);
    }
  }

  lemma OverlayStep(start: map<int, Attr>, rows: seq<StatusRow>, selectedId: Option<int>, now: int, i: nat)
    requires i < |rows|
    ensures var before := Overlay(start, rows[..i], selectedId, now);
      Overlay(start, rows[..i + 1], selectedId, now)
      == if Located(rows[i]) then before[rows[i].id := AttrOf(rows[i], selectedId, now)] else before
  {
    assert rows[..i + 1][..i] == rows[..i];
  }

  // ------------------------------------------------------------------ reference: the icon cache

  function KeyFor(a: Attr): string {
    IconKey(a.opsClass, a.selected, a.name)
  }

  /** Drawing a record builds its icon unless the key is cached. */
  function Drawn(icons: Icons, palette: Palette, a: Attr): Icons {
    if KeyFor(a) in icons then icons else icons[KeyFor(a) := BuildIcon(palette, a.opsClass, a.selected, a.name)]
  }

  /** The cache after the located rows were drawn in order. */
  function IconsAfter(icons: Icons, palette: Palette, rows: seq<StatusRow>, selectedId: Option<int>, now: int): Icons {
    if rows == [] then icons
    else
      var row := rows[|rows| - 1];
      var before := IconsAfter(icons, palette, rows[..|rows| - 1], selectedId, now);
      if Located(row) then Drawn(before, palette, AttrOf(row, selectedId, now)) else before
  }

  /** What the layer shows for a record: always the cached icon of its key. */
  datatype Shown = Shown(lat: real, lon: real, icon: DivIcon, title: string, zIndexOffset: int)

  function Display(icons: Icons, a: Attr): Shown
    requires KeyFor(a) in icons
  {
    Shown(a.lat, a.lon, icons[KeyFor(a)], a.name, if a.selected then 600 else 0)
  }

  /**
   The layer shows the row: at its coordinates, with its name as title, raised and with a larger, labelled
   icon when it is selected.
   */
  ghost predicate ShowsRow(m: Shown, row: StatusRow, selectedId: Option<int>, now: int) {
    && row.lat == Finite(m.lat) && row.lon == Finite(m.lon) && m.title == row.name
    && (if selectedId == Some(row.id) then m.zIndexOffset == 600 && m.icon.size == 18 && TaggedAs(m.icon.tag, row, now)
        else m.zIndexOffset == 0 && m.icon.size == 14 && m.icon.tag == "")
  }

  /** The label of a selected row: its name, cut to 28 characters, and its class. */
  ghost predicate TaggedAs(tag: string, row: StatusRow, now: int) {
    exists c :: OfClass(c, row, now) && tag == (if |row.name| <= 28 then row.name else row.name[..28]) + " · " + ClassLabel(c)
  }

  lemma DisplayShows(icons: Icons, a: Attr, row: StatusRow, selectedId: Option<int>, now: int)
    requires IconsShaped(icons) && KeyFor(a) in icons && TellsRow(a, row, selectedId, now)
    ensures ShowsRow(Display(icons, a), row, selectedId, now)
  {
    assert icons[KeyFor(a)] == Painted(icons[KeyFor(a)].color, a.opsClass, a.selected, a.name);
  }

  /** What a rebuild that ignores the cache would show. */
  function Fresh(palette: Palette, a: Attr): Shown {
    Shown(a.lat, a.lon, BuildIcon(palette, a.opsClass, a.selected, a.name), a.name, if a.selected then 600 else 0)
  }

  // ------------------------------------------------------------------ the mutable map

  /** A Leaflet marker. */
  class Marker {
    ghost const id: int
    var shown: Shown

    constructor (ghost id: int, shown: Shown)
      ensures this.id == id && this.shown == shown
    {
      this.id, this.shown := id, shown;
    }
  }

  /** `MarkerMeta`: a marker and what it was last drawn from. */
  class Meta {
    const marker: Marker
    var attr: Attr

    constructor (marker: Marker, attr: Attr)
      ensures this.marker == marker && this.attr == attr
    {
      this.marker, this.attr := marker, attr;
    }

    method SetLatLng(lat: real, lon: real)
      modifies this, marker
      ensures attr == old(attr).(lat := lat, lon := lon)
      ensures marker.shown == old(marker.shown).(lat := lat, lon := lon)
    {
      marker.shown := marker.shown.(lat := lat, lon := lon);
      attr := attr.(lat := lat, lon := lon);
    }

    method Redraw(icon: DivIcon, opsClass: OpsClass, selected: bool, name: string)
      modifies this, marker
      ensures attr == old(attr).(opsClass := opsClass, selected := selected, name := name)
      ensures marker.shown
        == old(marker.shown).(icon := icon, zIndexOffset := if selected then 600 else 0, title := name)
    {
      marker.shown := marker.shown.(icon := icon);
      marker.shown := marker.shown.(zIndexOffset := if selected then 600 else 0);
      attr := attr.(opsClass := opsClass, selected := selected);
      marker.shown := marker.shown.(title := name);
      attr := attr.(name := name);
    }
  }

  class LiveOpsMap {
    var icons: Icons
    var metas: map<int, Meta>
    var layer: set<Marker>
    /** What is on the map, by id. */
    ghost var view: map<int, Attr>

    /** The layer holds exactly one marker per id. */
    ghost predicate Wired()
      reads this
    {
      && (forall id :: id in metas ==> metas[id].marker.id == id && metas[id].marker in layer)
      && (forall m :: m in layer ==> m.id in metas && metas[m.id].marker == m)
    }

    /** Every icon on the map is in the cache. */
    ghost predicate Stocked()
      reads this
    {
      IconsShaped(icons) && view.Keys == metas.Keys && forall id :: id in view ==> KeyFor(view[id]) in icons
    }

    /** Each record holds what `view` says for its id, and its marker shows it with the cached icon. */
    ghost predicate Valid()
      reads this, metas.Values, layer
    {
      && Stocked() && Wired()
      && (forall id :: id in metas ==> metas[id].attr == view[id])
      && (forall id :: id in metas ==> metas[id].marker.shown == Display(icons, view[id]))
    }

    /** Exactly the located rows have records and markers, the last of an id its own, and they show these rows. */
    ghost predicate Depicts(rows: seq<StatusRow>, selectedId: Option<int>, now: int)
      requires Wired()
      reads this, metas.Values, layer
    {
      && (forall id :: id in metas <==> SomeLocated(rows, id))
      && forall i :: 0 <= i < |rows| && LastLocated(rows, i) ==>
           && rows[i].id in metas
           && TellsRow(metas[rows[i].id].attr, rows[i], selectedId, now)
           && ShowsRow(metas[rows[i].id].marker.shown, rows[i], selectedId, now)
    }

    lemma RebuildDepicts(rows: seq<StatusRow>, selectedId: Option<int>, now: int)
      requires Valid() && view == Rebuild(rows, selectedId, now)
      ensures Depicts(rows, selectedId, now)
    {
      forall id ensures id in metas <==> SomeLocated(rows, id) {
        RebuildKeys(rows, selectedId, now, id);
        assert id in metas <==> id in view;
      }
      forall i | 0 <= i < |rows| && LastLocated(rows, i)
        ensures rows[i].id in metas && TellsRow(metas[rows[i].id].attr, rows[i], selectedId, now)
        ensures ShowsRow(metas[rows[i].id].marker.shown, rows[i], selectedId, now)
      {
        RebuildLast(rows, selectedId, now, i);
        DisplayShows(icons, view[rows[i].id], rows[i], selectedId, now);
      }
    }

    /** A new map on the cache earlier maps left. */
    constructor (icons: Icons)
      requires IconsShaped(icons)
      ensures Valid() && view == map[] && this.icons == icons
    {
      this.icons, metas, layer, view := icons, map[], {}, map[];
    }

    /** `markerIcon`: look the icon up by key, building it once. */
    method MarkerIcon(palette: Palette, a: Attr) returns (icon: DivIcon)
      requires IconsShaped(icons)
      modifies this`icons
      ensures IconsShaped(icons) && icons == Drawn(old(icons), palette, a) && icon == icons[KeyFor(a)]
    {
      var key := IconKey(a.opsClass, a.selected, a.name);
      if key !in icons {
        ShapedWith(icons, palette(a.opsClass), a.opsClass, a.selected, a.name);
        icons := icons[key := BuildIcon(palette, a.opsClass, a.selected, a.name)];
      }
      icon := icons[key];
    }

    /** A new marker and its record, not yet on the map. */
    method NewMarker(id: int, attr: Attr, palette: Palette) returns (meta: Meta)
      requires IconsShaped(icons)
      modifies this`icons
      ensures IconsShaped(icons) && icons == Drawn(old(icons), palette, attr)
      ensures fresh(meta) && fresh(meta.marker) && meta.marker.id == id
      ensures meta.attr == attr && meta.marker.shown == Display(icons, attr)
    {
      var icon := MarkerIcon(palette, attr);
      var marker := new Marker(id, Shown(attr.lat, attr.lon, icon, attr.name, if attr.selected then 600 else 0));
      meta := new Meta(marker, attr);
    }

    method AddMarker(id: int, attr: Attr, palette: Palette)
      requires Valid() && id !in metas
      modifies this
      ensures Valid() && view == old(view)[id := attr] && icons == Drawn(old(icons), palette, attr)
      ensures fresh(metas.Values - old(metas.Values)) && fresh(layer - old(layer))
    {
      var meta := NewMarker(id, attr, palette);
      layer := layer + {meta.marker};
      metas := metas[id := meta];
      view := view[id := attr];
      assert Stocked() && Wired();
    }

    /** Bring one existing marker and its record up to date, touching only what changed. */
    method Patch(existing: Meta, attr: Attr, palette: Palette)
      requires IconsShaped(icons) && KeyFor(existing.attr) in icons
      requires existing.marker.shown == Display(icons, existing.attr)
      modifies this`icons, existing, existing.marker
      ensures IconsShaped(icons) && icons == Drawn(old(icons), palette, attr)
      ensures existing.attr == attr && existing.marker.shown == Display(icons, attr)
    {
      if existing.attr.lat != attr.lat || existing.attr.lon != attr.lon {
        existing.SetLatLng(attr.lat, attr.lon);
      }
      if existing.attr.opsClass != attr.opsClass || existing.attr.selected != attr.selected
        || existing.attr.name != attr.name
      {
        var icon := MarkerIcon(palette, attr);
        existing.Redraw(icon, attr.opsClass, attr.selected, attr.name);
      }
    }

    method UpdateMarker(id: int, attr: Attr, palette: Palette)
      requires Valid() && id in metas
      modifies this`icons, this`view, metas[id], metas[id].marker
      ensures Valid() && view == old(view)[id := attr] && icons == Drawn(old(icons), palette, attr)
      ensures metas == old(metas) && layer == old(layer)
    {
      Patch(metas[id], attr, palette);
      view := view[id := attr];
    }

    method RemoveMarker(id: int)
      requires Valid() && id in metas
      modifies this
      ensures Valid() && metas == old(metas) - {id} && view == old(view) - {id} && icons == old(icons)
    {
      layer := layer - {metas[id].marker};
      metas := metas - {id};
      view := view - {id};
    }

    /** Put one row on the map, if it is located. */
    method PlaceRow(row: StatusRow, selectedId: Option<int>, now: int, palette: Palette)
      requires Valid()
      modifies this, metas.Values, layer
      ensures Valid()
      ensures view == if Located(row) then old(view)[row.id := AttrOf(row, selectedId, now)] else old(view)
      ensures icons == if Located(row) then Drawn(old(icons), palette, AttrOf(row, selectedId, now)) else old(icons)
      ensures fresh(metas.Values - old(metas.Values)) && fresh(layer - old(layer))
    {
      if Located(row) {
        var attr := AttrOf(row, selectedId, now);
        if row.id in metas {
          assert metas[row.id] in metas.Values;
          UpdateMarker(row.id, attr, palette);
        } else {
          AddMarker(row.id, attr, palette);
        }
      }
    }

    /** The first loop: add or patch a marker for every located row. */
    method PlaceRows(rows: seq<StatusRow>, selectedId: Option<int>, now: int, palette: Palette) returns (nextIds: set<int>)
      requires Valid()
      modifies this, metas.Values, layer
      ensures Valid() && view == Overlay(old(view), rows, selectedId, now)
      ensures icons == IconsAfter(old(icons), palette, rows, selectedId, now)
      ensures nextIds == Rebuild(rows, selectedId, now).Keys
      ensures fresh(metas.Values - old(metas.Values)) && fresh(layer - old(layer))
    {
      nextIds := {};
      for i := 0 to |rows|
        invariant Valid()
        invariant view == Overlay(old(view), rows[..i], selectedId, now)
        invariant icons == IconsAfter(old(icons), palette, rows[..i], selectedId, now)
        invariant nextIds == Rebuild(rows[..i], selectedId, now).Keys
        invariant fresh(metas.Values - old(metas.Values)) && fresh(layer - old(layer))
      {
        OverlayStep(old(view), rows, selectedId, now, i);
        OverlayStep(map[], rows, selectedId, now, i);
        IconsStep(old(icons), palette, rows, selectedId, now, i);
        PlaceRow(rows[i], selectedId, now, palette);
        nextIds := if Located(rows[i]) then nextIds + {rows[i].id} else nextIds;
      }
      assert rows[..|rows|] == rows;
    }

    static lemma RestrictedUnion(start: map<int, Attr>, rebuilt: map<int, Attr>, drawn: map<int, Attr>, now: map<int, Attr>)
      requires drawn == start + rebuilt && Restricted(drawn, now, rebuilt.Keys)
      ensures now == rebuilt
    {
      forall id | true ensures id in now <==> id in rebuilt {
        assert id in drawn <==> id in start || id in rebuilt;
      }
      assert now.Keys == rebuilt.Keys;
      assert forall id :: id in now ==> now[id] == rebuilt[id];
    }

    /** What remains when only the ids of `kept` stay. */
    static ghost predicate Restricted(before: map<int, Attr>, now: map<int, Attr>, kept: set<int>) {
      (forall id :: id in now <==> id in before && id in kept) && forall id :: id in now ==> now[id] == before[id]
    }

    /** The second loop: drop the markers whose id was not seen. */
    method Sweep(nextIds: set<int>)
      requires Valid()
      modifies this
      ensures Valid() && Restricted(old(view), view, nextIds) && icons == old(icons)
      ensures metas.Values <= old(metas.Values) && layer <= old(layer)
    {
      var left := metas.Keys;
      while left != {}
        invariant Valid() && left <= metas.Keys
        invariant Restricted(old(view), view, nextIds + left) && icons == old(icons)
        invariant metas.Values <= old(metas.Values) && layer <= old(layer)
        decreases |left|
      {
        var id;
        id, left := Take(left);
        if id !in nextIds {
          RemoveMarker(id);
        }
      }
    }

    /**
     The effect of one update. Whatever was on the map before, records and layer end as a rebuild
     from the latest rows through the same icon cache would leave them.
     */
    method Reconcile(rows: seq<StatusRow>, selectedId: Option<int>, now: int, palette: Palette)
      requires Valid()
      modifies this, metas.Values, layer
      ensures Valid() && view == Rebuild(rows, selectedId, now) && Depicts(rows, selectedId, now)
      ensures icons == IconsAfter(old(icons), palette, rows, selectedId, now)
      ensures fresh(metas.Values - old(metas.Values)) && fresh(layer - old(layer))
    {
      var nextIds := PlaceRows(rows, selectedId, now, palette);
      OverlayIsUnion(old(view), rows, selectedId, now);
      ghost var drawn := view;
      Sweep(nextIds);
      RestrictedUnion(old(view), Rebuild(rows, selectedId, now), drawn, view);
      RebuildDepicts(rows, selectedId, now);
    }
  }

  // ------------------------------------------------------------------ whole runs and theme changes

  /** One update of the map, under the theme then in force. */
  datatype Update = Update(rows: seq<StatusRow>, selectedId: Option<int>, now: int, palette: Palette)

  function RebuiltBy(u: Update): map<int, Attr> {
    Rebuild(u.rows, u.selectedId, u.now)
  }

  /** The icon cache after a run of updates. */
  function IconsOf(updates: seq<Update>): Icons {
    if updates == [] then map[]
    else
      var u := updates[|updates| - 1];
      IconsAfter(IconsOf(updates[..|updates| - 1]), u.palette, u.rows, u.selectedId, u.now)
  }

  lemma IconsStep(icons: Icons, palette: Palette, rows: seq<StatusRow>, selectedId: Option<int>, now: int, i: nat)
    requires i < |rows|
    ensures var before := IconsAfter(icons, palette, rows[..i], selectedId, now);
      IconsAfter(icons, palette, rows[..i + 1], selectedId, now)
      == if Located(rows[i]) then Drawn(before, palette, AttrOf(rows[i], selectedId, now)) else before
  {
    assert rows[..i + 1][..i] == rows[..i];
  }

  /** Some row of the update is drawn with this icon key. */
  ghost predicate Draws(u: Update, key: string) {
    SomeDraws(u.rows, u.selectedId, u.now, key)
  }

  ghost predicate SomeDraws(rows: seq<StatusRow>, selectedId: Option<int>, now: int, key: string) {
    exists i :: 0 <= i < |rows| && DrawsAt(rows, selectedId, now, i, key)
  }

  ghost predicate DrawsAt(rows: seq<StatusRow>, selectedId: Option<int>, now: int, i: nat, key: string)
    requires i < |rows|
  {
    Located(rows[i]) && KeyFor(AttrOf(rows[i], selectedId, now)) == key
  }

  lemma DrawnAtKey(icons: Icons, palette: Palette, a: Attr, c: OpsClass, selected: bool, name: string)
    ensures var key, after := IconKey(c, selected, name), Drawn(icons, palette, a);
      && (key in icons ==> key in after && after[key] == icons[key])
      && (key !in icons ==> (key in after <==> KeyFor(a) == key))
      && (key !in icons && key in after ==> after[key] == BuildIcon(palette, c, selected, name))
  {
    if KeyFor(a) == IconKey(c, selected, name) {
      IconKeyDetermines(c, selected, name, a.opsClass, a.selected, a.name);
    }
  }

  lemma DrawsSnoc(rows: seq<StatusRow>, selectedId: Option<int>, now: int, key: string)
    requires rows != []
    ensures SomeDraws(rows, selectedId, now, key)
      <==> DrawsAt(rows, selectedId, now, |rows| - 1, key) || SomeDraws(rows[..|rows| - 1], selectedId, now, key)
  {
    var init := rows[..|rows| - 1];
    forall i | 0 <= i < |init| ensures DrawsAt(init, selectedId, now, i, key) <==> DrawsAt(rows, selectedId, now, i, key) {
      assert init[i] == rows[i];
    }
  }

  /** An update keeps every cached icon and builds, in its own colours, the icons of the keys it draws first. */
  lemma {:induction false} IconsGrow(icons: Icons, palette: Palette, rows: seq<StatusRow>, selectedId: Option<int>, now: int,
                                     c: OpsClass, selected: bool, name: string)
    ensures var key, after := IconKey(c, selected, name), IconsAfter(icons, palette, rows, selectedId, now);
      && (key in icons ==> key in after && after[key] == icons[key])
      && (key !in icons ==> (key in after <==> SomeDraws(rows, selectedId, now, key)))
      && (key !in icons && key in after ==> after[key] == BuildIcon(palette, c, selected, name))
  {
    if rows != [] {
      var init, row := rows[..|rows| - 1], rows[|rows| - 1];
      IconsGrow(icons, palette, init, selectedId, now, c, selected, name);
      DrawsSnoc(rows, selectedId, now, IconKey(c, selected, name));
      if Located(row) {
        DrawnAtKey(IconsAfter(icons, palette, init, selectedId, now), palette, AttrOf(row, selectedId, now), c, selected, name);
      }
    }
  }

  /** The first update that draws a key. */
  ghost predicate FirstDraws(updates: seq<Update>, i: nat, key: string) {
    i < |updates| && Draws(updates[i], key) && forall j :: 0 <= j < i ==> !Draws(updates[j], key)
  }

  /** The icon of a key is there once some update has drawn the key, in the colours of the first that did. */
  ghost predicate FirstColours(updates: seq<Update>, icons: Icons, c: OpsClass, selected: bool, name: string) {
    var key := IconKey(c, selected, name);
    && (key in icons <==> exists i :: 0 <= i < |updates| && Draws(updates[i], key))
    && forall i: nat :: FirstDraws(updates, i, key) && key in icons ==>
         icons[key] == BuildIcon(updates[i].palette, c, selected, name)
  }

  /** What an update does to the icon of a key. */
  ghost predicate Grown(before: Icons, after: Icons, u: Update, c: OpsClass, selected: bool, name: string) {
    var key := IconKey(c, selected, name);
    && (key in before ==> key in after && after[key] == before[key])
    && (key !in before ==> (key in after <==> Draws(u, key)))
    && (key !in before && key in after ==> after[key] == BuildIcon(u.palette, c, selected, name))
  }

  lemma FirstColoursSnoc(updates: seq<Update>, before: Icons, after: Icons, c: OpsClass, selected: bool, name: string)
    requires updates != [] && FirstColours(updates[..|updates| - 1], before, c, selected, name)
    requires Grown(before, after, updates[|updates| - 1], c, selected, name)
    ensures FirstColours(updates, after, c, selected, name)
  {
    FirstDrawsSnoc(updates, IconKey(c, selected, name));
  }

  /** A cached icon has the colours of the update that drew its key first, whatever came after. */
  lemma {:induction false} IconOfFirstDraw(updates: seq<Update>, c: OpsClass, selected: bool, name: string)
    ensures FirstColours(updates, IconsOf(updates), c, selected, name)
  {
    if updates != [] {
      var init, u := updates[..|updates| - 1], updates[|updates| - 1];
      IconOfFirstDraw(init, c, selected, name);
      IconsGrow(IconsOf(init), u.palette, u.rows, u.selectedId, u.now, c, selected, name);
      FirstColoursSnoc(updates, IconsOf(init), IconsOf(updates), c, selected, name);
    }
  }

  /** Which update draws a key first does not change later. */
  lemma FirstDrawsSnoc(updates: seq<Update>, key: string)
    requires updates != []
    ensures var init := updates[..|updates| - 1];
      && (forall i: nat :: FirstDraws(init, i, key) ==> FirstDraws(updates, i, key))
      && (forall i: nat :: FirstDraws(updates, i, key) ==> FirstDraws(init, i, key) || i == |init|)
      && ((exists i :: 0 <= i < |updates| && Draws(updates[i], key))
          <==> (exists i :: 0 <= i < |init| && Draws(init[i], key)) || Draws(updates[|init|], key))
      && (forall i: nat :: FirstDraws(updates, i, key) && i == |init| ==> !(exists j :: 0 <= j < |init| && Draws(init[j], key)))
  {
    var init := updates[..|updates| - 1];
    assert forall i :: 0 <= i < |init| ==> init[i] == updates[i];
  }

  /** A run of updates on one map that starts with an empty cache. */
  method RunUpdates(updates: seq<Update>) returns (live: LiveOpsMap)
    ensures fresh(live) && fresh(live.metas.Values) && fresh(live.layer) && live.Valid() && live.icons == IconsOf(updates)
    ensures live.view == if updates == [] then map[] else RebuiltBy(updates[|updates| - 1])
    ensures updates != [] ==>
      var last := updates[|updates| - 1]; live.Depicts(last.rows, last.selectedId, last.now)
  {
    live := new LiveOpsMap(map[]);
    for i := 0 to |updates|
      invariant fresh(live) && fresh(live.metas.Values) && fresh(live.layer) && live.Valid()
      invariant live.icons == IconsOf(updates[..i])
      invariant live.view == if i == 0 then map[] else RebuiltBy(updates[i - 1])
    {
      assert updates[..i + 1][..i] == updates[..i];
      live.Reconcile(updates[i].rows, updates[i].selectedId, updates[i].now, updates[i].palette);
    }
    assert updates[..|updates|] == updates;
    if updates != [] {
      var last := updates[|updates| - 1];
      live.RebuildDepicts(last.rows, last.selectedId, last.now);
    }
  }

  /**
   After a run of updates, a marker shows the icon that would be built now exactly when its class has
   the colour it had when its icon key was first drawn.
   */
  lemma IconCurrentIff(updates: seq<Update>, i: nat, a: Attr)
    requires updates != [] && FirstDraws(updates, i, KeyFor(a))
    ensures KeyFor(a) in IconsOf(updates)
    ensures var last := updates[|updates| - 1];
      Display(IconsOf(updates), a) == Fresh(last.palette, a) <==> updates[i].palette(a.opsClass) == last.palette(a.opsClass)
  {
    IconOfFirstDraw(updates, a.opsClass, a.selected, a.name);
  }

  lemma FirstDrawExists(updates: seq<Update>, key: string) returns (i: nat)
    requires updates != [] && Draws(updates[|updates| - 1], key)
    ensures FirstDraws(updates, i, key)
  {
    i := 0;
    while !Draws(updates[i], key)
      invariant i < |updates| && forall j :: 0 <= j < i ==> !Draws(updates[j], key)
      decreases |updates| - i
    {
      i := i + 1;
    }
  }

  lemma {:induction false} RebuiltIsDrawn(rows: seq<StatusRow>, selectedId: Option<int>, now: int, id: int)
    requires id in Rebuild(rows, selectedId, now)
    ensures SomeDraws(rows, selectedId, now, KeyFor(Rebuild(rows, selectedId, now)[id]))
  {
    DrawsSnoc(rows, selectedId, now, KeyFor(Rebuild(rows, selectedId, now)[id]));
    if !(Located(rows[|rows| - 1]) && rows[|rows| - 1].id == id) {
      RebuiltIsDrawn(rows[..|rows| - 1], selectedId, now, id);
    }
  }

  /** Every marker's class has the colour it had when the marker's icon key was first drawn. */
  ghost predicate ColoursKept(updates: seq<Update>)
    requires updates != []
  {
    var last := updates[|updates| - 1];
    forall id, i: nat :: id in RebuiltBy(last) && FirstDraws(updates, i, KeyFor(RebuiltBy(last)[id])) ==>
      updates[i].palette(RebuiltBy(last)[id].opsClass) == last.palette(RebuiltBy(last)[id].opsClass)
  }

  /** The whole map equals a rebuild from scratch, icon cache included, exactly when no shown class changed colour. */
  lemma MapCurrentIff(updates: seq<Update>)
    requires updates != []
    ensures var last := updates[|updates| - 1];
      && (forall id :: id in RebuiltBy(last) ==> KeyFor(RebuiltBy(last)[id]) in IconsOf(updates))
      && ((forall id :: id in RebuiltBy(last) ==>
             Display(IconsOf(updates), RebuiltBy(last)[id]) == Fresh(last.palette, RebuiltBy(last)[id]))
          <==> ColoursKept(updates))
  {
    var last := updates[|updates| - 1];
    forall id | id in RebuiltBy(last) ensures Draws(last, KeyFor(RebuiltBy(last)[id])) {
      RebuiltIsDrawn(last.rows, last.selectedId, last.now, id);
    }
    forall id | id in RebuiltBy(last) ensures KeyFor(RebuiltBy(last)[id]) in IconsOf(updates) {
      var i := FirstDrawExists(updates, KeyFor(RebuiltBy(last)[id]));
      IconCurrentIff(updates, i, RebuiltBy(last)[id]);
    }
    forall id | id in RebuiltBy(last)
      ensures exists i: nat :: FirstDraws(updates, i, KeyFor(RebuiltBy(last)[id]))
      ensures forall i: nat :: FirstDraws(updates, i, KeyFor(RebuiltBy(last)[id])) ==>
        (Display(IconsOf(updates), RebuiltBy(last)[id]) == Fresh(last.palette, RebuiltBy(last)[id])
         <==> updates[i].palette(RebuiltBy(last)[id].opsClass) == last.palette(RebuiltBy(last)[id].opsClass))
    {
      var first := FirstDrawExists(updates, KeyFor(RebuiltBy(last)[id]));
      forall i: nat | FirstDraws(updates, i, KeyFor(RebuiltBy(last)[id]))
        ensures Display(IconsOf(updates), RebuiltBy(last)[id]) == Fresh(last.palette, RebuiltBy(last)[id])
          <==> updates[i].palette(RebuiltBy(last)[id].opsClass) == last.palette(RebuiltBy(last)[id].opsClass)
      {
        IconCurrentIff(updates, i, RebuiltBy(last)[id]);
      }
    }
  }

  /** A row drawn before and after a theme change keeps the colour of the old theme. */
  lemma ThemeChangeKeepsOldColour(row: StatusRow, now: int, before: Palette, after: Palette)
    requires Located(row) && before(ClassifyLiveRow(row, now)) != after(ClassifyLiveRow(row, now))
    ensures var updates := [Update([row], None, now, before), Update([row], None, now, after)];
      var a := AttrOf(row, None, now);
      && RebuiltBy(updates[1]) == map[row.id := a] && KeyFor(a) in IconsOf(updates)
      && Display(IconsOf(updates), a).icon.color == before(a.opsClass)
      && Display(IconsOf(updates), a) != Fresh(after, a)
  {
    var updates := [Update([row], None, now, before), Update([row], None, now, after)];
    var a := AttrOf(row, None, now);
    assert [row][..0] == [];
    assert Rebuild([row], None, now) == Rebuild([], None, now)[row.id := a];
    assert RebuiltBy(updates[1]) == map[row.id := a];
    assert DrawsAt([row], None, now, 0, KeyFor(a));
    assert Draws(updates[0], KeyFor(a)) && FirstDraws(updates, 0, KeyFor(a));
    IconOfFirstDraw(updates, a.opsClass, a.selected, a.name);
    IconCurrentIff(updates, 0, a);
  }
}
