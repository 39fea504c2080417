/**
 * `TileLayerOffline` (`src/TileLayerOffline.js`, and its copy in
 * `dist/bundle.js`): a Leaflet tile layer that serves stored tiles when it
 * has them, and resolves the tiles of an area into `{key, url}` descriptors
 * for the save controller.
 *
 * Leaflet's url templating, the projection of bounds to integer tile
 * bounds, `geojson-bbox`, `tilebelt` and turf are foreign; they are the
 * fields of a `Host` value the layer is given.
 */
module TileLayer {
  import opened Js
  import opened GeoJson
  import Shapes
  import BundleShapes

  /** Which copy of the plugin the code comes from: `src/` or the built `dist/bundle.js`. */
  datatype Build = Src | Dist

  /** A tile descriptor `{key, url}`: the storage key and the network url of one tile. */
  datatype TileDescriptor = TileDescriptor(key: string, url: string)

  /** Geographic bounds (`L.latLngBounds`), in degrees. */
  datatype LatLngBounds = LatLngBounds(south: real, west: real, north: real, east: real)

  /** Integer tile bounds, inclusive at both ends (`L.bounds` of floored tile points). */
  datatype TileBounds = TileBounds(minX: int, minY: int, maxX: int, maxY: int)

  /** A tile position `(x, y)`. */
  type Cell = (int, int)

  /** The argument of `getTileUrlsInShapes`: one GeoJSON object, or an array of them. */
  datatype ShapesArg = One(shape: Shape) | Many(shapes: seq<Shape>)

  /** A stored tile blob, known only by identity. */
  datatype Blob = Blob(id: nat)

  /** The foreign functions the layer calls. */
  datatype Host = Host(
    tileUrl: (string, int, int) -> string,     // `getTileUrl` under a url template, for tile (x, y)
    tileBounds: (LatLngBounds, int) -> TileBounds, // `project` and `floor` of the corners at a zoom
    shapeBounds: (Shape, int) -> TileBounds,   // `geoBox`, `project` and `floor` of a shape at a zoom
    tileShape: (int, int, int) -> Shape,       // `tileToGeoJSON([x, y, z])`
    inside: PointInPolygon,                    // turf's point-in-polygon test
    swapped: PointInPolygon)                   // the swapped-argument turf call of `src/Shapes.js`

  /** `subdomains['0']`: the first subdomain; on an empty array it is `undefined`, which concatenates as text. */
  function FirstSubdomain(subdomains: seq<string>): string
  {
    if subdomains == [] then "undefined" else subdomains[0]
  }

  /**
   * `_getStorageKey`: where the template has `{s}` at an offset p > 0, the
   * url with its character at p replaced by the first subdomain; otherwise,
   * or when that text is empty, the url itself.
   */
  function StorageKey(template: string, subdomains: seq<string>, url: string): string
  {
    var p := IndexOf(template, "{s}");
    var key := if p > 0 then Substring(url, 0, p) + FirstSubdomain(subdomains) + Substring(url, p + 1, |url|) else "";
    if key != "" then key else url
  }

  /**
   * The key case by case: the url when `{s}` is missing or leads the
   * template; otherwise the url with the one character at p rewritten to the
   * first subdomain (past the end of the url, the subdomain is appended).
   */
  lemma StorageKeyRewritesOneCharacter(template: string, subdomains: seq<string>, url: string)
    ensures var p := IndexOf(template, "{s}");
            && (p <= 0 ==> StorageKey(template, subdomains, url) == url)
            && (0 < p < |url| ==>
                  StorageKey(template, subdomains, url) == url[..p] + FirstSubdomain(subdomains) + url[p + 1..])
            && (0 < p && |url| <= p ==> StorageKey(template, subdomains, url) == url + FirstSubdomain(subdomains))
  {
    var p := IndexOf(template, "{s}");
    if 0 < p < |url| {
      assert Substring(url, 0, p) == url[..p];
      assert url[..p] != "" by { assert url[..p][0] == url[0]; }
    } else if 0 < p {
      assert Substring(url, 0, p) == url;
      if url == "" {
        assert Substring(url, p + 1, |url|) == "";
      }
    }
  }

  /**
   * Keys do not depend on the subdomain a url was served from: two urls
   * that differ only in the character at the `{s}` offset share a key.
   */
  lemma SubdomainVariantsShareKey(template: string, subdomains: seq<string>, u: string, v: string)
    requires 0 < IndexOf(template, "{s}") < |u|
    requires |u| == |v|
    requires var p := IndexOf(template, "{s}"); u[..p] == v[..p] && u[p + 1..] == v[p + 1..]
    ensures StorageKey(template, subdomains, u) == StorageKey(template, subdomains, v)
  {
    StorageKeyRewritesOneCharacter(template, subdomains, u);
    StorageKeyRewritesOneCharacter(template, subdomains, v);
  }

  /**
   * A key is its own key when the first subdomain is one character and the
   * `{s}` offset falls inside the url: the rewrite puts the subdomain back at
   * the same offset.
   */
  lemma StorageKeyIdempotent(template: string, subdomains: seq<string>, url: string)
    requires |FirstSubdomain(subdomains)| == 1
    requires IndexOf(template, "{s}") < |url|
    ensures StorageKey(template, subdomains, StorageKey(template, subdomains, url))
         == StorageKey(template, subdomains, url)
  {
    var p := IndexOf(template, "{s}");
    var key := StorageKey(template, subdomains, url);
    StorageKeyRewritesOneCharacter(template, subdomains, url);
    StorageKeyRewritesOneCharacter(template, subdomains, key);
    if 0 < p {
      var s := FirstSubdomain(subdomains);
      assert key[..p] == url[..p];
      assert key[p + 1..] == url[p + 1..];
      assert key[..p] + s + key[p + 1..] == key;
    }
  }

  /** `_url.replace('{z}', zoom)`: the template with its first `{z}` replaced by the zoom level. */
  function ZoomTemplate(template: string, zoom: int): string
  {
    ReplaceFirst(template, "{z}", IntToString(zoom))
  }

  /** The template changes only at its first `{z}`, and not at all when it has none. */
  lemma ZoomTemplateReplacesFirstZ(template: string, zoom: int)
    ensures (forall i :: !OccursAt(template, "{z}", i)) ==> ZoomTemplate(template, zoom) == template
    ensures forall p :: OccursAt(template, "{z}", p) && (forall i :: 0 <= i < p ==> !OccursAt(template, "{z}", i)) ==>
              ZoomTemplate(template, zoom) == template[..p] + IntToString(zoom) + template[p + 3..]
  {
    forall p | OccursAt(template, "{z}", p) && (forall i :: 0 <= i < p ==> !OccursAt(template, "{z}", i))
      ensures IndexOf(template, "{z}") == p
    {
      var q := IndexOf(template, "{z}");
      assert q >= 0;
      assert !(q < p) && !(p < q);
    }
  }

  /** Where the template has no `{s}`, the zoom template has none at offset `i` either. */
  lemma NoSubdomainAt(template: string, zoom: int, i: int)
    requires 0 <= IndexOf(template, "{z}")
    requires IndexOf(template, "{s}") < 0
    ensures !OccursAt(ZoomTemplate(template, zoom), "{s}", i)
  {
    var pz, n := IndexOf(template, "{z}"), |IntToString(zoom)|;
    var zt := ZoomTemplate(template, zoom);
    if 0 <= i && i + 3 <= |zt| {
      if i + 3 <= pz {
        ZoomTemplateSliceBefore(template, zoom, i);
        assert zt[i..i + 3] != "{s}" by { assert !OccursAt(template, "{s}", i); }
      } else if pz + n <= i {
        ZoomTemplateSliceAfter(template, zoom, i);
        assert zt[i..i + 3] != "{s}" by { assert !OccursAt(template, "{s}", i - n + 3); }
      } else {
        DigitsNotSubdomain(template, zoom, i);
      }
    }
  }

  /** Three characters before the first `{z}` are the template's own. */
  lemma ZoomTemplateSliceBefore(template: string, zoom: int, i: nat)
    requires 0 <= IndexOf(template, "{z}") && i + 3 <= IndexOf(template, "{z}")
    ensures ZoomTemplate(template, zoom)[i..i + 3] == template[i..i + 3]
  {
    var pz := IndexOf(template, "{z}");
    var zt, head := ZoomTemplate(template, zoom), template[..pz] + IntToString(zoom);
    assert zt == head + template[pz + 3..];
    SliceOfPrefix(zt, |head|, i, i + 3);
    SliceOfPrefix(template, pz, i, i + 3);
  }

  /** Three characters after the zoom level's digits are the template's, shifted. */
  lemma ZoomTemplateSliceAfter(template: string, zoom: int, i: nat)
    requires 0 <= IndexOf(template, "{z}")
    requires IndexOf(template, "{z}") + |IntToString(zoom)| <= i && i + 3 <= |ZoomTemplate(template, zoom)|
    ensures var j := i - |IntToString(zoom)| + 3;
            ZoomTemplate(template, zoom)[i..i + 3] == template[j..j + 3]
  {
    var pz := IndexOf(template, "{z}");
    var zt, head := ZoomTemplate(template, zoom), template[..pz] + IntToString(zoom);
    assert zt == head + template[pz + 3..];
    SliceOfSuffix(head, template[pz + 3..], i, i + 3);
  }

  /** Three characters that reach into the zoom level's digits cannot spell `{s}`. */
  lemma DigitsNotSubdomain(template: string, zoom: int, i: int)
    requires 0 <= IndexOf(template, "{z}")
    requires var pz := IndexOf(template, "{z}");
             pz < i + 3 && i < pz + |IntToString(zoom)| && 0 <= i && i + 3 <= |ZoomTemplate(template, zoom)|
    ensures !OccursAt(ZoomTemplate(template, zoom), "{s}", i)
  {
    var pz, digits := IndexOf(template, "{z}"), IntToString(zoom);
    var k := if pz <= i then i else if pz <= i + 1 then i + 1 else i + 2;
    ZoomTemplateDigitAt(template, zoom, k);
    IntToStringIsNumeral(zoom);
    var c := digits[k - pz];
    assert c == '-' || '0' <= c <= '9';
    NotOccursAt(ZoomTemplate(template, zoom), "{s}", i, k - i);
  }

  /** Where the zoom level is written in, the zoom template holds its digits. */
  lemma ZoomTemplateDigitAt(template: string, zoom: int, k: int)
    requires 0 <= IndexOf(template, "{z}") <= k < IndexOf(template, "{z}") + |IntToString(zoom)|
    ensures ZoomTemplate(template, zoom)[k] == IntToString(zoom)[k - IndexOf(template, "{z}")]
  {
    var pz := IndexOf(template, "{z}");
    var zt, head := ZoomTemplate(template, zoom), template[..pz] + IntToString(zoom);
    assert zt == head + template[pz + 3..];
    assert zt[k] == head[k];
  }

  /**
   * When `{s}` comes before the first `{z}` (or the template has no `{s}`),
   * writing the zoom level in leaves the offset of `{s}` where it was: the
   * two placeholders cannot overlap, and the digits of the zoom level
   * cannot spell `{s}`.
   */
  lemma ZoomTemplateKeepsSubdomainOffset(template: string, zoom: int)
    requires 0 <= IndexOf(template, "{z}")
    requires IndexOf(template, "{s}") < IndexOf(template, "{z}")
    ensures IndexOf(ZoomTemplate(template, zoom), "{s}") == IndexOf(template, "{s}")
  {
    var zt := ZoomTemplate(template, zoom);
    if 0 <= IndexOf(template, "{s}") {
      EarlierSubdomainKept(template, zoom);
    } else {
      forall i ensures !OccursAt(zt, "{s}", i) {
        NoSubdomainAt(template, zoom, i);
      }
    }
  }

  /** A `{s}` before a `{z}` ends before it: the two cannot overlap. */
  lemma PlaceholdersApart(template: string, ps: int, pz: int)
    requires OccursAt(template, "{s}", ps) && OccursAt(template, "{z}", pz) && ps < pz
    ensures ps + 3 <= pz
  {
    CharOfOccurrence(template, "{z}", pz, 0);
    CharOfOccurrence(template, "{s}", ps, 1);
    CharOfOccurrence(template, "{s}", ps, 2);
  }

  /** So a `{s}` before the first `{z}` lies in the text the zoom template shares with the template. */
  lemma EarlierSubdomainKept(template: string, zoom: int)
    requires 0 <= IndexOf(template, "{s}") < IndexOf(template, "{z}")
    ensures IndexOf(ZoomTemplate(template, zoom), "{s}") == IndexOf(template, "{s}")
  {
    var pz, ps := IndexOf(template, "{z}"), IndexOf(template, "{s}");
    PlaceholdersApart(template, ps, pz);
    ZoomTemplatePrefix(template, zoom);
    IndexOfSharedPrefix(ZoomTemplate(template, zoom), template, "{s}", pz);
  }

  /** The zoom template keeps the text before the first `{z}`. */
  lemma ZoomTemplatePrefix(template: string, zoom: int)
    requires 0 <= IndexOf(template, "{z}")
    ensures var pz := IndexOf(template, "{z}");
            pz <= |ZoomTemplate(template, zoom)| && ZoomTemplate(template, zoom)[..pz] == template[..pz]
  {
    var pz := IndexOf(template, "{z}");
    var zt, head := ZoomTemplate(template, zoom), template[..pz] + IntToString(zoom);
    assert zt == head + template[pz + 3..];
    SliceOfPrefix(zt, |head|, 0, pz);
  }

  /**
   * The key a batch writes for a url is the key a tile for that url reads,
   * wherever the template has no `{z}`, or its `{s}` (if any) comes before
   * its first `{z}`: writing the zoom level in then leaves the `{s}` offset
   * as it was.
   */
  lemma ZoomTemplateKeepsKey(template: string, subdomains: seq<string>, zoom: int, url: string)
    requires IndexOf(template, "{z}") < 0 || IndexOf(template, "{s}") < IndexOf(template, "{z}")
    ensures StorageKey(ZoomTemplate(template, zoom), subdomains, url) == StorageKey(template, subdomains, url)
  {
    if 0 <= IndexOf(template, "{z}") {
      ZoomTemplateKeepsSubdomainOffset(template, zoom);
    }
  }

  /** The cells (x, y) with x0 <= x < xEnd, by increasing x. */
  function RowCells(y: int, x0: int, xEnd: int): seq<Cell>
    decreases xEnd - x0
  {
    if xEnd <= x0 then [] else RowCells(y, x0, xEnd - 1) + [(xEnd - 1, y)]
  }

  /** The rows b.minY <= y < yEnd of the bounds, each row by increasing x. */
  function GridRows(b: TileBounds, yEnd: int): seq<Cell>
    decreases yEnd - b.minY
  {
    if yEnd <= b.minY then [] else GridRows(b, yEnd - 1) + RowCells(yEnd - 1, b.minX, b.maxX + 1)
  }

  /** The tiles of inclusive bounds in row-major order: rows outer, columns inner. */
  function Grid(b: TileBounds): seq<Cell>
  {
    GridRows(b, b.maxY + 1)
  }

  function Width(b: TileBounds): nat
  {
    if b.minX <= b.maxX then b.maxX - b.minX + 1 else 0
  }

  function Height(b: TileBounds): nat
  {
    if b.minY <= b.maxY then b.maxY - b.minY + 1 else 0
  }

  lemma {:induction false} RowCellsSizeAndContents(y: int, x0: int, xEnd: int)
    ensures |RowCells(y, x0, xEnd)| == if x0 <= xEnd then xEnd - x0 else 0
    ensures forall c :: c in RowCells(y, x0, xEnd) <==> c.1 == y && x0 <= c.0 < xEnd
    decreases xEnd - x0
  {
    if x0 < xEnd {
      RowCellsSizeAndContents(y, x0, xEnd - 1);
    }
  }

  lemma {:induction false} GridRowsSizeAndContents(b: TileBounds, yEnd: int)
    ensures |GridRows(b, yEnd)| == if b.minY <= yEnd then (yEnd - b.minY) * Width(b) else 0
    ensures forall c :: c in GridRows(b, yEnd) <==> b.minY <= c.1 < yEnd && b.minX <= c.0 <= b.maxX
    decreases yEnd - b.minY
  {
    if b.minY < yEnd {
      GridRowsSizeAndContents(b, yEnd - 1);
      RowCellsSizeAndContents(yEnd - 1, b.minX, b.maxX + 1);
      assert (yEnd - b.minY) * Width(b) == (yEnd - 1 - b.minY) * Width(b) + Width(b);
    }
  }

  /**
   * `getTileUrls` enumerates (maxX - minX + 1) * (maxY - minY + 1) tiles,
   * none when the bounds are empty, and exactly the tiles within the bounds.
   */
  lemma GridSizeAndContents(b: TileBounds)
    ensures |Grid(b)| == Width(b) * Height(b)
    ensures forall c :: c in Grid(b) <==> b.minX <= c.0 <= b.maxX && b.minY <= c.1 <= b.maxY
  {
    GridRowsSizeAndContents(b, b.maxY + 1);
  }

  /** Row-major order: an earlier row, or the same row and an earlier column. */
  predicate RowMajorBefore(a: Cell, c: Cell)
  {
    a.1 < c.1 || (a.1 == c.1 && a.0 < c.0)
  }

  predicate StrictlyRowMajor(cells: seq<Cell>)
  {
    forall k, l :: 0 <= k < l < |cells| ==> RowMajorBefore(cells[k], cells[l])
  }

  lemma ConcatRowMajor(a: seq<Cell>, c: seq<Cell>)
    requires StrictlyRowMajor(a) && StrictlyRowMajor(c)
    requires forall x, y :: x in a && y in c ==> RowMajorBefore(x, y)
    ensures StrictlyRowMajor(a + c)
  {
    forall k, l | 0 <= k < l < |a + c| ensures RowMajorBefore((a + c)[k], (a + c)[l]) {
      if l < |a| {
      } else if k < |a| {
        assert (a + c)[k] in a && (a + c)[l] in c;
      } else {
        assert (a + c)[k] == c[k - |a|] && (a + c)[l] == c[l - |a|];
      }
    }
  }

  lemma {:induction false} RowCellsRowMajor(y: int, x0: int, xEnd: int)
    ensures StrictlyRowMajor(RowCells(y, x0, xEnd))
    decreases xEnd - x0
  {
    if x0 < xEnd {
      RowCellsRowMajor(y, x0, xEnd - 1);
      RowCellsSizeAndContents(y, x0, xEnd - 1);
      ConcatRowMajor(RowCells(y, x0, xEnd - 1), [(xEnd - 1, y)]);
    }
  }

  lemma {:induction false} GridRowsRowMajor(b: TileBounds, yEnd: int)
    ensures StrictlyRowMajor(GridRows(b, yEnd))
    decreases yEnd - b.minY
  {
    if b.minY < yEnd {
      GridRowsRowMajor(b, yEnd - 1);
      RowCellsRowMajor(yEnd - 1, b.minX, b.maxX + 1);
      GridRowsSizeAndContents(b, yEnd - 1);
      RowCellsSizeAndContents(yEnd - 1, b.minX, b.maxX + 1);
      ConcatRowMajor(GridRows(b, yEnd - 1), RowCells(yEnd - 1, b.minX, b.maxX + 1));
    }
  }

  /** The enumeration is strictly row-major, so no tile is listed twice. */
  lemma GridRowMajorNoRepeats(b: TileBounds)
    ensures StrictlyRowMajor(Grid(b))
    ensures forall k, l :: 0 <= k < l < |Grid(b)| ==> Grid(b)[k] != Grid(b)[l]
  {
    GridRowsRowMajor(b, b.maxY + 1);
  }

  /** The descriptor `{key: _getStorageKey(url), url}` of one tile under a template. */
  function Descriptor(host: Host, template: string, subdomains: seq<string>, c: Cell): (d: TileDescriptor)
    ensures d.key == StorageKey(template, subdomains, d.url)
  {
    var url := host.tileUrl(template, c.0, c.1);
    TileDescriptor(StorageKey(template, subdomains, url), url)
  }

  /** The descriptors of the given cells, in order. */
  function Descriptors(host: Host, template: string, subdomains: seq<string>, cells: seq<Cell>): seq<TileDescriptor>
  {
    if cells == [] then []
    else Descriptors(host, template, subdomains, cells[..|cells| - 1])
         + [Descriptor(host, template, subdomains, cells[|cells| - 1])]
  }

  lemma DescriptorsSnoc(host: Host, template: string, subdomains: seq<string>, cells: seq<Cell>, c: Cell)
    ensures Descriptors(host, template, subdomains, cells + [c])
         == Descriptors(host, template, subdomains, cells) + [Descriptor(host, template, subdomains, c)]
  {
    assert (cells + [c])[..|cells|] == cells;
  }

  /** The descriptors of concatenated cells are the descriptors of each part, concatenated. */
  lemma {:induction false} DescriptorsConcat(host: Host, template: string, subdomains: seq<string>, a: seq<Cell>, b: seq<Cell>)
    ensures Descriptors(host, template, subdomains, a + b)
         == Descriptors(host, template, subdomains, a) + Descriptors(host, template, subdomains, b)
  {
    if b == [] {
      assert a + b == a;
    } else {
      var b', c := b[..|b| - 1], b[|b| - 1];
      assert b == b' + [c];
      AppendAssoc(a, b', [c]);
      DescriptorsSnoc(host, template, subdomains, a + b', c);
      DescriptorsSnoc(host, template, subdomains, b', c);
      DescriptorsConcat(host, template, subdomains, a, b');
    }
  }

  /**
   * One descriptor per cell, in the cells' order, each keyed by
   * `_getStorageKey` of its own url.
   */
  lemma {:induction false} DescriptorsOnePerCell(host: Host, template: string, subdomains: seq<string>, cells: seq<Cell>)
    ensures |Descriptors(host, template, subdomains, cells)| == |cells|
    ensures forall k :: 0 <= k < |cells| ==>
              Descriptors(host, template, subdomains, cells)[k] == Descriptor(host, template, subdomains, cells[k])
    ensures forall d :: d in Descriptors(host, template, subdomains, cells) ==> d.key == StorageKey(template, subdomains, d.url)
  {
    if cells != [] {
      DescriptorsOnePerCell(host, template, subdomains, cells[..|cells| - 1]);
    }
  }

  lemma RowCellsSnoc(y: int, x0: int, x: int)
    requires x0 <= x
    ensures RowCells(y, x0, x + 1) == RowCells(y, x0, x) + [(x, y)]
  {
  }

  lemma GridRowsSnoc(b: TileBounds, y: int)
    requires b.minY <= y
    ensures GridRows(b, y + 1) == GridRows(b, y) + RowCells(y, b.minX, b.maxX + 1)
  {
  }

  /** The tile filter of shape mode: one way in `src/`, both ways in the bundle. */
  predicate KeepsTile(build: Build, host: Host, shape: Shape, tileShape: Shape)
  {
    match build
    case Src => Shapes.ShapesIntersect(host.inside, host.swapped, shape, tileShape)
    case Dist => BundleShapes.ShapesIntersect(host.inside, tileShape, shape)
                 || BundleShapes.ShapesIntersect(host.inside, shape, tileShape)
  }

  /**
   * The bundle keeps a tile iff a tested vertex of the tile is inside the
   * shape or a tested vertex of the shape is inside the tile; `src/` keeps it
   * iff a tested vertex of the shape passes either turf call against the tile.
   */
  lemma KeepsTileByVertices(host: Host, shape: Shape, tileShape: Shape)
    ensures KeepsTile(Dist, host, shape, tileShape)
        <==> ((exists v :: v in Shapes.TestedVertices(tileShape) && host.inside(v, shape))
              || (exists v :: v in Shapes.TestedVertices(shape) && host.inside(v, tileShape)))
    ensures KeepsTile(Src, host, shape, tileShape)
        <==> exists v :: v in Shapes.TestedVertices(shape) && (host.inside(v, tileShape) || host.swapped(v, tileShape))
  {
    BundleShapes.BundleShapesIntersectIsOneWayVertexTest(host.inside, tileShape, shape);
    BundleShapes.BundleShapesIntersectIsOneWayVertexTest(host.inside, shape, tileShape);
    Shapes.SrcShapesIntersectIsTwoWayVertexTest(host.inside, host.swapped, shape, tileShape);
  }

  /**
   * A tile `src/` keeps is kept by the bundle too, unless only the
   * swapped-argument turf call (which the bundle does not make) put it in.
   */
  lemma DistKeepsWhatSrcKeeps(host: Host, shape: Shape, tileShape: Shape)
    ensures KeepsTile(Src, host, shape, tileShape) ==>
              KeepsTile(Dist, host, shape, tileShape)
              || exists v :: v in Shapes.TestedVertices(shape) && host.swapped(v, tileShape)
  {
    KeepsTileByVertices(host, shape, tileShape);
  }

  /** The filter of one shape as a test on cells: the tile at the cell, at the zoom level, passes `KeepsTile`. */
  function CellFilter(build: Build, host: Host, shape: Shape, zoom: int): Cell -> bool
  {
    (c: Cell) => KeepsTile(build, host, shape, host.tileShape(c.0, c.1, zoom))
  }

  /**
   * The descriptors of the cells that pass `keep`, in order. Its contract
   * bounds the length; `InKeptTiles` states which descriptors it holds.
   */
  function KeptTiles(host: Host, template: string, subdomains: seq<string>,
                     keep: Cell -> bool, cells: seq<Cell>): (r: seq<TileDescriptor>)
    ensures |r| <= |cells|
  {
    if cells == [] then []
    else
      var c := cells[|cells| - 1];
      KeptTiles(host, template, subdomains, keep, cells[..|cells| - 1])
      + (if keep(c) then [Descriptor(host, template, subdomains, c)] else [])
  }

  lemma KeptTilesSnoc(host: Host, template: string, subdomains: seq<string>,
                      keep: Cell -> bool, cells: seq<Cell>, c: Cell)
    ensures KeptTiles(host, template, subdomains, keep, cells + [c])
         == KeptTiles(host, template, subdomains, keep, cells)
            + (if keep(c) then [Descriptor(host, template, subdomains, c)] else [])
  {
    assert (cells + [c])[..|cells|] == cells;
  }

  /** The kept descriptors of concatenated cells are those of each part, concatenated. */
  lemma {:induction false} KeptTilesConcat(host: Host, template: string, subdomains: seq<string>,
                                           keep: Cell -> bool, a: seq<Cell>, b: seq<Cell>)
    ensures KeptTiles(host, template, subdomains, keep, a + b)
         == KeptTiles(host, template, subdomains, keep, a) + KeptTiles(host, template, subdomains, keep, b)
  {
    if b == [] {
      assert a + b == a;
    } else {
      var b', c := b[..|b| - 1], b[|b| - 1];
      assert b == b' + [c];
      AppendAssoc(a, b', [c]);
      KeptTilesSnoc(host, template, subdomains, keep, a + b', c);
      KeptTilesSnoc(host, template, subdomains, keep, b', c);
      KeptTilesConcat(host, template, subdomains, keep, a, b');
    }
  }

  /** A kept descriptor is the descriptor of a listed cell that passes `keep`, and every such one is kept. */
  lemma {:induction false} InKeptTiles(host: Host, template: string, subdomains: seq<string>,
                                       keep: Cell -> bool, cells: seq<Cell>, d: TileDescriptor)
    ensures d in KeptTiles(host, template, subdomains, keep, cells)
        <==> exists c :: c in cells && keep(c) && d == Descriptor(host, template, subdomains, c)
  {
    if cells != [] {
      var prefix := cells[..|cells| - 1];
      InKeptTiles(host, template, subdomains, keep, prefix, d);
      assert cells == prefix + [cells[|cells| - 1]];
    }
  }

  /** The candidate tiles of one shape: its own bounds at the zoom level, row-major, filtered. */
  function ShapeTiles(build: Build, host: Host, template: string, subdomains: seq<string>,
                      shape: Shape, zoom: int): seq<TileDescriptor>
  {
    KeptTiles(host, template, subdomains, CellFilter(build, host, shape, zoom), Grid(host.shapeBounds(shape, zoom)))
  }

  /** `ShapeTiles` at a template and zoom level, as a function of the shape. */
  function ShapeTilesAt(build: Build, host: Host, template: string, subdomains: seq<string>,
                        zoom: int): Shape -> seq<TileDescriptor>
  {
    s => ShapeTiles(build, host, template, subdomains, s, zoom)
  }

  /** Shape by shape in order, the kept tiles of each; tiles two shapes share appear twice. */
  function ShapesTiles(build: Build, host: Host, template: string, subdomains: seq<string>,
                       shapes: seq<Shape>, zoom: int): seq<TileDescriptor>
  {
    FlatMap(ShapeTilesAt(build, host, template, subdomains, zoom), shapes)
  }

  /** The result for a list of shapes is the concatenation of the results for its parts: nothing merged, nothing reordered. */
  lemma ShapesTilesConcat(build: Build, host: Host, template: string, subdomains: seq<string>,
                          a: seq<Shape>, b: seq<Shape>, zoom: int)
    ensures ShapesTiles(build, host, template, subdomains, a + b, zoom)
         == ShapesTiles(build, host, template, subdomains, a, zoom)
          + ShapesTiles(build, host, template, subdomains, b, zoom)
  {
    FlatMapConcat(ShapeTilesAt(build, host, template, subdomains, zoom), a, b);
  }

  /** Some cell in the shape's bounds passes the shape's filter and yields `d`. */
  predicate ListedFor(build: Build, host: Host, template: string, subdomains: seq<string>,
                      shape: Shape, zoom: int, d: TileDescriptor)
  {
    exists c :: c in Grid(host.shapeBounds(shape, zoom))
                && KeepsTile(build, host, shape, host.tileShape(c.0, c.1, zoom))
                && d == Descriptor(host, template, subdomains, c)
  }

  /** One shape lists exactly the descriptors of the cells in its bounds whose tiles pass its filter. */
  lemma InShapeTiles(build: Build, host: Host, template: string, subdomains: seq<string>,
                     shape: Shape, zoom: int, d: TileDescriptor)
    ensures d in ShapeTiles(build, host, template, subdomains, shape, zoom)
        <==> ListedFor(build, host, template, subdomains, shape, zoom, d)
  {
    InKeptTiles(host, template, subdomains, CellFilter(build, host, shape, zoom), Grid(host.shapeBounds(shape, zoom)), d);
  }

  /** A descriptor is listed iff some shape's bounds hold a cell whose tile passes that shape's filter and yields it. */
  lemma InShapesTiles(build: Build, host: Host, template: string, subdomains: seq<string>,
                      shapes: seq<Shape>, zoom: int, d: TileDescriptor)
    ensures d in ShapesTiles(build, host, template, subdomains, shapes, zoom)
        <==> exists s :: s in shapes && ListedFor(build, host, template, subdomains, s, zoom, d)
  {
    InFlatMap(ShapeTilesAt(build, host, template, subdomains, zoom), shapes, d);
    forall s | s in shapes
      ensures d in ShapeTiles(build, host, template, subdomains, s, zoom)
          <==> ListedFor(build, host, template, subdomains, s, zoom, d)
    {
      InShapeTiles(build, host, template, subdomains, s, zoom, d);
    }
  }

  /**
   * Every tile `src/` lists for a set of shapes, the bundle lists too, as
   * long as the swapped-argument turf call never holds for the shapes'
   * tested vertices.
   */
  lemma DistListsWhatSrcLists(host: Host, template: string, subdomains: seq<string>,
                              shapes: seq<Shape>, zoom: int, d: TileDescriptor)
    requires forall s, v, c :: s in shapes && v in Shapes.TestedVertices(s) && c in Grid(host.shapeBounds(s, zoom))
               ==> !host.swapped(v, host.tileShape(c.0, c.1, zoom))
    requires d in ShapesTiles(Src, host, template, subdomains, shapes, zoom)
    ensures d in ShapesTiles(Dist, host, template, subdomains, shapes, zoom)
  {
    InShapesTiles(Src, host, template, subdomains, shapes, zoom, d);
    InShapesTiles(Dist, host, template, subdomains, shapes, zoom, d);
    var s :| s in shapes && ListedFor(Src, host, template, subdomains, s, zoom, d);
    var c :| c in Grid(host.shapeBounds(s, zoom))
             && KeepsTile(Src, host, s, host.tileShape(c.0, c.1, zoom))
             && d == Descriptor(host, template, subdomains, c);
    var tile := host.tileShape(c.0, c.1, zoom);
    DistKeepsWhatSrcKeeps(host, s, tile);
    forall v | v in Shapes.TestedVertices(s) ensures !host.swapped(v, tile) {
      assert !host.swapped(v, host.tileShape(c.0, c.1, zoom));
    }
    assert KeepsTile(Dist, host, s, tile);
    assert ListedFor(Dist, host, template, subdomains, s, zoom, d);
  }

  /** `shapes instanceof Array ? shapes : [shapes]`. */
  function Geometries(shapes: ShapesArg): seq<Shape>
  {
    match shapes
    case One(s) => [s]
    case Many(ss) => ss
  }

  /** The area a batch saves: the bounds, or the shapes when the control has any. */
  datatype TileSource = InBounds(bounds: LatLngBounds) | InShapes(shapes: ShapesArg)

  /** What `getTileUrls` or `getTileUrlsInShapes` returns for a layer whose `_url` is `template`. */
  function TilesFor(build: Build, host: Host, template: string, subdomains: seq<string>,
                    source: TileSource, zoom: int): seq<TileDescriptor>
  {
    var zoomTemplate := ZoomTemplate(template, zoom);
    match source
    case InBounds(bounds) => Descriptors(host, zoomTemplate, subdomains, Grid(host.tileBounds(bounds, zoom)))
    case InShapes(shapes) => ShapesTiles(build, host, zoomTemplate, subdomains, Geometries(shapes), zoom)
  }

  /** Every descriptor a batch lists for a zoom level is keyed under that level's zoom template. */
  lemma TilesForKeyedUnderZoomTemplate(build: Build, host: Host, template: string, subdomains: seq<string>,
                                       source: TileSource, zoom: int, d: TileDescriptor)
    requires d in TilesFor(build, host, template, subdomains, source, zoom)
    ensures d.key == StorageKey(ZoomTemplate(template, zoom), subdomains, d.url)
  {
    var zoomTemplate := ZoomTemplate(template, zoom);
    match source
    case InBounds(bounds) =>
      DescriptorsOnePerCell(host, zoomTemplate, subdomains, Grid(host.tileBounds(bounds, zoom)));
    case InShapes(shapes) =>
      InShapesTiles(build, host, zoomTemplate, subdomains, Geometries(shapes), zoom, d);
  }

  /** Template "a{z}{s}b" at zoom 12 is "a12{s}b". */
  lemma ExampleZoomTemplate()
    ensures ZoomTemplate("a{z}{s}b", 12) == "a12{s}b"
  {
    var t := "a{z}{s}b";
    assert IntToString(12) == "12";
    NotOccursAt(t, "{z}", 0, 0);
    IndexOfFirst(t, "{z}", 1);
  }

  /** Under "a12{s}b" with subdomains ["c"], url "a12cb" is its own key. */
  lemma ExampleSaveKey()
    ensures StorageKey("a12{s}b", ["c"], "a12cb") == "a12cb"
  {
    var zt := "a12{s}b";
    NotOccursAt(zt, "{s}", 0, 0);
    NotOccursAt(zt, "{s}", 1, 0);
    NotOccursAt(zt, "{s}", 2, 0);
    IndexOfFirst(zt, "{s}", 3);
    var url := "a12cb";
    assert Substring(url, 0, 3) == url[..3] == "a12";
    assert Substring(url, 4, 5) == url[4..] == "b";
  }

  /** Under "a{z}{s}b" with subdomains ["c"], url "a12cb" has key "a12cc". */
  lemma ExampleReadKey()
    ensures StorageKey("a{z}{s}b", ["c"], "a12cb") == "a12cc"
  {
    var t := "a{z}{s}b";
    NotOccursAt(t, "{s}", 0, 0);
    NotOccursAt(t, "{s}", 1, 1);
    NotOccursAt(t, "{s}", 2, 0);
    NotOccursAt(t, "{s}", 3, 0);
    IndexOfFirst(t, "{s}", 4);
    var url := "a12cb";
    assert Substring(url, 0, 4) == url[..4] == "a12c";
    assert Substring(url, 5, 5) == "";
  }

  /** The batch for one tile under template "a{z}{s}b" at zoom 12, subdomains ["c"], whose url is "a12cb". */
  lemma ExampleBatch(build: Build, host: Host, bounds: LatLngBounds)
    requires host.tileBounds(bounds, 12) == TileBounds(0, 0, 0, 0)
    requires host.tileUrl("a12{s}b", 0, 0) == "a12cb"
    ensures TilesFor(build, host, "a{z}{s}b", ["c"], InBounds(bounds), 12) == [TileDescriptor("a12cb", "a12cb")]
  {
    ExampleZoomTemplate();
    ExampleSaveKey();
    assert Grid(TileBounds(0, 0, 0, 0)) == [(0, 0)];
    assert Descriptors(host, "a12{s}b", ["c"], [(0, 0)]) == [Descriptor(host, "a12{s}b", ["c"], (0, 0))];
  }

  /**
   * The batch keyed as a created tile reads it: each url keyed under the
   * layer's own template rather than under the zoom template. This is the
   * keying `getTileUrls` and `getTileUrlsInShapes` evidently intend.
   */
  function ReadKeyed(template: string, subdomains: seq<string>, tiles: seq<TileDescriptor>): (r: seq<TileDescriptor>)
    ensures |r| == |tiles|
    ensures forall k :: 0 <= k < |r| ==> r[k].url == tiles[k].url
    ensures forall d :: d in r ==> d.key == StorageKey(template, subdomains, d.url)
  {
    seq(|tiles|, k requires 0 <= k < |tiles| => TileDescriptor(StorageKey(template, subdomains, tiles[k].url), tiles[k].url))
  }

  /**
   * Where the template has no `{z}`, or its `{s}` (if any) comes before its
   * first `{z}`, the batch as written is already keyed as tiles read it.
   */
  lemma ReadKeyedAgreesWhereSubdomainFirst(build: Build, host: Host, template: string, subdomains: seq<string>,
                                           source: TileSource, zoom: int)
    requires IndexOf(template, "{z}") < 0 || IndexOf(template, "{s}") < IndexOf(template, "{z}")
    ensures ReadKeyed(template, subdomains, TilesFor(build, host, template, subdomains, source, zoom))
         == TilesFor(build, host, template, subdomains, source, zoom)
  {
    var tiles := TilesFor(build, host, template, subdomains, source, zoom);
    var r := ReadKeyed(template, subdomains, tiles);
    forall k | 0 <= k < |tiles|
      ensures r[k] == tiles[k]
    {
      TilesForKeyedUnderZoomTemplate(build, host, template, subdomains, source, zoom, tiles[k]);
      ZoomTemplateKeepsKey(template, subdomains, zoom, tiles[k].url);
    }
  }

  /** What `localforage.getItem` settles with. */
  datatype StoredValue = Null | Object(blob: Blob) | Primitive
  datatype ReadOutcome = Resolved(value: StoredValue) | Rejected

  /** The `src` a created tile ends with: a blob url of the stored tile, or the network url. */
  datatype TileSrc = NetworkUrl(url: string) | ObjectUrl(blob: Blob)

  /**
   * `setDataUrl`: resolves with an object url when the store answers a
   * truthy object; rejects when it answers anything else or fails.
   */
  function SetDataUrl(read: ReadOutcome): (r: Option<Blob>)
    ensures r.Some? <==> read.Resolved? && read.value.Object?
    ensures r.Some? ==> r.value == read.value.blob
  {
    match read
    case Resolved(Object(blob)) => Some(blob)
    case _ => None
  }

  class TileLayerOffline {
    /** `_url`: the url template. */
    var url: string
    const subdomains: seq<string>
    const build: Build
    const host: Host

    constructor(url: string, subdomains: seq<string>, build: Build, host: Host)
      ensures this.url == url && this.subdomains == subdomains && this.build == build && this.host == host
    {
      this.url := url;
      this.subdomains := subdomains;
      this.build := build;
      this.host := host;
    }

    /** `_getStorageKey`, under the current template. */
    function GetStorageKey(u: string): string
      reads this
    {
      StorageKey(url, subdomains, u)
    }

    /** `getSimultaneous`: one download slot per subdomain. */
    function GetSimultaneous(): nat
    {
      |subdomains|
    }

    /**
     * `createTile`: the tile for a network url ends with the stored blob's
     * object url when the store holds an object under the url's key, and
     * with the network url in every other case (nothing stored, a
     * non-object stored, or a failed read).
     */
    function CreateTileSrc(store: map<string, StoredValue>, readFails: bool, tileUrl: string): (r: TileSrc)
      reads this
      ensures var key := GetStorageKey(tileUrl);
              r.ObjectUrl? <==> !readFails && key in store && store[key].Object?
      ensures r.ObjectUrl? ==> r.blob == store[GetStorageKey(tileUrl)].blob
      ensures r.NetworkUrl? ==> r.url == tileUrl
    {
      var key := GetStorageKey(tileUrl);
      var read := if readFails then Rejected else Resolved(if key in store then store[key] else Null);
      match SetDataUrl(read)
      case Some(blob) => ObjectUrl(blob)
      case None => NetworkUrl(tileUrl)
    }

    /**
     * A tile saved from a batch of this layer is served from the store,
     * wherever the template has no `{z}`, or its `{s}` (if any) comes before
     * its first `{z}`.
     */
    lemma SavedTileServed(source: TileSource, zoom: int, d: TileDescriptor,
                          store: map<string, StoredValue>, blob: Blob)
      requires IndexOf(url, "{z}") < 0 || IndexOf(url, "{s}") < IndexOf(url, "{z}")
      requires d in TilesFor(build, host, url, subdomains, source, zoom)
      ensures CreateTileSrc(store[d.key := Object(blob)], false, d.url) == ObjectUrl(blob)
    {
      TilesForKeyedUnderZoomTemplate(build, host, url, subdomains, source, zoom, d);
      ZoomTemplateKeepsKey(url, subdomains, zoom, d.url);
    }

    /**
     * With `{z}` before `{s}` the key a batch writes is not the key a tile
     * reads. Template "a{z}{s}b", subdomains ["c"], zoom 12: the batch lists
     * url "a12cb" under key "a12cb", while the tile for "a12cb" looks up
     * "a12cc", so the saved tile is fetched from the network.
     */
    lemma SavedTileMissedWhenZoomPrecedesSubdomain(bounds: LatLngBounds)
      requires url == "a{z}{s}b" && subdomains == ["c"]
      requires host.tileBounds(bounds, 12) == TileBounds(0, 0, 0, 0)
      requires host.tileUrl("a12{s}b", 0, 0) == "a12cb"
      ensures TilesFor(build, host, url, subdomains, InBounds(bounds), 12) == [TileDescriptor("a12cb", "a12cb")]
      ensures CreateTileSrc(map["a12cb" := Object(Blob(0))], false, "a12cb") == NetworkUrl("a12cb")
    {
      ExampleBatch(build, host, bounds);
      ExampleReadKey();
    }

    /** Keyed as tiles read them, every tile saved from a batch is served from the store, whatever the template. */
    lemma ReadKeyedTileServed(source: TileSource, zoom: int, d: TileDescriptor,
                              store: map<string, StoredValue>, blob: Blob)
      requires d in ReadKeyed(url, subdomains, TilesFor(build, host, url, subdomains, source, zoom))
      ensures CreateTileSrc(store[d.key := Object(blob)], false, d.url) == ObjectUrl(blob)
    {
    }

    /** The column loop of `getTileUrls` for row `y`: the descriptors of the row's tiles, by increasing x. */
    method RowTileUrls(y: int, minX: int, maxX: int) returns (row: seq<TileDescriptor>)
      ensures row == Descriptors(host, url, subdomains, RowCells(y, minX, maxX + 1))
    {
      row := [];
      var i := minX;
      while i <= maxX
        invariant i == minX || minX <= i <= maxX + 1
        invariant row == Descriptors(host, url, subdomains, RowCells(y, minX, i))
      {
        var tileUrl := host.tileUrl(url, i, y);
        row := row + [TileDescriptor(GetStorageKey(tileUrl), tileUrl)];
        RowCellsSnoc(y, minX, i);
        DescriptorsSnoc(host, url, subdomains, RowCells(y, minX, i), (i, y));
        i := i + 1;
      }
    }

    /**
     * `getTileUrls`: with `_url` switched to the zoom template, one
     * descriptor per tile of the bounds in row-major order; `_url` is
     * restored on return.
     */
    method GetTileUrls(latLngBounds: LatLngBounds, zoom: int) returns (tiles: seq<TileDescriptor>)
      modifies this
      ensures url == old(url)
      ensures tiles == Descriptors(host, ZoomTemplate(old(url), zoom), subdomains, Grid(host.tileBounds(latLngBounds, zoom)))
    {
      var origUrl := url;
      url := ZoomTemplate(url, zoom);
      var bounds := host.tileBounds(latLngBounds, zoom);
      tiles := [];
      var j := bounds.minY;
      while j <= bounds.maxY
        invariant j == bounds.minY || bounds.minY <= j <= bounds.maxY + 1
        invariant url == ZoomTemplate(origUrl, zoom)
        invariant tiles == Descriptors(host, url, subdomains, GridRows(bounds, j))
      {
        var row := RowTileUrls(j, bounds.minX, bounds.maxX);
        DescriptorsConcat(host, url, subdomains, GridRows(bounds, j), RowCells(j, bounds.minX, bounds.maxX + 1));
        GridRowsSnoc(bounds, j);
        tiles := tiles + row;
        j := j + 1;
      }
      url := origUrl;
    }

    /**
     * The `forEach` callback of `getTileUrlsInShapes` for one shape: appends,
     * row-major, the descriptors of the tiles of the shape's bounds that pass
     * this build's filter, under the current template.
     */
    method AddShapeTiles(shape: Shape, zoom: int, tiles: seq<TileDescriptor>) returns (result: seq<TileDescriptor>)
      ensures result == tiles + ShapeTiles(build, host, url, subdomains, shape, zoom)
    {
      result := tiles;
      var b := host.shapeBounds(shape, zoom);
      var j := b.minY;
      while j <= b.maxY
        invariant j == b.minY || b.minY <= j <= b.maxY + 1
        invariant result == tiles + KeptTiles(host, url, subdomains, CellFilter(build, host, shape, zoom), GridRows(b, j))
      {
        var row := ShapeRowTiles(shape, zoom, j, b.minX, b.maxX);
        KeptTilesConcat(host, url, subdomains, CellFilter(build, host, shape, zoom), GridRows(b, j), RowCells(j, b.minX, b.maxX + 1));
        GridRowsSnoc(b, j);
        AppendAssoc(tiles, KeptTiles(host, url, subdomains, CellFilter(build, host, shape, zoom), GridRows(b, j)), row);
        result := result + row;
        j := j + 1;
      }
    }

    /** The column loop of that callback for row `y`: the descriptors of the row's tiles that pass the filter. */
    method ShapeRowTiles(shape: Shape, zoom: int, y: int, minX: int, maxX: int) returns (row: seq<TileDescriptor>)
      ensures row == KeptTiles(host, url, subdomains, CellFilter(build, host, shape, zoom), RowCells(y, minX, maxX + 1))
    {
      row := [];
      var i := minX;
      while i <= maxX
        invariant i == minX || minX <= i <= maxX + 1
        invariant row == KeptTiles(host, url, subdomains, CellFilter(build, host, shape, zoom), RowCells(y, minX, i))
      {
        var tileIntersects := KeepsTile(build, host, shape, host.tileShape(i, y, zoom));
        assert tileIntersects == CellFilter(build, host, shape, zoom)((i, y));
        RowCellsSnoc(y, minX, i);
        KeptTilesSnoc(host, url, subdomains, CellFilter(build, host, shape, zoom), RowCells(y, minX, i), (i, y));
        if tileIntersects {
          var tileUrl := host.tileUrl(url, i, y);
          row := row + [TileDescriptor(GetStorageKey(tileUrl), tileUrl)];
        }
        i := i + 1;
      }
    }

    /**
     * `getTileUrlsInShapes`: with `_url` switched to the zoom template, for
     * each shape in order (a single shape taken as a list of one), the tiles
     * of its bounds that pass this build's filter, row-major; `_url` is
     * restored on return.
     */
    method GetTileUrlsInShapes(shapes: ShapesArg, zoom: int) returns (tiles: seq<TileDescriptor>)
      modifies this
      ensures url == old(url)
      ensures tiles == ShapesTiles(build, host, ZoomTemplate(old(url), zoom), subdomains, Geometries(shapes), zoom)
    {
      var origUrl := url;
      var geometries := if shapes.Many? then shapes.shapes else [shapes.shape];
      assert geometries == Geometries(shapes);
      url := ZoomTemplate(url, zoom);
      ghost var perShape := ShapeTilesAt(build, host, url, subdomains, zoom);
      tiles := [];
      var k := 0;
      while k < |geometries|
        invariant 0 <= k <= |geometries|
        invariant url == ZoomTemplate(origUrl, zoom)
        invariant tiles == FlatMap(perShape, geometries[..k])
      {
        tiles := AddShapeTiles(geometries[k], zoom, tiles);
        assert tiles == FlatMap(perShape, geometries[..k]) + perShape(geometries[k]);
        FlatMapSnoc(perShape, geometries[..k], geometries[k]);
        PrefixSnoc(geometries, k);
        k := k + 1;
      }
      assert geometries[..k] == geometries;
      url := origUrl;
    }
  }
}
