/**
 * The part of the h3 hexagonal grid the pipeline depends on, kept abstract.
 *
 * A cell is a base cell plus one digit per resolution step, so its
 * resolution is the number of digits and `h3_to_parent` truncates the
 * digits. The three operations that need the grid's geometry —
 * `geo_to_h3`, `polyfill` and `compact` — are not reimplemented: they are
 * the fields of a `Lib` value that every caller receives as a parameter.
 */
module H3 {

  /** The finest resolution h3 offers; the pipeline indexes points at it. */
  const FinestResolution: nat := 15

  datatype Cell = Cell(base: nat, digits: seq<nat>)

  function Resolution(c: Cell): nat {
    |c.digits|
  }

  /** A well-formed h3 cell: one of the 122 base cells, at most 15 digits, each below 7. */
  predicate Valid(c: Cell) {
    && c.base < 122
    && |c.digits| <= FinestResolution
    && forall i :: 0 <= i < |c.digits| ==> c.digits[i] < 7
  }

  /** `a` is `c` or one of its ancestors: same base cell, digits a prefix of `c`'s. */
  predicate IsAncestor(a: Cell, c: Cell) {
    a.base == c.base && |a.digits| <= |c.digits| && c.digits[..|a.digits|] == a.digits
  }

  /** `h3_to_parent(c, r)`: the ancestor of `c` at resolution `r`. */
  function ToParent(c: Cell, r: nat): (p: Cell)
    requires r <= Resolution(c)
    ensures Resolution(p) == r && IsAncestor(p, c)
  {
    Cell(c.base, c.digits[..r])
  }

  /** Taking the parent at a resolution twice changes nothing the second time. */
  lemma ParentIdempotent(c: Cell, r: nat)
    requires r <= Resolution(c)
    ensures ToParent(ToParent(c, r), r) == ToParent(c, r)
  {
  }

  /** The ancestor at `r` of the ancestor at `s` is the ancestor at `r`. */
  lemma ParentOfParent(c: Cell, r: nat, s: nat)
    requires r <= s <= Resolution(c)
    ensures ToParent(ToParent(c, s), r) == ToParent(c, r)
  {
  }

  /** A cell has exactly one ancestor at each resolution up to its own. */
  lemma AncestorIsParent(a: Cell, c: Cell)
    ensures IsAncestor(a, c) <==> Resolution(a) <= Resolution(c) && ToParent(c, Resolution(a)) == a
  {
  }

  lemma ParentValid(c: Cell, r: nat)
    requires Valid(c) && r <= Resolution(c)
    ensures Valid(ToParent(c, r))
  {
  }

  function Pow8(n: nat): nat
    decreases n
  {
    if n == 0 then 1 else 8 * Pow8(n - 1)
  }

  /** Digits read as a big-endian base-8 number. */
  function DigitsValue(ds: seq<nat>): nat
    decreases |ds|
  {
    if ds == [] then 0 else DigitsValue(ds[..|ds| - 1]) * 8 + ds[|ds| - 1]
  }

  /** The 15 digit slots of the 64-bit index; unused slots hold 7. */
  function DigitSlots(c: Cell): seq<nat> {
    if |c.digits| <= FinestResolution then c.digits + seq(FinestResolution - |c.digits|, _ => 7)
    else c.digits[..FinestResolution]
  }

  /**
   * The 64-bit h3 index of a cell: mode 1, then the resolution, the base
   * cell and the digit slots. Its fixed-width hexadecimal form is the token
   * h3 returns, so ordering tokens as strings orders them by this number.
   */
  function Index(c: Cell): nat {
    ((1 * 8 * 16 + Resolution(c)) * 128 + c.base) * Pow8(FinestResolution) + DigitsValue(DigitSlots(c))
  }

  /** The order `sorted` puts h3 tokens in. */
  predicate CellLe(a: Cell, b: Cell) {
    Index(a) <= Index(b)
  }

  /**
   * The geometric operations of the h3 library, taken as given:
   * `geo_to_h3(lat, lon, res)`, `polyfill(geometry, res)` and `compact(cells)`.
   */
  datatype Lib = Lib(
    geoToH3: (real, real, nat) -> Cell,
    polyfill: (Polygon, nat) -> seq<Cell>,
    compact: seq<Cell> -> seq<Cell>)

  /** A closed ring of (longitude, latitude) vertices, as GeoJSON orders them. */
  type Ring = seq<(real, real)>

  /** The GeoJSON interface of a shapely Polygon: an exterior ring and its holes. */
  datatype Polygon = Polygon(exterior: Ring, holes: seq<Ring>)

  /** What h3 promises of `geo_to_h3`: a valid cell at the requested resolution. */
  ghost predicate PointsAtResolution(lib: Lib) {
    forall lat: real, lon: real, r: nat {:trigger lib.geoToH3(lat, lon, r)} ::
      r <= FinestResolution ==> Valid(lib.geoToH3(lat, lon, r)) && Resolution(lib.geoToH3(lat, lon, r)) == r
  }
}
