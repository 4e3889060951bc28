/** The fixed MANRURA standards catalog: Standard -> Element -> Point. */
module Catalog {

  /** Every point is worth this many score units. */
  const PointWeight: int := 10

  datatype Point = Point(id: string, description: string)

  datatype Element = Element(id: string, title: string, points: seq<Point>)

  datatype Standard = Standard(id: string, title: string, elements: seq<Element>)

  /** The ids of a list of points, in order. */
  function PointIds(points: seq<Point>): seq<string>
  {
    if points == [] then [] else [points[0].id] + PointIds(points[1..])
  }

  /** The point ids of a list of elements, element by element. */
  function ElementPointIds(elements: seq<Element>): seq<string>
  {
    if elements == [] then [] else PointIds(elements[0].points) + ElementPointIds(elements[1..])
  }

  /** The flattened catalog: every point id, standard by standard (the dashboard's `allPoinIds`). */
  function AllPointIds(catalog: seq<Standard>): seq<string>
  {
    if catalog == [] then [] else ElementPointIds(catalog[0].elements) + AllPointIds(catalog[1..])
  }

  /** Reference count: the number of points of each element, summed over elements. */
  function ElementsPointCount(elements: seq<Element>): nat
  {
    if elements == [] then 0 else |elements[0].points| + ElementsPointCount(elements[1..])
  }

  /** Reference count: the number of points of the catalog, summed over standards and elements. */
  function CatalogPointCount(catalog: seq<Standard>): nat
  {
    if catalog == [] then 0 else ElementsPointCount(catalog[0].elements) + CatalogPointCount(catalog[1..])
  }

  /** True iff some point of some element of some standard of `catalog` has id `x`. */
  predicate InCatalog(catalog: seq<Standard>, x: string)
  {
    exists i, j, k ::
      0 <= i < |catalog| && 0 <= j < |catalog[i].elements| && 0 <= k < |catalog[i].elements[j].points|
      && catalog[i].elements[j].points[k].id == x
  }

  lemma {:induction false} PointIdsSpec(points: seq<Point>)
    ensures |PointIds(points)| == |points|
    ensures forall k :: 0 <= k < |points| ==> PointIds(points)[k] == points[k].id
  {
    if points != [] {
      PointIdsSpec(points[1..]);
    }
  }

  lemma {:induction false} ElementPointIdsLength(elements: seq<Element>)
    ensures |ElementPointIds(elements)| == ElementsPointCount(elements)
  {
    if elements != [] {
      PointIdsSpec(elements[0].points);
      ElementPointIdsLength(elements[1..]);
    }
  }

  /** The flattened list has exactly one entry per point of the catalog. */
  lemma {:induction false} AllPointIdsLength(catalog: seq<Standard>)
    ensures |AllPointIds(catalog)| == CatalogPointCount(catalog)
  {
    if catalog != [] {
      ElementPointIdsLength(catalog[0].elements);
      AllPointIdsLength(catalog[1..]);
    }
  }

  /** Flattening keeps catalog order: the ids of a concatenation are the concatenation of the ids. */
  lemma {:induction false} AllPointIdsAppend(a: seq<Standard>, b: seq<Standard>)
    ensures AllPointIds(a + b) == AllPointIds(a) + AllPointIds(b)
  {
    if a == [] {
      assert a + b == b;
    } else {
      assert (a + b)[1..] == a[1..] + b;
      AllPointIdsAppend(a[1..], b);
    }
  }

  lemma {:induction false} ElementPointIdsMembership(elements: seq<Element>, x: string)
    ensures x in ElementPointIds(elements) <==>
      exists j, k :: 0 <= j < |elements| && 0 <= k < |elements[j].points| && elements[j].points[k].id == x
  {
    if elements != [] {
      PointIdsSpec(elements[0].points);
      ElementPointIdsMembership(elements[1..], x);
      if x in ElementPointIds(elements) {
        if x in PointIds(elements[0].points) {
          var k :| 0 <= k < |PointIds(elements[0].points)| && PointIds(elements[0].points)[k] == x;
          assert elements[0].points[k].id == x;
        } else {
          var j, k :| 0 <= j < |elements[1..]| && 0 <= k < |elements[1..][j].points| && elements[1..][j].points[k].id == x;
          assert elements[j + 1].points[k].id == x;
        }
      }
      if exists j, k :: 0 <= j < |elements| && 0 <= k < |elements[j].points| && elements[j].points[k].id == x {
        var j, k :| 0 <= j < |elements| && 0 <= k < |elements[j].points| && elements[j].points[k].id == x;
        if j == 0 {
          assert PointIds(elements[0].points)[k] == x;
        } else {
          assert elements[1..][j - 1].points[k].id == x;
        }
      }
    }
  }

  /** An id appears in the flattened list iff it is the id of some point of the catalog. */
  lemma {:induction false} AllPointIdsMembership(catalog: seq<Standard>, x: string)
    ensures x in AllPointIds(catalog) <==> InCatalog(catalog, x)
  {
    if catalog != [] {
      ElementPointIdsMembership(catalog[0].elements, x);
      AllPointIdsMembership(catalog[1..], x);
      if x in AllPointIds(catalog) {
        if x in ElementPointIds(catalog[0].elements) {
          var j, k :| 0 <= j < |catalog[0].elements| && 0 <= k < |catalog[0].elements[j].points|
            && catalog[0].elements[j].points[k].id == x;
          assert catalog[0].elements[j].points[k].id == x;
        } else {
          var i, j, k :| 0 <= i < |catalog[1..]| && 0 <= j < |catalog[1..][i].elements|
            && 0 <= k < |catalog[1..][i].elements[j].points| && catalog[1..][i].elements[j].points[k].id == x;
          assert catalog[i + 1].elements[j].points[k].id == x;
        }
      }
      if InCatalog(catalog, x) {
        var i, j, k :| 0 <= i < |catalog| && 0 <= j < |catalog[i].elements|
          && 0 <= k < |catalog[i].elements[j].points| && catalog[i].elements[j].points[k].id == x;
        if i == 0 {
          assert catalog[0].elements[j].points[k].id == x;
        } else {
          assert catalog[1..][i - 1].elements[j].points[k].id == x;
          assert InCatalog(catalog[1..], x);
        }
      }
    }
  }
}
