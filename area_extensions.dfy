/** The 0.5.x extension on the host's Area type. */
module AreaExtensions {
  import opened Geometry

  /** The top-left corner of an area given by its centre and size. */
  function GetTopLeft(area: Area): (r: Vec)
    ensures Add(r, Vec(area.width / 2.0, area.height / 2.0)) == area.position
    ensures area.width == 0.0 && area.height == 0.0 ==> r == area.position
    ensures r == DisplayBounds(Some(area), ZeroBounds).min
    ensures r == DisplayBounds(Some(area), UnitBounds).min
  {
    Vec(area.position.x - area.width / 2.0, area.position.y - area.height / 2.0)
  }

  /** Moving an area moves its top-left corner by the same offset. */
  lemma TopLeftTranslates(area: Area, offset: Vec)
    ensures GetTopLeft(area.(position := Add(area.position, offset)))
         == Add(GetTopLeft(area), offset)
  {
  }
}
