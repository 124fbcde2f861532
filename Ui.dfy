/** Display tokens shared by the views: the colour of a badge and the
    utility classes it is drawn with. */
module Ui {

  datatype Color = Red | Yellow | Green | Gray | Blue | Orange | Purple

  function ColorName(c: Color): (r: string)
    ensures |r| >= 3
  {
    match c
    case Red => "red"
    case Yellow => "yellow"
    case Green => "green"
    case Gray => "gray"
    case Blue => "blue"
    case Orange => "orange"
    case Purple => "purple"
  }

  /** The badge classes every colour switch in the views returns,
      e.g. "bg-red-100 text-red-800". */
  function BadgeClass(c: Color): (r: string)
    ensures |r| >= 6 && r[..3] == "bg-" && r[3..6] == ColorName(c)[..3]
  {
    "bg-" + ColorName(c) + "-100 text-" + ColorName(c) + "-800"
  }

  /** Each colour has its own badge classes, so a switch that returns a
      colour says exactly which classes the badge gets. */
  lemma BadgeClassesDistinct(a: Color, b: Color)
    ensures BadgeClass(a) == BadgeClass(b) <==> a == b
  {
    if a != b {
      var x, y := ColorName(a), ColorName(b);
      assert x[0] != y[0] || x[2] != y[2];
      assert BadgeClass(a)[3..6] != BadgeClass(b)[3..6] by {
        assert BadgeClass(a)[3..6][0] == x[0] && BadgeClass(b)[3..6][0] == y[0];
        assert BadgeClass(a)[3..6][2] == x[2] && BadgeClass(b)[3..6][2] == y[2];
      }
    }
  }
}
