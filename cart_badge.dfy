// The cart badge: hidden for an empty cart, otherwise the count with an
// accessible "n article(s)" label.

module CartBadge {
  import opened Common

  datatype Badge = Badge(text: string, ariaLabel: string)

  /** The badge for the optional `count` prop (absent means 0); `None` is
      rendering nothing. */
  function Render(count: Option<int>): (r: Option<Badge>)
    ensures r.None? <==> count.None? || count.value == 0
    ensures r.Some? ==> r.value.text == IntToString(count.value)
  {
    var n := if count.Some? then count.value else 0;
    if n == 0 then None
    else
      var words := IntToString(n) + " article" + (if n > 1 then "s" else "");
      Some(Badge(IntToString(n), "Articles dans le panier : " + words))
  }

  /** One item reads "1 article"; more read "n articles". */
  lemma Labels(n: nat)
    requires n >= 1
    ensures n == 1 ==> Render(Some(n)).value.ariaLabel == "Articles dans le panier : 1 article"
    ensures n > 1 ==> Render(Some(n)).value.ariaLabel == "Articles dans le panier : " + NatToString(n) + " articles"
  {
    if n == 1 {
      assert IntToString(1) == "1";
    }
  }
}
