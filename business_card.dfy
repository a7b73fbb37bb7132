/**
 * One card of the wallet stack: its fallback 3-D pose when no animated
 * style is passed in, its stacking order, and the inline style object the
 * card element finally receives.
 */
module BusinessCard {
  import opened JsValues

  /** A value in an inline style object: a string or a number. */
  datatype CssValue = Text(text: string) | Number(value: real)

  type Style = map<string, CssValue>

  /** The fallback translate3d / scale pose of a card. */
  datatype Pose3d = Pose3d(y: real, z: real, scale: real)

  const ActivePose := Pose3d(0.0, 50.0, 1.05)

  /** Fallback pose: the active card lifted to the front, the others fanned out downwards and backwards. */
  function DefaultPose(index: nat, isActive: bool): (p: Pose3d)
    ensures isActive ==> p == ActivePose
    ensures !isActive ==> p.y == 45.0 * index as real && p.z == -30.0 * index as real
    ensures !isActive ==> p.scale + 0.04 * index as real == 1.0
  {
    if isActive then ActivePose
    else Pose3d(index as real * 45.0, -(index as real) * 30.0, 1.0 - index as real * 0.04)
  }

  /** Further down the stack an inactive card sits lower, further back and smaller. */
  lemma DefaultPoseFansOut(i: nat, j: nat)
    requires i < j
    ensures DefaultPose(i, false).y < DefaultPose(j, false).y
    ensures DefaultPose(i, false).z > DefaultPose(j, false).z
    ensures DefaultPose(i, false).scale > DefaultPose(j, false).scale
  {
  }

  /** Stacking order: 50 for the active card, 10 - index for the others. */
  function ZIndex(index: nat, isActive: bool): (z: int)
    ensures z == 50 <==> isActive
    ensures !isActive ==> z <= 10 && z + index == 10
  {
    if isActive then 50 else 10 - index
  }

  /** Inactive cards stack in strictly decreasing order, all below the active card. */
  lemma ZIndexOrder(i: nat, j: nat)
    requires i < j
    ensures ZIndex(i, false) > ZIndex(j, false)
    ensures ZIndex(j, true) > ZIndex(i, false)
  {
  }

  /** The characters `p`-free number formatting never produces matter for reading a transform back. */
  predicate NoP(s: string) {
    forall i :: 0 <= i < |s| ==> s[i] != 'p'
  }

  /**
   * The `translate3d(0, Ypx, Zpx) scale(S)` transform, with `fmt` standing
   * for JavaScript's number-to-string conversion.
   */
  function TransformString(p: Pose3d, fmt: real -> string): (r: string)
    ensures StartsWith(r, "translate3d(0, ")
    ensures r[|r| - 1] == ')'
  {
    "translate3d(0, " + fmt(p.y) + "px, " + fmt(p.z) + "px) scale(" + fmt(p.scale) + ")"
  }

  /** The tail `Zpx) scale(S)` of a transform string can be read back when Z holds no `p`. */
  lemma ScaleTailDetermined(z1: string, s1: string, z2: string, s2: string)
    requires NoP(z1) && NoP(z2)
    requires z1 + "px) scale(" + s1 + ")" == z2 + "px) scale(" + s2 + ")"
    ensures z1 == z2 && s1 == s2
  {
    var u1, u2 := "x) scale(" + s1 + ")", "x) scale(" + s2 + ")";
    assert z1 + "px) scale(" + s1 + ")" == z1 + ['p'] + u1;
    assert z2 + "px) scale(" + s2 + ")" == z2 + ['p'] + u2;
    CutAtMarker(z1, z2, u1, u2, 'p');
    assert u1 == "x) scale(" + (s1 + ")");
    assert u2 == "x) scale(" + (s2 + ")");
    DropPrefix("x) scale(", s1 + ")", s2 + ")");
    assert s1 == (s1 + ")")[..|s1|];
    assert s2 == (s2 + ")")[..|s2|];
  }

  /** The three numbers of a transform string can be read back when none of them holds a `p`. */
  lemma TransformPartsDetermined(y1: string, z1: string, s1: string, y2: string, z2: string, s2: string)
    requires NoP(y1) && NoP(z1) && NoP(y2) && NoP(z2)
    requires "translate3d(0, " + y1 + "px, " + z1 + "px) scale(" + s1 + ")"
          == "translate3d(0, " + y2 + "px, " + z2 + "px) scale(" + s2 + ")"
    ensures y1 == y2 && z1 == z2 && s1 == s2
  {
    var t1, t2 := "x, " + (z1 + "px) scale(" + s1 + ")"), "x, " + (z2 + "px) scale(" + s2 + ")");
    assert "translate3d(0, " + y1 + "px, " + z1 + "px) scale(" + s1 + ")" == "translate3d(0, " + (y1 + ['p'] + t1);
    assert "translate3d(0, " + y2 + "px, " + z2 + "px) scale(" + s2 + ")" == "translate3d(0, " + (y2 + ['p'] + t2);
    DropPrefix("translate3d(0, ", y1 + ['p'] + t1, y2 + ['p'] + t2);
    CutAtMarker(y1, y2, t1, t2, 'p');
    DropPrefix("x, ", z1 + "px) scale(" + s1 + ")", z2 + "px) scale(" + s2 + ")");
    ScaleTailDetermined(z1, s1, z2, s2);
  }

  /**
   * With an injective number formatting that never writes a `p`, the
   * transform string determines the pose: it carries all three values.
   */
  lemma TransformStringDeterminesPose(p1: Pose3d, p2: Pose3d, fmt: real -> string)
    requires forall x, y :: fmt(x) == fmt(y) ==> x == y
    requires forall x :: NoP(fmt(x))
    requires TransformString(p1, fmt) == TransformString(p2, fmt)
    ensures p1 == p2
  {
    TransformPartsDetermined(fmt(p1.y), fmt(p1.z), fmt(p1.scale), fmt(p2.y), fmt(p2.z), fmt(p2.scale));
  }

  const DefaultTransition := "all 0.6s cubic-bezier(0.23, 1, 0.32, 1)"
  const Background := "linear-gradient(135deg, #2b2b2b 0%, #1a1a1a 50%, #000000 100%)"
  const Border := "1px solid rgba(255, 255, 255, 0.15)"
  const BoxShadow := "0 20px 40px -10px rgba(0,0,0,1), 0 0 15px rgba(100, 116, 139, 0.2)"

  /** The keys the card always writes after spreading the passed style. */
  const FixedKeys: set<string> := {"transformStyle", "transition", "zIndex", "background", "border", "boxShadow"}

  /**
   * The card element's inline style: the passed style copied as is, or the
   * fallback transform when none is passed, followed by the card's own keys,
   * which win over anything of the same name in the passed style.
   */
  function FinalStyle(style: Option<Style>, index: nat, isActive: bool, fmt: real -> string): (r: Style)
    ensures forall k :: k in r <==> k in FixedKeys || (style.Some? && k in style.value) || (style.None? && k == "transform")
    ensures r["zIndex"] == Number(ZIndex(index, isActive) as real)
    ensures r["transition"] == if style.Some? then Text("none") else Text(DefaultTransition)
    ensures style.Some? ==> forall k :: k in style.value && k !in FixedKeys ==> r[k] == style.value[k]
    ensures style.None? ==> r["transform"] == Text(TransformString(DefaultPose(index, isActive), fmt))
  {
    var base := if style.Some? then style.value else map["transform" := Text(TransformString(DefaultPose(index, isActive), fmt))];
    base["transformStyle" := Text("preserve-3d")]
        ["transition" := if style.Some? then Text("none") else Text(DefaultTransition)]
        ["zIndex" := Number(ZIndex(index, isActive) as real)]
        ["background" := Text(Background)]
        ["border" := Text(Border)]
        ["boxShadow" := Text(BoxShadow)]
  }

  /** A zIndex in the passed style never reaches the element. */
  lemma PassedZIndexIgnored(style: Style, index: nat, isActive: bool, fmt: real -> string)
    requires "zIndex" in style
    ensures FinalStyle(Some(style), index, isActive, fmt)["zIndex"] == Number(ZIndex(index, isActive) as real)
    ensures style["zIndex"] != Number(ZIndex(index, isActive) as real)
         ==> FinalStyle(Some(style), index, isActive, fmt)["zIndex"] != style["zIndex"]
  {
  }

  /** A passed style without a transform leaves the element with no transform at all: the fallback is not mixed in. */
  lemma PassedStyleReplacesFallback(style: Style, index: nat, isActive: bool, fmt: real -> string)
    requires "transform" !in style
    ensures "transform" !in FinalStyle(Some(style), index, isActive, fmt)
  {
  }

  /** The letter on the logo badge: the first character of the company name, nothing for an empty name. */
  function LogoLetter(company: string): (r: Option<char>)
    ensures r.Some? <==> company != ""
    ensures r.Some? ==> company == [r.value] + company[1..]
  {
    if company == "" then None else Some(company[0])
  }
}
