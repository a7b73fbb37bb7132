/**
 * The bottom navigation bar: which of its four tabs is highlighted for the
 * current pathname, and the link its card tab points at, built from the
 * signed-in user's profile as `/card/<slug>?id=<id>&c=<company>`.
 * `encodeURIComponent` is a parameter `enc`.
 */
module BottomNav {
  import opened JsValues
  import opened ProfileContext

  datatype Tab = HomeTab | CardTab | WalletTab | SettingsTab

  const HomePath := "/dashboard"
  const CardPrefix := "/card"
  const WalletPath := "/wallet"
  const SettingsPath := "/settings"
  const DefaultSlug := "my-card"

  /** Home, Wallet and Settings light up on their exact path; the card tab on any path under `/card`. */
  predicate TabActive(tab: Tab, pathname: string) {
    match tab
    case HomeTab => pathname == HomePath
    case CardTab => StartsWith(pathname, CardPrefix)
    case WalletTab => pathname == WalletPath
    case SettingsTab => pathname == SettingsPath
  }

  /** No pathname highlights two tabs at once. */
  lemma AtMostOneTabActive(pathname: string, t1: Tab, t2: Tab)
    requires TabActive(t1, pathname) && TabActive(t2, pathname)
    ensures t1 == t2
  {
    assert HomePath[1] == 'd' && WalletPath[1] == 'w' && SettingsPath[1] == 's' && CardPrefix[1] == 'c';
    assert |HomePath| == 10 && |WalletPath| == 7 && |SettingsPath| == 9 && |CardPrefix| == 5;
    if StartsWith(pathname, CardPrefix) {
      assert pathname[1] == 'c';
    }
  }

  /** `profile.profileSlug || 'my-card'`: never empty. */
  function CardSlug(profile: UserProfile): (slug: string)
    ensures Truthy(Get(profile.text, ProfileSlug)) ==> slug == Get(profile.text, ProfileSlug).value
    ensures !Truthy(Get(profile.text, ProfileSlug)) ==> slug == DefaultSlug
    ensures slug != ""
  {
    OrElse(Get(profile.text, ProfileSlug), DefaultSlug)
  }

  /** `profile.id || ''`. */
  function CardId(profile: UserProfile): (id: string)
    ensures Truthy(Get(profile.text, Id)) ==> id == Get(profile.text, Id).value
    ensures !Truthy(Get(profile.text, Id)) ==> id == ""
  {
    OrElse(Get(profile.text, Id), "")
  }

  /** The `c` parameter: the encoded company name when there is one, else empty. */
  function CompanyParam(profile: UserProfile, enc: string -> string): (c: string)
    ensures Truthy(Get(profile.text, CompanyName)) ==> c == enc(Get(profile.text, CompanyName).value)
    ensures !Truthy(Get(profile.text, CompanyName)) ==> c == ""
  {
    if Truthy(Get(profile.text, CompanyName)) then enc(Get(profile.text, CompanyName).value) else ""
  }

  /** `/card/${slug}?id=${id}&c=${company}`. */
  function LinkText(slug: string, id: string, company: string): string {
    "/card/" + slug + "?id=" + id + "&c=" + company
  }

  /** The card tab's link: `/card/` + slug + `?id=` + id + `&c=` + company, and nothing else. */
  function CardLink(profile: UserProfile, enc: string -> string): (link: string)
    ensures link == LinkText(CardSlug(profile), CardId(profile), CompanyParam(profile, enc))
    ensures StartsWith(link, CardPrefix)
  {
    var link := LinkText(CardSlug(profile), CardId(profile), CompanyParam(profile, enc));
    assert link[..|CardPrefix|] == CardPrefix;
    link
  }

  /** The link text splits back into its three parts when the slug holds no `?` and the id no `&`. */
  lemma LinkTextInjective(s1: string, i1: string, c1: string, s2: string, i2: string, c2: string)
    requires '?' !in s1 && '?' !in s2 && '&' !in i1 && '&' !in i2
    requires LinkText(s1, i1, c1) == LinkText(s2, i2, c2)
    ensures s1 == s2 && i1 == i2 && c1 == c2
  {
    var rest1, rest2 := "c=" + c1, "c=" + c2;
    var tail1, tail2 := "id=" + (i1 + ['&'] + rest1), "id=" + (i2 + ['&'] + rest2);
    LinkTextShape(s1, i1, c1);
    LinkTextShape(s2, i2, c2);
    DropPrefix("/card/", s1 + ['?'] + tail1, s2 + ['?'] + tail2);
    CutAtMarker(s1, s2, tail1, tail2, '?');
    DropPrefix("id=", i1 + ['&'] + rest1, i2 + ['&'] + rest2);
    CutAtMarker(i1, i2, rest1, rest2, '&');
    DropPrefix("c=", c1, c2);
  }

  /** The link text regrouped around its two markers. */
  lemma LinkTextShape(s: string, i: string, c: string)
    ensures LinkText(s, i, c) == "/card/" + (s + ['?'] + ("id=" + (i + ['&'] + ("c=" + c))))
  {
    assert "?id=" == ['?'] + "id=";
    assert "&c=" == ['&'] + "c=";
  }

  /** The page the card link opens has the pathname `/card/<slug>`, which highlights the card tab and only it. */
  lemma CardLinkHighlightsCardTab(profile: UserProfile, tab: Tab)
    ensures TabActive(tab, "/card/" + CardSlug(profile)) <==> tab == CardTab
  {
    var path := "/card/" + CardSlug(profile);
    assert path[..|CardPrefix|] == CardPrefix;
    if TabActive(tab, path) {
      AtMostOneTabActive(path, tab, CardTab);
    }
  }

  /**
   * The link can be read back: as long as the slug holds no `?` and the id
   * no `&`, two profiles with the same link have the same slug, the same id
   * and the same `c` parameter.
   */
  lemma CardLinkDeterminesParts(p1: UserProfile, p2: UserProfile, enc: string -> string)
    requires '?' !in CardSlug(p1) && '?' !in CardSlug(p2)
    requires '&' !in CardId(p1) && '&' !in CardId(p2)
    requires CardLink(p1, enc) == CardLink(p2, enc)
    ensures CardSlug(p1) == CardSlug(p2) && CardId(p1) == CardId(p2)
    ensures CompanyParam(p1, enc) == CompanyParam(p2, enc)
  {
    LinkTextInjective(CardSlug(p1), CardId(p1), CompanyParam(p1, enc), CardSlug(p2), CardId(p2), CompanyParam(p2, enc));
  }

  /**
   * With an injective encoding that keeps non-empty names non-empty, the
   * `c` parameter tells whether there is a company name and which one.
   */
  lemma CompanyParamDeterminesName(p1: UserProfile, p2: UserProfile, enc: string -> string)
    requires forall a, b :: enc(a) == enc(b) ==> a == b
    requires forall a :: a != "" ==> enc(a) != ""
    requires CompanyParam(p1, enc) == CompanyParam(p2, enc)
    ensures Truthy(Get(p1.text, CompanyName)) <==> Truthy(Get(p2.text, CompanyName))
    ensures Truthy(Get(p1.text, CompanyName)) ==> Get(p1.text, CompanyName) == Get(p2.text, CompanyName)
  {
  }
}
