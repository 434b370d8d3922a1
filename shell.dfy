/** What the Home component renders from its view state: the sidebar, whose
    last entry depends on the president flag, and the greeting header. */
module Shell {
  import opened JsValues

  /** One rendered sidebar entry: a link (route, icon alt text, caption), or a
      bare text node. */
  datatype Item =
    | NavLink(route: string, alt: string, caption: string)
    | Text(text: string)

  /** The five links every user sees, in the order they are rendered. */
  const FixedLinks: seq<Item> := [
    NavLink("/home", "Home", "Inicio"),
    NavLink("/reservations", "Calendar", "Reservas"),
    NavLink("/meetings", "Meeting", "Reuniones"),
    NavLink("/votes", "Vote", "Votaciones"),
    NavLink("/chats", "Chat", "Chats")
  ]

  /** The administrative link shown to presidents only. */
  const SettingsLink: Item := NavLink("/settings", "Settings", "Ajustes")

  /** What the expression `isPresident && (<fragment>)` contributes to the
      sidebar. When the flag is truthy it evaluates to the fragment. When it
      is falsy it evaluates to the flag itself: React renders nothing for
      `undefined`, `null`, `false` and `""`, but renders the number 0 as the
      text "0". */
  function AdminFragment(flag: JsValue): (r: seq<Item>)
    ensures Truthy(flag) <==> r == [SettingsLink]
    ensures r == [Text("0")] <==> flag == Num(0.0)
    ensures r == [] <==> !Truthy(flag) && flag != Num(0.0)
  {
    if Truthy(flag) then [SettingsLink]
    else if flag == Num(0.0) then [Text("0")]
    else []
  }

  /** The sidebar for a given president flag. */
  function Sidebar(flag: JsValue): (r: seq<Item>)
    ensures 5 <= |r| <= 6 && r[..5] == FixedLinks
    ensures SettingsLink in r <==> Truthy(flag)
    ensures Truthy(flag) ==> |r| == 6 && r[5] == SettingsLink
    ensures forall i :: 5 <= i < |r| && !Truthy(flag) ==> r[i] == Text("0")
    ensures |r| == 5 <==> !Truthy(flag) && flag != Num(0.0)
    ensures forall i, j :: 0 <= i < j < |r| && r[i].NavLink? && r[j].NavLink? ==> r[i].route != r[j].route
  {
    FixedLinks + AdminFragment(flag)
  }

  /** The fixed text around the community name in the header. */
  const HeaderPrefix: string := "Bienvenido a \""
  const HeaderSuffix: string := "\""

  /** The text of the header: the name in double quotes after the greeting. */
  function Header(communityName: string): (h: string)
    ensures |h| == |HeaderPrefix| + |communityName| + |HeaderSuffix|
    ensures h[..|HeaderPrefix|] == HeaderPrefix && h[|h| - 1] == '"'
    ensures h[|HeaderPrefix|..|h| - 1] == communityName
  {
    HeaderPrefix + communityName + HeaderSuffix
  }

  /** Reads the community name back out of a header text, if it is one. */
  function HeaderName(h: string): (r: Option<string>) {
    if |h| >= |HeaderPrefix| + |HeaderSuffix| && h[..|HeaderPrefix|] == HeaderPrefix
       && h[|h| - |HeaderSuffix|..] == HeaderSuffix
    then Some(h[|HeaderPrefix|..|h| - |HeaderSuffix|])
    else None
  }

  /** The header shows exactly the community name: it can be read back. */
  lemma HeaderRoundTrip(communityName: string)
    ensures HeaderName(Header(communityName)) == Some(communityName)
  {
  }

  /** Every text HeaderName accepts is the header of the name it returns. */
  lemma HeaderNameSound(h: string, communityName: string)
    requires HeaderName(h) == Some(communityName)
    ensures Header(communityName) == h
  {
  }

  /** Two different names never produce the same header. */
  lemma HeaderInjective(a: string, b: string)
    requires Header(a) == Header(b)
    ensures a == b
  {
  }
}
