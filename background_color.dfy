/** The Android background-colour helper: a symbolic colour name picked by
    the `backgroundcolor` option is resolved to one of the plugin's colour
    resources. The resource identifiers themselves are generated code, so the
    resources are modelled as an enumeration. */
module BackgroundColor {

  /** The `R.color` resources the helper can return. */
  datatype ColorResource = White | Ivory | LightGrey | DarkGrey | DimGrey | Transparent | Black

  /** The names that select a resource other than the black fallback. */
  const KnownNames: set<string> := {"white", "ivory", "lightgrey", "darkgrey", "dimgrey", "blur"}

  /** `setBackColor`: exact, case-sensitive lookup of the colour name, with
      opaque black for every other string. */
  function SetBackColor(color: string): (c: ColorResource)
    ensures c == White <==> color == "white"
    ensures c == Ivory <==> color == "ivory"
    ensures c == LightGrey <==> color == "lightgrey"
    ensures c == DarkGrey <==> color == "darkgrey"
    ensures c == DimGrey <==> color == "dimgrey"
    ensures c == Transparent <==> color == "blur"
    ensures c == Black <==> color !in KnownNames
  {
    match color
    case "white" => White
    case "ivory" => Ivory
    case "lightgrey" => LightGrey
    case "darkgrey" => DarkGrey
    case "dimgrey" => DimGrey
    case "blur" => Transparent
    case _ => Black
  }

  /** A colour name that selects each resource; black is reached through the
      fallback. */
  function NameOf(c: ColorResource): (name: string)
    ensures c != Black ==> name in KnownNames
  {
    match c
    case White => "white"
    case Ivory => "ivory"
    case LightGrey => "lightgrey"
    case DarkGrey => "darkgrey"
    case DimGrey => "dimgrey"
    case Transparent => "blur"
    case Black => "black"
  }

  /** Every resource is reachable, and each known name is the only name of
      its resource: the lookup and NameOf are inverse on the known names. */
  lemma ResolveRoundTrip(c: ColorResource, name: string)
    ensures SetBackColor(NameOf(c)) == c
    ensures SetBackColor(name) != Black ==> NameOf(SetBackColor(name)) == name
  {
  }

  /** Matching is exact: a different case, a trailing blank, the empty
      string and "black" all fall back to black. */
  lemma ExactMatchOnly()
    ensures SetBackColor("White") == Black
    ensures SetBackColor("white ") == Black
    ensures SetBackColor("") == Black
    ensures SetBackColor("black") == Black
  {
  }
}
