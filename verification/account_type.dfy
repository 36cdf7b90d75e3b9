/** The closed set of account types, each with its display name, hiscores
    endpoint prefix and icon file, as the `AccountType` enum declares them. */
module AccountTypes {
  import opened Base

  datatype AccountType = Normal | Ironman | HardcoreIronman | UltimateIronman

  /** The common tail of every endpoint prefix: the player name is appended after it. */
  const EndpointTail: string := "index_lite.json?player="

  const AllTypes: seq<AccountType> := [Normal, Ironman, HardcoreIronman, UltimateIronman]

  /** `AccountType.values()` lists every variant exactly once. */
  lemma AllTypesComplete(t: AccountType)
    ensures t in AllTypes
    ensures |AllTypes| == 4
    ensures forall i, j :: 0 <= i < j < |AllTypes| ==> AllTypes[i] != AllTypes[j]
  {
  }

  /** `name()`: the constant's identifier, which is what the configuration stores. */
  function Name(t: AccountType): string {
    match t
    case Normal => "NORMAL"
    case Ironman => "IRONMAN"
    case HardcoreIronman => "HARDCORE_IRONMAN"
    case UltimateIronman => "ULTIMATE_IRONMAN"
  }

  /** `getDisplayName()`, which `toString()` also returns. */
  function DisplayName(t: AccountType): string {
    match t
    case Normal => "Normal"
    case Ironman => "Ironman"
    case HardcoreIronman => "Hardcore Ironman"
    case UltimateIronman => "Ultimate Ironman"
  }

  /** The part every endpoint prefix starts with. */
  const HiscoresBase: string := "https://services.runescape.com/m=hiscore_oldschool"

  /** What follows `hiscore_oldschool` in each table's path. */
  function TableSuffix(t: AccountType): string {
    match t
    case Normal => ""
    case Ironman => "_ironman"
    case HardcoreIronman => "_hardcore_ironman"
    case UltimateIronman => "_ultimate"
  }

  /** `getApiUrl()`: the endpoint prefix of the account type's hiscores table,
      spelled as the base, the table suffix, a slash and the common tail. */
  function ApiUrl(t: AccountType): (url: string)
    ensures |url| >= |EndpointTail| && url[|url| - |EndpointTail|..] == EndpointTail
    ensures |url| > |HiscoresBase| && url[..|HiscoresBase|] == HiscoresBase
  {
    HiscoresBase + TableSuffix(t) + "/" + EndpointTail
  }

  /** `getIconFileName()`. */
  function IconFileName(t: AccountType): string {
    match t
    case Normal => "normal_icon.png"
    case Ironman => "ironman_icon.png"
    case HardcoreIronman => "hardcore_ironman_icon.png"
    case UltimateIronman => "ultimate_ironman_icon.png"
  }

  /** `AccountType.valueOf(s)`: the variant whose identifier is exactly `s`,
      or `None` where Java throws `IllegalArgumentException`. */
  function ValueOf(s: string): (r: Option<AccountType>)
    ensures r.Some? ==> Name(r.value) == s
    ensures (exists t :: Name(t) == s) ==> r.Some?
  {
    if s == "NORMAL" then Some(Normal)
    else if s == "IRONMAN" then Some(Ironman)
    else if s == "HARDCORE_IRONMAN" then Some(HardcoreIronman)
    else if s == "ULTIMATE_IRONMAN" then Some(UltimateIronman)
    else None
  }

  /** Storing a type by `name()` and reading it back with `valueOf` gives the same type. */
  lemma ValueOfName(t: AccountType)
    ensures ValueOf(Name(t)) == Some(t)
  {
  }

  /** The four endpoints are pairwise distinct, and so are the four display names,
      so the account type alone decides which table is queried. */
  lemma EndpointsDistinct(a: AccountType, b: AccountType)
    requires a != b
    ensures ApiUrl(a) != ApiUrl(b)
    ensures DisplayName(a) != DisplayName(b)
    ensures Name(a) != Name(b)
  {
    // the four prefixes differ in length, because their table suffixes do
    assert |ApiUrl(a)| == |HiscoresBase| + |TableSuffix(a)| + 1 + |EndpointTail|;
    assert |ApiUrl(b)| == |HiscoresBase| + |TableSuffix(b)| + 1 + |EndpointTail|;
    assert DisplayName(HardcoreIronman)[0] != DisplayName(UltimateIronman)[0];
    assert Name(HardcoreIronman)[0] != Name(UltimateIronman)[0];
  }
}
