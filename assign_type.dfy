/** Assignment operator kinds (Runtime/Language_/assign_type.py). */
module AssignTypes {
  import opened Wrappers

  datatype AssignType = PlainAssign | PlusAssign | MinusAssign | SlashAssign | StarAssign | NoAssign

  /** The enumeration's members in declaration order. */
  const Members: seq<AssignType> := [PlainAssign, PlusAssign, MinusAssign, SlashAssign, StarAssign, NoAssign]

  /** The `value` of each member. */
  function Value(m: AssignType): string
  {
    match m
    case PlainAssign => "="
    case PlusAssign => "+="
    case MinusAssign => "-="
    case SlashAssign => "/="
    case StarAssign => "*="
    case NoAssign => "none"
  }

  /** The first member of `ms` whose value is `s`. */
  function Search(s: string, ms: seq<AssignType>): (r: Option<AssignType>)
    ensures r.Some? ==> r.value in ms && Value(r.value) == s
    ensures r.None? ==> forall m :: m in ms ==> Value(m) != s
  {
    if ms == [] then None
    else if Value(ms[0]) == s then Some(ms[0])
    else Search(s, ms[1..])
  }

  /** `AssignType.get_type`: the member whose value is the string, or None. */
  function GetType(s: string): (r: Option<AssignType>)
  {
    Search(s, Members)
  }

  /** Member values are pairwise distinct. */
  lemma ValuesDistinct(a: AssignType, b: AssignType)
    requires a != b
    ensures Value(a) != Value(b)
  {
  }

  /** Looking a member's value up gives the member back. */
  lemma {:induction false} GetTypeRoundTrip(m: AssignType)
    ensures GetType(Value(m)) == Some(m)
  {
    var r := GetType(Value(m));
    assert m in Members;
    assert r.Some?;
    if r.value != m {
      ValuesDistinct(r.value, m);
    }
  }

  /** A string that is no member's value maps to None. */
  lemma NonMemberIsNone(s: string)
    requires forall m: AssignType :: Value(m) != s
    ensures GetType(s) == None
  {
  }

  /** The five operator lexemes name real assignment kinds. */
  lemma OperatorLexemes()
    ensures GetType("=") == Some(PlainAssign)
    ensures GetType("+=") == Some(PlusAssign)
    ensures GetType("-=") == Some(MinusAssign)
    ensures GetType("*=") == Some(StarAssign)
    ensures GetType("/=") == Some(SlashAssign)
  {
    GetTypeRoundTrip(PlainAssign);
    GetTypeRoundTrip(PlusAssign);
    GetTypeRoundTrip(MinusAssign);
    GetTypeRoundTrip(StarAssign);
    GetTypeRoundTrip(SlashAssign);
  }
}
