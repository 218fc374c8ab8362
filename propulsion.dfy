/** The propulsion key the simulator and the backend pass around as a string
    ('chemical', 'ion', 'nuclear', 'solar'). Both index their tables by it;
    any other string is an unrecognised key. */
module Propulsion {

  datatype Kind = Chemical | Ion | Nuclear | Solar | Unrecognized(key: string)

  const KnownKeys: set<string> := {"chemical", "ion", "nuclear", "solar"}

  /** The key string of a recognised propulsion type. */
  function Key(k: Kind): (s: string)
    requires !k.Unrecognized?
    ensures s in KnownKeys
  {
    match k
    case Chemical => "chemical"
    case Ion => "ion"
    case Nuclear => "nuclear"
    case Solar => "solar"
  }

  /** The propulsion type a key string names. */
  function FromKey(s: string): (k: Kind)
    ensures k.Unrecognized? <==> s !in KnownKeys
    ensures k.Unrecognized? ==> k.key == s
    ensures !k.Unrecognized? ==> Key(k) == s
  {
    if s == "chemical" then Chemical
    else if s == "ion" then Ion
    else if s == "nuclear" then Nuclear
    else if s == "solar" then Solar
    else Unrecognized(s)
  }

  /** Naming a recognised type and reading the name back gives the same type. */
  lemma KeyRoundTrip(k: Kind)
    requires !k.Unrecognized?
    ensures FromKey(Key(k)) == k
  {
  }
}
