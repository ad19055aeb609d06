/** Labels and annotations, of which the platform hides some (pkg/convert/hiddenmeta.go).
 */
module Metadata {

  type Pairs = map<string, string>

  function Visible(hides: string -> bool, m: Pairs): Pairs {
    map k | k in m && !hides(k) :: m[k]
  }

  function Hidden(hides: string -> bool, m: Pairs): Pairs {
    map k | k in m && hides(k) :: m[k]
  }

  lemma SplitsBack(hides: string -> bool, submitted: Pairs, stored: Pairs)
    ensures Visible(hides, Visible(hides, submitted) + Hidden(hides, stored)) == Visible(hides, submitted)
    ensures Hidden(hides, Visible(hides, submitted) + Hidden(hides, stored)) == Hidden(hides, stored)
  {
  }

  lemma SplitsUp(hides: string -> bool, m: Pairs)
    ensures Visible(hides, m) + Hidden(hides, m) == m
  {
  }
}
