/** The JavaScript string operations the workers use, on ASCII letters, and truthiness of nullable strings. */
module JsText {
  import opened Wrappers

  function LowerChar(c: char): char {
    if 'A' <= c <= 'Z' then c - 'A' + 'a' else c
  }

  function UpperChar(c: char): char {
    if 'a' <= c <= 'z' then c - 'a' + 'A' else c
  }

  function Lower(s: string): (t: string)
    ensures |t| == |s|
  {
    seq(|s|, i requires 0 <= i < |s| => LowerChar(s[i]))
  }

  function Upper(s: string): (t: string)
    ensures |t| == |s|
  {
    seq(|s|, i requires 0 <= i < |s| => UpperChar(s[i]))
  }

  predicate NoneBetween(s: string, first: char, last: char) {
    forall i :: 0 <= i < |s| ==> !(first <= s[i] <= last)
  }

  /**
    What folding does: it leaves no letter of the other case, each folding undoes the other, a text
    without such letters stays as it is, and the letters keep their distance from each other.
  */
  lemma Folds(s: string)
    ensures NoneBetween(Upper(s), 'a', 'z') && NoneBetween(Lower(s), 'A', 'Z')
    ensures Lower(Upper(s)) == Lower(s) && Upper(Lower(s)) == Upper(s)
    ensures NoneBetween(s, 'a', 'z') ==> Upper(s) == s
    ensures NoneBetween(s, 'A', 'Z') ==> Lower(s) == s
    ensures forall i, j :: 0 <= i < |s| && 0 <= j < |s| && 'a' <= s[i] <= 'z' && 'a' <= s[j] <= 'z' ==>
              Upper(s)[i] as int - Upper(s)[j] as int == s[i] as int - s[j] as int
  {
  }

  /** JavaScript truthiness of a nullable string. */
  predicate Truthy(s: Option<string>) {
    s.Some? && s.value != ""
  }

  function UpperOrNone(s: Option<string>): Option<string> {
    if Truthy(s) then Some(Upper(s.value)) else s
  }

  function Or(a: Option<string>, b: Option<string>): Option<string> {
    if Truthy(a) then a else b
  }
}
