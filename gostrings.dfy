/** The two library string splits the resolver relies on, with a Go string
    taken as a sequence of bytes, one `char` per byte. */
module GoStrings {

  /** strings.Join with a one-character separator. */
  function Join(parts: seq<string>, sep: char): (s: string)
    requires |parts| >= 1
    ensures parts[0] <= s
    ensures |parts| > 1 ==> |s| > |parts[0]| && s[|parts[0]|] == sep
  {
    if |parts| == 1 then parts[0] else parts[0] + [sep] + Join(parts[1..], sep)
  }

  /** bytes.SplitN(s, sep, 2): the text before and after the first separator,
      or the whole input when it holds none. */
  function SplitFirst(s: string, sep: char): (parts: seq<string>)
    ensures |parts| == if sep in s then 2 else 1
    ensures sep !in s ==> parts == [s]
    ensures sep in s ==> s == parts[0] + [sep] + parts[1] && sep !in parts[0]
  {
    if s == [] then [s]
    else if s[0] == sep then [[], s[1..]]
    else
      var rest := SplitFirst(s[1..], sep);
      assert s == [s[0]] + s[1..];
      if |rest| == 1 then [s] else [[s[0]] + rest[0], rest[1]]
  }

  /** strings.Split with a one-character separator: one part more than there
      are separators, no part holds a separator, and joining the parts gives
      back the input. */
  function Split(s: string, sep: char): (parts: seq<string>)
    ensures |parts| == multiset(s)[sep] + 1
    ensures forall i :: 0 <= i < |parts| ==> sep !in parts[i]
    ensures Join(parts, sep) == s
    decreases |s|
  {
    var halves := SplitFirst(s, sep);
    if |halves| == 1 then [s]
    else
      var parts := [halves[0]] + Split(halves[1], sep);
      assert parts[1..] == Split(halves[1], sep);
      assert multiset(s) == multiset(halves[0]) + multiset([sep]) + multiset(halves[1]);
      parts
  }

  /** Splitting in two parts at one separator gives back the two parts. */
  lemma SplitTwo(s: string, sep: char)
    requires |Split(s, sep)| == 2
    ensures s == Split(s, sep)[0] + [sep] + Split(s, sep)[1]
  {
    var parts := Split(s, sep);
    assert parts[1..] == [parts[1]];
    assert Join(parts, sep) == parts[0] + [sep] + Join([parts[1]], sep);
  }
}
