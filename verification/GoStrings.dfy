/** The string functions of the Go standard library that the inventory clients use. */
module GoStrings {
  predicate SlashFree(s: string) {
    '/' !in s
  }

  /** strings.SplitN(s, "/", 2). */
  function SplitOnce(s: string): (parts: seq<string>)
    ensures 1 <= |parts| <= 2
    ensures |parts| == 1 <==> SlashFree(s)
    ensures |parts| == 1 ==> parts[0] == s
    ensures |parts| == 2 ==> s == parts[0] + "/" + parts[1] && SlashFree(parts[0])
  {
    if s == "" then [s]
    else if s[0] == '/' then ["", s[1..]]
    else
      var rest := SplitOnce(s[1..]);
      [[s[0]] + rest[0]] + rest[1..]
  }

  lemma {:induction false} SplitJoined(namespace: string, name: string)
    requires SlashFree(namespace)
    ensures SplitOnce(namespace + "/" + name) == [namespace, name]
  {
    var s := namespace + "/" + name;
    if namespace == "" {
      assert s[1..] == name;
    } else {
      SplitJoined(namespace[1..], name);
      assert s[0] == namespace[0] && namespace[0] in namespace;
      assert s[1..] == namespace[1..] + "/" + name;
      assert [namespace[0]] + namespace[1..] == namespace;
    }
  }

  /** strings.ReplaceAll with a one-character pattern. */
  function ReplaceAll(s: string, c: char, sub: string): string {
    if s == "" then "" else (if s[0] == c then sub else [s[0]]) + ReplaceAll(s[1..], c, sub)
  }

  lemma {:induction false} ReplaceAllConcat(s: string, t: string, c: char, sub: string)
    ensures ReplaceAll(s + t, c, sub) == ReplaceAll(s, c, sub) + ReplaceAll(t, c, sub)
  {
    if s == "" {
      assert s + t == t;
    } else {
      assert (s + t)[1..] == s[1..] + t;
      ReplaceAllConcat(s[1..], t, c, sub);
    }
  }

  /** The strings in a slice. */
  function Elements(xs: seq<string>): set<string> {
    set x | x in xs
  }
}
