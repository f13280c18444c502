/** Small text operations, on ASCII letters and blanks. */
module Text {
  predicate StartsWith(s: string, prefix: string) { |prefix| <= |s| && s[..|prefix|] == prefix }

  function LowerChar(c: char): char { if 'A' <= c <= 'Z' then c - 'A' + 'a' else c }

  function Lower(s: string): (t: string)
    ensures |t| == |s| && forall i | 0 <= i < |s| :: t[i] == LowerChar(s[i])
  {
    seq(|s|, i requires 0 <= i < |s| => LowerChar(s[i]))
  }

  predicate Blank(c: char) { c in {' ', '\t', '\n', '\r'} }

  predicate Trimmed(s: string) { s == "" || (!Blank(s[0]) && !Blank(s[|s| - 1])) }

  function Trim(s: string): (t: string)
    ensures Trimmed(t) && (Trimmed(s) ==> t == s)
  {
    if s != "" && Blank(s[0]) then Trim(s[1..])
    else if s != "" && Blank(s[|s| - 1]) then Trim(s[..|s| - 1])
    else s
  }

  /** `trim` and `to_lowercase`: the form under which entities are kept and looked up. */
  function Key(s: string): string { Lower(Trim(s)) }

  lemma KeyOfKey(s: string)
    ensures Key(Key(s)) == Key(s)
  {
    assert Trimmed(Key(s));
    assert Lower(Key(s)) == Key(s);
  }
}
