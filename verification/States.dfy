/** Firmware state names are compared by meaning, never by their spelling. */
module States {

  function Lower(c: char): (r: char) {
    if 'A' <= c <= 'Z' then (c as int + 32) as char else c
  }

  predicate Blank(c: char) {
    c == ' ' || c == '\t' || c == '\n' || c == '\r'
  }

  function StripLeft(s: string): string {
    if s != "" && Blank(s[0]) then StripLeft(s[1..]) else s
  }

  function StripRight(s: string): string {
    if s != "" && Blank(s[|s| - 1]) then StripRight(s[..|s| - 1]) else s
  }

  function Folded(s: string): string {
    seq(|s|, i requires 0 <= i < |s| => Lower(s[i]))
  }

  function Alias(s: string): string {
    if s == "optl" then "optimal"
    else if s == "msng" then "missing"
    else if s == "offln" || s == "ofln" then "offline"
    else if s == "dgrd" then "degraded"
    else if s == "pdgd" || s == "partially-degraded" then "partially degraded"
    else s
  }

  function NormalizedState(state: string): string {
    Alias(Folded(StripRight(StripLeft(state))))
  }

  /** Neither end is blank and no letter is upper case: folding and stripping change nothing. */
  predicate Plain(s: string) {
    && (s != "" ==> !Blank(s[0]) && !Blank(s[|s| - 1]))
    && (forall i :: 0 <= i < |s| ==> Lower(s[i]) == s[i])
  }

  lemma PlainIsUnchanged(s: string)
    requires Plain(s)
    ensures Folded(StripRight(StripLeft(s))) == s
  {
  }

  lemma {:induction false} StrippedLeft(s: string)
    ensures var r := StripLeft(s); |r| <= |s| && (r != "" ==> !Blank(r[0])) && r == s[|s| - |r|..]
  {
    if s == "" || !Blank(s[0]) {
    } else {
      StrippedLeft(s[1..]);
    }
  }

  lemma {:induction false} StrippedRight(s: string)
    ensures var r := StripRight(s); |r| <= |s| && (r != "" ==> !Blank(r[|r| - 1])) && r == s[..|r|]
  {
    if s == "" || !Blank(s[|s| - 1]) {
    } else {
      StrippedRight(s[..|s| - 1]);
    }
  }

  lemma TrimmedFoldsToPlain(s: string)
    requires s != "" ==> !Blank(s[0]) && !Blank(s[|s| - 1])
    ensures Plain(Folded(s))
  {
  }

  lemma FoldedIsPlain(state: string)
    ensures Plain(Folded(StripRight(StripLeft(state))))
  {
    var left := StripLeft(state);
    StrippedLeft(state);
    StrippedRight(left);
    TrimmedFoldsToPlain(StripRight(left));
  }

  lemma NamesArePlain()
    ensures Plain("optimal") && Plain("missing") && Plain("offline") && Plain("degraded") && Plain("partially degraded")
  {
  }

  lemma NamesAreFinal()
    ensures Alias("optimal") == "optimal" && Alias("missing") == "missing" && Alias("offline") == "offline"
    ensures Alias("degraded") == "degraded" && Alias("partially degraded") == "partially degraded"
  {
  }

  lemma AliasIsPlain(s: string)
    requires Plain(s)
    ensures Plain(Alias(s)) && Alias(Alias(s)) == Alias(s)
  {
    NamesArePlain();
    NamesAreFinal();
  }

  /** A normalized state is its own normal form, so comparing normal forms is an equivalence of spellings. */
  lemma NormalizedOnce(state: string)
    ensures NormalizedState(NormalizedState(state)) == NormalizedState(state)
  {
    var folded := Folded(StripRight(StripLeft(state)));
    FoldedIsPlain(state);
    AliasIsPlain(folded);
    PlainIsUnchanged(Alias(folded));
  }
}
