/** Handling of the markdown bold marker "**" in solution steps: the PDF
    export removes every marker, the on-screen list replaces every marker with
    "<strong>". Both are `step.replace` with a global regular expression
    matching two literal asterisks: it scans left to right and never lets two
    matches overlap. */
module Markdown {

  /** Global replacement of "**" by `rep`. */
  function ReplaceBold(s: string, rep: string): string
    decreases |s|
  {
    if |s| < 2 then s
    else if s[0] == '*' && s[1] == '*' then rep + ReplaceBold(s[2..], rep)
    else [s[0]] + ReplaceBold(s[1..], rep)
  }

  /** Removal of every "**", as the PDF export applies it to each step. */
  function StripBold(s: string): string {
    ReplaceBold(s, "")
  }

  /** No two adjacent asterisks anywhere in `s`. */
  predicate NoDoubleStar(s: string) {
    forall i :: 0 <= i < |s| - 1 ==> !(s[i] == '*' && s[i + 1] == '*')
  }

  /** The characters of `s` other than '*', in order. */
  function Unstarred(s: string): string {
    if s == [] then [] else (if s[0] == '*' then [] else [s[0]]) + Unstarred(s[1..])
  }

  lemma ReplaceBoldKeepsFirst(s: string, rep: string)
    requires |s| > 0 && s[0] != '*'
    ensures |ReplaceBold(s, rep)| > 0 && ReplaceBold(s, rep)[0] == s[0]
  {
  }

  /** Joining two strings without a "**" creates none unless one ends and
      the other starts with an asterisk. */
  lemma NoDoubleStarAppend(a: string, b: string)
    requires NoDoubleStar(a) && NoDoubleStar(b)
    requires a == [] || b == [] || a[|a| - 1] != '*' || b[0] != '*'
    ensures NoDoubleStar(a + b)
  {
    var t := a + b;
    forall i | 0 <= i < |t| - 1 ensures !(t[i] == '*' && t[i + 1] == '*') {
      if i + 1 < |a| {
        assert t[i] == a[i] && t[i + 1] == a[i + 1];
      } else if i >= |a| {
        assert t[i] == b[i - |a|] && t[i + 1] == b[i + 1 - |a|];
      }
    }
  }

  /** After the global replacement no "**" is left when the replacement holds
      no asterisk, whatever the step held (a run of three asterisks leaves a
      single one): markers are all removed, or all converted. */
  lemma {:induction false} ReplaceBoldNoDoubleStar(s: string, rep: string)
    requires forall i :: 0 <= i < |rep| ==> rep[i] != '*'
    ensures NoDoubleStar(ReplaceBold(s, rep))
    decreases |s|
  {
    if |s| < 2 {
    } else if s[0] == '*' && s[1] == '*' {
      ReplaceBoldNoDoubleStar(s[2..], rep);
      NoDoubleStarAppend(rep, ReplaceBold(s[2..], rep));
    } else {
      ReplaceBoldNoDoubleStar(s[1..], rep);
      var rest := ReplaceBold(s[1..], rep);
      if s[0] == '*' {
        ReplaceBoldKeepsFirst(s[1..], rep);
      }
      NoDoubleStarAppend([s[0]], rest);
    }
  }

  lemma StripBoldNoDoubleStar(s: string)
    ensures NoDoubleStar(StripBold(s))
  {
    ReplaceBoldNoDoubleStar(s, "");
  }

  /** A step with no marker in it is left exactly as it was, for any
      replacement text. */
  lemma {:induction false} ReplaceBoldKeepsClean(s: string, rep: string)
    requires NoDoubleStar(s)
    ensures ReplaceBold(s, rep) == s
    decreases |s|
  {
    if |s| >= 2 {
      assert !(s[0] == '*' && s[1] == '*');
      ReplaceBoldKeepsClean(s[1..], rep);
    }
  }

  /** Removing the markers a second time changes nothing. */
  lemma StripBoldIdempotent(s: string)
    ensures StripBold(StripBold(s)) == StripBold(s)
  {
    StripBoldNoDoubleStar(s);
    ReplaceBoldKeepsClean(StripBold(s), "");
  }

  lemma {:induction false} UnstarredAppend(a: string, b: string)
    ensures Unstarred(a + b) == Unstarred(a) + Unstarred(b)
    decreases |a|
  {
    if a == [] {
      assert a + b == b;
    } else {
      assert (a + b)[1..] == a[1..] + b;
      UnstarredAppend(a[1..], b);
    }
  }

  /** Only asterisks are removed: every other character of the step survives,
      in its original order. */
  lemma {:induction false} StripBoldKeepsText(s: string)
    ensures Unstarred(StripBold(s)) == Unstarred(s)
    decreases |s|
  {
    if |s| < 2 {
    } else if s[0] == '*' && s[1] == '*' {
      StripBoldKeepsText(s[2..]);
      assert s[1..][1..] == s[2..];
      assert Unstarred(s) == Unstarred(s[1..]) == Unstarred(s[2..]);
      assert StripBold(s) == "" + StripBold(s[2..]) == StripBold(s[2..]);
    } else {
      StripBoldKeepsText(s[1..]);
      UnstarredAppend([s[0]], StripBold(s[1..]));
      assert s == [s[0]] + s[1..];
      UnstarredAppend([s[0]], s[1..]);
    }
  }
}
