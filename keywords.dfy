/** The keyword rule tables the mock services are made of: an `if … else if …` chain
    of `text.includes(a) || text.includes(b)` tests picks the first rule that
    matches, and a run of independent `if` tests that each `push` a tag collects
    every rule that matches, in table order. */
module Keywords {
  import opened Text

  /** One test of a chain: the keywords any of which selects it, and its outcome. */
  datatype Rule<T> = Rule(keywords: seq<string>, outcome: T)

  /** `text.includes(k0) || text.includes(k1) || …`, evaluated left to right. */
  predicate MentionsAny(text: string, keywords: seq<string>) {
    keywords != [] && (Contains(text, keywords[0]) || MentionsAny(text, keywords[1..]))
  }

  lemma {:induction false} MentionsAnyIff(text: string, keywords: seq<string>)
    ensures MentionsAny(text, keywords) <==> exists i :: 0 <= i < |keywords| && Contains(text, keywords[i])
  {
    if keywords != [] {
      MentionsAnyIff(text, keywords[1..]);
      if MentionsAny(text, keywords[1..]) {
        var i :| 0 <= i < |keywords[1..]| && Contains(text, keywords[1..][i]);
        assert Contains(text, keywords[i + 1]);
      }
      if exists i :: 0 <= i < |keywords| && Contains(text, keywords[i]) {
        var i :| 0 <= i < |keywords| && Contains(text, keywords[i]);
        if i > 0 {
          assert Contains(text, keywords[1..][i - 1]);
        }
      }
    }
  }

  /** A keyword in the text selects its rule. */
  lemma MentionsOne(text: string, keywords: seq<string>, i: nat)
    requires i < |keywords| && Contains(text, keywords[i])
    ensures MentionsAny(text, keywords)
  {
    MentionsAnyIff(text, keywords);
  }

  /** The outcome of the first rule that matches, or `default` when none does. */
  function FirstMatch<T>(text: string, rules: seq<Rule<T>>, default: T): T {
    if rules == [] then default
    else if MentionsAny(text, rules[0].keywords) then rules[0].outcome
    else FirstMatch(text, rules[1..], default)
  }

  /** Rule `i` matches and no earlier rule does. */
  predicate FirstMatching<T>(text: string, rules: seq<Rule<T>>, i: int) {
    0 <= i < |rules| && MentionsAny(text, rules[i].keywords)
    && forall j :: 0 <= j < i ==> !MentionsAny(text, rules[j].keywords)
  }

  /** The rule that decides is the first one whose keywords occur. */
  lemma {:induction false} FirstMatchIs<T>(text: string, rules: seq<Rule<T>>, default: T, i: nat)
    requires i < |rules| && MentionsAny(text, rules[i].keywords)
    requires forall j :: 0 <= j < i ==> !MentionsAny(text, rules[j].keywords)
    ensures FirstMatch(text, rules, default) == rules[i].outcome
  {
    if i > 0 {
      FirstMatchIs(text, rules[1..], default, i - 1);
    }
  }

  /** With no rule matching, the chain falls through to its default. */
  lemma {:induction false} FirstMatchDefault<T>(text: string, rules: seq<Rule<T>>, default: T)
    requires forall j :: 0 <= j < |rules| ==> !MentionsAny(text, rules[j].keywords)
    ensures FirstMatch(text, rules, default) == default
  {
    if rules != [] {
      FirstMatchDefault(text, rules[1..], default);
    }
  }

  /** Whatever the text, the outcome is the default or one of the rules' outcomes. */
  lemma {:induction false} FirstMatchRange<T>(text: string, rules: seq<Rule<T>>, default: T)
    ensures FirstMatch(text, rules, default) == default
         || exists i :: 0 <= i < |rules| && FirstMatch(text, rules, default) == rules[i].outcome
  {
    if rules != [] && !MentionsAny(text, rules[0].keywords) {
      FirstMatchRange(text, rules[1..], default);
      if FirstMatch(text, rules, default) != default {
        var i :| 0 <= i < |rules[1..]| && FirstMatch(text, rules[1..], default) == rules[1..][i].outcome;
        assert FirstMatch(text, rules, default) == rules[i + 1].outcome;
      }
    }
  }

  /** The outcomes of every rule that matches, in table order. */
  function AllMatches<T>(text: string, rules: seq<Rule<T>>): (r: seq<T>)
    ensures |r| <= |rules|
  {
    if rules == [] then []
    else (if MentionsAny(text, rules[0].keywords) then [rules[0].outcome] else [])
         + AllMatches(text, rules[1..])
  }

  /** An outcome is collected exactly when a rule carrying it matches. */
  lemma {:induction false} AllMatchesIff<T>(text: string, rules: seq<Rule<T>>, x: T)
    ensures x in AllMatches(text, rules) <==>
            exists i :: 0 <= i < |rules| && rules[i].outcome == x && MentionsAny(text, rules[i].keywords)
  {
    if rules != [] {
      AllMatchesIff(text, rules[1..], x);
      if x in AllMatches(text, rules[1..]) {
        var i :| 0 <= i < |rules[1..]| && rules[1..][i].outcome == x && MentionsAny(text, rules[1..][i].keywords);
        assert rules[i + 1] == rules[1..][i];
      }
      if exists i :: 0 <= i < |rules| && rules[i].outcome == x && MentionsAny(text, rules[i].keywords) {
        var i :| 0 <= i < |rules| && rules[i].outcome == x && MentionsAny(text, rules[i].keywords);
        if i > 0 {
          assert rules[1..][i - 1] == rules[i];
        }
      }
    }
  }

  /** The outcomes of a table, in order. */
  function Outcomes<T>(rules: seq<Rule<T>>): (r: seq<T>)
    ensures |r| == |rules|
    ensures forall i :: 0 <= i < |rules| ==> r[i] == rules[i].outcome
  {
    seq(|rules|, i requires 0 <= i < |rules| => rules[i].outcome)
  }

  /** `a` is `b` with some elements left out, the rest in the same order. */
  ghost predicate Subsequence<T>(a: seq<T>, b: seq<T>) {
    a == [] || (b != [] && ((a[0] == b[0] && Subsequence(a[1..], b[1..])) || Subsequence(a, b[1..])))
  }

  /** The collected outcomes keep the table's order. */
  lemma {:induction false} AllMatchesInOrder<T>(text: string, rules: seq<Rule<T>>)
    ensures Subsequence(AllMatches(text, rules), Outcomes(rules))
  {
    if rules != [] {
      AllMatchesInOrder(text, rules[1..]);
      assert Outcomes(rules)[1..] == Outcomes(rules[1..]);
      if MentionsAny(text, rules[0].keywords) {
        assert AllMatches(text, rules)[1..] == AllMatches(text, rules[1..]);
      } else {
        assert AllMatches(text, rules) == AllMatches(text, rules[1..]);
        SubsequenceOfTail(AllMatches(text, rules[1..]), Outcomes(rules[1..]), rules[0].outcome);
        assert [rules[0].outcome] + Outcomes(rules[1..]) == Outcomes(rules);
      }
    }
  }

  lemma SubsequenceOfTail<T>(a: seq<T>, b: seq<T>, x: T)
    requires Subsequence(a, b)
    ensures Subsequence(a, [x] + b)
  {
    assert ([x] + b)[1..] == b;
  }

  /** A subsequence of a list without repeats has no repeats. */
  lemma {:induction false} SubsequenceDistinct<T>(a: seq<T>, b: seq<T>)
    requires Subsequence(a, b)
    requires forall i, j :: 0 <= i < j < |b| ==> b[i] != b[j]
    ensures forall i, j :: 0 <= i < j < |a| ==> a[i] != a[j]
  {
    if a != [] {
      assert forall i, j :: 0 <= i < j < |b[1..]| ==> b[1..][i] != b[1..][j] by {
        forall i, j | 0 <= i < j < |b[1..]| ensures b[1..][i] != b[1..][j] {
          assert b[1..][i] == b[i + 1] && b[1..][j] == b[j + 1];
        }
      }
      if a[0] == b[0] && Subsequence(a[1..], b[1..]) {
        SubsequenceDistinct(a[1..], b[1..]);
        SubsequenceInside(a[1..], b[1..]);
        forall j | 0 < j < |a| ensures a[0] != a[j] {
          assert a[j] == a[1..][j - 1];
          assert a[j] in a[1..];
          var k :| 0 <= k < |b[1..]| && b[1..][k] == a[j];
          assert b[k + 1] == a[j];
        }
        forall i, j | 0 <= i < j < |a| ensures a[i] != a[j] {
          if i > 0 {
            assert a[i] == a[1..][i - 1] && a[j] == a[1..][j - 1];
          }
        }
      } else {
        SubsequenceDistinct(a, b[1..]);
      }
    }
  }

  lemma {:induction false} SubsequenceInside<T>(a: seq<T>, b: seq<T>)
    requires Subsequence(a, b)
    ensures forall x :: x in a ==> exists k :: 0 <= k < |b| && b[k] == x
  {
    if a != [] {
      if a[0] == b[0] && Subsequence(a[1..], b[1..]) {
        SubsequenceInside(a[1..], b[1..]);
        forall x | x in a ensures exists k :: 0 <= k < |b| && b[k] == x {
          if x != a[0] {
            assert x in a[1..];
            var k :| 0 <= k < |b[1..]| && b[1..][k] == x;
            assert b[k + 1] == x;
          } else {
            assert b[0] == x;
          }
        }
      } else {
        SubsequenceInside(a, b[1..]);
        forall x | x in a ensures exists k :: 0 <= k < |b| && b[k] == x {
          var k :| 0 <= k < |b[1..]| && b[1..][k] == x;
          assert b[k + 1] == x;
        }
      }
    }
  }

  /** With distinct outcomes in the table, nothing is collected twice. */
  lemma AllMatchesDistinct<T>(text: string, rules: seq<Rule<T>>)
    requires forall i, j :: 0 <= i < j < |rules| ==> rules[i].outcome != rules[j].outcome
    ensures var r := AllMatches(text, rules);
      forall i, j :: 0 <= i < j < |r| ==> r[i] != r[j]
  {
    AllMatchesInOrder(text, rules);
    SubsequenceDistinct(AllMatches(text, rules), Outcomes(rules));
  }
}
