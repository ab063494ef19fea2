/**
 * An ordered table of substring rules, the reference definition against
 * which the `if`/`elif` chains of the error translators are proved: a rule
 * fires when the text contains one of its `anyOf` words and every one of its
 * `allOf` words, and the first rule that fires gives the answer.
 */
module Classify {
  import opened Text

  datatype Rule = Rule(anyOf: seq<string>, allOf: seq<string>, message: string)

  predicate ContainsAny(text: string, words: seq<string>) {
    |words| > 0 && (Contains(text, words[0]) || ContainsAny(text, words[1..]))
  }

  predicate ContainsAll(text: string, words: seq<string>) {
    |words| == 0 || (Contains(text, words[0]) && ContainsAll(text, words[1..]))
  }

  predicate Fires(r: Rule, text: string) {
    ContainsAny(text, r.anyOf) && ContainsAll(text, r.allOf)
  }

  /** The message of the first rule that fires, or `fallback` when none does. */
  function FirstMatch(rules: seq<Rule>, text: string, fallback: string): (m: string)
    ensures m == fallback || exists i :: 0 <= i < |rules| && m == rules[i].message
  {
    if rules == [] then fallback
    else if Fires(rules[0], text) then rules[0].message
    else FirstMatch(rules[1..], text, fallback)
  }

  /** The first-match answer is rule `k` exactly when rule `k` fires and no earlier rule does. */
  lemma {:induction false} FirstMatchAt(rules: seq<Rule>, text: string, fallback: string, k: nat)
    requires k < |rules|
    requires Fires(rules[k], text)
    requires forall j :: 0 <= j < k ==> !Fires(rules[j], text)
    ensures FirstMatch(rules, text, fallback) == rules[k].message
  {
    if k > 0 {
      assert !Fires(rules[0], text);
      FirstMatchAt(rules[1..], text, fallback, k - 1);
    }
  }

  /** When some rule fires the fallback plays no part. */
  lemma {:induction false} FirstMatchIgnoresFallback(rules: seq<Rule>, text: string, f1: string, f2: string, k: nat)
    requires k < |rules| && Fires(rules[k], text)
    ensures FirstMatch(rules, text, f1) == FirstMatch(rules, text, f2)
  {
    if !Fires(rules[0], text) {
      FirstMatchIgnoresFallback(rules[1..], text, f1, f2, k - 1);
    }
  }

  /** Rules that do not fire can be dropped from the front of the table. */
  lemma {:induction false} FirstMatchSkip(rules: seq<Rule>, text: string, fallback: string, k: nat)
    requires k <= |rules|
    requires forall j :: 0 <= j < k ==> !Fires(rules[j], text)
    ensures FirstMatch(rules, text, fallback) == FirstMatch(rules[k..], text, fallback)
  {
    if k > 0 {
      assert !Fires(rules[0], text);
      assert rules[1..][k - 1..] == rules[k..];
      FirstMatchSkip(rules[1..], text, fallback, k - 1);
    }
  }

  /** When no rule fires the answer is the fallback. */
  lemma {:induction false} FirstMatchNone(rules: seq<Rule>, text: string, fallback: string)
    requires forall j :: 0 <= j < |rules| ==> !Fires(rules[j], text)
    ensures FirstMatch(rules, text, fallback) == fallback
  {
    if rules != [] {
      assert !Fires(rules[0], text);
      FirstMatchNone(rules[1..], text, fallback);
    }
  }

  lemma FiresOne(w: string, m: string, text: string)
    ensures Fires(Rule([w], [], m), text) <==> Contains(text, w)
  {
    assert [w][1..] == [];
    assert !ContainsAny(text, []) && ContainsAll(text, []);
  }

  lemma FiresOneWith(w: string, x: string, m: string, text: string)
    ensures Fires(Rule([w], [x], m), text) <==> Contains(text, w) && Contains(text, x)
  {
    assert [w][1..] == [];
    assert [x][1..] == [];
    assert !ContainsAny(text, []) && ContainsAll(text, []);
  }

  lemma FiresEither(w1: string, w2: string, m: string, text: string)
    ensures Fires(Rule([w1, w2], [], m), text) <==> Contains(text, w1) || Contains(text, w2)
  {
    assert [w1, w2][1..] == [w2];
    assert [w2][1..] == [];
    assert !ContainsAny(text, []) && ContainsAll(text, []);
    assert ContainsAny(text, [w2]) <==> Contains(text, w2);
    assert ContainsAny(text, [w1, w2]) <==> Contains(text, w1) || ContainsAny(text, [w2]);
  }
}
