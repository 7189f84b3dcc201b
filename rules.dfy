/**
 * Ordered keyword rule tables with first-match semantics, as used by the screen
 * resolver and the action planner: a rule fires when one of its tokens is a
 * substring of one of the searched strings (matching is one-directional: the
 * searched string must contain the token).
 */
module Rules {
  import opened Text

  datatype Rule<T> = Rule(tag: T, tokens: seq<string>)

  /** `hay.some((h) => h.includes(token))` */
  function SomeContains(hay: seq<string>, token: string): (b: bool)
    ensures b <==> exists j :: 0 <= j < |hay| && Contains(hay[j], token)
    decreases |hay|
  {
    if |hay| == 0 then false
    else if Contains(hay[0], token) then true
    else
      var rest := SomeContains(hay[1..], token);
      assert forall j :: 1 <= j < |hay| ==> hay[j] == hay[1..][j - 1];
      rest
  }

  /** `tokens.some((t) => hay.some((h) => h.includes(t)))` */
  function Hit(tokens: seq<string>, hay: seq<string>): (b: bool)
    ensures b <==> exists i :: 0 <= i < |tokens| && SomeContains(hay, tokens[i])
    decreases |tokens|
  {
    if |tokens| == 0 then false
    else if SomeContains(hay, tokens[0]) then true
    else
      var rest := Hit(tokens[1..], hay);
      assert forall i :: 1 <= i < |tokens| ==> tokens[i] == tokens[1..][i - 1];
      rest
  }

  /** A rule fires when it is enabled and one of its tokens hits. */
  predicate Fires<T>(rule: Rule<T>, enabled: T -> bool, hay: seq<string>) {
    enabled(rule.tag) && Hit(rule.tokens, hay)
  }

  /** Index of the first rule that fires, in table order, or -1. */
  function FirstFiring<T>(rules: seq<Rule<T>>, enabled: T -> bool, hay: seq<string>): (r: int)
    ensures -1 <= r < |rules|
    ensures r >= 0 ==> Fires(rules[r], enabled, hay)
    ensures r >= 0 ==> forall m :: 0 <= m < r ==> !Fires(rules[m], enabled, hay)
    ensures r == -1 ==> forall m :: 0 <= m < |rules| ==> !Fires(rules[m], enabled, hay)
    decreases |rules|
  {
    if |rules| == 0 then -1
    else if Fires(rules[0], enabled, hay) then 0
    else
      var k := FirstFiring(rules[1..], enabled, hay);
      assert forall m :: 1 <= m < |rules| ==> rules[m] == rules[1..][m - 1];
      if k < 0 then -1 else k + 1
  }

  /** The tag of the first rule that fires, or the fallback. */
  function Resolve<T>(rules: seq<Rule<T>>, enabled: T -> bool, hay: seq<string>, fallback: T): T {
    var k := FirstFiring(rules, enabled, hay);
    if k >= 0 then rules[k].tag else fallback
  }

  function Always<T>(): T -> bool {
    _ => true
  }

  /** A table misses when every token is excluded from every searched string. */
  lemma NoHit(tokens: seq<string>, hay: seq<string>)
    requires forall i, j :: 0 <= i < |tokens| && 0 <= j < |hay| ==> Excluded(hay[j], tokens[i])
    ensures !Hit(tokens, hay)
  {
    forall i, j | 0 <= i < |tokens| && 0 <= j < |hay| ensures !Contains(hay[j], tokens[i]) {
      ExcludedNotContained(hay[j], tokens[i]);
    }
  }

  /** Some token of the rule is a substring of some searched string. */
  ghost predicate Matches<T>(rule: Rule<T>, hay: seq<string>) {
    exists i, j :: 0 <= i < |rule.tokens| && 0 <= j < |hay| && Contains(hay[j], rule.tokens[i])
  }

  lemma HitIffMatches<T>(rule: Rule<T>, hay: seq<string>)
    ensures Hit(rule.tokens, hay) <==> Matches(rule, hay)
  {
  }

  /**
   * r is what a first-match table lookup yields: the tag of the earliest enabled
   * rule that matches, or the fallback when no enabled rule does.
   */
  ghost predicate IsFirstMatch<T>(rules: seq<Rule<T>>, enabled: T -> bool, hay: seq<string>, fallback: T, r: T) {
    || (exists n :: 0 <= n < |rules| && enabled(rules[n].tag) && Matches(rules[n], hay)
          && (forall m :: 0 <= m < n ==> !(enabled(rules[m].tag) && Matches(rules[m], hay)))
          && r == rules[n].tag)
    || ((forall n :: 0 <= n < |rules| ==> !(enabled(rules[n].tag) && Matches(rules[n], hay))) && r == fallback)
  }

  /** `Resolve` is the first-match table lookup. */
  lemma ResolveIsFirstMatch<T>(rules: seq<Rule<T>>, enabled: T -> bool, hay: seq<string>, fallback: T)
    ensures IsFirstMatch(rules, enabled, hay, fallback, Resolve(rules, enabled, hay, fallback))
  {
    var k := FirstFiring(rules, enabled, hay);
    forall m | 0 <= m < |rules|
      ensures Fires(rules[m], enabled, hay) <==> enabled(rules[m].tag) && Matches(rules[m], hay)
    {
      HitIffMatches(rules[m], hay);
    }
    if k >= 0 {
      assert enabled(rules[k].tag) && Matches(rules[k], hay);
    }
  }

  /**
   * With every rule enabled, the lookup stops at rule k when k hits and every
   * token of every earlier rule is excluded from every searched string.
   */
  lemma ResolveAt<T>(rules: seq<Rule<T>>, hay: seq<string>, fallback: T, k: nat)
    requires k < |rules| && Hit(rules[k].tokens, hay)
    requires forall n, i, j :: 0 <= n < k && 0 <= i < |rules[n].tokens| && 0 <= j < |hay| ==>
               Excluded(hay[j], rules[n].tokens[i])
    ensures Resolve(rules, Always(), hay, fallback) == rules[k].tag
  {
    forall n | 0 <= n < k ensures !Fires(rules[n], Always(), hay) {
      NeverFires(rules[n], hay);
    }
    ResolveStopsAt(rules, Always(), hay, fallback, k);
  }

  /** A rule whose every token is excluded from every searched string never fires. */
  lemma NeverFires<T>(rule: Rule<T>, hay: seq<string>)
    requires forall i, j :: 0 <= i < |rule.tokens| && 0 <= j < |hay| ==> Excluded(hay[j], rule.tokens[i])
    ensures !Fires(rule, Always(), hay)
  {
    NoHit(rule.tokens, hay);
  }

  /**
   * With every rule enabled, the lookup falls back when every token is excluded
   * from every searched string.
   */
  lemma ResolveNone<T>(rules: seq<Rule<T>>, hay: seq<string>, fallback: T)
    requires forall n, i, j :: 0 <= n < |rules| && 0 <= i < |rules[n].tokens| && 0 <= j < |hay| ==>
               Excluded(hay[j], rules[n].tokens[i])
    ensures Resolve(rules, Always(), hay, fallback) == fallback
  {
    forall n | 0 <= n < |rules| ensures !Fires(rules[n], Always(), hay) {
      NeverFires(rules[n], hay);
    }
    ResolveFallsBack(rules, Always(), hay, fallback);
  }

  /** A lookup over one string that every token of every rule excludes falls back. */
  lemma ResolveSingleNone<T>(rules: seq<Rule<T>>, keyword: string, fallback: T)
    requires forall n, i :: 0 <= n < |rules| && 0 <= i < |rules[n].tokens| ==> Excluded(keyword, rules[n].tokens[i])
    ensures Resolve(rules, Always(), [keyword], fallback) == fallback
  {
    ResolveNone(rules, [keyword], fallback);
  }

  /** None of the first n rules fires. */
  predicate NoneFiresBelow<T>(rules: seq<Rule<T>>, enabled: T -> bool, hay: seq<string>, n: nat) {
    n <= |rules| && forall m :: 0 <= m < n ==> !Fires(rules[m], enabled, hay)
  }

  lemma NoneFiresStep<T>(rules: seq<Rule<T>>, enabled: T -> bool, hay: seq<string>, n: nat)
    requires NoneFiresBelow(rules, enabled, hay, n) && n < |rules| && !Fires(rules[n], enabled, hay)
    ensures NoneFiresBelow(rules, enabled, hay, n + 1)
  {
  }

  /** The lookup stops at rule k when k fires and no earlier rule does. */
  lemma ResolveStopsAt<T>(rules: seq<Rule<T>>, enabled: T -> bool, hay: seq<string>, fallback: T, k: nat)
    requires k < |rules| && Fires(rules[k], enabled, hay)
    requires forall m :: 0 <= m < k ==> !Fires(rules[m], enabled, hay)
    ensures Resolve(rules, enabled, hay, fallback) == rules[k].tag
  {
    var r := FirstFiring(rules, enabled, hay);
    assert r >= 0 && !(r < k) && !(k < r);
  }

  /** The lookup falls back when no rule fires. */
  lemma ResolveFallsBack<T>(rules: seq<Rule<T>>, enabled: T -> bool, hay: seq<string>, fallback: T)
    requires forall m :: 0 <= m < |rules| ==> !Fires(rules[m], enabled, hay)
    ensures Resolve(rules, enabled, hay, fallback) == fallback
  {
  }

  /**
   * The scan over a table for one searched string: stop at the first rule one of
   * whose tokens the string contains, and take its tag; the fallback when none does.
   */
  method FirstFiringTag<T>(rules: seq<Rule<T>>, s: string, fallback: T) returns (tag: T)
    ensures tag == Resolve(rules, Always(), [s], fallback)
  {
    var k := 0;
    while k < |rules|
      invariant 0 <= k <= |rules|
      invariant forall m :: 0 <= m < k ==> !Fires(rules[m], Always(), [s])
    {
      HitOne(rules[k].tokens, s);
      if AnyContained(s, rules[k].tokens) {
        ResolveStopsAt(rules, Always(), [s], fallback, k);
        return rules[k].tag;
      }
      k := k + 1;
    }
    ResolveFallsBack(rules, Always(), [s], fallback);
    tag := fallback;
  }

  /** Searching a single string: a token hits exactly when that string contains it. */
  lemma HitOne(tokens: seq<string>, s: string)
    ensures Hit(tokens, [s]) <==> AnyContained(s, tokens)
  {
    forall i | 0 <= i < |tokens| ensures SomeContains([s], tokens[i]) <==> Contains(s, tokens[i]) {
    }
  }
}
