/** What becomes of one section when its turn comes, and the prompt as the turns of its sections. */
module PromptTurns {
  import opened Prelude
  import opened PromptBudget

  // ------------------------------------------------------------------ the text

  /** A section's text is a heading line and its body; an empty line parts it from the ones before. */
  lemma TextIs(bodies: seq<Body>, b: Body)
    ensures Render([]) == ""
    ensures Render(bodies + [b]) ==
            (if bodies == [] then "" else Render(bodies) + "\n\n") + "## " + b.heading + "\n" + b.body
  {
    var all := bodies + [b];
    assert all[..|bodies|] == bodies;
    assert SectionText(b.heading, b.body) == "## " + b.heading + "\n" + b.body;
    var own := SectionText(b.heading, b.body);
    if bodies != [] {
      assert Render(bodies) + "\n\n" + "## " + b.heading + "\n" + b.body == Render(bodies) + "\n\n" + own;
    } else {
      assert "" + "## " + b.heading + "\n" + b.body == own;
    }
  }

  // ------------------------------------------------------------------ one cut

  ghost predicate AllBlank(s: string, env: Env) { forall i :: 0 <= i < |s| ==> env.blank(s[i]) }

  /** The heading and this much of the content fit what is left. */
  ghost predicate FitsIn(s: Section, k: nat, left: nat, env: Env)
    requires k <= |s.content|
  {
    env.tokens("## " + s.heading + "\n" + s.content[..k]) <= left
  }

  /** The longest prefix that fits is all of the content, or else all but blanks at its end is cut off. */
  ghost predicate LongestCut(body: string, s: Section, left: nat, env: Env)
  {
    && body <= s.content
    && (FitsIn(s, |s.content|, left, env) ==> body == s.content)
    && (!FitsIn(s, |s.content|, left, env) ==> exists k :: |body| <= k < |s.content| && CutAt(body, k, s, left, env))
  }

  /** The cut is at `k`, the last boundary that fits, and what is dropped before it is blank. */
  ghost predicate CutAt(body: string, k: nat, s: Section, left: nat, env: Env)
    requires |body| <= k < |s.content|
  {
    && FitsIn(s, k, left, env) && (forall i :: k < i <= |s.content| ==> !FitsIn(s, i, left, env))
    && (body == "" || !env.blank(body[|body| - 1])) && AllBlank(s.content[|body|..k], env)
  }

  /** Something of the content fits: all of it, if it is not empty, or a prefix that is not blank. */
  ghost predicate SomeFits(s: Section, left: nat, env: Env)
  {
    || (s.content != "" && FitsIn(s, |s.content|, left, env))
    || exists k :: 0 < k <= |s.content| && FitsIn(s, k, left, env) && !AllBlank(s.content[..k], env)
  }

  lemma WholeIs(s: Section)
    ensures s.content[..|s.content|] == s.content && s.content[..0] == ""
  {
  }

  lemma FitsIs(s: Section, k: nat, left: nat, env: Env)
    requires k <= |s.content|
    ensures FitsIn(s, k, left, env) <==> Fits(s.content, s.heading, k, left, env)
  {
  }

  lemma CutIsLongest(s: Section, left: nat, env: Env)
    requires PrefixMonotone(env) && left > 0 && env.tokens(SectionText(s.heading, "")) <= left
    ensures LongestCut(Truncated(s.content, s.heading, left, env), s, left, env)
  {
    WholeIs(s);
    if !FitsIn(s, |s.content|, left, env) {
      var k := Longest(s.content, s.heading, |s.content|, left, env);
      LongestFits(s.content, s.heading, |s.content|, left, env);
      TrimEndTrims(s.content[..k], env);
      var body := Truncated(s.content, s.heading, left, env);
      assert body == TrimEnd(s.content[..k], env);
      forall i | 0 <= i <= |s.content|
        ensures FitsIn(s, i, left, env) <==> Fits(s.content, s.heading, i, left, env)
      {
        FitsIs(s, i, left, env);
      }
      assert forall i :: |body| <= i < k ==> env.blank(s.content[..k][i]);
      assert CutAt(body, k, s, left, env);
    }
  }

  lemma KeptIff(s: Section, left: nat, env: Env)
    requires PrefixMonotone(env) && left > 0
    ensures Truncated(s.content, s.heading, left, env) != "" <==> SomeFits(s, left, env)
  {
    WholeIs(s);
    var head := SectionText(s.heading, "");
    if env.tokens(head) > left {
      forall k | 0 <= k <= |s.content| ensures !FitsIn(s, k, left, env) {
        assert head <= "## " + s.heading + "\n" + s.content[..k];
      }
    } else {
      CutIsLongest(s, left, env);
      var body := Truncated(s.content, s.heading, left, env);
      if !FitsIn(s, |s.content|, left, env) {
        var k :| |body| <= k < |s.content| && CutAt(body, k, s, left, env);
        if body != "" {
          assert s.content[..k][|body| - 1] == body[|body| - 1];
          assert FitsIn(s, k, left, env) && !AllBlank(s.content[..k], env);
        } else {
          forall i | 0 < i <= |s.content| && FitsIn(s, i, left, env) ensures AllBlank(s.content[..i], env) {
            forall j | 0 <= j < i ensures env.blank(s.content[..i][j]) {
              assert s.content[|body|..k][j] == s.content[j];
            }
          }
        }
      }
    }
  }

  // ------------------------------------------------------------------ one turn

  /** What the bodies kept so far leave of the limit. */
  ghost function Left(kept: seq<Body>, c: Config, env: Env): nat
  {
    if env.tokens(Render(kept)) <= c.maxTokens then c.maxTokens - env.tokens(Render(kept)) else 0
  }

  /**
    A section is kept exactly if it is required or the minimum is left, and something of it fits; then
    it comes last, under its heading, with its longest cut.
  */
  ghost predicate Turn(kept: seq<Body>, s: Section, next: seq<Body>, c: Config, env: Env)
  {
    var left := Left(kept, c, env);
    if (s.required || left >= c.minSection) && left > 0 && SomeFits(s, left, env) then
      && |next| == |kept| + 1 && next[..|kept|] == kept
      && next[|kept|].heading == s.heading && next[|kept|].body != ""
      && LongestCut(next[|kept|].body, s, left, env)
    else next == kept
  }

  lemma TakeIsTurn(kept: seq<Body>, s: Section, c: Config, env: Env)
    requires PrefixMonotone(env)
    ensures Turn(kept, s, Take(kept, s, c, env), c, env)
  {
    var left := Left(kept, c, env);
    if left > 0 {
      KeptIff(s, left, env);
      if Truncated(s.content, s.heading, left, env) != "" { CutIsLongest(s, left, env); }
    }
  }

  // ------------------------------------------------------------------ the prompt

  /** The sections take their turns, one after another. */
  ghost predicate Turns(ordered: seq<Indexed>, kept: seq<Body>, c: Config, env: Env)
    decreases |ordered|
  {
    if ordered == [] then kept == []
    else
      var n := |ordered| - 1;
      exists before :: Turns(ordered[..n], before, c, env) && Turn(before, ordered[n].section, kept, c, env)
  }

  lemma {:induction false} FillTurns(ordered: seq<Indexed>, c: Config, env: Env)
    requires PrefixMonotone(env)
    ensures Turns(ordered, Fill(ordered, c, env), c, env)
    decreases |ordered|
  {
    if ordered != [] {
      var n := |ordered| - 1;
      FillTurns(ordered[..n], c, env);
      TakeIsTurn(Fill(ordered[..n], c, env), ordered[n].section, c, env);
    }
  }

  /** Required sections come first, then the lower priorities, then the order of input. */
  ghost predicate ByNeed(xs: seq<Indexed>)
  {
    forall i, j :: 0 <= i < j < |xs| ==>
      var a, b := xs[i], xs[j];
      || (a.section.required && !b.section.required)
      || (a.section.required == b.section.required
          && (a.section.priority < b.section.priority
              || (a.section.priority == b.section.priority && a.index <= b.index)))
  }

  /** Over its limit, a prompt is what the turns of its sections, in order of need, have kept. */
  lemma PromptTakesTurns(sections: seq<Section>, c: Config, env: Env)
    requires PrefixMonotone(env) && env.tokens(Render(Whole(sections))) > c.maxTokens
    ensures exists ordered, kept ::
              && |kept| <= |sections|
              && ByNeed(ordered) && multiset(ordered) == multiset(Enumerated(sections)) && Turns(ordered, kept, c, env)
              && Prompt(sections, c, env) == Budgeted(Render(kept), env.tokens(Render(Whole(sections))),
                                                      env.tokens(Render(kept)), |kept|, |sections| - |kept|)
  {
    var ordered := Ordered(sections);
    var kept := Fill(ordered, c, env);
    SortOrders(Enumerated(sections));
    FillCuts(ordered, c, env);
    FillTurns(ordered, c, env);
    assert |ordered| == |multiset(ordered)| == |multiset(Enumerated(sections))| == |sections|;
    assert forall i, j :: 0 <= i < j < |ordered| ==> Before(ordered[i], ordered[j]);
    assert ByNeed(ordered);
    assert Turns(ordered, kept, c, env);
  }
}
