/**
  Prompt budgeting: sections in order of need, each cut at the longest prefix that fits what
  the ones before it have left.  Positions in a string are its character boundaries.
*/
module PromptBudget {
  import opened Prelude

  datatype Section = Section(heading: string, content: string, priority: nat, required: bool)

  datatype Body = Body(heading: string, body: string)

  datatype Config = Config(maxTokens: nat, minSection: nat)

  /**
    `tokens` is the token count, `fails` says for which texts counting fails, `blank` which characters
    a trim removes.
  */
  datatype Env = Env(tokens: string -> nat, fails: string -> bool, blank: char -> bool)

  datatype Error = BadConfig | TokenizationFailed

  datatype Budgeted = Budgeted(text: string, originalTokens: nat, finalTokens: nat, retained: nat, dropped: nat)

  const SEPARATOR: string := "\n\n"

  function SectionText(heading: string, body: string): string { "## " + heading + "\n" + body }

  function Render(bodies: seq<Body>): string
  {
    if bodies == [] then ""
    else
      var n := |bodies| - 1;
      var last := SectionText(bodies[n].heading, bodies[n].body);
      if n == 0 then last else Render(bodies[..n]) + SEPARATOR + last
  }

  function Whole(sections: seq<Section>): seq<Body>
  {
    seq(|sections|, i requires 0 <= i < |sections| => Body(sections[i].heading, sections[i].content))
  }

  // ------------------------------------------------------------------ laws of a token count

  /** A prefix never costs more. */
  ghost predicate PrefixMonotone(env: Env) { forall s, t :: s <= t ==> env.tokens(s) <= env.tokens(t) }

  /** Joining never costs more than the parts. */
  ghost predicate Subadditive(env: Env) { forall s, t :: env.tokens(s + t) <= env.tokens(s) + env.tokens(t) }

  // ------------------------------------------------------------------ truncation

  predicate Fits(content: string, heading: string, k: nat, budget: nat, env: Env)
    requires k <= |content|
  {
    env.tokens(SectionText(heading, content[..k])) <= budget
  }

  /** The longest of the first `k + 1` prefixes that fits, if any does. */
  function Longest(content: string, heading: string, k: nat, budget: nat, env: Env): (r: nat)
    requires k <= |content|
    ensures r <= k
  {
    if k == 0 || Fits(content, heading, k, budget, env) then k else Longest(content, heading, k - 1, budget, env)
  }

  function TrimEnd(s: string, env: Env): (r: string)
    ensures r <= s
  {
    if s == "" || !env.blank(s[|s| - 1]) then s else TrimEnd(s[..|s| - 1], env)
  }

  function Truncated(content: string, heading: string, budget: nat, env: Env): (r: string)
    ensures r <= content
  {
    if budget == 0 || env.tokens(SectionText(heading, "")) > budget then ""
    else if env.tokens(SectionText(heading, content)) <= budget then content
    else TrimEnd(content[..Longest(content, heading, |content|, budget, env)], env)
  }

  lemma {:induction false} LongestIs(content: string, heading: string, k: nat, low: nat, budget: nat, env: Env)
    requires low <= k <= |content| && Fits(content, heading, low, budget, env)
    requires forall i :: low < i <= k ==> !Fits(content, heading, i, budget, env)
    ensures Longest(content, heading, k, budget, env) == low
    decreases k
  {
    if low < k { LongestIs(content, heading, k - 1, low, budget, env); }
  }

  lemma FitsDownwards(content: string, heading: string, i: nat, j: nat, budget: nat, env: Env)
    requires PrefixMonotone(env) && i <= j <= |content| && Fits(content, heading, j, budget, env)
    ensures Fits(content, heading, i, budget, env)
  {
  }

  lemma LowIsLongest(content: string, heading: string, low: nat, budget: nat, env: Env)
    requires PrefixMonotone(env) && low <= |content| && Fits(content, heading, low, budget, env)
    requires low < |content| ==> !Fits(content, heading, low + 1, budget, env)
    ensures Longest(content, heading, |content|, budget, env) == low
  {
    forall i | low < i <= |content| ensures !Fits(content, heading, i, budget, env) {
      if Fits(content, heading, i, budget, env) { FitsDownwards(content, heading, low + 1, i, budget, env); }
    }
    LongestIs(content, heading, |content|, low, budget, env);
  }

  /** Counting fails for the section with some prefix of its content. */
  ghost predicate PrefixFails(content: string, heading: string, env: Env)
  {
    exists k :: 0 <= k <= |content| && env.fails(SectionText(heading, content[..k]))
  }

  /** `truncate_to_fit`, whose binary search finds the longest prefix that fits. */
  method TruncateToFit(content: string, heading: string, budget: nat, env: Env) returns (r: Result<string, Error>)
    ensures r.Ok? ==> r.value <= content
    ensures r.Ok? && PrefixMonotone(env) ==> r.value == Truncated(content, heading, budget, env)
    ensures r.Err? ==> r == Err(TokenizationFailed) && PrefixFails(content, heading, env)
  {
    if budget == 0 { return Ok(""); }
    assert content[..0] == "" && content[..|content|] == content;
    if env.fails(SectionText(heading, "")) { return Err(TokenizationFailed); }
    if env.tokens(SectionText(heading, "")) > budget { return Ok(""); }
    if env.fails(SectionText(heading, content)) { return Err(TokenizationFailed); }
    if env.tokens(SectionText(heading, content)) <= budget { return Ok(content); }
    var low, high := 0, |content| + 1;
    while low + 1 < high
      invariant 0 <= low < high <= |content| + 1
      invariant Fits(content, heading, low, budget, env)
      invariant high <= |content| ==> !Fits(content, heading, high, budget, env)
    {
      var mid := (low + high) / 2;
      if env.fails(SectionText(heading, content[..mid])) { return Err(TokenizationFailed); }
      if env.tokens(SectionText(heading, content[..mid])) <= budget { low := mid; } else { high := mid; }
    }
    if PrefixMonotone(env) { LowIsLongest(content, heading, low, budget, env); }
    r := Ok(TrimEnd(content[..low], env));
  }

  /**
    What truncation keeps fits the budget, and is nothing, everything, or everything up to the first
    boundary that does not fit.
  */
  lemma TruncatedFits(content: string, heading: string, budget: nat, env: Env)
    requires PrefixMonotone(env)
    ensures var r := Truncated(content, heading, budget, env);
            && r <= content
            && (r != "" ==> env.tokens(SectionText(heading, r)) <= budget)
            && (env.tokens(SectionText(heading, content)) <= budget && budget > 0 ==> r == content)
  {
    var r := Truncated(content, heading, budget, env);
    assert SectionText(heading, "") <= SectionText(heading, content);
    if r != "" && r != content {
      var k := Longest(content, heading, |content|, budget, env);
      LongestFits(content, heading, |content|, budget, env);
      assert SectionText(heading, r) <= SectionText(heading, content[..k]);
    }
  }

  lemma {:induction false} LongestFits(content: string, heading: string, k: nat, budget: nat, env: Env)
    requires k <= |content| && env.tokens(SectionText(heading, "")) <= budget
    ensures Fits(content, heading, Longest(content, heading, k, budget, env), budget, env)
    ensures forall i :: Longest(content, heading, k, budget, env) < i <= k ==> !Fits(content, heading, i, budget, env)
    decreases k
  {
    assert content[..0] == "";
    if k > 0 && !Fits(content, heading, k, budget, env) { LongestFits(content, heading, k - 1, budget, env); }
  }

  // ------------------------------------------------------------------ order

  datatype Indexed = Indexed(index: nat, section: Section)

  /** The sort key: required first, then lower priorities, then input order. */
  predicate Before(a: Indexed, b: Indexed)
  {
    if a.section.required != b.section.required then a.section.required
    else if a.section.priority != b.section.priority then a.section.priority < b.section.priority
    else a.index <= b.index
  }

  function Insert(x: Indexed, sorted: seq<Indexed>): seq<Indexed>
  {
    if sorted == [] || Before(x, sorted[0]) then [x] + sorted else [sorted[0]] + Insert(x, sorted[1..])
  }

  function Sort(xs: seq<Indexed>): seq<Indexed> { if xs == [] then [] else Insert(xs[0], Sort(xs[1..])) }

  function Enumerated(sections: seq<Section>): seq<Indexed>
  {
    seq(|sections|, i requires 0 <= i < |sections| => Indexed(i, sections[i]))
  }

  function Ordered(sections: seq<Section>): seq<Indexed> { Sort(Enumerated(sections)) }

  ghost predicate InOrder(xs: seq<Indexed>) { forall i, j :: 0 <= i < j < |xs| ==> Before(xs[i], xs[j]) }

  lemma {:induction false} InsertOrders(x: Indexed, s: seq<Indexed>)
    requires InOrder(s)
    ensures InOrder(Insert(x, s)) && multiset(Insert(x, s)) == multiset(s) + multiset{x}
    decreases |s|
  {
    if s != [] && !Before(x, s[0]) {
      InsertOrders(x, s[1..]);
      assert s == [s[0]] + s[1..];
      FirstStaysFirst(x, s);
    }
  }

  lemma FirstStaysFirst(x: Indexed, s: seq<Indexed>)
    requires s != [] && InOrder(s) && !Before(x, s[0])
    requires multiset(Insert(x, s[1..])) == multiset(s[1..]) + multiset{x}
    ensures forall j :: 0 <= j < |Insert(x, s[1..])| ==> Before(s[0], Insert(x, s[1..])[j])
  {
    var rest := Insert(x, s[1..]);
    forall j | 0 <= j < |rest| ensures Before(s[0], rest[j]) {
      assert rest[j] in multiset(rest);
      if rest[j] != x { assert rest[j] in s[1..]; }
    }
  }

  /** Sections are taken in order of need, every one of them once. */
  lemma {:induction false} SortOrders(xs: seq<Indexed>)
    ensures InOrder(Sort(xs)) && multiset(Sort(xs)) == multiset(xs)
    decreases |xs|
  {
    if xs != [] {
      SortOrders(xs[1..]);
      InsertOrders(xs[0], Sort(xs[1..]));
      assert xs == [xs[0]] + xs[1..];
    }
  }

  // ------------------------------------------------------------------ filling the budget

  function Minus(a: nat, b: nat): nat { if a <= b then 0 else a - b }

  /** One section's turn. */
  function Take(retained: seq<Body>, s: Section, c: Config, env: Env): seq<Body>
  {
    var remaining := Minus(c.maxTokens, env.tokens(Render(retained)));
    if remaining < c.minSection && !s.required then retained
    else
      var candidate := Truncated(s.content, s.heading, remaining, env);
      if candidate == "" then retained else retained + [Body(s.heading, candidate)]
  }

  function Fill(ordered: seq<Indexed>, c: Config, env: Env): seq<Body>
  {
    if ordered == [] then [] else Take(Fill(ordered[..|ordered| - 1], c, env), ordered[|ordered| - 1].section, c, env)
  }

  function Summary(text: string, original: nat, retained: nat, sections: nat, env: Env): Budgeted
  {
    Budgeted(text, original, env.tokens(text), retained, Minus(sections, retained))
  }

  function Prompt(sections: seq<Section>, c: Config, env: Env): Budgeted
  {
    var original := Render(Whole(sections));
    if env.tokens(original) <= c.maxTokens then Summary(original, env.tokens(original), |sections|, |sections|, env)
    else
      var kept := Fill(Ordered(sections), c, env);
      Summary(Render(kept), env.tokens(original), |kept|, |sections|, env)
  }

  predicate ValidConfig(c: Config) { c.maxTokens > 0 && c.minSection <= c.maxTokens }

  /** Bodies that are prefixes of sections. */
  ghost predicate Pieces(bodies: seq<Body>, sections: seq<Section>)
  {
    forall b :: b in bodies ==> exists s :: s in sections && b.heading == s.heading && b.body <= s.content
  }

  /** Counting fails for a text of this very call: all of it, one cut section, or several rendered together. */
  ghost predicate CountingFails(sections: seq<Section>, env: Env)
  {
    || env.fails(Render(Whole(sections)))
    || (exists s :: s in sections && PrefixFails(s.content, s.heading, env))
    || (exists bodies :: Pieces(bodies, sections) && env.fails(Render(bodies)))
  }

  lemma OrderedFrom(sections: seq<Section>, i: nat)
    requires i < |Ordered(sections)|
    ensures Ordered(sections)[i].section in sections
  {
    SortOrders(Enumerated(sections));
    assert Ordered(sections)[i] in multiset(Enumerated(sections));
  }

  /** One turn of the loop. */
  method TakeNext(retained: seq<Body>, section: Section, sections: seq<Section>, c: Config, env: Env)
    returns (r: Result<seq<Body>, Error>)
    requires section in sections && Pieces(retained, sections)
    ensures r.Ok? ==> Pieces(r.value, sections)
    ensures r.Ok? && PrefixMonotone(env) ==> r.value == Take(retained, section, c, env)
    ensures r.Err? ==> CountingFails(sections, env)
  {
    var prefix := Render(retained);
    if env.fails(prefix) { return Err(TokenizationFailed); }
    var remaining := Minus(c.maxTokens, env.tokens(prefix));
    if remaining < c.minSection && !section.required { return Ok(retained); }
    var candidate := TruncateToFit(section.content, section.heading, remaining, env);
    if candidate.Err? { return Err(TokenizationFailed); }
    r := Ok(if candidate.value == "" then retained else retained + [Body(section.heading, candidate.value)]);
  }

  /** `budget_prompt`. */
  method BudgetPrompt(sections: seq<Section>, c: Config, env: Env) returns (r: Result<Budgeted, Error>)
    ensures r == Err(BadConfig) <==> !ValidConfig(c)
    ensures r.Ok? && PrefixMonotone(env) ==> r.value == Prompt(sections, c, env)
    ensures r.Ok? ==> r.value.finalTokens == env.tokens(r.value.text)
    ensures r == Err(TokenizationFailed) ==> CountingFails(sections, env)
  {
    if !ValidConfig(c) { return Err(BadConfig); }
    var original := Render(Whole(sections));
    if env.fails(original) { return Err(TokenizationFailed); }
    if env.tokens(original) <= c.maxTokens {
      return Ok(Budgeted(original, env.tokens(original), env.tokens(original), |sections|, 0));
    }
    var ordered := Ordered(sections);
    var retained: seq<Body> := [];
    for i := 0 to |ordered|
      invariant PrefixMonotone(env) ==> retained == Fill(ordered[..i], c, env)
      invariant Pieces(retained, sections)
    {
      OrderedFrom(sections, i);
      assert ordered[..i + 1][..i] == ordered[..i];
      var next := TakeNext(retained, ordered[i].section, sections, c, env);
      if next.Err? { return Err(TokenizationFailed); }
      retained := next.value;
    }
    assert ordered[..|ordered|] == ordered;
    var text := Render(retained);
    if env.fails(text) { return Err(TokenizationFailed); }
    r := Ok(Summary(text, env.tokens(original), |retained|, |sections|, env));
  }

  // ------------------------------------------------------------------ main results

  lemma TakeBound(retained: seq<Body>, s: Section, c: Config, env: Env)
    requires PrefixMonotone(env) && Subadditive(env)
    requires env.tokens(Render(retained)) <= c.maxTokens + env.tokens(SEPARATOR)
    ensures env.tokens(Render(Take(retained, s, c, env))) <= c.maxTokens + env.tokens(SEPARATOR)
  {
    var remaining := Minus(c.maxTokens, env.tokens(Render(retained)));
    var candidate := Truncated(s.content, s.heading, remaining, env);
    TruncatedFits(s.content, s.heading, remaining, env);
    if candidate != "" { RenderCost(retained, Body(s.heading, candidate), env); }
  }

  lemma RenderCost(retained: seq<Body>, b: Body, env: Env)
    requires Subadditive(env)
    ensures var own := env.tokens(SectionText(b.heading, b.body));
            env.tokens(Render(retained + [b])) <= if retained == [] then own
              else env.tokens(Render(retained)) + env.tokens(SEPARATOR) + own
  {
  }

  lemma {:induction false} FillBound(ordered: seq<Indexed>, c: Config, env: Env)
    requires PrefixMonotone(env) && Subadditive(env)
    ensures env.tokens(Render(Fill(ordered, c, env))) <= c.maxTokens + env.tokens(SEPARATOR)
    decreases |ordered|
  {
    if ordered == [] {
      assert "" <= SEPARATOR;
    } else {
      FillBound(ordered[..|ordered| - 1], c, env);
      TakeBound(Fill(ordered[..|ordered| - 1], c, env), ordered[|ordered| - 1].section, c, env);
    }
  }

  /** However many sections there are, the prompt exceeds the limit by one separator at most. */
  lemma PromptIsBounded(sections: seq<Section>, c: Config, env: Env)
    requires PrefixMonotone(env) && Subadditive(env)
    ensures Prompt(sections, c, env).finalTokens <= c.maxTokens + env.tokens(SEPARATOR)
  {
    FillBound(Ordered(sections), c, env);
  }

  /** The bodies kept come from the sections taken, in the same order, each a non-empty prefix of its own content. */
  ghost predicate CutFrom(bodies: seq<Body>, ordered: seq<Indexed>, env: Env)
    decreases |ordered|
  {
    if ordered == [] then bodies == []
    else
      var n := |ordered| - 1;
      var s := ordered[n].section;
      || CutFrom(bodies, ordered[..n], env)
      || (bodies != [] && CutFrom(bodies[..|bodies| - 1], ordered[..n], env) && CutOf(bodies[|bodies| - 1], s, env))
  }

  /** A non-empty prefix of the section's content: all of it, or a part with nothing blank at its end. */
  ghost predicate CutOf(b: Body, s: Section, env: Env)
  {
    && b.heading == s.heading && b.body != "" && b.body <= s.content
    && (b.body == s.content || !env.blank(b.body[|b.body| - 1]))
  }

  lemma {:induction false} TrimEndTrims(s: string, env: Env)
    ensures var r := TrimEnd(s, env); r == "" || !env.blank(r[|r| - 1])
    ensures forall i :: |TrimEnd(s, env)| <= i < |s| ==> env.blank(s[i])
    decreases |s|
  {
    if s != "" && env.blank(s[|s| - 1]) { TrimEndTrims(s[..|s| - 1], env); }
  }

  lemma {:induction false} FillCuts(ordered: seq<Indexed>, c: Config, env: Env)
    ensures CutFrom(Fill(ordered, c, env), ordered, env) && |Fill(ordered, c, env)| <= |ordered|
    decreases |ordered|
  {
    if ordered != [] {
      var n := |ordered| - 1;
      var before := Fill(ordered[..n], c, env);
      FillCuts(ordered[..n], c, env);
      var now := Fill(ordered, c, env);
      if now != before {
        assert now[..|before|] == before;
        var s := ordered[n].section;
        var k := Longest(s.content, s.heading, |s.content|, Minus(c.maxTokens, env.tokens(Render(before))), env);
        TrimEndTrims(s.content[..k], env);
      }
    }
  }

  /** What fits is left alone; what does not is cut section by section, in order of need. */
  lemma PromptCutsSections(sections: seq<Section>, c: Config, env: Env)
    ensures env.tokens(Render(Whole(sections))) <= c.maxTokens ==>
            Prompt(sections, c, env).text == Render(Whole(sections))
    ensures env.tokens(Render(Whole(sections))) > c.maxTokens ==>
      exists kept, ordered ::
        && Prompt(sections, c, env).text == Render(kept) && Prompt(sections, c, env).retained == |kept|
        && InOrder(ordered) && multiset(ordered) == multiset(Enumerated(sections)) && CutFrom(kept, ordered, env)
  {
    SortOrders(Enumerated(sections));
    FillCuts(Ordered(sections), c, env);
    assert CutFrom(Fill(Ordered(sections), c, env), Ordered(sections), env);
  }

  // ------------------------------------------------------------------ when the limit itself is kept

  /** A count that never falls, is nothing for nothing, and something for every section. */
  ghost predicate Counts(env: Env)
  {
    && PrefixMonotone(env) && env.tokens("") == 0
    && forall heading, body :: env.tokens(SectionText(heading, body)) >= 1
  }

  ghost predicate KeepsLimit(env: Env)
  {
    forall sections, c :: ValidConfig(c) ==> Prompt(sections, c, env).finalTokens <= c.maxTokens
  }

  /** Setting two sections side by side costs no more than the two of them. */
  ghost predicate FreeSeparators(env: Env)
  {
    forall h, b, i, d | b != "" && d != "" :: FreeBetween(h, b, i, d, env)
  }

  ghost predicate FreeBetween(h: string, b: string, i: string, d: string, env: Env)
  {
    env.tokens(SectionText(h, b) + SEPARATOR + SectionText(i, d)) <= env.tokens(SectionText(h, b))
      + env.tokens(SectionText(i, d))
  }

  ghost predicate AllFilled(bodies: seq<Body>) { forall b :: b in bodies ==> b.body != "" }

  /** Rendered sections read as one section, whose body runs over the separators. */
  lemma {:induction false} RenderIsOneSection(bodies: seq<Body>) returns (body: string)
    requires bodies != [] && AllFilled(bodies)
    ensures body != "" && Render(bodies) == SectionText(bodies[0].heading, body)
    decreases |bodies|
  {
    var n := |bodies| - 1;
    if n == 0 {
      body := bodies[0].body;
    } else {
      var first := RenderIsOneSection(bodies[..n]);
      var last := SectionText(bodies[n].heading, bodies[n].body);
      body := first + SEPARATOR + last;
      assert SectionText(bodies[0].heading, first) + SEPARATOR + last == SectionText(bodies[0].heading, body);
    }
  }

  lemma {:induction false} FreeSeparatorsFill(ordered: seq<Indexed>, c: Config, env: Env)
    requires Counts(env) && FreeSeparators(env)
    ensures env.tokens(Render(Fill(ordered, c, env))) <= c.maxTokens && AllFilled(Fill(ordered, c, env))
    decreases |ordered|
  {
    if ordered != [] {
      var n := |ordered| - 1;
      FreeSeparatorsFill(ordered[..n], c, env);
      FreeSeparatorsTake(Fill(ordered[..n], c, env), ordered[n].section, c, env);
    }
  }

  lemma FreeSeparatorsTake(before: seq<Body>, s: Section, c: Config, env: Env)
    requires Counts(env) && FreeSeparators(env)
    requires env.tokens(Render(before)) <= c.maxTokens && AllFilled(before)
    ensures env.tokens(Render(Take(before, s, c, env))) <= c.maxTokens && AllFilled(Take(before, s, c, env))
  {
    var remaining := Minus(c.maxTokens, env.tokens(Render(before)));
    var candidate := Truncated(s.content, s.heading, remaining, env);
    TruncatedFits(s.content, s.heading, remaining, env);
    if candidate != "" {
      var more := before + [Body(s.heading, candidate)];
      assert more[..|before|] == before;
      if before != [] {
        var body := RenderIsOneSection(before);
        assert FreeBetween(before[0].heading, body, s.heading, candidate, env);
      }
    }
  }

  lemma TwoInOrder(s: Section, t: Section)
    requires s.required == t.required && s.priority == t.priority
    ensures Ordered([s, t]) == [Indexed(0, s), Indexed(1, t)]
  {
    var x, y := Indexed(0, s), Indexed(1, t);
    assert Enumerated([s, t]) == [x, y] && [x, y][1..] == [y] && [y][1..] == [];
    assert Sort([y]) == Insert(y, []) == [y];
    assert Insert(x, [y]) == [x] + [y] == [x, y];
  }

  /** Two sections that cost more side by side than apart are a prompt that exceeds its limit. */
  lemma CostlySeparatorExceeds(h: string, b: string, i: string, d: string, env: Env)
    requires Counts(env) && b != "" && d != "" && !FreeBetween(h, b, i, d, env)
    ensures var sections := [Section(h, b, 0, true), Section(i, d, 0, true)];
            var c := Config(env.tokens(SectionText(h, b)) + env.tokens(SectionText(i, d)), 0);
            ValidConfig(c) && Prompt(sections, c, env).finalTokens > c.maxTokens
  {
    var s, t := Section(h, b, 0, true), Section(i, d, 0, true);
    var x, y := Indexed(0, s), Indexed(1, t);
    TwoInOrder(s, t);
    var c := Config(env.tokens(SectionText(h, b)) + env.tokens(SectionText(i, d)), 0);
    var both := [Body(h, b), Body(i, d)];
    assert both[..1] == [Body(h, b)] && Render([Body(h, b)]) == SectionText(h, b);
    assert Whole([s, t]) == both;
    assert [x, y][..1] == [x] && [x][..0] == [];
    TruncatedFits(b, h, c.maxTokens, env);
    assert Fill([x], c, env) == [Body(h, b)];
    TruncatedFits(d, i, env.tokens(SectionText(i, d)), env);
    assert Fill([x, y], c, env) == both;
  }

  /** The limit itself is kept, for all sections and configurations, if and only if separators are free. */
  lemma LimitKeptIff(env: Env)
    requires Counts(env)
    ensures KeepsLimit(env) <==> FreeSeparators(env)
  {
    if FreeSeparators(env) {
      forall sections, c | ValidConfig(c) ensures Prompt(sections, c, env).finalTokens <= c.maxTokens {
        FreeSeparatorsFill(Ordered(sections), c, env);
      }
    } else {
      var h, b, i, d :| b != "" && d != "" && !FreeBetween(h, b, i, d, env);
      CostlySeparatorExceeds(h, b, i, d, env);
    }
  }

  /** Counting characters, two sections that fit a limit of 15 side by side exceed it by the separator between them. */
  lemma LimitExceeded()
    ensures var env := Env((s: string) => |s|, _ => false, _ => false);
            var sections := [Section("a", "xxxx", 0, true), Section("b", "y", 0, true)];
            Prompt(sections, Config(15, 1), env).finalTokens == 17
  {
    var env := Env((s: string) => |s|, _ => false, _ => false);
    var a, b := Section("a", "xxxx", 0, true), Section("b", "y", 0, true);
    var c := Config(15, 1);
    var x, y := Indexed(0, a), Indexed(1, b);
    assert Whole([a, b])[..1] == [Body("a", "xxxx")];
    assert |Render(Whole([a, b]))| == 17;
    assert Enumerated([a, b]) == [x, y];
    assert [x, y][1..] == [y] && Sort([y]) == [y] && Sort([x, y]) == [x, y];
    assert [x, y][..1] == [x] && [x][..0] == [];
    assert Fill([x], c, env) == [Body("a", "xxxx")];
    assert |Render([Body("a", "xxxx")])| == 9;
    assert Truncated("y", "b", 6, env) == "y";
    assert Fill([x, y], c, env) == [Body("a", "xxxx"), Body("b", "y")];
    assert [Body("a", "xxxx"), Body("b", "y")][..1] == [Body("a", "xxxx")];
  }
}
