/** The permission pipeline: deny rules, mode, allow rules, ask. */
module Policy {
  import opened Hashing

  datatype Effect = DenyEffect | AllowEffect | UnknownEffect

  datatype Rule = Rule(id: string, effect: Effect, tool: string, argMatch: string)

  datatype Mode = DefaultMode | AcceptEdits | Plan | Bypass | OtherMode

  datatype Egress = NoEgress | Internal | External | Unset

  datatype Arg = Text(s: string) | NotText

  datatype Input = Input(tool: string, args: map<string, Arg>, mutating: bool, egress: Egress, mode: Mode, tainted: bool)

  datatype Decision = Allow | Deny | Ask

  datatype Reason = DeniedByRule | BypassMode | EditApproved | HeldByPlan | TaintGate | AllowedByRule | NotAllowlisted | NoAllowRule

  datatype Result = Result(decision: Decision, ruleId: string, reason: Reason)

  /** BypassForbidden is the error returned for bypass while untrusted content is present. */
  datatype Outcome = Decided(result: Result) | BypassForbidden

  /** Foreign text functions: lower-casing, trimming, and the host name of a URL that parses. */
  datatype Texts = Texts(lower: string -> string, trim: string -> string, hostname: string -> Option<string>)

  datatype Engine = Engine(denies: seq<Rule>, allows: seq<Rule>, edits: set<string>)

  const DEFAULT_EDIT_TOOLS: set<string> := {"edit", "write"}

  // ---- Matching ----

  predicate StartsWith(s: string, prefix: string) {
    prefix <= s
  }

  predicate EndsWith(s: string, suffix: string) {
    |suffix| <= |s| && s[|s| - |suffix|..] == suffix
  }

  predicate ContainsText(s: string, part: string) {
    exists i | 0 <= i <= |s| :: part <= s[i..]
  }

  function TargetHost(texts: Texts, args: map<string, Arg>): string {
    if "host" in args && args["host"].Text? && args["host"].s != "" then texts.lower(args["host"].s)
    else if "url" in args && args["url"].Text? && args["url"].s != "" then
      var h := texts.hostname(args["url"].s);
      if h.Some? && h.value != "" then texts.lower(h.value) else ""
    else ""
  }

  predicate HostMatches(texts: Texts, want: string, args: map<string, Arg>) {
    var wanted, got := texts.lower(texts.trim(want)), TargetHost(texts, args);
    wanted != "" && got != "" && (got == wanted || EndsWith(got, "." + wanted))
  }

  predicate ArgMatches(texts: Texts, expr: string, args: map<string, Arg>) {
    if StartsWith(expr, "host:") then HostMatches(texts, expr[|"host:"|..], args)
    else if EndsWith(expr, "*") then
      exists k | k in args :: args[k].Text? && StartsWith(args[k].s, expr[..|expr| - 1])
    else
      exists k | k in args :: args[k].Text? && ContainsText(args[k].s, expr)
  }

  predicate RuleMatches(texts: Texts, r: Rule, input: Input) {
    && (r.tool == "" || r.tool == input.tool)
    && (r.argMatch == "" || ArgMatches(texts, r.argMatch, input.args))
  }

  predicate IsExternal(input: Input) {
    !input.egress.NoEgress? && !input.egress.Internal?
  }

  // ---- The engine ----

  /** The rules of one effect among the first n, in order. */
  function OfEffect(rules: seq<Rule>, n: nat, effect: Effect): seq<Rule>
    requires n <= |rules|
  {
    if n == 0 then [] else
    OfEffect(rules, n - 1, effect) + (if rules[n - 1].effect == effect then [rules[n - 1]] else [])
  }

  function Partitioned(rules: seq<Rule>, editTools: set<string>): Engine {
    Engine(OfEffect(rules, |rules|, DenyEffect), OfEffect(rules, |rules|, AllowEffect),
           if editTools == {} then DEFAULT_EDIT_TOOLS else editTools)
  }

  /** None when a rule has an unknown effect. */
  method NewEngine(rules: seq<Rule>, editTools: set<string>) returns (engine: Option<Engine>)
    ensures engine.None? <==> exists r | r in rules :: r.effect.UnknownEffect?
    ensures engine.Some? ==> engine.value == Partitioned(rules, editTools)
  {
    var denies, allows := [], [];
    for i := 0 to |rules|
      invariant forall j | 0 <= j < i :: !rules[j].effect.UnknownEffect?
      invariant denies == OfEffect(rules, i, DenyEffect) && allows == OfEffect(rules, i, AllowEffect)
    {
      var r := rules[i];
      match r.effect
      case DenyEffect => denies := denies + [r];
      case AllowEffect => allows := allows + [r];
      case UnknownEffect => return None;
    }
    engine := Some(Engine(denies, allows, if editTools == {} then DEFAULT_EDIT_TOOLS else editTools));
  }

  function FirstMatch(texts: Texts, rules: seq<Rule>, i: nat, input: Input): Option<Rule>
    requires i <= |rules|
    decreases |rules| - i
  {
    if i == |rules| then None
    else if RuleMatches(texts, rules[i], input) then Some(rules[i])
    else FirstMatch(texts, rules, i + 1, input)
  }

  method FindFirst(texts: Texts, rules: seq<Rule>, input: Input) returns (found: Option<Rule>)
    ensures found == FirstMatch(texts, rules, 0, input)
  {
    for i := 0 to |rules|
      invariant FirstMatch(texts, rules, i, input) == FirstMatch(texts, rules, 0, input)
    {
      if RuleMatches(texts, rules[i], input) {
        return Some(rules[i]);
      }
    }
    found := None;
  }

  /** What remains once deny rules and the mode have not settled the matter. */
  function AllowOrAsk(texts: Texts, e: Engine, input: Input): Result {
    var allow := FirstMatch(texts, e.allows, 0, input);
    if allow.Some? then
      if IsExternal(input) && input.tainted then Result(Ask, allow.value.id, TaintGate)
      else Result(Allow, allow.value.id, AllowedByRule)
    else if IsExternal(input) then Result(Ask, "", NotAllowlisted)
    else Result(Ask, "", NoAllowRule)
  }

  function Evaluate(texts: Texts, e: Engine, input: Input): Outcome {
    var deny := FirstMatch(texts, e.denies, 0, input);
    if deny.Some? then Decided(Result(Deny, deny.value.id, DeniedByRule))
    else if input.mode.Bypass? then
      if input.tainted then BypassForbidden else Decided(Result(Allow, "bypass", BypassMode))
    else if input.mode.AcceptEdits? && input.tool in e.edits then Decided(Result(Allow, "accept_edits", EditApproved))
    else if input.mode.Plan? && input.mutating then Decided(Result(Ask, "plan", HeldByPlan))
    else Decided(AllowOrAsk(texts, e, input))
  }

  // ---- What a rule list means, order apart ----

  ghost predicate Fires(texts: Texts, rules: seq<Rule>, effect: Effect, input: Input) {
    exists r | r in rules :: r.effect == effect && RuleMatches(texts, r, input)
  }

  lemma {:induction false} FirstMatchIff(texts: Texts, rules: seq<Rule>, i: nat, input: Input)
    requires i <= |rules|
    ensures FirstMatch(texts, rules, i, input).Some? <==> exists j | i <= j < |rules| :: RuleMatches(texts, rules[j], input)
    decreases |rules| - i
  {
    hide RuleMatches;
    if i < |rules| {
      FirstMatchIff(texts, rules, i + 1, input);
    }
  }

  lemma {:induction false} OfEffectMembers(rules: seq<Rule>, n: nat, effect: Effect)
    requires n <= |rules|
    ensures forall r :: r in OfEffect(rules, n, effect) <==> r in rules[..n] && r.effect == effect
  {
    if n > 0 {
      OfEffectMembers(rules, n - 1, effect);
      assert rules[..n] == rules[..n - 1] + [rules[n - 1]];
    }
  }

  lemma MatchIsFires(texts: Texts, rules: seq<Rule>, effect: Effect, input: Input)
    ensures FirstMatch(texts, OfEffect(rules, |rules|, effect), 0, input).Some? <==> Fires(texts, rules, effect, input)
  {
    hide RuleMatches, FirstMatch;
    var part := OfEffect(rules, |rules|, effect);
    FirstMatchIff(texts, part, 0, input);
    OfEffectMembers(rules, |rules|, effect);
    assert rules[..|rules|] == rules;
    if Fires(texts, rules, effect, input) {
      var r :| r in rules && r.effect == effect && RuleMatches(texts, r, input);
      assert r in part;
      var j :| 0 <= j < |part| && part[j] == r;
    }
    if j :| 0 <= j < |part| && RuleMatches(texts, part[j], input) {
      assert part[j] in part;
    }
  }

  /** The outcome as a function of what fires, with no rule order in it. */
  function DecisionOf(denied: bool, allowed: bool, edits: set<string>, input: Input): Option<Decision> {
    if denied then Some(Deny)
    else if input.mode.Bypass? then if input.tainted then None else Some(Allow)
    else if input.mode.AcceptEdits? && input.tool in edits then Some(Allow)
    else if input.mode.Plan? && input.mutating then Some(Ask)
    else if allowed && !(input.tainted && input.egress in {External, Unset}) then Some(Allow)
    else Some(Ask)
  }

  function Decides(o: Outcome): Option<Decision> {
    if o.BypassForbidden? then None else Some(o.result.decision)
  }

  lemma DecisionDependsOnWhatFires(texts: Texts, rules: seq<Rule>, tools: set<string>, input: Input)
    ensures var e := Partitioned(rules, tools);
            Decides(Evaluate(texts, e, input))
            == DecisionOf(Fires(texts, rules, DenyEffect, input), Fires(texts, rules, AllowEffect, input), e.edits, input)
  {
    hide Fires, FirstMatch;
    MatchIsFires(texts, rules, DenyEffect, input);
    MatchIsFires(texts, rules, AllowEffect, input);
  }

  // ---- Which rule is reported ----

  /** Rule j is the first of this effect that matches. */
  ghost predicate FirstOf(texts: Texts, rules: seq<Rule>, effect: Effect, input: Input, j: nat) {
    && j < |rules| && rules[j].effect == effect && RuleMatches(texts, rules[j], input)
    && forall i | 0 <= i < j && rules[i].effect == effect :: !RuleMatches(texts, rules[i], input)
  }

  lemma {:induction false} FirstMatchAt(texts: Texts, rules: seq<Rule>, i: nat, k: nat, input: Input)
    requires i <= k < |rules| && RuleMatches(texts, rules[k], input)
    requires forall j | i <= j < k :: !RuleMatches(texts, rules[j], input)
    ensures FirstMatch(texts, rules, i, input) == Some(rules[k])
    decreases k - i
  {
    hide RuleMatches;
    if i < k {
      FirstMatchAt(texts, rules, i + 1, k, input);
    }
  }

  lemma {:induction false} OfEffectGrows(rules: seq<Rule>, m: nat, n: nat, effect: Effect)
    requires m <= n <= |rules|
    ensures OfEffect(rules, m, effect) <= OfEffect(rules, n, effect)
  {
    if m < n {
      OfEffectGrows(rules, m, n - 1, effect);
    }
  }

  /** Partitioned by effect, the list still yields its first matching rule. */
  lemma FirstIsFound(texts: Texts, rules: seq<Rule>, effect: Effect, input: Input, j: nat)
    requires FirstOf(texts, rules, effect, input, j)
    ensures FirstMatch(texts, OfEffect(rules, |rules|, effect), 0, input) == Some(rules[j])
  {
    hide RuleMatches, FirstMatch;
    var before, part := OfEffect(rules, j, effect), OfEffect(rules, |rules|, effect);
    OfEffectMembers(rules, j, effect);
    OfEffectGrows(rules, j + 1, |rules|, effect);
    assert OfEffect(rules, j + 1, effect) == before + [rules[j]];
    var k := |before|;
    assert part[k] == (before + [rules[j]])[k];
    forall i | 0 <= i < k
      ensures !RuleMatches(texts, part[i], input)
    {
      assert part[i] == (before + [rules[j]])[i] == before[i] && before[i] in rules[..j];
    }
    FirstMatchAt(texts, part, 0, k, input);
  }

  /** A denial names the first matching deny rule of the configured list, whatever the mode and the allow rules. */
  lemma DenialNamesFirstRule(texts: Texts, rules: seq<Rule>, tools: set<string>, input: Input, j: nat)
    requires FirstOf(texts, rules, DenyEffect, input, j)
    ensures Evaluate(texts, Partitioned(rules, tools), input) == Decided(Result(Deny, rules[j].id, DeniedByRule))
  {
    hide FirstOf, FirstMatch;
    FirstIsFound(texts, rules, DenyEffect, input, j);
  }

  /** With no denial the mode answers first, under its own name. */
  lemma ModeAnswers(texts: Texts, rules: seq<Rule>, tools: set<string>, input: Input)
    requires !Fires(texts, rules, DenyEffect, input)
    ensures var o := Evaluate(texts, Partitioned(rules, tools), input);
            && (input.mode.Bypass? ==> o == if input.tainted then BypassForbidden else Decided(Result(Allow, "bypass", BypassMode)))
            && (input.mode.AcceptEdits? && input.tool in (if tools == {} then {"edit", "write"} else tools) ==>
                  o == Decided(Result(Allow, "accept_edits", EditApproved)))
            && (input.mode.Plan? && input.mutating ==> o == Decided(Result(Ask, "plan", HeldByPlan)))
  {
    hide Fires, FirstMatch;
    MatchIsFires(texts, rules, DenyEffect, input);
  }

  /** Neither a denial nor an answer of the mode. */
  ghost predicate Undecided(texts: Texts, rules: seq<Rule>, tools: set<string>, input: Input) {
    && !Fires(texts, rules, DenyEffect, input) && !input.mode.Bypass?
    && !(input.mode.AcceptEdits? && input.tool in (if tools == {} then {"edit", "write"} else tools))
    && !(input.mode.Plan? && input.mutating)
  }

  /** Then the first matching allow rule is named, allowing unless the call is tainted and of external or unset class. */
  lemma AllowNamesFirstRule(texts: Texts, rules: seq<Rule>, tools: set<string>, input: Input, j: nat)
    requires Undecided(texts, rules, tools, input) && FirstOf(texts, rules, AllowEffect, input, j)
    ensures Evaluate(texts, Partitioned(rules, tools), input)
            == if input.tainted && input.egress in {External, Unset} then Decided(Result(Ask, rules[j].id, TaintGate))
               else Decided(Result(Allow, rules[j].id, AllowedByRule))
  {
    hide Fires, FirstOf, FirstMatch;
    MatchIsFires(texts, rules, DenyEffect, input);
    FirstIsFound(texts, rules, AllowEffect, input, j);
  }

  /** And with no matching allow rule either, approval is asked for under no rule's name. */
  lemma NothingMatchesAsks(texts: Texts, rules: seq<Rule>, tools: set<string>, input: Input)
    requires Undecided(texts, rules, tools, input) && !Fires(texts, rules, AllowEffect, input)
    ensures Evaluate(texts, Partitioned(rules, tools), input)
            == Decided(Result(Ask, "", if input.egress in {External, Unset} then NotAllowlisted else NoAllowRule))
  {
    hide Fires, FirstMatch;
    MatchIsFires(texts, rules, DenyEffect, input);
    MatchIsFires(texts, rules, AllowEffect, input);
  }

  // ---- What a rule matches ----

  predicate NamesTool(tool: string, input: Input) {
    tool in {"", input.tool}
  }

  /** Without an argument pattern a rule matches by tool alone; the empty tool is every tool. */
  lemma BareRule(texts: Texts, id: string, effect: Effect, tool: string, input: Input)
    ensures RuleMatches(texts, Rule(id, effect, tool, ""), input) <==> NamesTool(tool, input)
  {
    hide ArgMatches;
  }

  /** A trailing star asks for a text argument that starts with what precedes it. */
  lemma PrefixRule(texts: Texts, id: string, effect: Effect, tool: string, prefix: string, input: Input)
    requires !("host:" <= prefix + "*")
    ensures RuleMatches(texts, Rule(id, effect, tool, prefix + "*"), input)
            <==> NamesTool(tool, input) && exists k, rest | k in input.args :: input.args[k] == Text(prefix + rest)
  {
    var expr := prefix + "*";
    assert expr[|prefix|..] == "*" && expr[..|prefix|] == prefix;
    if k, rest :| k in input.args && input.args[k] == Text(prefix + rest) {
      assert prefix <= input.args[k].s;
    }
    if k :| k in input.args && input.args[k].Text? && prefix <= input.args[k].s {
      var rest := input.args[k].s[|prefix|..];
      assert input.args[k] == Text(prefix + rest);
    }
  }

  lemma ContainsIff(s: string, part: string)
    ensures ContainsText(s, part) <==> exists a, b :: s == a + part + b
  {
    if i :| 0 <= i <= |s| && part <= s[i..] {
      assert s == s[..i] + part + s[i + |part|..];
    }
    if a, b :| s == a + part + b {
      assert s[|a|..] == part + b;
    }
  }

  /** Any other pattern asks for a text argument that contains it. */
  lemma LiteralRule(texts: Texts, id: string, effect: Effect, tool: string, part: string, input: Input)
    requires part != "" && part[|part| - 1] != '*' && !("host:" <= part)
    ensures RuleMatches(texts, Rule(id, effect, tool, part), input)
            <==> NamesTool(tool, input) && exists k, a, b | k in input.args :: input.args[k] == Text(a + part + b)
  {
    hide ContainsText;
    assert part[|part| - 1..] == [part[|part| - 1]];
    forall k | k in input.args && input.args[k].Text?
      ensures ContainsText(input.args[k].s, part) <==> exists a, b :: input.args[k] == Text(a + part + b)
    {
      ContainsIff(input.args[k].s, part);
    }
  }

  // ---- Order ----

  lemma FiresPermutes(texts: Texts, a: seq<Rule>, b: seq<Rule>, effect: Effect, input: Input)
    requires multiset(a) == multiset(b)
    ensures Fires(texts, a, effect, input) <==> Fires(texts, b, effect, input)
  {
    hide RuleMatches;
    forall r
      ensures r in a <==> r in b
    {
      assert r in a <==> r in multiset(a);
      assert r in b <==> r in multiset(b);
    }
  }

  /** Permuting the rules never changes the decision. */
  lemma PermutingKeepsDecision(texts: Texts, a: seq<Rule>, b: seq<Rule>, tools: set<string>, input: Input)
    requires multiset(a) == multiset(b)
    ensures Decides(Evaluate(texts, Partitioned(a, tools), input)) == Decides(Evaluate(texts, Partitioned(b, tools), input))
  {
    hide Fires, Evaluate;
    DecisionDependsOnWhatFires(texts, a, tools, input);
    DecisionDependsOnWhatFires(texts, b, tools, input);
    FiresPermutes(texts, a, b, DenyEffect, input);
    FiresPermutes(texts, a, b, AllowEffect, input);
  }

  /** The list with its rules k and k+1 exchanged. */
  function Exchanged(rules: seq<Rule>, k: nat): seq<Rule>
    requires k + 1 < |rules|
  {
    rules[k := rules[k + 1]][k + 1 := rules[k]]
  }

  lemma {:induction false} ExchangeKeepsOrder(rules: seq<Rule>, k: nat, n: nat, effect: Effect)
    requires k + 1 < |rules| && n <= |rules| && n != k + 1 && rules[k].effect != rules[k + 1].effect
    ensures OfEffect(Exchanged(rules, k), n, effect) == OfEffect(rules, n, effect)
  {
    if n == k + 2 {
      ExchangeKeepsOrder(rules, k, k, effect);
      var other := Exchanged(rules, k);
      assert OfEffect(rules, k + 1, effect) == OfEffect(rules, k, effect) + if rules[k].effect == effect then [rules[k]] else [];
      assert OfEffect(other, k + 1, effect) == OfEffect(rules, k, effect) + if other[k].effect == effect then [other[k]] else [];
    } else if n > 0 {
      ExchangeKeepsOrder(rules, k, n - 1, effect);
    }
  }

  /** Moving a rule past a neighbour of another effect changes nothing at all, the reported rule included. */
  lemma InterleavingIsFree(texts: Texts, rules: seq<Rule>, k: nat, tools: set<string>, input: Input)
    requires k + 1 < |rules| && rules[k].effect != rules[k + 1].effect
    ensures Evaluate(texts, Partitioned(Exchanged(rules, k), tools), input) == Evaluate(texts, Partitioned(rules, tools), input)
  {
    hide OfEffect, Evaluate;
    ExchangeKeepsOrder(rules, k, |rules|, DenyEffect);
    ExchangeKeepsOrder(rules, k, |rules|, AllowEffect);
  }

  // ---- Adding a rule ----

  function Inserted(rules: seq<Rule>, k: nat, r: Rule): seq<Rule>
    requires k <= |rules|
  {
    rules[..k] + [r] + rules[k..]
  }

  lemma FiresMore(texts: Texts, rules: seq<Rule>, k: nat, r: Rule, effect: Effect, input: Input)
    requires k <= |rules|
    ensures Fires(texts, Inserted(rules, k, r), effect, input)
            <==> Fires(texts, rules, effect, input) || (r.effect == effect && RuleMatches(texts, r, input))
  {
    hide RuleMatches;
    assert rules == rules[..k] + rules[k..];
    forall x
      ensures x in Inserted(rules, k, r) <==> x in rules || x == r
    {
    }
  }

  /** A further deny rule, anywhere, leaves the decision as it is or makes it Deny, the latter exactly when it matches. */
  lemma AddingDeny(texts: Texts, rules: seq<Rule>, k: nat, r: Rule, tools: set<string>, input: Input)
    requires k <= |rules| && r.effect == DenyEffect
    ensures Decides(Evaluate(texts, Partitioned(Inserted(rules, k, r), tools), input))
            == if RuleMatches(texts, r, input) then Some(Deny) else Decides(Evaluate(texts, Partitioned(rules, tools), input))
  {
    hide Fires, Evaluate, RuleMatches, Inserted;
    DecisionDependsOnWhatFires(texts, rules, tools, input);
    DecisionDependsOnWhatFires(texts, Inserted(rules, k, r), tools, input);
    FiresMore(texts, rules, k, r, DenyEffect, input);
    FiresMore(texts, rules, k, r, AllowEffect, input);
  }

  /** A further allow rule, anywhere, turns Ask into Allow or changes no decision. */
  lemma AddingAllow(texts: Texts, rules: seq<Rule>, k: nat, r: Rule, tools: set<string>, input: Input)
    requires k <= |rules| && r.effect == AllowEffect
    ensures var before := Decides(Evaluate(texts, Partitioned(rules, tools), input));
            var after := Decides(Evaluate(texts, Partitioned(Inserted(rules, k, r), tools), input));
            after == before || (before == Some(Ask) && after == Some(Allow))
  {
    hide Fires, Evaluate, RuleMatches, Inserted;
    DecisionDependsOnWhatFires(texts, rules, tools, input);
    DecisionDependsOnWhatFires(texts, Inserted(rules, k, r), tools, input);
    FiresMore(texts, rules, k, r, DenyEffect, input);
    FiresMore(texts, rules, k, r, AllowEffect, input);
  }

  // ---- Taint ----

  function Severity(d: Option<Decision>): nat {
    match d
    case Some(Allow) => 0
    case Some(Ask) => 1
    case None => 2
    case Some(Deny) => 3
  }

  lemma {:induction false} TaintDoesNotMatch(texts: Texts, rules: seq<Rule>, i: nat, input: Input)
    requires i <= |rules|
    ensures FirstMatch(texts, rules, i, input.(tainted := true)) == FirstMatch(texts, rules, i, input.(tainted := false))
    decreases |rules| - i
  {
    hide ArgMatches;
    if i < |rules| {
      TaintDoesNotMatch(texts, rules, i + 1, input);
    }
  }

  /** In every mode, with any engine, untrusted content never loosens the outcome. */
  lemma TaintTightens(texts: Texts, e: Engine, input: Input)
    ensures Severity(Decides(Evaluate(texts, e, input.(tainted := false))))
            <= Severity(Decides(Evaluate(texts, e, input.(tainted := true))))
  {
    hide FirstMatch;
    TaintDoesNotMatch(texts, e.denies, 0, input);
    TaintDoesNotMatch(texts, e.allows, 0, input);
  }

  /**
    With untrusted content present, a call of external or unset egress class is let through
    without approval exactly when the mode auto-approves its tool as an edit and no deny rule matches.
   */
  lemma TaintedExternalAllowedIff(texts: Texts, rules: seq<Rule>, tools: set<string>, input: Input)
    requires input.tainted && input.egress in {External, Unset}
    ensures Decides(Evaluate(texts, Partitioned(rules, tools), input)) == Some(Allow)
            <==> && !Fires(texts, rules, DenyEffect, input) && input.mode.AcceptEdits?
                 && input.tool in (if tools == {} then {"edit", "write"} else tools)
  {
    hide Fires, Evaluate;
    DecisionDependsOnWhatFires(texts, rules, tools, input);
  }

  /** A call of class none or internal that an allow rule matches and no deny rule does is allowed outside plan and bypass, tainted or not. */
  lemma TaintSparesInternalCalls(texts: Texts, rules: seq<Rule>, tools: set<string>, input: Input)
    requires input.egress in {NoEgress, Internal} && !input.mode.Plan? && !input.mode.Bypass?
    requires Fires(texts, rules, AllowEffect, input) && !Fires(texts, rules, DenyEffect, input)
    ensures Decides(Evaluate(texts, Partitioned(rules, tools), input)) == Some(Allow)
  {
    hide Fires, Evaluate;
    DecisionDependsOnWhatFires(texts, rules, tools, input);
  }

  /** An edit tool of unset egress class, under accept_edits, with untrusted content and no rules: allowed outright. */
  lemma TaintedEditIsAllowed(texts: Texts, args: map<string, Arg>)
    ensures var input := Input("edit", args, true, Unset, AcceptEdits, true);
            && IsExternal(input) && input.tainted
            && Evaluate(texts, Partitioned([], {}), input) == Decided(Result(Allow, "accept_edits", EditApproved))
  {
    assert FirstMatch(texts, [], 0, Input("edit", args, true, Unset, AcceptEdits, true)) == None;
  }

  // ---- Host rules ----

  function FirstDot(s: string, i: nat): (d: nat)
    requires i <= |s|
    ensures i <= d <= |s|
    ensures forall j | i <= j < d :: s[j] != '.'
    ensures d < |s| ==> s[d] == '.'
    decreases |s| - i
  {
    if i == |s| || s[i] == '.' then i else FirstDot(s, i + 1)
  }

  /** The dot-separated labels of a host name. */
  function Labels(s: string): seq<string>
    decreases |s|
  {
    var d := FirstDot(s, 0);
    if d == |s| then [s] else [s[..d]] + Labels(s[d + 1..])
  }

  function JoinLabels(labels: seq<string>): string {
    if labels == [] then "" else if |labels| == 1 then labels[0] else labels[0] + "." + JoinLabels(labels[1..])
  }

  lemma LabelsUnfold(s: string)
    ensures var d := FirstDot(s, 0); Labels(s) == if d == |s| then [s] else [s[..d]] + Labels(s[d + 1..])
  {
    hide FirstDot;
  }

  lemma JoinUnfold(first: string, rest: seq<string>)
    requires rest != []
    ensures JoinLabels([first] + rest) == first + "." + JoinLabels(rest)
  {
    assert ([first] + rest)[1..] == rest;
  }

  lemma SplitAt(s: string, d: nat)
    requires d < |s| && s[d] == '.'
    ensures s == s[..d] + "." + s[d + 1..]
  {
  }

  lemma {:induction false} JoinOfLabels(s: string)
    ensures JoinLabels(Labels(s)) == s && |Labels(s)| > 0
    decreases |s|
  {
    hide Labels, JoinLabels, FirstDot;
    var d := FirstDot(s, 0);
    LabelsUnfold(s);
    if d < |s| {
      JoinOfLabels(s[d + 1..]);
      JoinUnfold(s[..d], Labels(s[d + 1..]));
      SplitAt(s, d);
    } else {
      JoinSingle(s);
    }
  }

  lemma JoinSingle(s: string)
    ensures JoinLabels([s]) == s
  {
  }

  lemma {:induction false} JoinConcat(a: seq<string>, b: seq<string>)
    requires a != [] && b != []
    ensures JoinLabels(a + b) == JoinLabels(a) + "." + JoinLabels(b)
  {
    if |a| == 1 {
      assert (a + b)[1..] == b;
    } else {
      JoinConcat(a[1..], b);
      assert (a + b)[1..] == a[1..] + b;
    }
  }

  /** The first label and the rest, where s has a dot at all. */
  lemma FirstLabel(s: string, first: string, rest: string)
    requires FirstDot(s, 0) < |s| && s[..FirstDot(s, 0)] == first && s[FirstDot(s, 0) + 1..] == rest
    ensures Labels(s) == [first] + Labels(rest)
  {
    hide FirstDot, Labels;
    LabelsUnfold(s);
  }

  lemma {:induction false} LabelsConcat(a: string, b: string)
    ensures Labels(a + "." + b) == Labels(a) + Labels(b)
    decreases |a|
  {
    hide Labels, FirstDot;
    var d := FirstDot(a, 0);
    DotOfConcat(a, b);
    CutConcat(a, b, d);
    if d < |a| {
      var first, rest := a[..d], a[d + 1..];
      LabelsConcat(rest, b);
      FirstLabel(a, first, rest);
      FirstLabel(a + "." + b, first, rest + "." + b);
      RegroupLabels(first, Labels(rest), Labels(b));
    } else {
      FirstLabel(a + "." + b, a, b);
      LabelsUnfold(a);
    }
  }

  lemma RegroupLabels(first: string, a: seq<string>, b: seq<string>)
    ensures [first] + (a + b) == ([first] + a) + b
  {
  }

  lemma CutConcat(a: string, b: string, d: nat)
    requires d <= |a|
    ensures var s := a + "." + b;
            && d < |s| && s[..d] == a[..d]
            && (d < |a| ==> s[d + 1..] == a[d + 1..] + "." + b) && (d == |a| ==> s[d + 1..] == b && a[..d] == a)
  {
  }

  lemma DotOfConcat(a: string, b: string)
    ensures FirstDot(a + "." + b, 0) == FirstDot(a, 0)
  {
    var s, d := a + "." + b, FirstDot(a, 0);
    assert forall j | 0 <= j < d :: s[j] == a[j];
    assert s[d] == '.';
  }

  ghost predicate LabelSuffix(want: seq<string>, got: seq<string>) {
    |want| <= |got| && got[|got| - |want|..] == want
  }

  lemma SuffixMeansLabels(want: string, got: string)
    ensures (got == want || EndsWith(got, "." + want)) <==> LabelSuffix(Labels(want), Labels(got))
  {
    hide Labels, JoinLabels;
    JoinOfLabels(want);
    JoinOfLabels(got);
    if got == want {
      assert Labels(got)[0..] == Labels(want);
    } else if EndsWith(got, "." + want) {
      EndsSplits(got, want);
      var a := got[..|got| - |want| - 1];
      LabelsConcat(a, want);
      JoinOfLabels(a);
      SuffixOfConcat(Labels(a), Labels(want));
    }
    if LabelSuffix(Labels(want), Labels(got)) {
      var k := |Labels(got)| - |Labels(want)|;
      var p := Labels(got)[..k];
      assert Labels(got) == p + Labels(want);
      if k > 0 {
        JoinConcat(p, Labels(want));
        EndsOfConcat(JoinLabels(p), want);
      } else {
        assert Labels(got) == Labels(want);
      }
    }
  }

  lemma EndsSplits(got: string, want: string)
    requires EndsWith(got, "." + want)
    ensures |want| + 1 <= |got| && got == got[..|got| - |want| - 1] + "." + want
  {
    var cut := |got| - |want| - 1;
    assert got == got[..cut] + got[cut..];
    assert got[..cut] + ("." + want) == got[..cut] + "." + want;
  }

  lemma EndsOfConcat(a: string, want: string)
    ensures EndsWith(a + "." + want, "." + want)
  {
    var s := a + "." + want;
    assert s[|s| - |want| - 1..] == "." + want;
  }

  lemma SuffixOfConcat(a: seq<string>, b: seq<string>)
    ensures LabelSuffix(b, a + b)
  {
    assert (a + b)[|a|..] == b;
  }

  /**
    A host rule whose trimmed host is not empty matches exactly when its labels are the last
    labels of the target host; with an empty one it never matches.
   */
  lemma HostRuleMatchesLabels(texts: Texts, want: string, args: map<string, Arg>)
    ensures var wanted := texts.lower(texts.trim(want));
            HostMatches(texts, want, args)
            <==> wanted != "" && LabelSuffix(Labels(wanted), Labels(TargetHost(texts, args)))
  {
    hide Labels, EndsWith, TargetHost;
    var wanted, got := texts.lower(texts.trim(want)), TargetHost(texts, args);
    SuffixMeansLabels(wanted, got);
    NothingEndsWithDot(wanted);
  }

  /** A host pattern matches when the labels of its host are the last labels of the host the call is aimed at. */
  lemma HostRule(texts: Texts, id: string, effect: Effect, tool: string, want: string, input: Input)
    ensures var wanted := texts.lower(texts.trim(want));
            RuleMatches(texts, Rule(id, effect, tool, "host:" + want), input)
            <==> && NamesTool(tool, input)
                 && wanted != "" && LabelSuffix(Labels(wanted), Labels(TargetHost(texts, input.args)))
  {
    hide HostMatches, Labels, TargetHost, EndsWith, ContainsText, LabelSuffix;
    assert ("host:" + want)[|"host:"|..] == want;
    HostRuleMatchesLabels(texts, want, input.args);
  }

  /** A text "host" argument that is not empty is the target, whatever the "url" argument says. */
  lemma HostArgumentWins(texts: Texts, args: map<string, Arg>, host: string, url: Arg)
    requires host != ""
    ensures TargetHost(texts, args["url" := url]["host" := Text(host)]) == texts.lower(host)
    ensures TargetHost(texts, args["host" := Text(host)]) == texts.lower(host)
  {
  }

  /** The call names no host of its own. */
  predicate NoHostArgument(args: map<string, Arg>) {
    "host" !in args || args["host"].NotText? || args["host"].s == ""
  }

  /** Otherwise the host of a "url" argument that parses is, and without one there is no target. */
  lemma UrlIsFallback(texts: Texts, args: map<string, Arg>, url: string)
    requires NoHostArgument(args)
    ensures var host := texts.hostname(url);
            TargetHost(texts, args["url" := Text(url)])
            == if url == "" || host.None? || host.value == "" then "" else texts.lower(host.value)
    ensures "url" !in args || args["url"].NotText? ==> TargetHost(texts, args) == ""
  {
    var more := args["url" := Text(url)];
    assert "host" in more ==> "host" in args && more["host"] == args["host"];
    assert more["url"] == Text(url);
  }

  lemma NothingEndsWithDot(want: string)
    ensures !EndsWith("", "." + want)
  {
  }
}
