/** The shapes of argument the generator's command line is used with, worked through the
    model: `has_many:posts`, `age:min:18`, `HM:Posts`, and a mixture of them. */
module Scenarios {
  import opened PhpStrings
  import opened Descriptors

  /** A segment as typed in the examples: lower case and without ':'. */
  ghost predicate Plain(s: string)
  {
    Separator !in s && forall i :: 0 <= i < |s| ==> !('A' <= s[i] <= 'Z')
  }

  /** `a:b` with plain `a` and `b` splits into exactly `a` and `b`. */
  lemma TwoSegments(a: string, b: string)
    requires Plain(a) && Plain(b)
    ensures Parts(a + [Separator] + b) == [a, b]
  {
    var arg := a + [Separator] + b;
    LowerOfLowerCase(arg);
    ExplodeWithoutSep(Separator, b);
    ExplodeAtFirst(Separator, a, b);
  }

  /** `a:b:c` with plain segments splits into exactly `a`, `b` and `c`. */
  lemma ThreeSegments(a: string, b: string, c: string)
    requires Plain(a) && Plain(b) && Plain(c)
    ensures Parts(a + [Separator] + b + [Separator] + c) == [a, b, c]
  {
    var rest := b + [Separator] + c;
    var arg := a + [Separator] + rest;
    assert arg == a + [Separator] + b + [Separator] + c;
    LowerOfLowerCase(arg);
    ExplodeWithoutSep(Separator, c);
    ExplodeAtFirst(Separator, b, c);
    ExplodeAtFirst(Separator, a, rest);
  }

  /** Like `age:min:18`: three segments are still processed, as a rule whose field is the
      first segment and whose options are the other two joined by ':'. A strict two-part
      check would have dropped such an argument. */
  lemma ThreeSegmentRule(field: string, option: string, value: string, env: Env)
    requires Plain(field) && Plain(option) && Plain(value)
    requires field !in Keywords
    ensures var arg := field + [Separator] + option + [Separator] + value;
      && Parts(arg) == [field, option, value]
      && Classify(Keyword(arg)) == Rule
      && RuleMarkers(Parts(arg)) == map["#FIELD#" := field, "#OPTIONS#" := option + [Separator] + value]
      && Describe(arg, env).Some?
  {
    var arg := field + [Separator] + option + [Separator] + value;
    var rest := option + [Separator] + value;
    ThreeSegments(field, option, value);
    assert Implode(Separator, Parts(arg)[1..]) == rest by {
      assert Parts(arg)[1..] == [option, value];
      assert [option, value][1..] == [value];
    }
    assert Lower(rest) == rest by {
      LowerOfLowerCase(rest);
    }
    LowerOfLowerCase(field);
  }

  /** Upper case in the keyword does not matter: `HM:Posts` is a has-many relationship. */
  lemma UpperCaseAlias()
    ensures Keyword("HM:Posts") == "hm"
    ensures Classify(Keyword("HM:Posts")) == HasMany
  {
  }

  /** Like `has_many:posts`: a keyword and a plain target render the keyword's template
      into the relationships accumulator and nothing into the rules accumulator. */
  lemma RelationshipFragment(keyword: string, target: string, env: Env)
    requires ReplaceKeepsEmpty(env)
    requires keyword in Keywords && Plain(keyword) && Plain(target)
    ensures Describe(keyword + [Separator] + target, env) == Some(Sources(
      env.replace(RelationMarkers([keyword, target], env), env.load(TemplatePath(Keywords[keyword]))),
      ""))
  {
    TwoSegments(keyword, target);
    DescribeRelationship(keyword + [Separator] + target, env);
  }

  /** Like `age:min`: a non-keyword field and plain options render the rule template into
      the rules accumulator and nothing into the relationships accumulator. */
  lemma RuleFragment(field: string, option: string, env: Env)
    requires ReplaceKeepsEmpty(env)
    requires field !in Keywords && Plain(field) && Plain(option)
    ensures Describe(field + [Separator] + option, env) == Some(Sources(
      "",
      env.replace(map["#FIELD#" := field, "#OPTIONS#" := option], env.load(RuleTemplate))))
  {
    var rule := field + [Separator] + option;
    TwoSegments(field, option);
    DescribeRule(rule, env);
    LowerOfLowerCase(field);
    LowerOfLowerCase(option);
    assert Parts(rule)[1..] == [option];
  }

  /** Two processed arguments followed by one without ':' accumulate the two fragments
      in order. */
  lemma AccumulateTwoAndSkip(first: string, second: string, word: string, env: Env)
    requires Describe(first, env).Some? && Describe(second, env).Some?
    requires Separator !in word
    ensures Accumulate([first, second, word], env)
         == Concat(Concat(Sources("", ""), Describe(first, env).value), Describe(second, env).value)
  {
    AccumulateThree(first, second, word, env);
  }

  /** Three arguments are three loop steps from blank accumulators. */
  lemma AccumulateThree(first: string, second: string, third: string, env: Env)
    ensures Accumulate([first, second, third], env)
         == Extend(Extend(Extend(Sources("", ""), first, env), second, env), third, env)
  {
    AccumulateTwo(first, second, env);
    AccumulateStep([first, second], third, env);
    assert [first, second] + [third] == [first, second, third];
  }

  /** Two arguments are two loop steps from blank accumulators. */
  lemma AccumulateTwo(first: string, second: string, env: Env)
    ensures Accumulate([first, second], env)
         == Extend(Extend(Sources("", ""), first, env), second, env)
  {
    AccumulateStep([], first, env);
    assert [] + [first] == [first];
    AccumulateStep([first], second, env);
    assert [first] + [second] == [first, second];
  }

  /** One more argument is one more loop step. */
  lemma AccumulateStep(arguments: seq<string>, relation: string, env: Env)
    ensures Accumulate(arguments + [relation], env) == Extend(Accumulate(arguments, env), relation, env)
  {
    assert (arguments + [relation])[..|arguments|] == arguments;
  }

  /** Like `has_many:posts age:min plain`: the relationships accumulator holds exactly the
      relationship's fragment, the rules accumulator exactly the rule's fragment, and the
      word without ':' contributes nothing. */
  lemma MixedArguments(keyword: string, target: string, field: string, option: string,
                       word: string, env: Env)
    requires ReplaceKeepsEmpty(env)
    requires keyword in Keywords && Plain(keyword) && Plain(target)
    requires field !in Keywords && Plain(field) && Plain(option)
    requires Separator !in word
    ensures Accumulate([keyword + [Separator] + target, field + [Separator] + option, word], env)
         == Sources(
              env.replace(RelationMarkers([keyword, target], env),
                          env.load(TemplatePath(Keywords[keyword]))),
              env.replace(map["#FIELD#" := field, "#OPTIONS#" := option], env.load(RuleTemplate)))
  {
    var relation := keyword + [Separator] + target;
    var rule := field + [Separator] + option;
    var relFragment := env.replace(RelationMarkers([keyword, target], env),
                                   env.load(TemplatePath(Keywords[keyword])));
    var ruleFragment := env.replace(map["#FIELD#" := field, "#OPTIONS#" := option],
                                    env.load(RuleTemplate));
    RelationshipFragment(keyword, target, env);
    RuleFragment(field, option, env);
    AccumulateTwoAndSkip(relation, rule, word, env);
    assert "" + relFragment + "" == relFragment;
    assert "" + "" + ruleFragment == ruleFragment;
  }
}
