/** The pure part of the model generator: how one trailing command-line argument such as
    `has_many:posts` or `age:min:18` is split, classified and rendered, what the loop over
    all arguments accumulates, and the marker map handed to the model template. */
module Descriptors {
  import opened PhpStrings

  /** The collaborators the generator calls but whose code is not part of this model. */
  datatype Env = Env(
    singular: string -> string,                         // Str::singular
    plural: string -> string,                           // Str::plural
    classify: string -> string,                         // Str::classify
    load: string -> string,                             // Common::load_template, by template key
    replace: (map<string, string>, string) -> string)   // Common::replace_markers(markers, template)

  /** `Common::replace_markers` leaves an empty template empty. This is not known of the
      real helper, so every lemma that needs it says so. */
  ghost predicate ReplaceKeepsEmpty(env: Env)
  {
    forall markers: map<string, string> :: env.replace(markers, "") == ""
  }

  /** The host framework's `DEFAULT_BUNDLE`. */
  const DefaultBundle := "application"

  const Separator := ':'

  const ModelTemplate := "model/model.tpl"
  const RuleTemplate := "model/rule.tpl"
  const RulesTemplate := "model/rules.tpl"

  /** The timestamps declaration inserted when the `timestamps` or `t` switch is given. */
  const TimestampsSnippet := "\tpublic static $timestamps = true;\n\n"

  // ---------------------------------------------------------------------------
  // Classification
  // ---------------------------------------------------------------------------

  /** What the first segment of an argument selects: one of four relationships, or a rule. */
  datatype Kind = HasMany | BelongsTo | HasOne | HasAndBelongsToMany | Rule

  /** The closed table of relationship keywords, long forms and short aliases alike. */
  const Keywords: map<string, Kind> := map[
    "has_many" := HasMany, "hm" := HasMany,
    "belongs_to" := BelongsTo, "bt" := BelongsTo,
    "has_one" := HasOne, "ho" := HasOne,
    "has_and_belongs_to_many" := HasAndBelongsToMany, "hbm" := HasAndBelongsToMany]

  /** The `switch` on the first segment: each keyword and its alias select one relationship;
      any other segment, including the empty one, selects the rule template. */
  function Classify(keyword: string): (k: Kind)
    ensures k == Rule <==> keyword !in Keywords
    ensures keyword in Keywords ==> k == Keywords[keyword]
  {
    if keyword == "has_many" || keyword == "hm" then HasMany
    else if keyword == "belongs_to" || keyword == "bt" then BelongsTo
    else if keyword == "has_one" || keyword == "ho" then HasOne
    else if keyword == "has_and_belongs_to_many" || keyword == "hbm" then HasAndBelongsToMany
    else Rule
  }

  function LongName(k: Kind): string
    requires k != Rule
  {
    match k
    case HasMany => "has_many"
    case BelongsTo => "belongs_to"
    case HasOne => "has_one"
    case HasAndBelongsToMany => "has_and_belongs_to_many"
  }

  function ShortName(k: Kind): string
    requires k != Rule
  {
    match k
    case HasMany => "hm"
    case BelongsTo => "bt"
    case HasOne => "ho"
    case HasAndBelongsToMany => "hbm"
  }

  /** Each short alias selects the same relationship as its long form, and the two are
      different words. */
  lemma AliasesAgree(k: Kind)
    requires k != Rule
    ensures Classify(LongName(k)) == k && Classify(ShortName(k)) == k
    ensures LongName(k) != ShortName(k)
  {
  }

  /** The template key each kind loads: a key under `model/`, the rule template's key
      exactly for a rule. */
  function TemplatePath(k: Kind): (r: string)
    ensures "model/" <= r
    ensures r == RuleTemplate <==> k == Rule
  {
    match k
    case HasMany => "model/has_many.tpl"
    case BelongsTo => "model/belongs_to.tpl"
    case HasOne => "model/has_one.tpl"
    case HasAndBelongsToMany => "model/has_and_belongs_to_many.tpl"
    case Rule => RuleTemplate
  }

  /** Each relationship loads the template named after its long keyword. */
  lemma TemplateNamedAfterKeyword(k: Kind)
    requires k != Rule
    ensures TemplatePath(k) == "model/" + LongName(k) + ".tpl"
  {
    TemplateSpelling();
  }

  /** The four relationship template keys, spelled out as `model/` + keyword + `.tpl`. */
  lemma TemplateSpelling()
    ensures "model/has_many.tpl" == "model/" + "has_many" + ".tpl"
    ensures "model/belongs_to.tpl" == "model/" + "belongs_to" + ".tpl"
    ensures "model/has_one.tpl" == "model/" + "has_one" + ".tpl"
    ensures "model/has_and_belongs_to_many.tpl" == "model/" + "has_and_belongs_to_many" + ".tpl"
  {
  }

  /** No two kinds load the same template. */
  lemma TemplatePathInjective(k: Kind, k': Kind)
    ensures TemplatePath(k) == TemplatePath(k') ==> k == k'
  {
  }

  /** A pair of texts, one for the relationships and one for the rules: the two templates
      of one argument, the two fragments it renders, or the two accumulators. */
  datatype Sources = Sources(relationships: string, rules: string)

  function Concat(a: Sources, b: Sources): Sources
  {
    Sources(a.relationships + b.relationships, a.rules + b.rules)
  }

  /** Both templates start blank; the `switch` loads exactly one of them: the rule template
      for a rule, the kind's relationship template otherwise. */
  function SelectTemplates(k: Kind, env: Env): (t: Sources)
    ensures k == Rule ==> t.relationships == "" && t.rules == env.load(RuleTemplate)
    ensures k != Rule ==> t.rules == "" && t.relationships == env.load(TemplatePath(k))
  {
    if k == Rule then Sources("", env.load(TemplatePath(k)))
    else Sources(env.load(TemplatePath(k)), "")
  }

  // ---------------------------------------------------------------------------
  // One argument
  // ---------------------------------------------------------------------------

  /** The argument lower-cased as a whole and exploded on ':'. Lower-casing leaves ':'
      alone, so there are two segments or more exactly when the argument has a ':'. */
  function Parts(relation: string): (parts: seq<string>)
    ensures |parts| >= 1
    ensures Separator in relation <==> |parts| >= 2
  {
    LowerKeepsChar(relation, Separator);
    Explode(Separator, Lower(relation))
  }

  /** The first segment, the one the `switch` looks at. */
  function Keyword(relation: string): string
  {
    Parts(relation)[0]
  }

  /** The "we need two parts" guard exactly as written: `!count(parts) == 2`, where `!`
      binds tighter than `==`, so a boolean is compared loosely with the integer 2. */
  function SkipsOnPartCount(parts: seq<string>): (skips: bool)
    ensures skips <==> parts == []
  {
    LooseEqualsBoolInt(!(|parts| != 0), 2)
  }

  /** The markers for a relationship template, all computed from the second segment; the
      singular and plural markers are lower case. */
  function RelationMarkers(parts: seq<string>, env: Env): (m: map<string, string>)
    requires |parts| >= 2
    ensures m.Keys == {"#SINGULAR#", "#PLURAL#", "#WORD#", "#WORDS#"}
    ensures Lower(m["#SINGULAR#"]) == m["#SINGULAR#"] && Lower(m["#PLURAL#"]) == m["#PLURAL#"]
  {
    LowerIdempotent(env.singular(parts[1]));
    LowerIdempotent(env.plural(parts[1]));
    map[
      "#SINGULAR#" := Lower(env.singular(parts[1])),
      "#PLURAL#" := Lower(env.plural(parts[1])),
      "#WORD#" := env.classify(env.singular(parts[1])),
      "#WORDS#" := env.classify(env.plural(parts[1]))]
  }

  /** The markers for the rule template: the field is the first segment and the options
      are the remaining segments joined again with ':'. */
  function RuleMarkers(parts: seq<string>): (m: map<string, string>)
    requires |parts| >= 1
    ensures m.Keys == {"#FIELD#", "#OPTIONS#"}
    ensures Lower(m["#FIELD#"]) == m["#FIELD#"] && Lower(m["#OPTIONS#"]) == m["#OPTIONS#"]
    ensures |parts| == 2 ==> m["#OPTIONS#"] == Lower(parts[1])
  {
    LowerIdempotent(parts[0]);
    LowerIdempotent(Implode(Separator, parts[1..]));
    map[
      "#FIELD#" := Lower(parts[0]),
      "#OPTIONS#" := Lower(Implode(Separator, parts[1..]))]
  }

  /** One pass of the loop body: `None` when the argument is skipped, otherwise the two
      fragments appended to the relationships and rules accumulators. Only an argument
      without ':' is skipped; the part-count guard lets everything through. */
  function Describe(relation: string, env: Env): (r: Option<Sources>)
    ensures r.None? <==> Separator !in relation
  {
    StrStrTruthy(relation, Separator);
    if !Truthy(StrStr(relation, Separator)) then None
    else
      var parts := Parts(relation);
      if SkipsOnPartCount(parts) then None
      else
        var templates := SelectTemplates(Classify(parts[0]), env);
        Some(Sources(
          env.replace(RelationMarkers(parts, env), templates.relationships),
          env.replace(RuleMarkers(parts), templates.rules)))
  }

  /** The relationship markers look at the second segment only: the keyword and any
      segments after the second do not change them. */
  lemma RelationMarkersUseTarget(p: seq<string>, q: seq<string>, env: Env)
    requires |p| >= 2 && |q| >= 2 && p[1] == q[1]
    ensures RelationMarkers(p, env) == RelationMarkers(q, env)
  {
  }

  /** The part-count guard never skips: `explode` always yields at least one segment, so
      `!count(parts)` is false, and false is loosely unequal to 2. An argument with three
      or more segments is processed like one with two. */
  lemma PartCountGuardNeverSkips(relation: string)
    ensures !SkipsOnPartCount(Parts(relation))
  {
  }

  /** Classification ignores case: two arguments equal after lower-casing are treated alike. */
  lemma DescribeIgnoresCase(a: string, b: string, env: Env)
    requires Lower(a) == Lower(b)
    ensures Describe(a, env) == Describe(b, env)
  {
    LowerKeepsChar(a, Separator);
    LowerKeepsChar(b, Separator);
  }

  /** A relationship keyword (long or short) loads that relationship's template and renders
      it with the relationship markers; the rules fragment is the empty template rendered. */
  lemma DescribeRelationship(relation: string, env: Env)
    requires Separator in relation
    requires Classify(Keyword(relation)) != Rule
    ensures Describe(relation, env) == Some(Sources(
      env.replace(RelationMarkers(Parts(relation), env), env.load(TemplatePath(Classify(Keyword(relation))))),
      env.replace(RuleMarkers(Parts(relation)), "")))
  {
  }

  /** Any other first segment loads the rule template and renders it with the rule markers;
      the relationships fragment is the empty template rendered. */
  lemma DescribeRule(relation: string, env: Env)
    requires Separator in relation
    requires Classify(Keyword(relation)) == Rule
    ensures Describe(relation, env) == Some(Sources(
      env.replace(RelationMarkers(Parts(relation), env), ""),
      env.replace(RuleMarkers(Parts(relation)), env.load(RuleTemplate))))
  {
  }

  /** The rule markers split the lower-cased argument at its first ':' and nowhere else:
      `#FIELD#` has no ':', and `#FIELD#`, ':' and `#OPTIONS#` put back together give the
      lower-cased argument (`age:min:18` gives `age` and `min:18`). */
  lemma {:induction false} RuleMarkersRoundTrip(relation: string)
    requires Separator in relation
    ensures var m := RuleMarkers(Parts(relation));
      && Separator !in m["#FIELD#"]
      && m["#FIELD#"] + [Separator] + m["#OPTIONS#"] == Lower(relation)
  {
    var lowered := Lower(relation);
    var parts := Parts(relation);
    var rest := Implode(Separator, parts[1..]);
    ImplodeExplode(Separator, lowered);
    assert parts[0] + [Separator] + rest == lowered;
    LowerConcat(parts[0] + [Separator], rest);
    LowerConcat(parts[0], [Separator]);
    assert Lower([Separator]) == [Separator];
    LowerIdempotent(relation);
    LowerKeepsChar(parts[0], Separator);
  }

  // ---------------------------------------------------------------------------
  // The loop over all arguments
  // ---------------------------------------------------------------------------

  /** One loop iteration on the accumulators: a skipped argument leaves them alone, a
      processed one appends its two fragments. */
  function Extend(acc: Sources, relation: string, env: Env): (r: Sources)
    ensures Separator !in relation ==> r == acc
    ensures acc.relationships <= r.relationships && acc.rules <= r.rules
  {
    Append(acc, Describe(relation, env))
  }

  /** The accumulators after an argument's fragments, if any, are appended. */
  function Append(acc: Sources, described: Option<Sources>): Sources
  {
    match described
    case None => acc
    case Some(fragments) => Concat(acc, fragments)
  }

  /** What the loop has appended to the two accumulators after the given arguments, in
      their order. Arguments none of which has a ':' (the empty list among them) leave both
      accumulators empty. */
  function Accumulate(arguments: seq<string>, env: Env): (acc: Sources)
    ensures (forall i :: 0 <= i < |arguments| ==> Separator !in arguments[i]) ==>
              acc == Sources("", "")
    decreases |arguments|
  {
    if arguments == [] then Sources("", "")
    else Extend(Accumulate(arguments[..|arguments| - 1], env), arguments[|arguments| - 1], env)
  }

  /** Appending to the end commutes with having a prefix in front. */
  lemma ExtendConcat(x: Sources, y: Sources, relation: string, env: Env)
    ensures Extend(Concat(x, y), relation, env) == Concat(x, Extend(y, relation, env))
  {
    AppendConcat(x, y, Describe(relation, env));
  }

  lemma AppendConcat(x: Sources, y: Sources, described: Option<Sources>)
    ensures Append(Concat(x, y), described) == Concat(x, Append(y, described))
  {
  }

  /** Argument order is preserved: the accumulators for `a + b` are those for `a` followed
      by those for `b`; nothing is dropped or reordered. */
  lemma {:induction false} AccumulateAppend(a: seq<string>, b: seq<string>, env: Env)
    ensures Accumulate(a + b, env) == Concat(Accumulate(a, env), Accumulate(b, env))
    decreases |b|
  {
    if b == [] {
      assert a + b == a;
      var x := Accumulate(a, env);
      assert Concat(x, Sources("", "")) == Sources(x.relationships + "", x.rules + "");
      assert x.relationships + "" == x.relationships && x.rules + "" == x.rules;
    } else {
      var last := b[|b| - 1];
      var b' := b[..|b| - 1];
      assert (a + b)[..|a + b| - 1] == a + b';
      assert (a + b)[|a + b| - 1] == last;
      AccumulateAppend(a, b', env);
      ExtendConcat(Accumulate(a, env), Accumulate(b', env), last, env);
    }
  }

  /** An argument without ':' adds nothing to either accumulator. */
  lemma AccumulateSkips(a: seq<string>, relation: string, env: Env)
    requires Separator !in relation
    ensures Accumulate(a + [relation], env) == Accumulate(a, env)
  {
    assert (a + [relation])[..|a|] == a;
  }

  /** When every argument with a ':' names a relationship, and rendering an empty template
      gives the empty text, the rules accumulator stays empty, so `#RULES#` is not set. */
  lemma {:induction false} AccumulateNoRules(arguments: seq<string>, env: Env)
    requires ReplaceKeepsEmpty(env)
    requires forall i :: 0 <= i < |arguments| && Separator in arguments[i] ==>
               Classify(Keyword(arguments[i])) != Rule
    ensures Accumulate(arguments, env).rules == ""
  {
    if arguments != [] {
      var last := arguments[|arguments| - 1];
      AccumulateNoRules(arguments[..|arguments| - 1], env);
      if Separator in last {
        DescribeRelationship(last, env);
      }
    }
  }

  /** Symmetrically, when every argument with a ':' is a rule, nothing reaches the
      relationships accumulator. */
  lemma {:induction false} AccumulateNoRelationships(arguments: seq<string>, env: Env)
    requires ReplaceKeepsEmpty(env)
    requires forall i :: 0 <= i < |arguments| && Separator in arguments[i] ==>
               Classify(Keyword(arguments[i])) == Rule
    ensures Accumulate(arguments, env).relationships == ""
  {
    if arguments != [] {
      var last := arguments[|arguments| - 1];
      AccumulateNoRelationships(arguments[..|arguments| - 1], env);
      if Separator in last {
        DescribeRule(last, env);
      }
    }
  }

  // ---------------------------------------------------------------------------
  // The outer markers
  // ---------------------------------------------------------------------------

  /** The class name: the bundle prefix (none for the default bundle, otherwise the
      classified bundle name and '_'), then the configured class prefix, then the class. */
  function ClassName(bundle: string, classPrefix: string, className: string, env: Env): (r: string)
    ensures bundle == DefaultBundle <==> r == classPrefix + className
    ensures bundle != DefaultBundle ==> r == env.classify(bundle) + "_" + (classPrefix + className)
  {
    var prefix := if bundle == DefaultBundle then "" else env.classify(bundle) + "_";
    prefix + classPrefix + className
  }

  /** The `_settings` switch: the snippet when `timestamps` or `t` is set, empty otherwise. */
  function TimestampsFor(timestamps: bool, t: bool): (r: string)
    ensures r != "" <==> timestamps || t
    ensures r == "" || r == TimestampsSnippet
  {
    if timestamps || t then TimestampsSnippet else ""
  }

  /** The rules template rendered with `#RULE#` bound to the rule accumulator. */
  function RulesSource(rules: string, env: Env): string
  {
    env.replace(map["#RULE#" := rules], env.load(RulesTemplate))
  }

  /** The markers handed to the model template once the loop is done. `#RELATIONS#` is
      always set, `#RULES#` only when the rule accumulator is not empty in PHP's sense
      (neither "" nor "0"), and the three markers set before the loop keep their values. */
  function Markers(name: string, lower: string, timestamps: string, acc: Sources, env: Env)
    : (m: map<string, string>)
    ensures m.Keys == {"#CLASS#", "#LOWER#", "#TIMESTAMPS#", "#RELATIONS#"}
                      + (if PhpEmpty(acc.rules) then {} else {"#RULES#"})
    ensures m["#CLASS#"] == name && m["#LOWER#"] == lower && m["#TIMESTAMPS#"] == timestamps
    ensures m["#RELATIONS#"] == acc.relationships
    ensures "#RULES#" in m ==> m["#RULES#"] == RulesSource(acc.rules, env)
  {
    var base := map["#CLASS#" := name, "#LOWER#" := lower, "#TIMESTAMPS#" := timestamps];
    var withRelations := base["#RELATIONS#" := acc.relationships];
    if PhpEmpty(acc.rules) then withRelations
    else withRelations["#RULES#" := RulesSource(acc.rules, env)]
  }
}
