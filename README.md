# Model generator of the bob scaffolding tool, in Dafny

`Generators_Model` builds an Eloquent model class from templates. It takes a model name
and a list of trailing command-line arguments. An argument such as `has_many:posts`,
`bt:user` or `HM:Tags` declares a relationship. Any other argument with a `:`, such as
`age:min:18`, declares a validation rule. The generator works in four steps:

- It skips any argument without a `:`.
- It lower-cases each remaining argument and splits it on `:`.
- It classifies the first segment against four relationship keywords and their short
  aliases.
- It renders one fragment per argument and appends it to a relationships accumulator or a
  rules accumulator.

It then fills the model template's markers (`#CLASS#`, `#LOWER#`, `#TIMESTAMPS#`,
`#RELATIONS#` and, when there are rules, `#RULES#`) and hands the file to its writer.

The project has four modules:

- `PhpStrings` (`php_strings.dfy`) holds the PHP built-ins the code relies on, with their
  PHP-specific edges. `explode` always returns at least one piece. `strstr` returns
  `false` when the needle is missing. `empty("0")` is true. A boolean compared loosely
  with an integer reads the integer as a boolean.
- `Descriptors` (`descriptors.dfy`) holds the pure logic. It has the classification
  `switch`, the two marker maps and `Describe`, which is one pass of the loop body. It has
  `Accumulate`, which specifies what the loop appends, and `Markers`, the outer marker
  map. The lemmas about these are here too.
- `Generator` (`generator.dfy`) holds the class `ModelGenerator`. Its `Settings` method
  sets the `timestamps` field. Its `ModelGeneration` method is the `foreach` loop with its
  two string accumulators and the marker map it updates, proved against `Accumulate` and
  `Markers`. `Generate` is the constructor sequence.
- `Scenarios` (`scenarios.dfy`) works typical argument shapes (`has_many:posts`, `age:min:18`, `HM:Posts`, and a
  mixture of them) through the model.

The helpers the source calls but does not define are fields of the `Env` datatype:
`Str::singular`, `Str::plural`, `Str::classify`, `Common::load_template` and
`Common::replace_markers`. They are uninterpreted functions, and nothing is assumed
about them. The only exception is `ReplaceKeepsEmpty`, a hypothesis that rendering an
empty template gives the empty text. The lemmas that need it state it as a precondition.
`Str::lower` is modelled as ASCII lower-casing. `Parts` and, through it, `Keyword`,
`Describe` and `RuleMarkers` depend on its actual behaviour, as do the two lower-cased
relationship markers.

The part-count guard at `classes/generators/model.php:81` reads `! count($relation_parts) == 2`.
PHP parses it as `(!count(...)) == 2`. Since `explode` never returns an empty array,
the left side is `false`, and `false == 2` is false. So the guard never skips anything.
The model keeps it as written (`SkipsOnPartCount`) and proves that it lets every argument
through. An argument with three or more segments is therefore processed.

The comment at `classes/generators/model.php:80` (`// we need two parts`) suggests that a
strict two-part check was meant. The code does not enforce it, and the model follows the
code.

The test at `classes/generators/model.php:140` is `! empty($rule_source)`, and PHP's
`empty` is also true of `"0"`. So `#RULES#` is absent when the rule source is `""` or
`"0"`, and the model follows that.

## Model

| member | source | states |
|---|---|---|
| `PhpStrings.Explode` | classes/generators/model.php:78 | splitting on ':' gives at least one segment, two or more exactly when the argument has a ':', and no segment contains ':' |
| `PhpStrings.ImplodeExplode` | classes/generators/model.php:78-94 | joining the segments of `explode` with ':' gives back the exploded string |
| `PhpStrings.ExplodeImplode` | classes/generators/model.php:94 | segments free of ':' joined by ':' explode back into the same segments |
| `PhpStrings.StrStr` | classes/generators/model.php:75 | `strstr` returns nothing exactly when the needle is absent, and otherwise the suffix of the haystack that starts at the needle's first occurrence |
| `PhpStrings.Truthy` | classes/generators/model.php:75 | a truthy `strstr` result is a non-empty string, and every result of two characters or more is truthy |
| `PhpStrings.StrStrTruthy` | classes/generators/model.php:75 | `strstr(relation, ':')` is truthy exactly when the argument contains ':' |
| `PhpStrings.Lower` | classes/generators/model.php:78-94 | `Str::lower` on ASCII keeps the length of the string |
| `PhpStrings.LowerCharwise` | classes/generators/model.php:78-94 | lower-casing works character by character and leaves no upper-case ASCII letter |
| `PhpStrings.Implode` | classes/generators/model.php:94 | `implode(':', parts)` is empty for no parts, is the part itself for one, and otherwise starts with the first part followed by ':' (round trips: `ImplodeExplode`, `ExplodeImplode`) |
| `PhpStrings.LowerKeepsChar` | classes/generators/model.php:78 | lower-casing keeps ':' where it was, so it neither adds nor removes separators |
| `PhpStrings.LowerIdempotent` | classes/generators/model.php:93-94 | lower-casing an already lower-cased segment changes nothing |
| `PhpStrings.LowerConcat` | classes/generators/model.php:93-94 | lower-casing distributes over concatenation |
| `Descriptors.Classify` | classes/generators/model.php:104-126 | a first segment selects a relationship exactly when it is one of the eight keywords and aliases, and then the one the keyword table gives; anything else is a rule |
| `Descriptors.AliasesAgree` | classes/generators/model.php:106-120 | `hm`, `bt`, `ho`, `hbm` select the same relationship as `has_many`, `belongs_to`, `has_one`, `has_and_belongs_to_many` |
| `Descriptors.TemplatePath` | classes/generators/model.php:104-126 | every template key lies under `model/`; it is `model/rule.tpl` exactly for a rule |
| `Descriptors.TemplateNamedAfterKeyword` | classes/generators/model.php:104-124 | each relationship kind, reached by either of its two keywords, loads `model/<long keyword>.tpl` |
| `Descriptors.TemplatePathInjective` | classes/generators/model.php:104-126 | no two kinds, and so no two keyword pairs, load the same template |
| `Descriptors.SelectTemplates` | classes/generators/model.php:98-126 | both templates start blank and exactly one is loaded: the rule template for a rule, the kind's relationship template otherwise |
| `Descriptors.SkipsOnPartCount` | classes/generators/model.php:81 | the guard as written, `(!count(parts)) == 2`, skips exactly when there are no parts at all |
| `Descriptors.RelationMarkers` | classes/generators/model.php:84-89 | the relationship markers are exactly `#SINGULAR#`, `#PLURAL#`, `#WORD#`, `#WORDS#`, the first two lower case |
| `Descriptors.RelationMarkersUseTarget` | classes/generators/model.php:84-89 | the relationship markers depend on the second segment only |
| `Descriptors.RuleMarkers` | classes/generators/model.php:92-95 | the rule markers are exactly `#FIELD#` and `#OPTIONS#`, both lower case, and for two segments the options are the second segment (split: `RuleMarkersRoundTrip`) |
| `Descriptors.Parts` | classes/generators/model.php:78 | the lower-cased, exploded argument has at least one segment, and two or more exactly when the argument has a ':' |
| `Descriptors.Describe` | classes/generators/model.php:75-132 | one loop pass skips an argument exactly when it has no ':' |
| `Descriptors.PartCountGuardNeverSkips` | classes/generators/model.php:81 | the "we need two parts" guard, as written, never skips any argument |
| `Descriptors.DescribeIgnoresCase` | classes/generators/model.php:78 | two arguments equal after lower-casing produce the same fragments |
| `Descriptors.DescribeRelationship` | classes/generators/model.php:98-132 | a relationship keyword loads that relationship's template for the relationship fragment; the rule template stays empty |
| `Descriptors.DescribeRule` | classes/generators/model.php:92-132 | any other first segment loads the rule template for the rule fragment; the relationship template stays empty |
| `Descriptors.RuleMarkersRoundTrip` | classes/generators/model.php:78-95 | `#FIELD#` has no ':' and `#FIELD#` + ':' + `#OPTIONS#` equals the lower-cased argument |
| `Descriptors.ExtendConcat` | classes/generators/model.php:129-132 | appending one argument's fragments commutes with a prefix already in the accumulators |
| `Descriptors.AccumulateAppend` | classes/generators/model.php:72-133 | the accumulators for `a + b` are those for `a` followed by those for `b`, so argument order is preserved and nothing is dropped |
| `Descriptors.AccumulateSkips` | classes/generators/model.php:75 | an argument without ':' adds nothing to either accumulator |
| `Descriptors.Accumulate` | classes/generators/model.php:66-133 | what the loop has appended after the given arguments; arguments none of which has a ':', the empty list included, leave both accumulators empty (order: `AccumulateAppend`) |
| `Descriptors.Extend` | classes/generators/model.php:75-132 | one loop step leaves the accumulators alone for an argument without ':', and otherwise only appends to them, never removing text |
| `Descriptors.AccumulateNoRules` | classes/generators/model.php:123-140 | when every argument with a ':' is a relationship, the rule accumulator stays empty, so `#RULES#` is not set |
| `Descriptors.AccumulateNoRelationships` | classes/generators/model.php:106-129 | when every argument with a ':' is a rule, the relationships accumulator stays empty |
| `Descriptors.ClassName` | classes/generators/model.php:53-57 | the class name is the configured prefix and class alone exactly for the default bundle, otherwise the classified bundle, '_', then the prefix and class |
| `Descriptors.TimestampsFor` | classes/generators/model.php:176-177 | the timestamps snippet is non-empty exactly when the `timestamps` or `t` switch is set, and then it is the fixed declaration |
| `Descriptors.Markers` | classes/generators/model.php:56-157 | `#RELATIONS#` is always set to the relationships accumulator; `#RULES#` is present exactly when the rule accumulator is not PHP-empty, and holds the rules template rendered with `#RULE#`; `#CLASS#`, `#LOWER#`, `#TIMESTAMPS#` keep their values; no other key |
| `Generator.ModelGenerator.constructor` | classes/generators/model.php:19 | a new generator keeps its command-line fields and starts with an empty timestamps declaration |
| `Generator.ModelGenerator.Settings` | classes/generators/model.php:174-178 | either switch sets the timestamps declaration; without them the field is unchanged |
| `Generator.ModelGenerator.ModelGeneration` | classes/generators/model.php:51-166 | the loop builds exactly `Accumulate(arguments)`; the file is a `Model` named like `#CLASS#`, rendered from the model template with `Markers` |
| `Generator.Generate` | classes/generators/model.php:26-42 | a missing model name fails with the error message and produces no file; otherwise the file is the model rendered with the switches' timestamps |
| `Scenarios.TwoSegments` | classes/generators/model.php:78 | `a:b` with plain segments splits into exactly `a` and `b` |
| `Scenarios.ThreeSegmentRule` | classes/generators/model.php:78-95 | `age:min:18`-shaped arguments are processed as rules with field `age` and options `min:18` |
| `Scenarios.UpperCaseAlias` | classes/generators/model.php:78-107 | `HM:Posts` has keyword `hm` and is a has-many relationship |
| `Scenarios.RelationshipFragment` | classes/generators/model.php:104-129 | `has_many:posts`-shaped arguments render the keyword's template and no rule |
| `Scenarios.RuleFragment` | classes/generators/model.php:92-132 | `age:min`-shaped arguments render the rule template with field and options, and no relationship |
| `Scenarios.MixedArguments` | classes/generators/model.php:72-133 | a relationship, a rule and a plain word give exactly the relationship fragment and exactly the rule fragment |

## Left out

- `Str::singular`, `Str::plural`, `Str::classify` are uninterpreted functions, because the inflection library is not part of this model.
- `Str::lower` is ASCII-only, because multibyte lower-casing (`mb_strtolower`) and its encoding handling are not part of this model.
- `Common::load_template` is a total function from template key to text. Reading the template files, and failing when one is missing, are not modelled.
- `Common::replace_markers` is uninterpreted, because its source is not part of this model. Nothing is claimed about how it substitutes. Lemmas that need an empty template to render as empty text assume it through `ReplaceKeepsEmpty`.
- The marker maps are Dafny `map`s. The insertion order of PHP arrays is not kept, so the model cannot tell apart two calls of `Common::replace_markers` that differ only in key order.
- `$this->writer->create_file`: only the kind, class name and content of the file are modelled. The output path (`bundle_path . 'models/' . class_path . lower . EXT`) and the writer's own bookkeeping are left out as filesystem output.
- `$this->writer->write()` is left out, because it performs filesystem output.
- `Common::error` is modelled as a `Failure` result. Printing the message and ending the process are left out.
- The parent `Generator` constructor is not part of this model. It parses the command line into the class name, lower-case name, bundle, class prefix and arguments, which become constructor parameters here. A missing class name is represented by the empty string, which PHP's `== null` also accepts.
- `Common::config` is not part of this model. Its two lookups are two booleans whose truthiness is already decided.
- `DEFAULT_BUNDLE` is defined by the host framework. The model takes its value to be `"application"`.
