/** The model generator object: its settings switch, the generation loop that turns the
    trailing arguments into relationship and rule source, and the construction sequence
    that runs both and produces the model file for the writer. */
module Generator {
  import opened PhpStrings
  import opened Descriptors

  /** A file handed to the writer: what it is, the class it declares, and its text. */
  datatype Artifact = Artifact(kind: string, name: string, content: string)

  datatype Result<T> = Success(value: T) | Failure(message: string)

  const MissingName := "You must specify a model name."

  class ModelGenerator {
    // Set up by the base generator from the command line; never changed here.
    const bundle: string
    const classPrefix: string
    const className: string
    const lower: string
    const arguments: seq<string>

    /** The timestamps declaration for the model, empty unless a switch asks for it. */
    var timestamps: string

    constructor (bundle: string, classPrefix: string, className: string, lower: string,
                 arguments: seq<string>)
      ensures this.bundle == bundle && this.classPrefix == classPrefix
      ensures this.className == className && this.lower == lower
      ensures this.arguments == arguments
      ensures timestamps == ""
    {
      this.bundle := bundle;
      this.classPrefix := classPrefix;
      this.className := className;
      this.lower := lower;
      this.arguments := arguments;
      timestamps := "";
    }

    /** `_settings`: either the `timestamps` or the `t` switch turns the declaration on;
        without them the field keeps its value. */
    method Settings(timestampsSwitch: bool, tSwitch: bool)
      modifies this`timestamps
      ensures timestamps == if timestampsSwitch || tSwitch then TimestampsSnippet
                            else old(timestamps)
    {
      if timestampsSwitch || tSwitch {
        timestamps := TimestampsSnippet;
      }
    }

    /** `_model_generation`: walks the arguments once, appending each processed argument's
        fragments to the two accumulators, then completes the marker map and renders the
        model template. The file carries the same class name as the `#CLASS#` marker. */
    method ModelGeneration(env: Env) returns (file: Artifact)
      ensures file.kind == "Model"
      ensures file.name == ClassName(bundle, classPrefix, className, env)
      ensures file.content == env.replace(
        Markers(file.name, lower, timestamps, Accumulate(arguments, env), env),
        env.load(ModelTemplate))
    {
      var prefix := if bundle == DefaultBundle then "" else env.classify(bundle) + "_";
      var markers := map[
        "#CLASS#" := prefix + classPrefix + className,
        "#LOWER#" := lower,
        "#TIMESTAMPS#" := timestamps];
      var template := env.load(ModelTemplate);
      var relationshipsSource := "";
      var ruleSource := "";

      for i := 0 to |arguments|
        invariant Sources(relationshipsSource, ruleSource) == Accumulate(arguments[..i], env)
      {
        assert arguments[..i + 1][..i] == arguments[..i];
        var relation := arguments[i];
        if !Truthy(StrStr(relation, Separator)) {
          continue;
        }
        StrStrTruthy(relation, Separator);
        var parts := Parts(relation);
        if SkipsOnPartCount(parts) {
          continue;
        }
        var relMarkers := RelationMarkers(parts, env);
        var ruleMarkers := RuleMarkers(parts);
        var templates := SelectTemplates(Classify(parts[0]), env);
        relationshipsSource := relationshipsSource + env.replace(relMarkers, templates.relationships);
        ruleSource := ruleSource + env.replace(ruleMarkers, templates.rules);
      }
      assert arguments[..|arguments|] == arguments;

      markers := markers["#RELATIONS#" := relationshipsSource];
      if !PhpEmpty(ruleSource) {
        var rulesTemplate := env.load(RulesTemplate);
        var rulesMarkers := map["#RULE#" := ruleSource];
        var rulesSource := env.replace(rulesMarkers, rulesTemplate);
        markers := markers["#RULES#" := rulesSource];
      }

      file := Artifact("Model", prefix + classPrefix + className, env.replace(markers, template));
    }
  }

  /** The constructor sequence: refuse a missing model name before anything is loaded,
      otherwise apply the switches and generate the model file. */
  method Generate(bundle: string, classPrefix: string, className: string, lower: string,
                  arguments: seq<string>, timestampsSwitch: bool, tSwitch: bool, env: Env)
    returns (r: Result<Artifact>)
    ensures r.Failure? <==> className == ""
    ensures r.Failure? ==> r.message == MissingName
    ensures r.Success? ==> r.value.kind == "Model"
    ensures r.Success? ==> r.value.name == ClassName(bundle, classPrefix, className, env)
    ensures r.Success? ==> r.value.content == env.replace(
      Markers(r.value.name, lower, TimestampsFor(timestampsSwitch, tSwitch),
              Accumulate(arguments, env), env),
      env.load(ModelTemplate))
  {
    if className == "" {
      return Failure(MissingName);
    }
    var generator := new ModelGenerator(bundle, classPrefix, className, lower, arguments);
    generator.Settings(timestampsSwitch, tSwitch);
    var file := generator.ModelGeneration(env);
    r := Success(file);
  }
}
