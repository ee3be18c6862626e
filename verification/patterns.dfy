/** The traffic pattern definitions and the pure parts of the pattern engine: Python's
    `x or default` fall-backs, the weighted method choice of `random.choices`, payload
    templates with `${name}` variables, the linear ramp, and the RPS preview. Random
    draws are parameters: `random()` is a real in [0, 1), and `random.choice` is an
    index reduced modulo the length of the list. */
module Patterns {
  import opened Wrappers
  import opened Seqs

  datatype PatternType = Constant | RampUp | RampDown | Burst | Spike | Step | Wave | RealisticUser | Custom

  /** A JSON value in a payload template or a variable pool; only strings can be
      variable references. */
  datatype Value = Str(text: string) | Number(number: real) | Other

  type Payload = map<string, Value>

  /** `RequestPattern`, without the custom pattern function. */
  datatype RequestPattern = RequestPattern(
    name: string,
    patternType: PatternType,
    durationSeconds: int,
    targetRps: int,
    rampStartRps: Option<int>,
    rampEndRps: Option<int>,
    burstIntervalSeconds: Option<real>,
    burstMultiplier: Option<real>,
    waveAmplitude: Option<real>,
    wavePeriodSeconds: Option<real>,
    userSessionDuration: Option<(int, int)>,
    thinkTimeRange: Option<(real, real)>,
    userArrivalRate: Option<real>,
    requestMethods: seq<string>,
    methodWeights: seq<real>,
    payloadTemplates: seq<Payload>,
    payloadVariables: map<string, seq<Value>>)

  /** The exceptions a generator raises while building a request. */
  datatype PatternError =
    | WeightsMismatch      // `random.choices`: as many weights as methods are needed
    | NoPopulation         // `random.choices` on an empty list of methods
    | NonPositiveWeights   // `random.choices`: the weights must add up to more than 0
    | EmptyVariablePool    // `random.choice` on an empty list of variable values
    | EmptyRange           // `random.randint(a, b)` with `a > b`

  /** Python's `x or default` on an optional integer: None and 0 fall back. */
  function OrInt(x: Option<int>, default: int): (r: int)
    ensures r == default || (x.Some? && x.value != 0 && r == x.value)
    ensures x.Some? && x.value != 0 ==> r == x.value
  {
    if x.Some? && x.value != 0 then x.value else default
  }

  /** Python's `x or default` on an optional real: None and 0.0 fall back. */
  function OrReal(x: Option<real>, default: real): (r: real)
    ensures r == default || (x.Some? && x.value != 0.0 && r == x.value)
    ensures x.Some? && x.value != 0.0 ==> r == x.value
  {
    if x.Some? && x.value != 0.0 then x.value else default
  }

  /** The point `random.choices` looks up: the draw scaled to the total weight. */
  function Scaled(u: real, total: real): real
  {
    u * total
  }

  /** A fraction below 1 of a positive amount is below it. */
  lemma ScaleBelow(u: real, t: real)
    requires 0.0 <= u < 1.0 && t > 0.0
    ensures 0.0 <= Scaled(u, t) < t
  {
  }

  /** A fraction of a non-negative amount lies between 0 and the amount. */
  lemma ScaleWithin(a: real, b: real)
    requires 0.0 <= a && 0.0 <= b <= 1.0
    ensures 0.0 <= a * b <= a
  {
  }

  /** The running totals of the weights (`itertools.accumulate`). */
  function Cumulative(weights: seq<real>): (cum: seq<real>)
    ensures |cum| == |weights|
    ensures forall i :: 0 <= i < |weights| ==> cum[i] == Sum(weights[..i + 1])
  {
    if weights == [] then []
    else
      var init := weights[..|weights| - 1];
      assert weights[..|weights|] == weights;
      forall i | 0 <= i < |init|
        ensures Cumulative(init)[i] == Sum(weights[..i + 1])
      {
        assert init[..i + 1] == weights[..i + 1];
      }
      Cumulative(init) + [Sum(weights)]
  }

  /** `bisect_right(cum, x, 0, hi)` for running totals of non-negative weights: the
      first index below `hi` whose total exceeds `x`, or `hi` when there is none. */
  function Bisect(cum: seq<real>, x: real, hi: nat): (i: nat)
    requires hi <= |cum|
    ensures i <= hi
    ensures forall j :: 0 <= j < i ==> cum[j] <= x
    ensures i < hi ==> cum[i] > x
  {
    if hi == 0 then 0
    else
      var i := Bisect(cum, x, hi - 1);
      if i < hi - 1 then i else if cum[hi - 1] > x then hi - 1 else hi
  }

  /** The index `random.choices(population, weights)` picks for the draw `u`. */
  function ChoiceIndex(weights: seq<real>, u: real): (i: nat)
    requires |weights| > 0
    ensures i < |weights|
  {
    Bisect(Cumulative(weights), Scaled(u, Sum(weights)), |weights| - 1)
  }

  /** `random.choices(population, weights)[0]` for the draw `u`. */
  function Choices<T>(population: seq<T>, weights: seq<real>, u: real): (r: Result<T, PatternError>)
    ensures r.Ok? ==> r.value in population
    ensures r.Err? <==> |weights| != |population| || population == [] || Sum(weights) <= 0.0
  {
    if |weights| != |population| then Err(WeightsMismatch)
    else if population == [] then Err(NoPopulation)
    else if Sum(weights) <= 0.0 then Err(NonPositiveWeights)
    else Ok(population[ChoiceIndex(weights, u)])
  }

  /** With non-negative weights, the search for a point below the total lands on an
      option of positive weight. */
  lemma BisectHasWeight(weights: seq<real>, x: real)
    requires |weights| > 0 && 0.0 <= x < Sum(weights)
    requires forall i :: 0 <= i < |weights| ==> weights[i] >= 0.0
    ensures weights[Bisect(Cumulative(weights), x, |weights| - 1)] > 0.0
  {
    var n := |weights|;
    var cum := Cumulative(weights);
    var i := Bisect(cum, x, n - 1);
    assert cum[i] > x by {
      if i == n - 1 {
        assert weights[..n] == weights;
      }
    }
    var w := weights[..i + 1];
    assert w[..i] == weights[..i];
    assert cum[i] == Sum(weights[..i]) + weights[i];
    if i > 0 {
      assert cum[i - 1] <= x;
    } else {
      assert weights[..0] == [];
    }
  }

  /** With non-negative weights, an option of weight 0 is never chosen. */
  lemma ChoiceIndexHasWeight(weights: seq<real>, u: real)
    requires |weights| > 0 && Sum(weights) > 0.0 && 0.0 <= u < 1.0
    requires forall i :: 0 <= i < |weights| ==> weights[i] >= 0.0
    ensures weights[ChoiceIndex(weights, u)] > 0.0
  {
    var total := Sum(weights);
    var x := Scaled(u, total);
    ScaleBelow(u, total);
    assert 0.0 <= x < total;
    BisectHasWeight(weights, x);
  }

  /** A single method of positive weight is always the one chosen. */
  lemma ChoicesSingle<T>(m: T, w: real, u: real)
    requires w > 0.0
    ensures Choices([m], [w], u) == Ok(m)
  {
    assert Sum([w]) == Sum([w][..0]) + w;
  }

  /** `ConstantTrafficGenerator._select_method`: a single configured method is
      returned without drawing; otherwise the weighted choice decides. */
  function SelectMethod(p: RequestPattern, u: real): (r: Result<string, PatternError>)
    ensures |p.requestMethods| == 1 ==> r == Ok(p.requestMethods[0])
    ensures r.Ok? ==> r.value in p.requestMethods
  {
    if |p.requestMethods| == 1 then Ok(p.requestMethods[0])
    else Choices(p.requestMethods, p.methodWeights, u)
  }

  /** The variable a template string refers to: the text between a leading `${` and a
      trailing `}`. */
  function Placeholder(s: string): (r: Option<string>)
    ensures r.Some? ==> s == "${" + r.value + "}"
  {
    if |s| >= 2 && s[0] == '$' && s[1] == '{' && s[|s| - 1] == '}'
    then Some(s[2..|s| - 1])
    else None
  }

  /** Every `${name}` is recognised, with its name. */
  lemma PlaceholderOfReference(name: string)
    ensures Placeholder("${" + name + "}") == Some(name)
  {
    var s := "${" + name + "}";
    assert s[2..|s| - 1] == name;
  }

  /** A template value that names a variable whose pool is empty. */
  predicate EmptyReference(v: Value, variables: map<string, seq<Value>>)
  {
    v.Str? && Placeholder(v.text).Some? && Placeholder(v.text).value in variables
    && variables[Placeholder(v.text).value] == []
  }

  /** A template value after substitution: a reference to a known variable becomes the
      drawn member of its pool; any other value stays. */
  function Substitute(v: Value, variables: map<string, seq<Value>>, draw: nat): (r: Value)
    requires !EmptyReference(v, variables)
    ensures r == v || (v.Str? && Placeholder(v.text).Some? && Placeholder(v.text).value in variables
                       && r in variables[Placeholder(v.text).value])
    ensures !v.Str? || Placeholder(v.text).None? || Placeholder(v.text).value !in variables ==> r == v
    ensures v.Str? && Placeholder(v.text).Some? && Placeholder(v.text).value in variables ==>
      var pool := variables[Placeholder(v.text).value];
      |pool| > 0 && r == pool[draw % |pool|]
  {
    if v.Str? && Placeholder(v.text).Some? && Placeholder(v.text).value in variables
    then
      var pool := variables[Placeholder(v.text).value];
      pool[draw % |pool|]
    else v
  }

  /** `${name}` for a variable with values is replaced by the value the draw selects. */
  lemma SubstituteReference(name: string, variables: map<string, seq<Value>>, draw: nat)
    requires name in variables && variables[name] != []
    ensures !EmptyReference(Str("${" + name + "}"), variables)
    ensures Substitute(Str("${" + name + "}"), variables, draw)
            == variables[name][draw % |variables[name]|]
  {
    PlaceholderOfReference(name);
  }

  /** The payload `_generate_payload` builds from a template, with `pick(key)` the draw
      for the entry under `key`: every entry is substituted, and a reference to an empty
      pool raises. */
  function Substituted(template: Payload, variables: map<string, seq<Value>>, pick: string -> nat)
    : (r: Result<Payload, PatternError>)
    ensures r.Err? <==> exists k :: k in template && EmptyReference(template[k], variables)
    ensures r.Ok? ==> r.value.Keys == template.Keys
    ensures r.Ok? ==> forall k :: k in template ==> r.value[k] == Substitute(template[k], variables, pick(k))
  {
    if exists k :: k in template && EmptyReference(template[k], variables) then Err(EmptyVariablePool)
    else Ok(map k | k in template :: Substitute(template[k], variables, pick(k)))
  }

  /** The outcome of `ConstantTrafficGenerator._generate_payload` for the template draw
      `templateDraw`: None without templates; otherwise the drawn template with its
      references substituted, or the error of an empty pool. */
  function TemplatePayload(p: RequestPattern, templateDraw: nat, pick: string -> nat)
    : (r: Result<Option<Payload>, PatternError>)
    ensures p.payloadTemplates == [] <==> r == Ok(None)
    ensures r.Ok? && r.value.Some? ==>
      var template := p.payloadTemplates[templateDraw % |p.payloadTemplates|];
      r.value.value.Keys == template.Keys
      && forall k :: k in template ==>
           !EmptyReference(template[k], p.payloadVariables)
           && r.value.value[k] == Substitute(template[k], p.payloadVariables, pick(k))
    ensures r.Err? ==>
      var template := p.payloadTemplates[templateDraw % |p.payloadTemplates|];
      exists k :: k in template && EmptyReference(template[k], p.payloadVariables)
  {
    if p.payloadTemplates == [] then Ok(None)
    else
      var s := Substituted(p.payloadTemplates[templateDraw % |p.payloadTemplates|], p.payloadVariables, pick);
      if s.Err? then Err(s.error) else Ok(Some(s.value))
  }

  /** `ConstantTrafficGenerator._generate_payload`: None without templates; otherwise
      the drawn template with its variable references substituted. */
  method GeneratePayload(p: RequestPattern, templateDraw: nat, pick: string -> nat)
    returns (r: Result<Option<Payload>, PatternError>)
    ensures r == TemplatePayload(p, templateDraw, pick)
  {
    if p.payloadTemplates == [] {
      return Ok(None);
    }
    var template := p.payloadTemplates[templateDraw % |p.payloadTemplates|];
    var variables := p.payloadVariables;
    var payload := template;
    var todo := template.Keys;
    while todo != {}
      invariant todo <= template.Keys && payload.Keys == template.Keys
      invariant forall k :: k in template && k !in todo ==> !EmptyReference(template[k], variables)
      invariant forall k :: k in template ==>
        payload[k] == if k in todo then template[k] else Substitute(template[k], variables, pick(k))
      decreases todo
    {
      var key :| key in todo;
      var value := payload[key];
      if value.Str? {
        var name := Placeholder(value.text);
        if name.Some? && name.value in variables {
          var pool := variables[name.value];
          if pool == [] {
            return Err(EmptyVariablePool);
          }
          payload := payload[key := pool[pick(key) % |pool|]];
        }
      }
      todo := todo - {key};
    }
    var s := Substituted(template, variables, pick);
    assert s.Ok? && payload == s.value;
    return Ok(Some(payload));
  }

  /** `_generate_payload` of the other generators: a copy of the drawn template. */
  function CopyPayload(p: RequestPattern, templateDraw: nat): (r: Option<Payload>)
    ensures p.payloadTemplates == [] <==> r.None?
    ensures r.Some? ==> r.value in p.payloadTemplates
  {
    if p.payloadTemplates == [] then None
    else Some(p.payloadTemplates[templateDraw % |p.payloadTemplates|])
  }

  /** The rate of a linear ramp from `s` to `e` at `progress`. */
  function RampLevel(s: real, e: real, progress: real): real
  {
    s + (e - s) * progress
  }

  /** Within the ramp the rate lies between its start and end rates. */
  lemma RampLevelBetween(s: real, e: real, progress: real)
    requires 0.0 <= progress <= 1.0
    ensures MinR(s, e) <= RampLevel(s, e, progress) <= MaxR(s, e)
  {
    if s <= e {
      ScaleWithin(e - s, progress);
    } else {
      ScaleWithin(s - e, progress);
    }
  }

  /** Python's `int(x)`: truncation toward zero. */
  function Truncate(x: real): (r: int)
    ensures x >= 0.0 ==> r as real <= x < r as real + 1.0
    ensures x < 0.0 ==> r as real - 1.0 < x <= r as real
  {
    if x >= 0.0 then x.Floor else -((-x).Floor)
  }

  /** Truncation keeps a value between two integers between them. */
  lemma TruncateBetween(lo: int, x: real, hi: int)
    requires lo as real <= x <= hi as real
    ensures lo <= Truncate(x) <= hi
  {
  }

  /** The pattern types the engine has a generator for. */
  predicate HasGenerator(t: PatternType)
  {
    t == Constant || t == RampUp || t == RampDown || t == Burst || t == Wave || t == RealisticUser
  }

  /** The preview rate at second `t` of `n`; `waveFactor(t)` stands for
      `sin(2·π·t/period)`. */
  function PreviewRate(p: RequestPattern, t: int, n: int, waveFactor: int -> real): int
    requires n > 0
  {
    match p.patternType
    case RampUp =>
      Truncate(RampLevel(OrInt(p.rampStartRps, 0) as real, OrInt(p.rampEndRps, p.targetRps) as real,
                         t as real / n as real))
    case Wave =>
      var amplitude := OrReal(p.waveAmplitude, p.targetRps as real * 0.5);
      Truncate(MaxR(p.targetRps as real + amplitude * waveFactor(t), 1.0))
    case _ => p.targetRps
  }

  /** `get_pattern_preview`: empty without a generator for the type or without a
      positive duration; otherwise one `(second, rate)` entry per second. */
  method Preview(p: RequestPattern, sampleDuration: int, waveFactor: int -> real) returns (preview: seq<(int, int)>)
    ensures !HasGenerator(p.patternType) || sampleDuration <= 0 ==> preview == []
    ensures HasGenerator(p.patternType) && sampleDuration > 0 ==>
      && |preview| == sampleDuration
      && forall t :: 0 <= t < sampleDuration ==> preview[t] == (t, PreviewRate(p, t, sampleDuration, waveFactor))
  {
    preview := [];
    if !HasGenerator(p.patternType) || sampleDuration <= 0 {
      return;
    }
    var t := 0;
    while t < sampleDuration
      invariant 0 <= t <= sampleDuration && |preview| == t
      invariant forall s :: 0 <= s < t ==> preview[s] == (s, PreviewRate(p, s, sampleDuration, waveFactor))
    {
      var rps: int;
      if p.patternType == Constant {
        rps := p.targetRps;
      } else if p.patternType == RampUp {
        var progress := t as real / sampleDuration as real;
        var startRps := OrInt(p.rampStartRps, 0);
        var endRps := OrInt(p.rampEndRps, p.targetRps);
        rps := Truncate(RampLevel(startRps as real, endRps as real, progress));
      } else if p.patternType == Wave {
        var amplitude := OrReal(p.waveAmplitude, p.targetRps as real * 0.5);
        rps := Truncate(MaxR(p.targetRps as real + amplitude * waveFactor(t), 1.0));
      } else {
        rps := p.targetRps;
      }
      assert rps == PreviewRate(p, t, sampleDuration, waveFactor);
      preview := preview + [(t, rps)];
      t := t + 1;
    }
  }

  /** A ramp-up preview stays between the start and end rates of the ramp. */
  lemma PreviewRampUpBetween(p: RequestPattern, t: int, n: int, waveFactor: int -> real)
    requires p.patternType == RampUp && 0 <= t < n
    ensures var s := OrInt(p.rampStartRps, 0); var e := OrInt(p.rampEndRps, p.targetRps);
      (if s <= e then s else e) <= PreviewRate(p, t, n, waveFactor) <= (if s <= e then e else s)
  {
    var s := OrInt(p.rampStartRps, 0);
    var e := OrInt(p.rampEndRps, p.targetRps);
    var progress := t as real / n as real;
    assert 0.0 <= progress <= 1.0 by {
      assert t as real / n as real <= n as real / n as real;
    }
    RampLevelBetween(s as real, e as real, progress);
    var lo := if s <= e then s else e;
    var hi := if s <= e then e else s;
    TruncateBetween(lo, RampLevel(s as real, e as real, progress), hi);
  }

  /** A wave preview never reports less than 1 request per second. */
  lemma PreviewWaveAtLeastOne(p: RequestPattern, t: int, n: int, waveFactor: int -> real)
    requires p.patternType == Wave && n > 0
    ensures PreviewRate(p, t, n, waveFactor) >= 1
  {
  }
}
