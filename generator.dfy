/** Pattern dispatch (internal/generator/generator.go). */
module Generator {
  import opened Wrappers
  import opened Errors
  import Consts
  import GeneratorUtils
  import ConstantGenerator
  import StepGenerator
  import SequenceGenerator
  import RandomGenerator
  import SineGenerator
  import Validator

  /** A constructed value generator, one variant per pattern. */
  datatype ValueGenerator =
    | ConstantValues(constant: ConstantGenerator.Constant)
    | RandomValues(random: RandomGenerator.Random)
    | StepValues(step: StepGenerator.Step)
    | SineValues(sine: SineGenerator.Sine)
    | SequenceValues(sequence: SequenceGenerator.Sequence)
  {
    /** The pattern name that builds this kind of generator. */
    function Pattern(): string
    {
      match this
      case ConstantValues(_) => Consts.GeneratorConstant
      case RandomValues(_) => Consts.GeneratorRandom
      case StepValues(_) => Consts.GeneratorStep
      case SineValues(_) => Consts.GeneratorSine
      case SequenceValues(_) => Consts.GeneratorSequence
    }
  }

  /** The pattern names New knows. */
  const Patterns: set<string> := {
    Consts.GeneratorConstant, Consts.GeneratorRandom, Consts.GeneratorStep,
    Consts.GeneratorSine, Consts.GeneratorSequence
  }

  /** `generator.New[int64]`. */
  function New(pattern: string, value: string, count: int): (r: Result<ValueGenerator>)
  {
    if pattern == Consts.GeneratorConstant then
      var g :- ConstantGenerator.New(value, count); Ok(ConstantValues(g))
    else if pattern == Consts.GeneratorRandom then
      var g :- RandomGenerator.New(value, count); Ok(RandomValues(g))
    else if pattern == Consts.GeneratorStep then
      var g :- StepGenerator.New(value, count); Ok(StepValues(g))
    else if pattern == Consts.GeneratorSine then
      var g :- SineGenerator.New(value, count); Ok(SineValues(g))
    else if pattern == Consts.GeneratorSequence then
      var g :- SequenceGenerator.New(value, count); Ok(SequenceValues(g))
    else Err(UnknownPattern(pattern))
  }

  /**
   * Each pattern builds its own kind of generator, and every constructor
   * error passes through unchanged.
   */
  lemma NewDispatches(pattern: string, value: string, count: int)
    ensures New(pattern, value, count).Ok? ==> New(pattern, value, count).value.Pattern() == pattern
    ensures pattern == Consts.GeneratorConstant ==>
      New(pattern, value, count) == (match ConstantGenerator.New(value, count) case Ok(g) => Ok(ConstantValues(g)) case Err(e) => Err(e))
    ensures pattern == Consts.GeneratorRandom ==>
      New(pattern, value, count) == (match RandomGenerator.New(value, count) case Ok(g) => Ok(RandomValues(g)) case Err(e) => Err(e))
    ensures pattern == Consts.GeneratorStep ==>
      New(pattern, value, count) == (match StepGenerator.New(value, count) case Ok(g) => Ok(StepValues(g)) case Err(e) => Err(e))
    ensures pattern == Consts.GeneratorSine ==>
      New(pattern, value, count) == (match SineGenerator.New(value, count) case Ok(g) => Ok(SineValues(g)) case Err(e) => Err(e))
    ensures pattern == Consts.GeneratorSequence ==>
      New(pattern, value, count) == (match SequenceGenerator.New(value, count) case Ok(g) => Ok(SequenceValues(g)) case Err(e) => Err(e))
  {
  }

  /**
   * The "unknown pattern" error is reported exactly for names outside the
   * five Generator constants, whatever the parameters.
   */
  lemma NewUnknownPattern(pattern: string, value: string, count: int)
    ensures New(pattern, value, count) == Err(UnknownPattern(pattern)) <==> pattern !in Patterns
  {
    GeneratorUtils.ParsedRangeErrors(value);
  }

  /** The pattern names New knows are exactly the validator's generator list. */
  lemma PatternsAreValidGenerators(pattern: string)
    ensures pattern in Patterns <==> pattern in Validator.ValidGenerators
  {
  }

  /**
   * The validator accepts the empty generator name, but New rejects it: the
   * only name that passes validation and is still an unknown pattern.
   */
  lemma ValidatedPatternKnown(pattern: string, value: string, count: int)
    ensures Validator.ValidateGenerator("") == None && New("", value, count) == Err(UnknownPattern(""))
    ensures Validator.ValidateGenerator(pattern) == None && pattern != "" ==>
      New(pattern, value, count) != Err(UnknownPattern(pattern))
  {
    NewUnknownPattern(pattern, value, count);
  }
}
