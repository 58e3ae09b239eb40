/** The constant-rate generator's configuration: resolves a parameter bag into
    the generator's rate. */
module RateConfiguration {
  import opened Wrappers
  import opened JavaValues

  const RATE := "rate"

  /** The exceptions `getRateGenerator` can end in. */
  datatype Error =
    | ConfigurationParseException(message: string)
    | ClassCastException        // `rate` holds neither an Integer nor a Long
    | NullPointerException      // `rate` is present but null, and is unboxed

  /** The generator built from the configuration; it keeps the rate it is given. */
  datatype ConstantRateGenerator = ConstantRateGenerator(rate: Int64)

  /** The name under which this configuration is registered. */
  function GetName(): (name: string)
    ensures name == "ConstantRateGenerator"
  {
    "ConstantRateGenerator"
  }

  /** The whole-number value of a boxed Integer or Long. */
  predicate IsInteger(v: Value) {
    v.Int? || v.Long?
  }

  /** `getRateGenerator`: the key `rate` is mandatory; an Integer is widened to a
      long with its value kept, a Long is used as it is, and the generator gets
      exactly that value. Nothing here checks that the rate is positive. Any
      other value fails in the cast to long, not with a parse exception. */
  function GetRateGenerator(configuration: map<string, Value>): (r: Result<ConstantRateGenerator, Error>)
    ensures RATE !in configuration ==> r == Failure(ConfigurationParseException("Property 'rate' is mandatory."))
    ensures r.Success? <==> RATE in configuration && IsInteger(configuration[RATE])
    ensures r.Success? && configuration[RATE].Int? ==> r.value.rate == configuration[RATE].i
    ensures r.Success? && configuration[RATE].Long? ==> r.value.rate == configuration[RATE].l
    ensures RATE in configuration && configuration[RATE].Null? ==> r == Failure(NullPointerException)
    ensures RATE in configuration && !IsInteger(configuration[RATE]) && !configuration[RATE].Null? ==>
      r == Failure(ClassCastException)
  {
    if RATE !in configuration then
      Failure(ConfigurationParseException("Property 'rate' is mandatory."))
    else
      match configuration[RATE]
      case Int(i) => Success(ConstantRateGenerator(i))
      case Long(l) => Success(ConstantRateGenerator(l))
      case Null => Failure(NullPointerException)
      case _ => Failure(ClassCastException)
  }

  /** Every rate a Java `long` can hold, zero and negative ones included, is
      accepted and passed on unchanged. */
  lemma AcceptsEveryLong(configuration: map<string, Value>, rate: Int64)
    requires RATE in configuration && configuration[RATE] == Long(rate)
    ensures GetRateGenerator(configuration) == Success(ConstantRateGenerator(rate))
  {
  }

  /** The result depends on the bag only through the value under `rate`. */
  lemma OnlyRateMatters(c1: map<string, Value>, c2: map<string, Value>)
    requires (RATE in c1) == (RATE in c2)
    requires RATE in c1 ==> c1[RATE] == c2[RATE]
    ensures GetRateGenerator(c1) == GetRateGenerator(c2)
  {
  }
}
