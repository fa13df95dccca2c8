/**
 * Converter registration: a converter from a source type to a target type,
 * registered with explicit reading and writing flags (from the
 * `@ReadingConverter` / `@WritingConverter` annotations). Whether the
 * converter is used when reading from or writing to the store follows from
 * the flags and, when neither is set, from which of the two types the store
 * represents directly ("simple" types).
 *
 * The rule below, `reading || (!writing && sourceSimple)` and
 * `writing || (!reading && targetSimple)`, is a rule consistent with every
 * assertion of the unit tests; the registration class itself is not part of
 * this model.
 */
module ConverterRegistrations {

  /** A Java class, by its fully qualified name. */
  type ClassName = string

  const StringClass: ClassName := "java.lang.String"
  const ClassClass: ClassName := "java.lang.Class"
  const PersonClass: ClassName := "org.springframework.data.mongodb.core.mapping.Person"

  datatype ConverterRegistration = ConverterRegistration(source: ClassName, target: ClassName, reading: bool, writing: bool)
  {
    /** Used when reading: forced by the reading flag, or by default for a simple source type. */
    predicate IsReading(simpleTypes: set<ClassName>)
      ensures reading ==> IsReading(simpleTypes)
      ensures IsReading(simpleTypes) ==> reading || source in simpleTypes
    {
      reading || (!writing && source in simpleTypes)
    }

    /** Used when writing: forced by the writing flag, or by default for a simple target type. */
    predicate IsWriting(simpleTypes: set<ClassName>)
      ensures writing ==> IsWriting(simpleTypes)
      ensures IsWriting(simpleTypes) ==> writing || target in simpleTypes
    {
      writing || (!reading && target in simpleTypes)
    }
  }

  /** The simple-type registry the tests rely on: String and Class are simple, Person is not. */
  predicate TestSimpleTypes(simpleTypes: set<ClassName>) {
    StringClass in simpleTypes && ClassClass in simpleTypes && PersonClass !in simpleTypes
  }

  /** Person to String, no flags: a writing converter only. */
  lemma EntityToSimpleIsWriting(simpleTypes: set<ClassName>)
    requires TestSimpleTypes(simpleTypes)
    ensures ConverterRegistration(PersonClass, StringClass, false, false).IsWriting(simpleTypes)
    ensures !ConverterRegistration(PersonClass, StringClass, false, false).IsReading(simpleTypes)
  {
  }

  /** String to Person, no flags: a reading converter only. */
  lemma SimpleToEntityIsReading(simpleTypes: set<ClassName>)
    requires TestSimpleTypes(simpleTypes)
    ensures !ConverterRegistration(StringClass, PersonClass, false, false).IsWriting(simpleTypes)
    ensures ConverterRegistration(StringClass, PersonClass, false, false).IsReading(simpleTypes)
  {
  }

  /** String to Class, no flags: both simple, so both reading and writing. */
  lemma SimpleToSimpleIsBoth(simpleTypes: set<ClassName>)
    requires TestSimpleTypes(simpleTypes)
    ensures ConverterRegistration(StringClass, ClassClass, false, false).IsWriting(simpleTypes)
    ensures ConverterRegistration(StringClass, ClassClass, false, false).IsReading(simpleTypes)
  {
  }

  /** String to Class, writing flag: writing only, although both types are simple. */
  lemma ExplicitWritingForcesWriteOnly(simpleTypes: set<ClassName>)
    requires TestSimpleTypes(simpleTypes)
    ensures ConverterRegistration(StringClass, ClassClass, false, true).IsWriting(simpleTypes)
    ensures !ConverterRegistration(StringClass, ClassClass, false, true).IsReading(simpleTypes)
  {
  }

  /** String to Class, reading flag: reading only. */
  lemma ExplicitReadingForcesReadOnly(simpleTypes: set<ClassName>)
    requires TestSimpleTypes(simpleTypes)
    ensures !ConverterRegistration(StringClass, ClassClass, true, false).IsWriting(simpleTypes)
    ensures ConverterRegistration(StringClass, ClassClass, true, false).IsReading(simpleTypes)
  {
  }

  /** String to Class, both flags: reading and writing. */
  lemma BothFlagsReadAndWrite(simpleTypes: set<ClassName>)
    requires TestSimpleTypes(simpleTypes)
    ensures ConverterRegistration(StringClass, ClassClass, true, true).IsWriting(simpleTypes)
    ensures ConverterRegistration(StringClass, ClassClass, true, true).IsReading(simpleTypes)
  {
  }

  /**
   * Explicit flags win over type simplicity: with any flag set, the
   * converter reads exactly when flagged for reading and writes exactly
   * when flagged for writing, whatever the types.
   */
  lemma ExplicitFlagsDecide(r: ConverterRegistration, simpleTypes: set<ClassName>)
    requires r.reading || r.writing
    ensures r.IsReading(simpleTypes) <==> r.reading
    ensures r.IsWriting(simpleTypes) <==> r.writing
  {
  }

  /** Without flags, the directions follow the simplicity of source and target. */
  lemma DefaultsFollowSimplicity(r: ConverterRegistration, simpleTypes: set<ClassName>)
    requires !r.reading && !r.writing
    ensures r.IsReading(simpleTypes) <==> r.source in simpleTypes
    ensures r.IsWriting(simpleTypes) <==> r.target in simpleTypes
  {
  }

  /**
   * A converter is used in neither direction exactly when it carries no
   * flag and neither of its types is simple.
   */
  lemma UnusedIffNothingSimple(r: ConverterRegistration, simpleTypes: set<ClassName>)
    ensures !r.IsReading(simpleTypes) && !r.IsWriting(simpleTypes)
        <==> !r.reading && !r.writing && r.source !in simpleTypes && r.target !in simpleTypes
  {
  }
}
