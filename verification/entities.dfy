/** The domain records the two forms edit, and the platform conversions the
    forms call but whose code is not part of this model. */
module Entities {
  import opened Wrappers

  /** `java.util.Date`: an instant, as milliseconds since the epoch. */
  datatype Date = Date(epochMillis: int)

  /** `java.time.LocalDate`, the value a date picker holds. */
  datatype LocalDate = LocalDate(year: int, month: int, day: int)

  /** A boxed `java.lang.Double`, kept as its IEEE 754 bit pattern: the forms
      copy salaries around but never compute with them. */
  datatype Double = Double(bits: bv64)

  /** `model.entities.Department`. Every field of a Java entity may be null. */
  datatype Department = Department(id: Option<int>, name: Option<string>)

  /** `model.entities.Seller`. The department is the very object the combo
      box held, not a copy. */
  datatype Seller = Seller(
    id: Option<int>,
    name: Option<string>,
    email: Option<string>,
    birthDate: Option<Date>,
    baseSalary: Option<Double>,
    department: Option<Department>)

  /** The conversions the controllers delegate to helpers outside this model
      (`Utils.tryParseToInt`, `Utils.tryParseToDouble`, the system time zone,
      number formatting). They are parameters, so every property proved below
      holds whatever these helpers do, unless a lemma states a hypothesis
      about them. */
  datatype Platform = Platform(
    tryParseToInt: Option<string> -> Option<int>,
    tryParseToDouble: Option<string> -> Option<Double>,
    startOfDay: LocalDate -> Date,
    toLocalDate: Date -> LocalDate,
    intToString: int -> string,
    formatSalary: Option<Double> -> string)

  /** `String.valueOf` applied to a boxed `Integer`: a null id is shown as the
      four letters "null". */
  function ValueOf(p: Platform, id: Option<int>): string {
    match id
    case None => "null"
    case Some(n) => p.intToString(n)
  }
}
