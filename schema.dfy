/**
 * What reflection tells the command-line binder about a plugin type,
 * written out as a table: the option attributes (`OptionAttribute`,
 * `RestOptionAttribute`), the members they sit on, and the two exceptions a
 * badly declared member raises (`OptionException`, `RestOptionException`).
 * The values the binder stores into a plugin instance are also defined here.
 */
module Schema {
  import opened Wrappers

  /** The CLR types a member can have, as far as the binder distinguishes them. */
  datatype ClrType = StringType | IntType | BoolType | StringArrayType | OtherType(fullName: string)

  /** A public member of the plugin type carrying an attribute. */
  datatype Member =
    | Property(name: string, propertyType: ClrType, hasSetter: bool)
    | Field(name: string, fieldType: ClrType)
    | Method(name: string, parameters: seq<ClrType>)
  {
    function Name(): string {
      match this
      case Property(n, _, _) => n
      case Field(n, _) => n
      case Method(n, _) => n
    }
  }

  /** `[Option(required, longName, shortName = '\0', description = "")]`. */
  datatype OptionAttribute = OptionAttribute(isRequired: bool, longName: string, shortName: char, description: string)

  /** `[RestOption(name = "", description = "")]`. */
  datatype RestOptionAttribute = RestOptionAttribute(name: string, description: string)

  /**
   * A member and the attributes on it. Reflection lists properties, then
   * fields, then methods; a plugin's declaration table is in that order.
   */
  datatype Declaration = Declaration(member: Member, option: Option<OptionAttribute>, rest: Option<RestOptionAttribute>)

  /** Why a declaration is refused (the message of the exception). */
  datatype Reason =
    | NoSetter(member: string)
    | UnsupportedType(member: string, clrType: ClrType)
    | TooManyParameters(member: string)
    | UnsupportedParameterType(member: string, clrType: ClrType)

  /** `OptionException` and its subclass `RestOptionException`. */
  datatype OptionError =
    | OptionException(option: OptionAttribute, reason: Reason)
    | RestOptionException(rest: RestOptionAttribute, reason: Reason)

  /** A value the binder stores in a plugin's property or field, or passes to its method. */
  datatype SlotValue = Str(s: string) | Int(i: int) | Bool(b: bool) | StrList(items: seq<string>)

  /** An option method invoked by the binder, with its argument list. */
  datatype Call = Call(methodName: string, args: seq<SlotValue>)
}
