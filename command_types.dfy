/** The two integer tables of src/types.rs: `ApplicationCommandOptionType::as_u8`
    (src/types.rs:1459-1488) and `ApplicationCommandType::as_u8` (src/types.rs:1511-1524),
    which give the numbers Discord uses for an application command's option types and
    command types. */
module CommandTypes {
  import opened Wrappers
  import opened Json

  datatype OptionType =
    | SubCommand | SubCommandGroup | String | Integer | Boolean | User | Channel | Role
    | Mentionable | Number | Attachment

  /** `ApplicationCommandOptionType::as_u8`: the discriminant declared for each type. */
  function OptionTypeAsU8(t: OptionType): (r: byte)
    ensures 1 <= r <= 11
  {
    match t
    case SubCommand => 1
    case SubCommandGroup => 2
    case String => 3
    case Integer => 4
    case Boolean => 5
    case User => 6
    case Channel => 7
    case Role => 8
    case Mentionable => 9
    case Number => 10
    case Attachment => 11
  }

  /** The option type a number stands for, if any. */
  function OptionTypeFromU8(n: byte): (r: Option<OptionType>)
    ensures r.Some? <==> 1 <= n <= 11
  {
    match n
    case 1 => Some(SubCommand)
    case 2 => Some(SubCommandGroup)
    case 3 => Some(String)
    case 4 => Some(Integer)
    case 5 => Some(Boolean)
    case 6 => Some(User)
    case 7 => Some(Channel)
    case 8 => Some(Role)
    case 9 => Some(Mentionable)
    case 10 => Some(Number)
    case 11 => Some(Attachment)
    case _ => None
  }

  /** Every option type is recovered from its number, and every number 1..11 is the
      number of the option type it names: the table is a bijection onto 1..11. */
  lemma OptionTypeRoundTrip(t: OptionType, n: byte)
    ensures OptionTypeFromU8(OptionTypeAsU8(t)) == Some(t)
    ensures OptionTypeFromU8(n).Some? ==> OptionTypeAsU8(OptionTypeFromU8(n).value) == n
  {
  }

  /** Distinct option types have distinct numbers. */
  lemma OptionTypeAsU8Injective(a: OptionType, b: OptionType)
    requires OptionTypeAsU8(a) == OptionTypeAsU8(b)
    ensures a == b
  {
    OptionTypeRoundTrip(a, 0);
    OptionTypeRoundTrip(b, 0);
  }

  datatype CommandType = ChatInput | UserCommand | MessageCommand

  /** `ApplicationCommandType::as_u8`. */
  function CommandTypeAsU8(t: CommandType): (r: byte)
    ensures 1 <= r <= 3
  {
    match t
    case ChatInput => 1
    case UserCommand => 2
    case MessageCommand => 3
  }

  function CommandTypeFromU8(n: byte): (r: Option<CommandType>)
    ensures r.Some? <==> 1 <= n <= 3
  {
    match n
    case 1 => Some(ChatInput)
    case 2 => Some(UserCommand)
    case 3 => Some(MessageCommand)
    case _ => None
  }

  /** The command-type table is a bijection onto 1..3. */
  lemma CommandTypeRoundTrip(t: CommandType, n: byte)
    ensures CommandTypeFromU8(CommandTypeAsU8(t)) == Some(t)
    ensures CommandTypeFromU8(n).Some? ==> CommandTypeAsU8(CommandTypeFromU8(n).value) == n
  {
  }

  lemma CommandTypeAsU8Injective(a: CommandType, b: CommandType)
    requires CommandTypeAsU8(a) == CommandTypeAsU8(b)
    ensures a == b
  {
    CommandTypeRoundTrip(a, 0);
    CommandTypeRoundTrip(b, 0);
  }
}
