/** JSON text as the programs of the server write it: escaping (section 7 of RFC 8259), numbers, flat
    objects and arrays of them. */
module JsonText {
  // ---------------------------------------------------------------- values

  /** One character of `json_escape`. */
  function EscapeChar(c: char): string {
    if c == '"' then "\\\"" else if c == '\\' then "\\\\"
    else if c == '\U{8}' then "\\b" else if c == '\U{c}' then "\\f"
    else if c == '\n' then "\\n" else if c == '\r' then "\\r" else if c == '\t' then "\\t"
    else [c]
  }

  function Escape(s: string): string {
    if s == "" then "" else EscapeChar(s[0]) + Escape(s[1..])
  }

  function Digits(n: nat): string {
    if n < 10 then [('0' as int + n) as char] else Digits(n / 10) + [('0' as int + n % 10) as char]
  }

  /** `std::to_string`. */
  function Number(n: int): string {
    if n < 0 then "-" + Digits(-n) else Digits(n)
  }

  datatype Value = Text(s: string) | Int(n: int)

  datatype Member = Member(key: string, value: Value)

  type Object = seq<Member>

  /** A value, and the text printed after it. */
  function ValueThen(v: Value, more: string): string {
    match v
    case Text(s) => "\"" + (Escape(s) + ("\"" + more))
    case Int(n) => Number(n) + more
  }

  /** `gap` is what the writer puts after the colon: nothing in the client's builders, a space in the
      server's output. */
  function MemberThen(m: Member, gap: string, more: string): string {
    "\"" + (m.key + ("\"" + (":" + gap + ValueThen(m.value, more))))
  }

  function Tail(o: Object, gap: string): string {
    if o == [] then "}" else ", " + MemberThen(o[0], gap, Tail(o[1..], gap))
  }

  function Print(o: Object, gap: string): string {
    if o == [] then "{}" else "{" + MemberThen(o[0], gap, Tail(o[1..], gap))
  }

  // ---------------------------------------------------------------- arrays

  function Wrap(body: string): string { "{" + (body + "}") }

  function More(bodies: seq<string>): string {
    if bodies == [] then "]" else ", " + ("{" + (bodies[0] + ("}" + More(bodies[1..]))))
  }

  /** A JSON array of objects as `json_dumps` lays it out. */
  function ArrayText(bodies: seq<string>): string {
    if bodies == [] then "[]" else "[" + ("{" + (bodies[0] + ("}" + More(bodies[1..]))))
  }
}
