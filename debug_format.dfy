/**
 * The text that the debug printer writes for a value, as a pure function of
 * the value's shape.
 *
 * The printer picks its output format at compile time from the C++ type of the
 * value. Here that choice is made explicit: each kind of type the printer
 * recognises is one constructor of `Value`, and `Render` gives the exact text
 * that the matching overload appends to the stream.
 */
module DebugFormat {
  import opened TextUtil

  /** A value handed to the printer, classified by the category its type falls in. */
  datatype Value =
    | Bool(b: bool)                          // bool
    | Char(c: char)                          // char
    | SignedChar(sc: bv8)                    // signed char, as its 8-bit pattern
    | UnsignedChar(uc: bv8)                  // unsigned char
    | Int(n: int)                            // any integer type, printed by the stream itself
    | Str(s: string)                         // std::string, std::string_view, char pointers
    | Line(elems: seq<Value>)                // std::vector (not of bool), std::deque, std::list
    | SetLike(members: seq<Value>)           // std::set and friends, in iteration order
    | MapLike(entries: seq<Entry>)           // std::map and friends, in iteration order
    | Pair(first: Value, second: Value)      // std::pair
    | Tuple(head: Value, rest: seq<Value>)   // std::tuple<T1, Ts...>: at least one element
    | Adapter(inner: Value)                  // std::queue, std::priority_queue: the container inside
    | BoolVec(bits: seq<bool>)               // std::vector<bool>
    | Array(first: Value, others: seq<Value>) // std::array<T, N>, N = 1 + |others| > 0

  /** One key/value element of a map-like container. */
  datatype Entry = Entry(key: Value, val: Value)

  /** The value a `signed char` bit pattern holds in two's complement. */
  function SignedValue(b: bv8): (v: int)
    ensures -128 <= v <= 127
    ensures (v + 256) % 256 == b as int
  {
    if b < 128 then b as int else b as int - 256
  }

  /** The characters the printer writes with a backslash, each mapped to the character after it. */
  const EscapeTable: map<char, char> :=
    map['\0' := '0', '\t' := 't', '\n' := 'n', '\r' := 'r',
        '\'' := '\'', '"' := '"', '\\' := '\\']

  /** The inverse of `EscapeTable`: the character an escape letter stands for. */
  const UnescapeTable: map<char, char> :=
    map['0' := '\0', 't' := '\t', 'n' := '\n', 'r' := '\r',
        '\'' := '\'', '"' := '"', '\\' := '\\']

  /** The text written for a `char`: single quotes around the character or its escape. */
  function CharLiteral(c: char): string {
    if c == '\0' then "'\\0'"
    else if c == '\t' then "'\\t'"
    else if c == '\n' then "'\\n'"
    else if c == '\r' then "'\\r'"
    else if c == '\'' then "'\\''"
    else if c == '"' then "'\\\"'"
    else if c == '\\' then "'\\\\'"
    else ['\'', c, '\'']
  }

  /** Reads back a character literal of the form `CharLiteral` writes; anything else is `None`. */
  function ParseCharLiteral(s: string): Option<char> {
    if |s| == 4 && s[0] == '\'' && s[1] == '\\' && s[3] == '\'' && s[2] in UnescapeTable then
      Some(UnescapeTable[s[2]])
    else if |s| == 3 && s[0] == '\'' && s[2] == '\'' && s[1] !in EscapeTable then
      Some(s[1])
    else None
  }

  /** The digits written for a `std::vector<bool>`: one `0` or `1` per element, nothing else. */
  function Bits(bits: seq<bool>): string {
    if bits == [] then ""
    else Bits(bits[..|bits| - 1]) + (if bits[|bits| - 1] then "1" else "0")
  }

  /** The text the printer appends to the stream for `v`. */
  function Render(v: Value): string
    decreases v
  {
    match v
    case Bool(b) => if b then "True" else "False"
    case Char(c) => CharLiteral(c)
    case SignedChar(b) => Decimal(SignedValue(b))
    case UnsignedChar(b) => Decimal(b as int)
    case Int(n) => Decimal(n)
    case Str(s) => "\"" + s + "\""
    case Line(xs) => "[" + Items(xs) + "]"
    case SetLike(xs) => "{" + Items(xs) + "}"
    case MapLike(es) => "{" + Entries(es) + "}"
    case Pair(a, b) => "<" + Render(a) + "," + Render(b) + ">"
    case Tuple(h, t) => "<" + Render(h) + Tail(t) + ">"
    case Adapter(c) => Render(c)
    case BoolVec(bits) => Bits(bits)
    case Array(h, t) =>
      "[" + Render(h) + (if t == [] then "" else Repeat("," + Render(t[0]), |t|)) + "]"
  }

  /** The container an adapter holds, looking through adapters stacked on adapters. */
  function Unwrapped(v: Value): (r: Value)
    ensures !r.Adapter?
    ensures !v.Adapter? ==> r == v
    decreases v
  {
    if v.Adapter? then Unwrapped(v.inner) else v
  }

  /** The elements of a container: the first one, then each later one after a comma. */
  function Items(xs: seq<Value>): string
    decreases xs
  {
    if xs == [] then "" else Render(xs[0]) + Tail(xs[1..])
  }

  /** Each element of `xs` preceded by a comma. */
  function Tail(xs: seq<Value>): string
    decreases xs
  {
    if xs == [] then ""
    else Tail(xs[..|xs| - 1]) + "," + Render(xs[|xs| - 1])
  }

  /** Extending the elements by one extends their comma-prefixed text by a comma and that element. */
  lemma TailSnoc(xs: seq<Value>, i: nat)
    requires i < |xs|
    ensures Tail(xs[..i + 1]) == Tail(xs[..i]) + "," + Render(xs[i])
  {
    assert xs[..i + 1][..i] == xs[..i];
  }

  /** A map entry: key, colon, value. */
  function EntryText(e: Entry): string
    decreases e
  {
    Render(e.key) + ":" + Render(e.val)
  }

  /** The entries of a map: the first one, then each later one after a comma. */
  function Entries(es: seq<Entry>): string
    decreases es
  {
    if es == [] then "" else EntryText(es[0]) + EntriesTail(es[1..])
  }

  /** Each entry of `es` preceded by a comma. */
  function EntriesTail(es: seq<Entry>): string
    decreases es
  {
    if es == [] then ""
    else EntriesTail(es[..|es| - 1]) + "," + EntryText(es[|es| - 1])
  }

  /** Extending the entries by one extends their comma-prefixed text by a comma and that entry. */
  lemma EntriesTailSnoc(es: seq<Entry>, i: nat)
    requires i < |es|
    ensures EntriesTail(es[..i + 1]) == EntriesTail(es[..i]) + "," + (Render(es[i].key) + ":" + Render(es[i].val))
  {
    assert es[..i + 1][..i] == es[..i];
  }

  /** What one call of the `debug` macro writes: the bracketed source text, then the arguments. */
  function DebugLine(src: string, args: seq<Value>): string {
    "[" + src + "] :" + DebugArgs(args)
  }

  /** Each argument after a single space, then the line end. */
  function DebugArgs(args: seq<Value>): string {
    if args == [] then "\n" else " " + Render(args[0]) + DebugArgs(args[1..])
  }

  /** The renderings of the elements of `xs`, in order. */
  function Renders(xs: seq<Value>): seq<string> {
    seq(|xs|, i requires 0 <= i < |xs| => Render(xs[i]))
  }

  /** The texts of the entries of `es`, in order. */
  function EntryTexts(es: seq<Entry>): seq<string> {
    seq(|es|, i requires 0 <= i < |es| => EntryText(es[i]))
  }
}
